/** What holds in every state a game reaches from construction through any sequence of
    ticks (game.js:5-76), whatever keys are held and whatever the random draws are. */
module PongInvariant {
  import opened PongRules

  /** The depth speeds a rally can have: a serve gives +-0.05, a catch at the player's
      line turns 0.04 or 0.05 into -0.05 or -0.06, and a catch at the AI's line turns
      -0.05 or -0.06 back into 0.04 or 0.05. */
  predicate RallySpeed(vz: real) {
    vz == -0.06 || vz == -0.05 || vz == 0.04 || vz == 0.05
  }

  predicate Inv(s: State) {
    s.playerScore < MATCH_POINT && s.aiScore < MATCH_POINT &&
    s.aiDifficulty == 0.2 + DIFFICULTY_STEP * (s.playerScore as real) &&
    s.speedIncreasement == 0.01 &&
    InPaddleRange(s.playerPosition) && s.playerPosition.z == BOX_LIMITS.front &&
    InPaddleRange(s.aiPosition) && s.aiPosition.z == BOX_LIMITS.back &&
    InBallRange(s.ballPosition) &&
    -0.1 <= s.ballVelocity.x <= 0.1 && -0.1 <= s.ballVelocity.y <= 0.1 &&
    RallySpeed(s.ballVelocity.z)
  }

  /** The inputs one call of `update` consumes. */
  datatype TickInput = TickInput(keys: set<int>, missServe: Serve, aiSample: real, resetServe: Serve)

  predicate ValidInput(t: TickInput) {
    ValidServe(t.missServe) && ValidServe(t.resetServe)
  }

  /** The state after running `update` once per input, in order. */
  function Run(s: State, inputs: seq<TickInput>): State
    requires forall i | 0 <= i < |inputs| :: ValidInput(inputs[i])
    decreases |inputs|
  {
    if inputs == [] then s
    else
      var t := inputs[0];
      assert ValidInput(inputs[0]);
      Run(Tick(s, t.keys, t.missServe, t.aiSample, t.resetServe), inputs[1..])
  }

  lemma InitialKeepsInv(serve: Serve)
    requires ValidServe(serve)
    ensures Inv(Initial(serve))
  {
  }

  lemma ServeKeepsInv(s: State, serve: Serve)
    requires ValidServe(serve)
    ensures var v := ServeVelocity(s.playerScore, s.aiScore, serve);
      -0.1 <= v.x <= 0.1 && -0.1 <= v.y <= 0.1 && RallySpeed(v.z)
  {
  }

  /** The ball's depth velocity has the sign that points at the line it can reach: a
      ball in range moving toward the AI cannot reach the player's line and vice versa. */
  lemma BallMovedKeepsInv(s: State, serve: Serve)
    requires ValidServe(serve) && Inv(s)
    ensures var r := BallMoved(s, serve);
      r.aiDifficulty == 0.2 + DIFFICULTY_STEP * (r.playerScore as real) &&
      -0.1 <= r.ballVelocity.x <= 0.1 && -0.1 <= r.ballVelocity.y <= 0.1 &&
      RallySpeed(r.ballVelocity.z)
  {
  }

  /** One `update` keeps the invariant, except that a score of 7 may become 8 and be
      reset in the same tick. */
  lemma TickKeepsInv(s: State, keys: set<int>, missServe: Serve, aiSample: real, resetServe: Serve)
    requires ValidServe(missServe) && ValidServe(resetServe) && Inv(s)
    ensures Inv(Tick(s, keys, missServe, aiSample, resetServe))
  {
  }

  /** Every state reached from a valid state by any number of ticks is valid. */
  lemma {:induction false} RunKeepsInv(s: State, inputs: seq<TickInput>)
    requires forall i | 0 <= i < |inputs| :: ValidInput(inputs[i])
    requires Inv(s)
    ensures Inv(Run(s, inputs))
    decreases |inputs|
  {
    if inputs != [] {
      var t := inputs[0];
      TickKeepsInv(s, t.keys, t.missServe, t.aiSample, t.resetServe);
      RunKeepsInv(Tick(s, t.keys, t.missServe, t.aiSample, t.resetServe), inputs[1..]);
    }
  }

  /** Consequences for any game from construction: no score is ever seen at 8, the AI
      reaction probability stays in [0.2, 0.55], and the rally never speeds up past
      0.06 nor slows below 0.04 per tick in depth. */
  lemma {:induction false} ReachableBounds(serve: Serve, inputs: seq<TickInput>)
    requires ValidServe(serve)
    requires forall i | 0 <= i < |inputs| :: ValidInput(inputs[i])
    ensures var r := Run(Initial(serve), inputs);
      r.playerScore <= 7 && r.aiScore <= 7 &&
      0.2 <= r.aiDifficulty <= 0.55 &&
      0.04 <= Abs(r.ballVelocity.z) <= 0.06 &&
      InBallRange(r.ballPosition) && InPaddleRange(r.playerPosition) && InPaddleRange(r.aiPosition)
  {
    InitialKeepsInv(serve);
    RunKeepsInv(Initial(serve), inputs);
  }
}
