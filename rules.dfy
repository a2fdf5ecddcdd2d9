/** The rules of one tick of the game in game.js, as functions over plain values.
    The class in module PongGame runs these rules by updating its fields, and its
    methods are proved to agree with the functions here. Coordinates are exact reals:
    the repeated 0.1, 0.05 and 0.01 steps do not accumulate floating-point error. */
module PongRules {
  import Input

  datatype Vec3 = Vec3(x: real, y: real, z: real)

  const Origin: Vec3 := Vec3(0.0, 0.0, 0.0)

  /** The six walls of the play volume (game.js:7-14). */
  datatype Limits = Limits(top: real, bottom: real, front: real, back: real, left: real, right: real)

  const BOX_LIMITS: Limits := Limits(5.0, -5.0, 10.0, -10.0, -5.0, 5.0)

  /** How far a paddle's centre stays from a side wall, and a ball's centre from any wall. */
  const PADDLE_MARGIN: real := 0.5
  const BALL_MARGIN: real := 0.125

  /** Per-tick paddle step, serve depth speed and AI difficulty raise. */
  const PADDLE_STEP: real := 0.1
  const SERVE_SPEED: real := 0.05
  const DIFFICULTY_STEP: real := 0.05

  /** The score that ends a match. */
  const MATCH_POINT: nat := 8

  /** The whole mutable state of a game (game.js:16-28). */
  datatype State = State(
    isPaused: bool,
    playerScore: nat,
    playerPosition: Vec3,
    aiScore: nat,
    aiPosition: Vec3,
    aiDifficulty: real,
    ballPosition: Vec3,
    ballVelocity: Vec3,
    speedIncreasement: real)

  /** Three draws of `Math.random()` taken by one serve. */
  datatype Serve = Serve(vx: real, vy: real, vz: real)

  predicate IsSample(r: real) {
    0.0 <= r < 1.0
  }

  /** What `Math.random()` can return for a serve; a zero sum would divide by zero. */
  predicate ValidServe(serve: Serve) {
    IsSample(serve.vx) && IsSample(serve.vy) && IsSample(serve.vz) &&
    serve.vx + serve.vy + serve.vz > 0.0
  }

  function Abs(r: real): real {
    if r < 0.0 then -r else r
  }

  function Min(a: real, b: real): real {
    if a <= b then a else b
  }

  function Max(a: real, b: real): real {
    if a >= b then a else b
  }

  /** A paddle centre that keeps the paddle inside the side walls. */
  predicate InPaddleRange(p: Vec3) {
    BOX_LIMITS.left + PADDLE_MARGIN <= p.x <= BOX_LIMITS.right - PADDLE_MARGIN &&
    BOX_LIMITS.bottom + PADDLE_MARGIN <= p.y <= BOX_LIMITS.top - PADDLE_MARGIN
  }

  /** A ball centre that keeps the ball inside every wall. */
  predicate InBallRange(b: Vec3) {
    BOX_LIMITS.left + BALL_MARGIN <= b.x <= BOX_LIMITS.right - BALL_MARGIN &&
    BOX_LIMITS.bottom + BALL_MARGIN <= b.y <= BOX_LIMITS.top - BALL_MARGIN &&
    BOX_LIMITS.back + BALL_MARGIN <= b.z <= BOX_LIMITS.front - BALL_MARGIN
  }

  // ---------------------------------------------------------------- serve

  /** The velocity of a new serve (game.js:39-48): the two lateral components are the
      first two samples divided by the sum of all three and by 10; the depth component
      heads for the player (+z) only when the player leads. */
  function ServeVelocity(playerScore: int, aiScore: int, serve: Serve): (v: Vec3)
    requires ValidServe(serve)
    ensures 0.0 <= v.x && 0.0 <= v.y && v.x + v.y <= 0.1
    ensures v.x * serve.vy == v.y * serve.vx
    ensures v.z == SERVE_SPEED <==> playerScore > aiScore
    ensures v.z == -SERVE_SPEED <==> playerScore <= aiScore
  {
    var norm := serve.vx + serve.vy + serve.vz;
    Vec3(serve.vx / norm / 10.0, serve.vy / norm / 10.0,
         if playerScore > aiScore then SERVE_SPEED else -SERVE_SPEED)
  }

  /** `restartBall` (game.js:37-49): the ball returns to the origin with a fresh serve
      decided on the current scores; nothing else changes. */
  function Restarted(s: State, serve: Serve): (r: State)
    requires ValidServe(serve)
    ensures r.ballPosition == Origin
    ensures 0.0 <= r.ballVelocity.x && 0.0 <= r.ballVelocity.y && r.ballVelocity.x + r.ballVelocity.y <= 0.1
    ensures r.ballVelocity.z == if s.playerScore > s.aiScore then SERVE_SPEED else -SERVE_SPEED
    ensures r.(ballPosition := s.ballPosition, ballVelocity := s.ballVelocity) == s
  {
    s.(ballPosition := Origin, ballVelocity := ServeVelocity(s.playerScore, s.aiScore, serve))
  }

  /** The state built by the constructor (game.js:16-30) and by the match reset
      (game.js:59-73): both set the same values and then serve at a 0-0 score. */
  function Initial(serve: Serve): (r: State)
    requires ValidServe(serve)
    ensures !r.isPaused && r.playerScore == 0 && r.aiScore == 0
    ensures r.playerPosition == Vec3(0.0, 0.0, BOX_LIMITS.front)
    ensures r.aiPosition == Vec3(0.0, 0.0, BOX_LIMITS.back)
    ensures r.aiDifficulty == 0.2 && r.speedIncreasement == 0.01
    ensures r.ballPosition == Origin && r.ballVelocity.z == -SERVE_SPEED
    ensures r.ballVelocity == ServeVelocity(0, 0, serve)
  {
    Restarted(State(false, 0, Vec3(0.0, 0.0, 10.0), 0, Vec3(0.0, 0.0, -10.0), 0.2,
                    Origin, Origin, 0.01), serve)
  }

  // ---------------------------------------------------------------- player

  /** Whether either of the two keys bound to one direction is held. */
  predicate Held(keys: set<int>, primary: int, alternate: int) {
    primary in keys || alternate in keys
  }

  /** Moving one coordinate one step toward `hi`, or one step toward `lo`, ends in
      [lo, hi], moves at most one step, and stops short of a full step only at the wall. */
  predicate StepsUp(from: real, to: real, hi: real) {
    from <= to <= from + PADDLE_STEP && (to == from + PADDLE_STEP || to == hi)
  }

  predicate StepsDown(from: real, to: real, lo: real) {
    from - PADDLE_STEP <= to <= from && (to == from - PADDLE_STEP || to == lo)
  }

  /** `movePlayer` (game.js:78-87): up/W, then down/S, then left/A, then right/D, each a
      0.1 step clamped 0.5 inside its wall. The depth coordinate is never touched. */
  function PlayerMoved(p: Vec3, keys: set<int>): (r: Vec3)
    ensures r.z == p.z
    ensures !Held(keys, Input.UP, Input.W) && !Held(keys, Input.DOWN, Input.S) ==> r.y == p.y
    ensures !Held(keys, Input.LEFT, Input.A) && !Held(keys, Input.RIGHT, Input.D) ==> r.x == p.x
    ensures InPaddleRange(p) ==> InPaddleRange(r)
    ensures InPaddleRange(p) ==> Abs(r.x - p.x) <= PADDLE_STEP && Abs(r.y - p.y) <= PADDLE_STEP
    ensures InPaddleRange(p) && Held(keys, Input.UP, Input.W) && !Held(keys, Input.DOWN, Input.S) ==>
              StepsUp(p.y, r.y, BOX_LIMITS.top - PADDLE_MARGIN)
    ensures InPaddleRange(p) && !Held(keys, Input.UP, Input.W) && Held(keys, Input.DOWN, Input.S) ==>
              StepsDown(p.y, r.y, BOX_LIMITS.bottom + PADDLE_MARGIN)
    ensures InPaddleRange(p) && Held(keys, Input.LEFT, Input.A) && !Held(keys, Input.RIGHT, Input.D) ==>
              StepsDown(p.x, r.x, BOX_LIMITS.left + PADDLE_MARGIN)
    ensures InPaddleRange(p) && !Held(keys, Input.LEFT, Input.A) && Held(keys, Input.RIGHT, Input.D) ==>
              StepsUp(p.x, r.x, BOX_LIMITS.right - PADDLE_MARGIN)
  {
    var y1 := if Held(keys, Input.UP, Input.W) then Min(p.y + PADDLE_STEP, BOX_LIMITS.top - PADDLE_MARGIN) else p.y;
    var y2 := if Held(keys, Input.DOWN, Input.S) then Max(y1 - PADDLE_STEP, BOX_LIMITS.bottom + PADDLE_MARGIN) else y1;
    var x1 := if Held(keys, Input.LEFT, Input.A) then Max(p.x - PADDLE_STEP, BOX_LIMITS.left + PADDLE_MARGIN) else p.x;
    var x2 := if Held(keys, Input.RIGHT, Input.D) then Min(x1 + PADDLE_STEP, BOX_LIMITS.right - PADDLE_MARGIN) else x1;
    Vec3(x2, y2, p.z)
  }

  /** Because up is applied before down, holding both at the top wall moves the paddle
      down by one step instead of leaving it in place. */
  lemma OpposingKeysAtTopWall(p: Vec3, keys: set<int>)
    requires p.y == BOX_LIMITS.top - PADDLE_MARGIN
    requires Held(keys, Input.UP, Input.W) && Held(keys, Input.DOWN, Input.S)
    ensures PlayerMoved(p, keys).y == p.y - PADDLE_STEP
  {
  }

  /** Away from the wall the first key of a pair acts on, holding both keys of that
      pair leaves the paddle where it is on that axis: the second step undoes the first. */
  lemma OpposingKeysCancel(p: Vec3, keys: set<int>)
    requires InPaddleRange(p)
    ensures (Held(keys, Input.UP, Input.W) && Held(keys, Input.DOWN, Input.S) &&
             p.y <= BOX_LIMITS.top - PADDLE_MARGIN - PADDLE_STEP) ==> PlayerMoved(p, keys).y == p.y
    ensures (Held(keys, Input.LEFT, Input.A) && Held(keys, Input.RIGHT, Input.D) &&
             p.x >= BOX_LIMITS.left + PADDLE_MARGIN + PADDLE_STEP) ==> PlayerMoved(p, keys).x == p.x
  {
  }

  // ---------------------------------------------------------------- AI

  /** One AI axis: a 0.1 step toward the ball's coordinate, clamped 0.5 inside the walls. */
  function Pursue(from: real, target: real, lo: real, hi: real): real {
    if target > from then Min(from + PADDLE_STEP, hi)
    else if target < from then Max(from - PADDLE_STEP, lo)
    else from
  }

  /** `moveAI` (game.js:89-103): with a sample below the difficulty the paddle steps
      toward the ball on each axis independently; otherwise it holds still. */
  function AiMoved(ai: Vec3, ball: Vec3, aiDifficulty: real, probability: real): (r: Vec3)
    ensures probability >= aiDifficulty ==> r == ai
    ensures r.z == ai.z
    ensures ball.x == ai.x ==> r.x == ai.x
    ensures ball.y == ai.y ==> r.y == ai.y
    ensures InPaddleRange(ai) ==> InPaddleRange(r)
    ensures InPaddleRange(ai) && probability < aiDifficulty ==>
              (ball.x > ai.x ==> StepsUp(ai.x, r.x, BOX_LIMITS.right - PADDLE_MARGIN)) &&
              (ball.x < ai.x ==> StepsDown(ai.x, r.x, BOX_LIMITS.left + PADDLE_MARGIN)) &&
              (ball.y > ai.y ==> StepsUp(ai.y, r.y, BOX_LIMITS.top - PADDLE_MARGIN)) &&
              (ball.y < ai.y ==> StepsDown(ai.y, r.y, BOX_LIMITS.bottom + PADDLE_MARGIN))
  {
    if probability < aiDifficulty then
      Vec3(Pursue(ai.x, ball.x, BOX_LIMITS.left + PADDLE_MARGIN, BOX_LIMITS.right - PADDLE_MARGIN),
           Pursue(ai.y, ball.y, BOX_LIMITS.bottom + PADDLE_MARGIN, BOX_LIMITS.top - PADDLE_MARGIN),
           ai.z)
    else ai
  }

  // ---------------------------------------------------------------- ball

  /** `vec3.add`: the position the ball would reach this tick without any collision. */
  function Tentative(s: State): Vec3 {
    Vec3(s.ballPosition.x + s.ballVelocity.x,
         s.ballPosition.y + s.ballVelocity.y,
         s.ballPosition.z + s.ballVelocity.z)
  }

  /** One side-wall pair: a coordinate at or past the high wall, or at or past the low
      wall, is put back on that wall and its velocity component is negated. */
  function Bounce(c: real, v: real, lo: real, hi: real): (r: (real, real))
    requires lo < hi
    ensures lo <= r.0 <= hi
    ensures r.0 == Max(lo, Min(c, hi))
    ensures lo < c < hi ==> r == (c, v)
    ensures !(lo < c < hi) ==> r.1 == -v && (r.0 == lo || r.0 == hi)
  {
    if c >= hi then (hi, -v)
    else if c <= lo then (lo, -v)
    else (c, v)
  }

  /** The catch test of game.js:131-135 and 147-151. It compares the distances of ball and
      paddle from the centre line, not the distance between them. */
  predicate Caught(ball: Vec3, paddle: Vec3) {
    Abs(Abs(ball.x) - Abs(paddle.x)) <= PADDLE_MARGIN &&
    Abs(Abs(ball.y) - Abs(paddle.y)) <= PADDLE_MARGIN
  }

  /** The ball's depth coordinate reaches the player's goal line, or the AI's. */
  predicate AtFront(z: real) { z >= BOX_LIMITS.front - BALL_MARGIN }
  predicate AtBack(z: real) { z <= BOX_LIMITS.back + BALL_MARGIN }

  /** The side and top/bottom wall handling of game.js:109-127 on the tentative position:
      the ball's position after the walls and its velocity after the walls. */
  function WallsAt(t: Vec3, v: Vec3): (r: (Vec3, Vec3))
    ensures r.0.z == t.z && r.1.z == v.z
    ensures BOX_LIMITS.left + BALL_MARGIN <= r.0.x <= BOX_LIMITS.right - BALL_MARGIN
    ensures BOX_LIMITS.bottom + BALL_MARGIN <= r.0.y <= BOX_LIMITS.top - BALL_MARGIN
    ensures r.0.x == Max(BOX_LIMITS.left + BALL_MARGIN, Min(t.x, BOX_LIMITS.right - BALL_MARGIN))
    ensures r.0.y == Max(BOX_LIMITS.bottom + BALL_MARGIN, Min(t.y, BOX_LIMITS.top - BALL_MARGIN))
    ensures r.1.x == if BOX_LIMITS.left + BALL_MARGIN < t.x < BOX_LIMITS.right - BALL_MARGIN then v.x else -v.x
    ensures r.1.y == if BOX_LIMITS.bottom + BALL_MARGIN < t.y < BOX_LIMITS.top - BALL_MARGIN then v.y else -v.y
  {
    var (px, vx) := Bounce(t.x, v.x, BOX_LIMITS.left + BALL_MARGIN, BOX_LIMITS.right - BALL_MARGIN);
    var (py, vy) := Bounce(t.y, v.y, BOX_LIMITS.bottom + BALL_MARGIN, BOX_LIMITS.top - BALL_MARGIN);
    (Vec3(px, py, t.z), Vec3(vx, vy, v.z))
  }

  function Walls(s: State): (Vec3, Vec3) {
    WallsAt(Tentative(s), s.ballVelocity)
  }

  /** `moveBall` (game.js:105-164): side walls, then top/bottom walls, then the goal line
      the ball reaches, where the paddle either returns the ball or concedes a point. */
  function BallMoved(s: State, serve: Serve): (r: State)
    requires ValidServe(serve)
    ensures InBallRange(r.ballPosition)
    ensures r.isPaused == s.isPaused && r.speedIncreasement == s.speedIncreasement
    ensures r.playerPosition == s.playerPosition && r.aiPosition == s.aiPosition
    ensures r.playerScore >= s.playerScore && r.aiScore >= s.aiScore
    ensures r.playerScore + r.aiScore <= s.playerScore + s.aiScore + 1
    ensures r.aiDifficulty == if r.playerScore == s.playerScore then s.aiDifficulty
                             else s.aiDifficulty + DIFFICULTY_STEP
    ensures r.playerScore + r.aiScore != s.playerScore + s.aiScore ==>
              r.ballPosition == Origin &&
              r.ballVelocity == ServeVelocity(s.playerScore, s.aiScore, serve)
  {
    var (p, v) := Walls(s);
    if AtFront(p.z) then
      if Caught(p, s.playerPosition) then
        s.(ballPosition := p.(z := BOX_LIMITS.front - BALL_MARGIN),
           ballVelocity := v.(z := -v.z - s.speedIncreasement))
      else
        var served := Restarted(s, serve);
        served.(aiScore := served.aiScore + 1)
    else if AtBack(p.z) then
      if Caught(p, s.aiPosition) then
        s.(ballPosition := p.(z := BOX_LIMITS.back + BALL_MARGIN),
           ballVelocity := v.(z := -v.z - s.speedIncreasement))
      else
        var served := Restarted(s, serve);
        served.(playerScore := served.playerScore + 1,
                aiDifficulty := served.aiDifficulty + DIFFICULTY_STEP)
    else
      s.(ballPosition := p, ballVelocity := v)
  }

  /** Unless a point is scored, the x wall negates exactly the x velocity and the y wall
      exactly the y velocity, each decided on its own tentative coordinate. */
  lemma WallsNegateOwnAxis(s: State, serve: Serve)
    requires ValidServe(serve)
    requires BallMoved(s, serve).playerScore == s.playerScore
    requires BallMoved(s, serve).aiScore == s.aiScore
    ensures var t, v, r := Tentative(s), s.ballVelocity, BallMoved(s, serve).ballVelocity;
      r.x == (if BOX_LIMITS.left + BALL_MARGIN < t.x < BOX_LIMITS.right - BALL_MARGIN then v.x else -v.x) &&
      r.y == (if BOX_LIMITS.bottom + BALL_MARGIN < t.y < BOX_LIMITS.top - BALL_MARGIN then v.y else -v.y)
  {
  }

  /** A tick that reaches neither goal line moves the ball to its tentative position,
      clamped onto any side or top/bottom wall it reached; depth and depth velocity
      follow the tentative move, and no score changes. */
  lemma NoGoalLine(s: State, serve: Serve)
    requires ValidServe(serve)
    requires !AtFront(Tentative(s).z) && !AtBack(Tentative(s).z)
    ensures var t, r := Tentative(s), BallMoved(s, serve);
      r.ballPosition == Vec3(Max(BOX_LIMITS.left + BALL_MARGIN, Min(t.x, BOX_LIMITS.right - BALL_MARGIN)),
                             Max(BOX_LIMITS.bottom + BALL_MARGIN, Min(t.y, BOX_LIMITS.top - BALL_MARGIN)),
                             t.z) &&
      r.ballVelocity.z == s.ballVelocity.z &&
      r.playerScore == s.playerScore && r.aiScore == s.aiScore && r.aiDifficulty == s.aiDifficulty
  {
  }

  /** Away from every wall the ball simply advances by its velocity and nothing else
      changes. */
  lemma FreeFlight(s: State, serve: Serve)
    requires ValidServe(serve)
    requires var t := Tentative(s);
      BOX_LIMITS.left + BALL_MARGIN < t.x < BOX_LIMITS.right - BALL_MARGIN &&
      BOX_LIMITS.bottom + BALL_MARGIN < t.y < BOX_LIMITS.top - BALL_MARGIN &&
      BOX_LIMITS.back + BALL_MARGIN < t.z < BOX_LIMITS.front - BALL_MARGIN
    ensures BallMoved(s, serve) == s.(ballPosition := Tentative(s))
  {
  }

  /** A catch at the player's goal line puts the ball on the line and reverses its depth
      velocity; a ball that was moving toward the player comes back faster by exactly
      the speed increment. Scores and difficulty do not change. */
  lemma FrontCatch(s: State, serve: Serve)
    requires ValidServe(serve)
    requires AtFront(Tentative(s).z) && Caught(Walls(s).0, s.playerPosition)
    ensures var r := BallMoved(s, serve);
      r.ballPosition == Walls(s).0.(z := BOX_LIMITS.front - BALL_MARGIN) &&
      r.ballVelocity.x == Walls(s).1.x && r.ballVelocity.y == Walls(s).1.y &&
      r.ballVelocity.z == -s.ballVelocity.z - s.speedIncreasement &&
      r.playerScore == s.playerScore && r.aiScore == s.aiScore &&
      r.aiDifficulty == s.aiDifficulty &&
      (s.ballVelocity.z >= 0.0 && s.speedIncreasement >= 0.0 ==>
         Abs(r.ballVelocity.z) == Abs(s.ballVelocity.z) + s.speedIncreasement)
  {
  }

  /** A catch at the AI's goal line uses the same formula, so a ball moving toward the
      AI faster than the increment comes back SLOWER by exactly the speed increment. */
  lemma BackCatch(s: State, serve: Serve)
    requires ValidServe(serve)
    requires AtBack(Tentative(s).z) && Caught(Walls(s).0, s.aiPosition)
    ensures var r := BallMoved(s, serve);
      r.ballPosition == Walls(s).0.(z := BOX_LIMITS.back + BALL_MARGIN) &&
      r.ballVelocity.x == Walls(s).1.x && r.ballVelocity.y == Walls(s).1.y &&
      r.ballVelocity.z == -s.ballVelocity.z - s.speedIncreasement &&
      r.playerScore == s.playerScore && r.aiScore == s.aiScore &&
      r.aiDifficulty == s.aiDifficulty &&
      (s.ballVelocity.z <= -s.speedIncreasement && s.speedIncreasement >= 0.0 ==>
         Abs(r.ballVelocity.z) == Abs(s.ballVelocity.z) - s.speedIncreasement)
  {
  }

  /** A miss at the player's goal line gives the AI one point and re-serves from the
      origin, with the serve direction decided on the scores before the point. */
  lemma FrontMiss(s: State, serve: Serve)
    requires ValidServe(serve)
    requires AtFront(Tentative(s).z) && !Caught(Walls(s).0, s.playerPosition)
    ensures var r := BallMoved(s, serve);
      r.aiScore == s.aiScore + 1 && r.playerScore == s.playerScore &&
      r.aiDifficulty == s.aiDifficulty &&
      r.ballPosition == Origin &&
      r.ballVelocity == ServeVelocity(s.playerScore, s.aiScore, serve)
  {
  }

  /** A miss at the AI's goal line gives the player one point, raises the AI difficulty
      by 0.05 and re-serves from the origin on the scores before the point. */
  lemma BackMiss(s: State, serve: Serve)
    requires ValidServe(serve)
    requires AtBack(Tentative(s).z) && !Caught(Walls(s).0, s.aiPosition)
    ensures var r := BallMoved(s, serve);
      r.playerScore == s.playerScore + 1 && r.aiScore == s.aiScore &&
      r.aiDifficulty == s.aiDifficulty + DIFFICULTY_STEP &&
      r.ballPosition == Origin &&
      r.ballVelocity == ServeVelocity(s.playerScore, s.aiScore, serve)
  {
  }

  /** Serving on the scores before the point matters: at 1-1 an AI miss serves toward
      the AI (-z), although the player leads 2-1 once the point is counted. */
  lemma ServeUsesScoresBeforePoint(s: State, serve: Serve)
    requires ValidServe(serve)
    requires s.playerScore == 1 && s.aiScore == 1
    requires AtBack(Tentative(s).z) && !Caught(Walls(s).0, s.aiPosition)
    ensures BallMoved(s, serve).playerScore > BallMoved(s, serve).aiScore
    ensures BallMoved(s, serve).ballVelocity.z == -SERVE_SPEED
  {
  }

  /** A ball about to cross the player's line dead centre in front of a home paddle is
      returned: its depth speed 0.06 becomes -0.07 at the start of a match. */
  lemma CatchAtHomePaddle(serve: Serve)
    requires ValidServe(serve)
    ensures var s := Initial(serve).(ballPosition := Vec3(0.0, 0.0, 9.9), ballVelocity := Vec3(0.0, 0.0, 0.06));
      var r := BallMoved(s, serve);
      r.ballVelocity.z == -0.07 && r.ballPosition == Vec3(0.0, 0.0, 9.875) && r.aiScore == 0
  {
  }

  /** The same ball with the paddle moved to (3, 3) is missed: the AI scores and the
      serve, at 0-0 before the point, heads toward the AI. */
  lemma MissAtOffsetPaddle(serve: Serve)
    requires ValidServe(serve)
    ensures var s := Initial(serve).(playerPosition := Vec3(3.0, 3.0, 10.0),
                                     ballPosition := Vec3(0.0, 0.0, 9.9), ballVelocity := Vec3(0.0, 0.0, 0.06));
      var r := BallMoved(s, serve);
      r.aiScore == 1 && r.playerScore == 0 && r.ballPosition == Origin && r.ballVelocity.z == -SERVE_SPEED
  {
  }

  /** The catch test is symmetric under mirroring the ball through the centre line ... */
  lemma CaughtMirrored(ball: Vec3, paddle: Vec3)
    ensures Caught(ball, paddle) <==> Caught(Vec3(-ball.x, ball.y, ball.z), paddle)
    ensures Caught(ball, paddle) <==> Caught(Vec3(ball.x, -ball.y, ball.z), paddle)
  {
  }

  /** ... so a ball on the far side of the centre from the paddle is caught: here the
      ball and the paddle are 6 units apart on each axis. */
  lemma MirrorImageIsCaught()
    ensures Caught(Vec3(3.0, 3.0, 9.9), Vec3(-3.0, -3.0, 10.0))
  {
  }

  /** Every ball within 0.5 of the paddle on both axes is caught: the test accepts a
      superset of the true overlap. */
  lemma OverlapIsCaught(ball: Vec3, paddle: Vec3)
    requires Abs(ball.x - paddle.x) <= PADDLE_MARGIN && Abs(ball.y - paddle.y) <= PADDLE_MARGIN
    ensures Caught(ball, paddle)
  {
  }

  // ---------------------------------------------------------------- tick

  /** The moves of an unpaused tick (game.js:53-55): player, then ball, then AI, the AI
      pursuing the ball where the ball now is. */
  function Played(s: State, keys: set<int>, missServe: Serve, aiSample: real): (r: State)
    requires ValidServe(missServe)
    ensures r.playerScore >= s.playerScore && r.aiScore >= s.aiScore
    ensures r.playerScore + r.aiScore <= s.playerScore + s.aiScore + 1
    ensures r.speedIncreasement == s.speedIncreasement && r.isPaused == s.isPaused
  {
    var moved := s.(playerPosition := PlayerMoved(s.playerPosition, keys));
    var rolled := BallMoved(moved, missServe);
    rolled.(aiPosition := AiMoved(rolled.aiPosition, rolled.ballPosition, rolled.aiDifficulty, aiSample))
  }

  /** `update` (game.js:51-76): the moves run only when not paused; then a score of
      exactly 8 on either side resets the whole state and serves anew. */
  function Tick(s: State, keys: set<int>, missServe: Serve, aiSample: real, resetServe: Serve): (r: State)
    requires ValidServe(missServe) && ValidServe(resetServe)
    ensures s.playerScore < MATCH_POINT && s.aiScore < MATCH_POINT ==>
              r.playerScore < MATCH_POINT && r.aiScore < MATCH_POINT
    ensures s.isPaused && s.playerScore != MATCH_POINT && s.aiScore != MATCH_POINT ==> r == s
    ensures r.playerScore + r.aiScore <= s.playerScore + s.aiScore + 1
    ensures r.speedIncreasement == s.speedIncreasement || r == Initial(resetServe)
  {
    var p := if s.isPaused then s else Played(s, keys, missServe, aiSample);
    if p.playerScore == MATCH_POINT || p.aiScore == MATCH_POINT then Initial(resetServe) else p
  }

  /** Reaching the match point in a tick ends the match in that same tick; the check
      runs outside the pause gate, so a paused state holding a score of 8 is reset too. */
  lemma MatchPointResets(s: State, keys: set<int>, missServe: Serve, aiSample: real, resetServe: Serve)
    requires ValidServe(missServe) && ValidServe(resetServe)
    requires var p := if s.isPaused then s else Played(s, keys, missServe, aiSample);
      p.playerScore == MATCH_POINT || p.aiScore == MATCH_POINT
    ensures Tick(s, keys, missServe, aiSample, resetServe) == Initial(resetServe)
  {
  }
}
