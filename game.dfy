/** The `Game` class of game.js: the game state held in fields and advanced in place,
    one `Update` per rendered frame. The positions and the velocity are the source's
    3-element arrays; the ball's arrays are replaced on every serve and every tick,
    the paddle arrays are written in place and replaced on a match reset. Each method
    is proved to move `Abstract()` exactly as the matching function of PongRules says. */
module PongGame {
  import Input
  import opened PongRules
  import opened PongInvariant

  function VecOf(a: array<real>): Vec3
    reads a
    requires a.Length == 3
  {
    Vec3(a[0], a[1], a[2])
  }

  class Game {
    const key: Input.Key

    var isPaused: bool

    var playerScore: nat
    var playerPosition: array<real>

    var aiScore: nat
    var aiPosition: array<real>
    var aiDifficulty: real

    var ballPosition: array<real>
    var ballVelocity: array<real>

    var speedIncreasement: real

    /** Every vector is a 3-element array and no two of them are the same array, so
        writing one coordinate never changes another vector. */
    ghost predicate Valid()
      reads this
    {
      playerPosition.Length == 3 && aiPosition.Length == 3 &&
      ballPosition.Length == 3 && ballVelocity.Length == 3 &&
      playerPosition != aiPosition && playerPosition != ballPosition &&
      playerPosition != ballVelocity && aiPosition != ballPosition &&
      aiPosition != ballVelocity && ballPosition != ballVelocity
    }

    /** The state the fields hold, as a value. */
    ghost function Abstract(): State
      reads this, playerPosition, aiPosition, ballPosition, ballVelocity
      requires Valid()
    {
      State(isPaused, playerScore, VecOf(playerPosition), aiScore, VecOf(aiPosition),
            aiDifficulty, VecOf(ballPosition), VecOf(ballVelocity), speedIncreasement)
    }

    /** game.js:5-31: a fresh key table and the home state, then a serve. */
    constructor (serve: Serve)
      requires ValidServe(serve)
      ensures Valid() && fresh(key) && forall code :: !key.IsDown(code)
      ensures Abstract() == Initial(serve)
      ensures Inv(Abstract())
    {
      key := new Input.Key();
      isPaused := false;
      playerScore := 0;
      playerPosition := new real[3] [0.0, 0.0, 10.0];
      aiScore := 0;
      aiPosition := new real[3] [0.0, 0.0, -10.0];
      aiDifficulty := 0.2;
      ballPosition := new real[3] [0.0, 0.0, 0.0];
      ballVelocity := new real[3] [0.0, 0.0, 0.0];
      speedIncreasement := 0.01;
      new;
      RestartBall(serve);
      InitialKeepsInv(serve);
    }

    /** game.js:33-35. */
    method Pause()
      requires Valid()
      modifies this`isPaused
      ensures Valid()
      ensures Abstract() == old(Abstract()).(isPaused := !old(isPaused))
    {
      isPaused := !isPaused;
    }

    /** game.js:37-49: new ball arrays, at the origin, moving with the serve velocity. */
    method RestartBall(serve: Serve)
      requires Valid() && ValidServe(serve)
      modifies this`ballPosition, this`ballVelocity
      ensures Valid() && fresh(ballPosition) && fresh(ballVelocity)
      ensures Abstract() == Restarted(old(Abstract()), serve)
    {
      ballPosition := new real[3] [0.0, 0.0, 0.0];
      var vx, vy, vz := serve.vx, serve.vy, serve.vz;
      var norm := vx + vy + vz;
      if playerScore > aiScore {
        ballVelocity := new real[3] [vx / norm / 10.0, vy / norm / 10.0, 0.05];
      } else {
        ballVelocity := new real[3] [vx / norm / 10.0, vy / norm / 10.0, -0.05];
      }
    }

    /** game.js:51-76. */
    method Update(missServe: Serve, aiSample: real, resetServe: Serve)
      requires Valid() && ValidServe(missServe) && ValidServe(resetServe)
      modifies this, playerPosition, aiPosition, ballVelocity
      ensures Valid()
      ensures Abstract() == Tick(old(Abstract()), key.pressed, missServe, aiSample, resetServe)
      ensures old(Inv(Abstract())) ==> Inv(Abstract())
    {
      ghost var before := Abstract();
      if !isPaused {
        MovePlayer();
        ghost var moved := before.(playerPosition := PlayerMoved(before.playerPosition, key.pressed));
        assert Abstract() == moved;
        MoveBall(missServe);
        ghost var rolled := Abstract();
        MoveAI(aiSample);
        assert Abstract() == rolled.(aiPosition := AiMoved(rolled.aiPosition, rolled.ballPosition, rolled.aiDifficulty, aiSample));
      }
      ghost var played := if before.isPaused then before else Played(before, key.pressed, missServe, aiSample);
      assert Abstract() == played;
      if playerScore == 8 || aiScore == 8 {
        ResetMatch(resetServe);
      }
      assert Abstract() == Tick(before, key.pressed, missServe, aiSample, resetServe) by {
        assert Tick(before, key.pressed, missServe, aiSample, resetServe) ==
          if played.playerScore == MATCH_POINT || played.aiScore == MATCH_POINT then Initial(resetServe) else played;
      }
      if Inv(before) {
        TickKeepsInv(before, key.pressed, missServe, aiSample, resetServe);
      }
    }

    /** game.js:58-75: the match-end reset, with new arrays for every vector. */
    method ResetMatch(serve: Serve)
      requires Valid() && ValidServe(serve)
      modifies this
      ensures Valid()
      ensures fresh(playerPosition) && fresh(aiPosition) && fresh(ballPosition) && fresh(ballVelocity)
      ensures Abstract() == Initial(serve)
    {
      var home := new real[3] [0.0, 0.0, 10.0];
      var aiHome := new real[3] [0.0, 0.0, -10.0];
      var ball := new real[3] [0.0, 0.0, 0.0];
      var still := new real[3] [0.0, 0.0, 0.0];
      isPaused, playerScore, playerPosition := false, 0, home;
      aiScore, aiPosition, aiDifficulty := 0, aiHome, 0.2;
      ballPosition, ballVelocity := ball, still;
      speedIncreasement := 0.01;
      assert Valid();
      assert Abstract() == State(false, 0, Vec3(0.0, 0.0, 10.0), 0, Vec3(0.0, 0.0, -10.0), 0.2,
                                 Origin, Origin, 0.01);
      RestartBall(serve);
    }

    /** game.js:78-87: the player's paddle array is written in place. */
    method MovePlayer()
      requires Valid()
      modifies playerPosition
      ensures Valid()
      ensures VecOf(playerPosition) == PlayerMoved(old(VecOf(playerPosition)), key.pressed)
    {
      if key.IsDown(Input.UP) || key.IsDown(Input.W) {
        playerPosition[1] := Min(playerPosition[1] + 0.1, BOX_LIMITS.top - 0.5);
      }
      if key.IsDown(Input.DOWN) || key.IsDown(Input.S) {
        playerPosition[1] := Max(playerPosition[1] - 0.1, BOX_LIMITS.bottom + 0.5);
      }
      if key.IsDown(Input.LEFT) || key.IsDown(Input.A) {
        playerPosition[0] := Max(playerPosition[0] - 0.1, BOX_LIMITS.left + 0.5);
      }
      if key.IsDown(Input.RIGHT) || key.IsDown(Input.D) {
        playerPosition[0] := Min(playerPosition[0] + 0.1, BOX_LIMITS.right - 0.5);
      }
    }

    /** game.js:89-103: the AI's paddle array is written in place. */
    method MoveAI(probability: real)
      requires Valid()
      modifies aiPosition
      ensures Valid()
      ensures VecOf(aiPosition) == AiMoved(old(VecOf(aiPosition)), VecOf(ballPosition), aiDifficulty, probability)
    {
      if probability < aiDifficulty {
        if ballPosition[0] > aiPosition[0] {
          aiPosition[0] := Min(aiPosition[0] + 0.1, BOX_LIMITS.right - 0.5);
        } else if ballPosition[0] < aiPosition[0] {
          aiPosition[0] := Max(aiPosition[0] - 0.1, BOX_LIMITS.left + 0.5);
        }

        if ballPosition[1] > aiPosition[1] {
          aiPosition[1] := Min(aiPosition[1] + 0.1, BOX_LIMITS.top - 0.5);
        } else if ballPosition[1] < aiPosition[1] {
          aiPosition[1] := Max(aiPosition[1] - 0.1, BOX_LIMITS.bottom + 0.5);
        }
      }
    }

    /** game.js:109-127: the tentative position is put back on a side, top or bottom
        wall it reaches, and the velocity array is negated in place on that axis. */
    method BounceOffWalls(tx: real, ty: real, tz: real) returns (px: real, py: real, pz: real)
      requires Valid()
      modifies ballVelocity
      ensures (Vec3(px, py, pz), VecOf(ballVelocity)) == WallsAt(Vec3(tx, ty, tz), old(VecOf(ballVelocity)))
    {
      px, py, pz := tx, ty, tz;
      if px >= BOX_LIMITS.right - 0.125 {
        px := BOX_LIMITS.right - 0.125;
        ballVelocity[0] := -ballVelocity[0];
      } else if px <= BOX_LIMITS.left + 0.125 {
        px := BOX_LIMITS.left + 0.125;
        ballVelocity[0] := -ballVelocity[0];
      }

      if py >= BOX_LIMITS.top - 0.125 {
        py := BOX_LIMITS.top - 0.125;
        ballVelocity[1] := -ballVelocity[1];
      } else if py <= BOX_LIMITS.bottom + 0.125 {
        py := BOX_LIMITS.bottom + 0.125;
        ballVelocity[1] := -ballVelocity[1];
      }
    }

    /** game.js:105-164: the velocity array is written in place (unless a point re-serves
        it), and the ball's position becomes the new tentative-position array. */
    method MoveBall(serve: Serve)
      requires Valid() && ValidServe(serve)
      modifies this, ballVelocity
      ensures Valid() && fresh(ballPosition)
      ensures playerPosition == old(playerPosition) && aiPosition == old(aiPosition)
      ensures ballVelocity == old(ballVelocity) || fresh(ballVelocity)
      ensures Abstract() == BallMoved(old(Abstract()), serve)
    {
      ghost var s := Abstract();
      var px, py, pz := BounceOffWalls(ballPosition[0] + ballVelocity[0],
                                       ballPosition[1] + ballVelocity[1],
                                       ballPosition[2] + ballVelocity[2]);
      assert Vec3(px, py, pz) == Walls(s).0 && VecOf(ballVelocity) == Walls(s).1;
      if pz >= BOX_LIMITS.front - 0.125 {
        var deltaX := Abs(Abs(px) - Abs(playerPosition[0]));
        var deltaY := Abs(Abs(py) - Abs(playerPosition[1]));

        if deltaX <= 0.5 && deltaY <= 0.5 {
          pz := BOX_LIMITS.front - 0.125;
          ballVelocity[2] := -ballVelocity[2] - speedIncreasement;
          assert BallMoved(s, serve) == s.(ballPosition := Vec3(px, py, pz), ballVelocity := VecOf(ballVelocity));
        } else {
          RestartBall(serve);
          px, py, pz := 0.0, 0.0, 0.0;
          aiScore := aiScore + 1;
          assert BallMoved(s, serve) == Abstract();
        }
      } else if pz <= BOX_LIMITS.back + 0.125 {
        var deltaX := Abs(Abs(px) - Abs(aiPosition[0]));
        var deltaY := Abs(Abs(py) - Abs(aiPosition[1]));

        if deltaX <= 0.5 && deltaY <= 0.5 {
          pz := BOX_LIMITS.back + 0.125;
          ballVelocity[2] := -ballVelocity[2] - speedIncreasement;
          assert BallMoved(s, serve) == s.(ballPosition := Vec3(px, py, pz), ballVelocity := VecOf(ballVelocity));
        } else {
          RestartBall(serve);
          px, py, pz := 0.0, 0.0, 0.0;
          playerScore := playerScore + 1;
          aiDifficulty := aiDifficulty + 0.05;
          assert BallMoved(s, serve) == Abstract();
        }
      } else {
        assert BallMoved(s, serve) == s.(ballPosition := Vec3(px, py, pz), ballVelocity := VecOf(ballVelocity));
      }

      ballPosition := new real[3] [px, py, pz];
    }
  }
}
