// Properties of one frame of the runner (RunnerRules.Step) and of its pieces.

module RunnerLaws {
  import opened Geometry
  import opened RunnerRules

  // ---------------------------------------------------------------------------------------
  // Difficulty ramp

  /** After n running frames the speed is 5 plus 0.5 for every completed 500 frames. */
  lemma {:induction false} SpeedAfterClosedForm(n: nat)
    ensures SpeedAfter(n) == InitialSpeed + SpeedStep * (n / RampPeriod) as real
  {
    if n > 0 {
      SpeedAfterClosedForm(n - 1);
      if n % RampPeriod == 0 {
        assert n / RampPeriod == (n - 1) / RampPeriod + 1;
      } else {
        assert n / RampPeriod == (n - 1) / RampPeriod;
      }
    }
  }

  /** The speed of a run never decreases from one frame to the next. */
  lemma SpeedAfterMonotone(n: nat)
    ensures SpeedAfter(n) <= SpeedAfter(n + 1)
    ensures SpeedAfter(n) >= InitialSpeed
  {
    SpeedAfterClosedForm(n);
  }

  // ---------------------------------------------------------------------------------------
  // jump()

  /** Only a grounded queen jumps, and a second call while airborne changes nothing. */
  lemma JumpOnlyFromGround(q: Queen)
    ensures !q.isJumping ==> Jump(q) == q.(velocityY := JumpForce, isJumping := true)
    ensures q.isJumping ==> Jump(q) == q
    ensures Jump(Jump(q)) == Jump(q)
  {
  }

  // ---------------------------------------------------------------------------------------
  // The obstacle pass

  /** What the pass reports as hits were overlaps of visited, moved obstacles. */
  lemma {:induction false} ObstaclePassHitsSound(rest: seq<Box>, speed: real, queen: Box)
    ensures ObstaclePass(rest, speed, queen).hits > 0 ==>
              exists i :: 0 <= i < |rest| && Collides(queen, Shift(rest[i], speed))
  {
    if rest != [] {
      var o := Shift(rest[0], speed);
      if !OffLeft(o) {
        ObstaclePassHitsSound(rest[1..], speed, queen);
        if !Collides(queen, o) && ObstaclePass(rest[1..], speed, queen).hits > 0 {
          var i :| 0 <= i < |rest[1..]| && Collides(queen, Shift(rest[1..][i], speed));
          assert Collides(queen, Shift(rest[i + 1], speed));
        }
      } else if |rest| > 1 {
        ObstaclePassHitsSound(rest[2..], speed, queen);
        if !Collides(queen, o) && ObstaclePass(rest[2..], speed, queen).hits > 0 {
          var i :| 0 <= i < |rest[2..]| && Collides(queen, Shift(rest[2..][i], speed));
          assert Collides(queen, Shift(rest[i + 2], speed));
        }
      }
    }
  }

  /** When no obstacle leaves the screen, every obstacle moves left by exactly `speed`, in
      order, and the run is hit exactly when one of them overlaps the queen. */
  lemma {:induction false} ObstaclePassWithoutRemoval(rest: seq<Box>, speed: real, queen: Box)
    requires forall i :: 0 <= i < |rest| ==> !OffLeft(Shift(rest[i], speed))
    ensures |ObstaclePass(rest, speed, queen).kept| == |rest|
    ensures forall i :: 0 <= i < |rest| ==> ObstaclePass(rest, speed, queen).kept[i] == Shift(rest[i], speed)
    ensures ObstaclePass(rest, speed, queen).hits > 0 <==>
              exists i :: 0 <= i < |rest| && Collides(queen, Shift(rest[i], speed))
  {
    if rest != [] {
      ObstaclePassWithoutRemoval(rest[1..], speed, queen);
      var p := ObstaclePass(rest[1..], speed, queen);
      assert ObstaclePass(rest, speed, queen).kept == [Shift(rest[0], speed)] + p.kept;
      forall i | 0 <= i < |rest| && Collides(queen, Shift(rest[i], speed))
        ensures ObstaclePass(rest, speed, queen).hits > 0
      {
        if i > 0 {
          assert Collides(queen, Shift(rest[1..][i - 1], speed));
        }
      }
      if ObstaclePass(rest, speed, queen).hits > 0 && !Collides(queen, Shift(rest[0], speed)) {
        var j :| 0 <= j < |rest[1..]| && Collides(queen, Shift(rest[1..][j], speed));
        assert Collides(queen, Shift(rest[j + 1], speed));
      }
    }
  }

  /** Every obstacle that survives the pass is still a 30x30 rock on the ground within the
      canvas: moved ones did not leave the screen, skipped ones are unchanged. */
  lemma {:induction false} ObstaclePassKeepsShape(rest: seq<Box>, speed: real, queen: Box, canvas: Canvas)
    requires speed >= 0.0
    requires forall o <- rest :: ObstacleOk(o, canvas)
    ensures forall o <- ObstaclePass(rest, speed, queen).kept :: ObstacleOk(o, canvas)
  {
    if rest != [] {
      var o := Shift(rest[0], speed);
      assert ObstacleOk(rest[0], canvas);
      if !OffLeft(o) {
        ObstaclePassKeepsShape(rest[1..], speed, queen, canvas);
      } else if |rest| > 1 {
        assert ObstacleOk(rest[1], canvas);
        ObstaclePassKeepsShape(rest[2..], speed, queen, canvas);
      }
    }
  }

  // ---------------------------------------------------------------------------------------
  // The coin pass

  /** A box fully left of the canvas cannot touch a queen standing at x >= 0, so the double
      splice of the coin pass never happens in the game. */
  lemma OffLeftNeverCollides(queen: Box, b: Box)
    requires queen.x >= 0.0 && OffLeft(b)
    ensures !Collides(queen, b)
  {
  }

  /** Each coin is either kept or removed, and each pickup removes a coin: the kept coins and
      the pickups never outnumber the coins; when no coin leaves the screen they add up. */
  lemma {:induction false} CoinPassConserves(rest: seq<Coin>, speed: real, queen: Box)
    ensures |CoinPass(rest, speed, queen).kept| + CoinPass(rest, speed, queen).picked <= |rest|
    ensures (forall i :: 0 <= i < |rest| ==> !OffLeft(Shift(rest[i].box, speed))) ==>
              |CoinPass(rest, speed, queen).kept| + CoinPass(rest, speed, queen).picked == |rest|
  {
    if rest != [] {
      CoinPassConserves(rest[1..], speed, queen);
      if |rest| > 1 {
        CoinPassConserves(rest[2..], speed, queen);
      }
      if |rest| > 2 {
        CoinPassConserves(rest[3..], speed, queen);
      }
      if forall i :: 0 <= i < |rest| ==> !OffLeft(Shift(rest[i].box, speed)) {
        assert forall i :: 0 <= i < |rest[1..]| ==> !OffLeft(Shift(rest[1..][i].box, speed)) by {
          forall i | 0 <= i < |rest[1..]| ensures !OffLeft(Shift(rest[1..][i].box, speed)) {
            assert rest[1..][i] == rest[i + 1];
          }
        }
        if |rest| > 1 {
          assert forall i :: 0 <= i < |rest[2..]| ==> !OffLeft(Shift(rest[2..][i].box, speed)) by {
            forall i | 0 <= i < |rest[2..]| ensures !OffLeft(Shift(rest[2..][i].box, speed)) {
              assert rest[2..][i] == rest[i + 2];
            }
          }
        }
      }
    }
  }

  /** Every pickup the pass counts comes from a coin not yet collected whose moved box
      overlaps the queen. */
  lemma {:induction false} CoinPassPickupsSound(rest: seq<Coin>, speed: real, queen: Box)
    ensures CoinPass(rest, speed, queen).picked > 0 ==>
      exists i :: 0 <= i < |rest| && !rest[i].collected && Collides(queen, Shift(rest[i].box, speed))
  {
    if rest != [] {
      var c := Shift(rest[0].box, speed);
      var unpicked := !rest[0].collected;
      if !unpicked || (!OffLeft(c) && !Collides(queen, c)) {
        CoinPassPickupsSound(rest[1..], speed, queen);
        if CoinPass(rest[1..], speed, queen).picked > 0 {
          var i :| 0 <= i < |rest[1..]| && !rest[1..][i].collected && Collides(queen, Shift(rest[1..][i].box, speed));
          assert rest[1..][i] == rest[i + 1];
        }
      } else if !Collides(queen, c) {
        var after := rest[1..];
        if after != [] {
          CoinPassPickupsSound(after[1..], speed, queen);
          if CoinPass(after[1..], speed, queen).picked > 0 {
            var i :| 0 <= i < |after[1..]| && !after[1..][i].collected && Collides(queen, Shift(after[1..][i].box, speed));
            assert after[1..][i] == rest[i + 2];
          }
        }
      }
    }
  }

  /** When no coin leaves the screen or touches the queen, nothing is picked up and every
      coin stays in place: fresh ones move left by `speed`, collected ones are untouched. */
  lemma {:induction false} CoinPassWithoutRemoval(rest: seq<Coin>, speed: real, queen: Box)
    requires forall i :: 0 <= i < |rest| ==>
      !OffLeft(Shift(rest[i].box, speed)) && !Collides(queen, Shift(rest[i].box, speed))
    ensures CoinPass(rest, speed, queen).picked == 0
    ensures |CoinPass(rest, speed, queen).kept| == |rest|
    ensures forall i :: 0 <= i < |rest| ==>
      CoinPass(rest, speed, queen).kept[i] == (if rest[i].collected then rest[i] else rest[i].(box := Shift(rest[i].box, speed)))
  {
    if rest != [] {
      assert forall i :: 0 <= i < |rest[1..]| ==>
        !OffLeft(Shift(rest[1..][i].box, speed)) && !Collides(queen, Shift(rest[1..][i].box, speed)) by {
        forall i | 0 <= i < |rest[1..]| ensures
          !OffLeft(Shift(rest[1..][i].box, speed)) && !Collides(queen, Shift(rest[1..][i].box, speed)) {
          assert rest[1..][i] == rest[i + 1];
        }
      }
      CoinPassWithoutRemoval(rest[1..], speed, queen);
      var p := CoinPass(rest[1..], speed, queen);
      var first := if rest[0].collected then rest[0] else rest[0].(box := Shift(rest[0].box, speed));
      assert CoinPass(rest, speed, queen).kept == [first] + p.kept;
    }
  }

  /** Surviving coins keep their size, their height band and a position within the canvas. */
  lemma {:induction false} CoinPassKeepsShape(rest: seq<Coin>, speed: real, queen: Box, canvas: Canvas)
    requires speed >= 0.0
    requires forall c <- rest :: CoinOk(c, canvas)
    ensures forall c <- CoinPass(rest, speed, queen).kept :: CoinOk(c, canvas)
  {
    if rest != [] {
      assert CoinOk(rest[0], canvas);
      var c := Shift(rest[0].box, speed);
      if !OffLeft(c) && !Collides(queen, c) {
        CoinPassKeepsShape(rest[1..], speed, queen, canvas);
      } else {
        var after := if OffLeft(c) && Collides(queen, c) && |rest| > 1 then rest[2..] else rest[1..];
        if after != [] {
          assert after[0] in rest;
          assert forall x <- after[1..] :: x in rest;
          CoinPassKeepsShape(after[1..], speed, queen, canvas);
        }
      }
    }
  }

  // ---------------------------------------------------------------------------------------
  // One frame

  /** update() does nothing unless the game is running. */
  lemma StepIdle(w: World, canvas: Canvas, cloudRolls: seq<Roll>, coinRoll: Roll)
    requires |cloudRolls| == |w.clouds| && !w.isRunning
    ensures Step(w, canvas, cloudRolls, coinRoll) == Tick(w, [])
  {
  }

  /** A running frame adds exactly one to the score, adds 0.5 to the speed exactly when the
      new score is a multiple of 500, and leaves the queen on or above the ground; landing
      stops the fall. */
  lemma StepAdvances(w: World, canvas: Canvas, cloudRolls: seq<Roll>, coinRoll: Roll)
    requires |cloudRolls| == |w.clouds| && w.isRunning
    ensures var w' := Step(w, canvas, cloudRolls, coinRoll).world;
      && w'.score == w.score + 1
      && (w'.score % 500 == 0 ==> w'.speed == w.speed + 0.5)
      && (w'.score % 500 != 0 ==> w'.speed == w.speed)
      && w'.queen.y <= canvas.QueenTop()
      && (w'.queen.y == canvas.QueenTop() ==> w'.queen.velocityY == 0.0 && !w'.queen.isJumping)
      && w'.clouds == ScrollClouds(w.clouds, cloudRolls, canvas)
  {
  }

  /** The run ends in a frame exactly when an obstacle hit it; each hit calls onGameOver
      once with the new score and the coins counted before this frame's coin pass. Coins
      never end the run. */
  lemma StepEndsRunOnlyOnHit(w: World, canvas: Canvas, cloudRolls: seq<Roll>, coinRoll: Roll)
    requires |cloudRolls| == |w.clouds| && w.isRunning
    ensures var t := Step(w, canvas, cloudRolls, coinRoll);
      && (t.world.isRunning <==> t.reports == [])
      && (!t.world.isRunning ==> t.world.isGameOver)
      && (forall r <- t.reports :: r == RunResult(w.score + 1, w.coinsCollected))
      && t.world.coinsCollected >= w.coinsCollected
  {
  }

  /** The obstacle part of a frame: when the timer passes its interval and nothing is
      removed, one new rock joins the end, already moved left. */
  lemma ObstaclePhaseSpawns(v: World, canvas: Canvas)
    requires v.obstacleTimer + 1 > ObstacleInterval
    requires forall o <- v.obstacles + [NewObstacle(canvas)] :: !OffLeft(Shift(o, v.speed))
    ensures var v' := ObstaclePhase(v, canvas).0;
      && v'.obstacleTimer == 0
      && |v'.obstacles| == |v.obstacles| + 1
      && v'.obstacles[|v.obstacles|] == Box(canvas.width as real - v.speed, canvas.GroundY() - 30.0, 30.0, 30.0)
  {
    var all := v.obstacles + [NewObstacle(canvas)];
    assert forall i :: 0 <= i < |all| ==> !OffLeft(Shift(all[i], v.speed)) by {
      forall i | 0 <= i < |all| ensures !OffLeft(Shift(all[i], v.speed)) {
        assert all[i] in all;
      }
    }
    ObstaclePassWithoutRemoval(all, v.speed, QueenBox(v.queen));
    assert all[|v.obstacles|] == NewObstacle(canvas);
    assert TimerStep(v.obstacleTimer, ObstacleInterval) == (0, true);
    assert ObstaclePhase(v, canvas).0.obstacles == ObstaclePass(all, v.speed, QueenBox(v.queen)).kept;
  }

  /** When the obstacle timer passes its interval and nothing is removed, one new rock joins
      the end of the list, already moved one step left from the right edge. */
  lemma StepSpawnsObstacle(w: World, canvas: Canvas, cloudRolls: seq<Roll>, coinRoll: Roll)
    requires |cloudRolls| == |w.clouds| && w.isRunning
    requires w.obstacleTimer + 1 > ObstacleInterval
    requires var s := Ramp(w.speed, w.score + 1);
      forall o <- w.obstacles + [NewObstacle(canvas)] :: !OffLeft(Shift(o, s))
    ensures var w' := Step(w, canvas, cloudRolls, coinRoll).world;
      && w'.obstacleTimer == 0
      && |w'.obstacles| == |w.obstacles| + 1
      && w'.obstacles[|w.obstacles|] == Box(canvas.width as real - w'.speed, canvas.GroundY() - 30.0, 30.0, 30.0)
  {
    var a := Advance(w, canvas, cloudRolls);
    assert a.obstacles == w.obstacles && a.obstacleTimer == w.obstacleTimer && a.speed == Ramp(w.speed, w.score + 1);
    ObstaclePhaseSpawns(a, canvas);
    var b := ObstaclePhase(a, canvas).0;
    assert Step(w, canvas, cloudRolls, coinRoll).world == CoinPhase(b, canvas, coinRoll);
  }

  /** The coin part of a frame: when the timer passes its interval and no coin leaves the
      screen or touches the queen, one new coin joins the end, already moved left. */
  lemma CoinPhaseSpawns(v: World, canvas: Canvas, coinRoll: Roll)
    requires v.coinTimer + 1 > CoinInterval
    requires forall c <- v.coins + [NewCoin(canvas, coinRoll)] ::
      !OffLeft(Shift(c.box, v.speed)) && !Collides(QueenBox(v.queen), Shift(c.box, v.speed))
    ensures var v' := CoinPhase(v, canvas, coinRoll);
      && v'.coinTimer == 0
      && v'.coinsCollected == v.coinsCollected
      && |v'.coins| == |v.coins| + 1
      && v'.coins[|v.coins|] == Coin(Box(canvas.width as real - v.speed, NewCoin(canvas, coinRoll).box.y, 25.0, 25.0), false)
  {
    var queen := QueenBox(v.queen);
    var all := v.coins + [NewCoin(canvas, coinRoll)];
    assert forall i :: 0 <= i < |all| ==> !OffLeft(Shift(all[i].box, v.speed)) && !Collides(queen, Shift(all[i].box, v.speed)) by {
      forall i | 0 <= i < |all| ensures !OffLeft(Shift(all[i].box, v.speed)) && !Collides(queen, Shift(all[i].box, v.speed)) {
        assert all[i] in all;
      }
    }
    CoinPassWithoutRemoval(all, v.speed, queen);
    assert all[|v.coins|] == NewCoin(canvas, coinRoll);
    assert TimerStep(v.coinTimer, CoinInterval) == (0, true);
    assert CoinPhase(v, canvas, coinRoll).coins == CoinPass(all, v.speed, queen).kept;
  }

  /** When the coin timer passes its interval and no coin leaves the screen or touches the
      queen, one new coin joins the end of the list, already moved one step left from the
      right edge, and nothing is picked up. */
  lemma StepSpawnsCoin(w: World, canvas: Canvas, cloudRolls: seq<Roll>, coinRoll: Roll)
    requires |cloudRolls| == |w.clouds| && w.isRunning
    requires w.coinTimer + 1 > CoinInterval
    requires var s := Ramp(w.speed, w.score + 1);
      var queen := QueenBox(Fall(w.queen, canvas.QueenTop()));
      forall c <- w.coins + [NewCoin(canvas, coinRoll)] ::
        !OffLeft(Shift(c.box, s)) && !Collides(queen, Shift(c.box, s))
    ensures var w' := Step(w, canvas, cloudRolls, coinRoll).world;
      && w'.coinTimer == 0
      && w'.coinsCollected == w.coinsCollected
      && |w'.coins| == |w.coins| + 1
      && w'.coins[|w.coins|] == Coin(Box(canvas.width as real - w'.speed, NewCoin(canvas, coinRoll).box.y, 25.0, 25.0), false)
  {
    var a := Advance(w, canvas, cloudRolls);
    var b := ObstaclePhase(a, canvas).0;
    assert b.coins == w.coins && b.coinTimer == w.coinTimer && b.coinsCollected == w.coinsCollected;
    assert b.speed == Ramp(w.speed, w.score + 1) && b.queen == Fall(w.queen, canvas.QueenTop());
    CoinPhaseSpawns(b, canvas, coinRoll);
    assert Step(w, canvas, cloudRolls, coinRoll).world == CoinPhase(b, canvas, coinRoll);
  }

  /** A spawn timer stays within [0, interval] and fires, back at 0, exactly when the
      incremented count passes the interval. */
  lemma TimerStepRange(timer: int, interval: int)
    requires 0 <= timer <= interval
    ensures var (t, spawn) := TimerStep(timer, interval);
      && 0 <= t <= interval
      && (spawn <==> timer + 1 > interval)
      && (spawn ==> t == 0)
      && (!spawn ==> t == timer + 1)
  {
  }

  /** Rocks are 30 by 30, resting on the ground at the right edge; coins are 25 by 25, not
      yet collected, at the right edge, with the top between 140 (exclusive) and 80 above
      the ground. */
  lemma NewEntitiesOk(canvas: Canvas, r: Roll)
    ensures NewObstacle(canvas) == Box(canvas.width as real, canvas.GroundY() - 30.0, 30.0, 30.0)
    ensures ObstacleOk(NewObstacle(canvas), canvas)
    ensures var c := NewCoin(canvas, r);
      && CoinOk(c, canvas) && c.box.x == canvas.width as real
      && canvas.GroundY() - 140.0 < c.box.y <= canvas.GroundY() - 80.0
  {
  }

  /** A cloud made by initClouds starts within the canvas, 60 to 100 wide, at speed 0.5 to 1. */
  lemma InitCloudOk(r: CloudRoll, canvas: Canvas)
    ensures CloudOk(InitCloud(r, canvas), canvas)
  {
    var w := canvas.width as real;
    var c := InitCloud(r, canvas);
    assert c.x == r.x * w;
    assert 0.0 <= r.x * w;
    assert r.x * w <= w by {
      assert (1.0 - r.x) * w == w - r.x * w;
      assert (1.0 - r.x) * w >= 0.0;
    }
    assert c.width == CloudMinWidth + r.width * CloudWidthSpread;
    assert c.speed == CloudMinSpeed + r.speed * CloudSpeedSpread;
  }

  lemma ScrollCloudsKeepShape(clouds: seq<Cloud>, rolls: seq<Roll>, canvas: Canvas)
    requires |rolls| == |clouds|
    requires forall c <- clouds :: CloudOk(c, canvas)
    ensures forall c <- ScrollClouds(clouds, rolls, canvas) :: CloudOk(c, canvas)
  {
    var r := ScrollClouds(clouds, rolls, canvas);
    forall c <- r ensures CloudOk(c, canvas) {
      var i :| 0 <= i < |r| && r[i] == c;
      assert CloudOk(clouds[i], canvas);
    }
  }

  /** Every frame keeps the invariant: timers within their intervals, the speed as the
      ramp prescribes, the queen on or above the ground, and every rock, coin and cloud
      well formed and within the canvas. */
  lemma StepPreservesInv(w: World, canvas: Canvas, cloudRolls: seq<Roll>, coinRoll: Roll)
    requires |cloudRolls| == |w.clouds| && Inv(w, canvas)
    ensures Inv(Step(w, canvas, cloudRolls, coinRoll).world, canvas)
  {
    if w.isRunning {
      var score := w.score + 1;
      var speed := Ramp(w.speed, score);
      SpeedAfterMonotone(w.score);
      var queen := QueenBox(Fall(w.queen, canvas.QueenTop()));
      ScrollCloudsKeepShape(w.clouds, cloudRolls, canvas);
      var (_, spawnObstacle) := TimerStep(w.obstacleTimer, ObstacleInterval);
      var obstacles := w.obstacles + (if spawnObstacle then [NewObstacle(canvas)] else []);
      ObstaclePassKeepsShape(obstacles, speed, queen, canvas);
      var (_, spawnCoin) := TimerStep(w.coinTimer, CoinInterval);
      var coins := w.coins + (if spawnCoin then [NewCoin(canvas, coinRoll)] else []);
      CoinPassKeepsShape(coins, speed, queen, canvas);
    }
  }

  /** start() leaves a running, well-formed world with the queen standing still on the
      ground, nothing scored and nothing on the track; the spawn timers and the clouds are
      left as they were. */
  lemma RestartEstablishesInv(w: World, canvas: Canvas)
    requires Inv(w, canvas)
    ensures var r := Restart(w, canvas);
      && Inv(r, canvas) && r.isRunning && !r.isGameOver
      && r.score == 0 && r.coinsCollected == 0 && r.speed == 5.0
      && r.obstacles == [] && r.coins == []
      && r.queen == Queen(canvas.QueenTop(), 0.0, false)
      && r.obstacleTimer == w.obstacleTimer && r.coinTimer == w.coinTimer && r.clouds == w.clouds
  {
  }

  /** Whatever the run has done so far, its speed is 5 plus 0.5 for every 500 frames. */
  lemma InvSpeed(w: World, canvas: Canvas)
    requires Inv(w, canvas)
    ensures w.speed == 5.0 + 0.5 * (w.score / 500) as real
    ensures w.speed >= 5.0
  {
    SpeedAfterClosedForm(w.score);
  }
}
