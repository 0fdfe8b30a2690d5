// The QueenShebaGame class of game.js: its mutable state and the methods start, stop, jump,
// update and one turn of gameLoop, each proved against RunnerRules.

module Runner {
  import opened Geometry
  import opened RunnerRules
  import RunnerLaws

  /** The processed prefix of a sequence that `forEach` walks while splicing it. */
  function Done<T>(s: seq<T>, index: nat): seq<T>
  {
    if index <= |s| then s[..index] else s
  }

  /** The part of that sequence `forEach` has not reached yet. */
  function Rest<T>(s: seq<T>, index: nat): seq<T>
  {
    if index <= |s| then s[index..] else []
  }

  /** `array.splice(index, 1)`: removes the element at index, if there is one. */
  function Splice<T>(s: seq<T>, index: nat): (r: seq<T>)
    ensures index < |s| ==> |r| == |s| - 1
  {
    if index < |s| then s[..index] + s[index + 1..] else s
  }

  /** The sequence after the obstacle `forEach` callback has run at `index`. */
  function VisitObstacle(s: seq<Box>, index: nat, speed: real): (r: seq<Box>)
    requires index < |s|
    ensures |r| <= |s|
  {
    var o := Shift(s[index], speed);
    if OffLeft(o) then Splice(s[index := o], index) else s[index := o]
  }

  /** What an obstacle callback leaves from the visited index on: the moved obstacle and
      the rest, or, when it went off screen, just the rest. */
  function ObstacleTail(rest: seq<Box>, speed: real): seq<Box>
    requires rest != []
  {
    var o := Shift(rest[0], speed);
    if OffLeft(o) then rest[1..] else [o] + rest[1..]
  }

  /** Replacing the element at `index`, and then splicing it out. */
  lemma UpdateThenSplice<T>(s: seq<T>, index: nat, x: T)
    requires index < |s|
    ensures s[index := x] == s[..index] + [x] + s[index + 1..]
    ensures Splice(s[index := x], index) == s[..index] + s[index + 1..]
  {
    assert s[index := x][..index] == s[..index];
    assert s[index := x][index + 1..] == s[index + 1..];
  }

  /** The callback only rewrites the sequence from the visited index on. */
  lemma VisitObstacleShape(s: seq<Box>, index: nat, speed: real)
    requires index < |s|
    ensures VisitObstacle(s, index, speed) == s[..index] + ObstacleTail(s[index..], speed)
  {
    var rest := s[index..];
    assert rest[0] == s[index] && rest[1..] == s[index + 1..];
    UpdateThenSplice(s, index, Shift(s[index], speed));
  }

  /** The tail left by the callback continues ObstaclePass. */
  lemma ObstacleTailPass(rest: seq<Box>, speed: real, queen: Box)
    requires rest != []
    ensures var t := ObstacleTail(rest, speed);
      var hit := if Collides(queen, Shift(rest[0], speed)) then 1 else 0;
      var p := ObstaclePass(rest, speed, queen);
      && (t != [] ==> [t[0]] + ObstaclePass(t[1..], speed, queen).kept == p.kept
                        && hit + ObstaclePass(t[1..], speed, queen).hits == p.hits)
      && (t == [] ==> p.kept == [] && p.hits == hit)
  {
    var o := Shift(rest[0], speed);
    if !OffLeft(o) {
      assert ([o] + rest[1..])[1..] == rest[1..];
    } else if |rest| > 1 {
      assert rest[1..][1..] == rest[2..];
    }
  }

  /** One callback of the obstacle `forEach` does one step of ObstaclePass. */
  lemma VisitObstacleStep(s: seq<Box>, index: nat, speed: real, queen: Box)
    requires index < |s|
    ensures var s' := VisitObstacle(s, index, speed);
      var p := ObstaclePass(Rest(s, index), speed, queen);
      var p' := ObstaclePass(Rest(s', index + 1), speed, queen);
      && Done(s', index + 1) + p'.kept == Done(s, index) + p.kept
      && (if Collides(queen, Shift(s[index], speed)) then 1 else 0) + p'.hits == p.hits
  {
    var rest := s[index..];
    var pre := s[..index];
    var tail := ObstacleTail(rest, speed);
    assert rest[0] == s[index] && |pre| == index;
    assert Done(s, index) == pre && Rest(s, index) == rest;
    VisitObstacleShape(s, index, speed);
    assert VisitObstacle(s, index, speed) == pre + tail;
    ObstacleTailPass(rest, speed, queen);
    DoneRestAfter(pre, tail);
  }

  /** The callback of the obstacle `forEach` at `index`: it settles one more element of
      the pass, and `hit` says whether it counted a hit (the moved obstacle is tested even
      when it was just spliced out). */
  method VisitObstacleAt(kept: seq<Box>, index: nat, speed: real, queen: Box) returns (after: seq<Box>, hit: bool)
    requires index < |kept|
    ensures |after| <= |kept|
    ensures Done(after, index + 1) + ObstaclePass(Rest(after, index + 1), speed, queen).kept ==
            Done(kept, index) + ObstaclePass(Rest(kept, index), speed, queen).kept
    ensures (if hit then 1 else 0) + ObstaclePass(Rest(after, index + 1), speed, queen).hits ==
            ObstaclePass(Rest(kept, index), speed, queen).hits
  {
    after := kept[index := Shift(kept[index], speed)];
    var obstacle := after[index];
    if OffLeft(obstacle) {
      after := Splice(after, index);
    }
    hit := Collides(queen, obstacle);
    assert after == VisitObstacle(kept, index, speed);
    VisitObstacleStep(kept, index, speed, queen);
  }

  /** A rock spliced out at `index` lets the next rock slide into that index, so the
      callback at `index + 1` never sees it: it stays in place, unmoved, for this frame. */
  lemma ObstacleSkippedAfterRemoval(s: seq<Box>, index: nat, speed: real)
    requires index + 1 < |s| && OffLeft(Shift(s[index], speed))
    ensures |VisitObstacle(s, index, speed)| == |s| - 1
    ensures Done(VisitObstacle(s, index, speed), index + 1) == s[..index] + [s[index + 1]]
  {
    VisitObstacleShape(s, index, speed);
    assert s[index..][1..] == s[index + 1..];
  }

  /** The obstacle `forEach` of update(), as JavaScript runs it: the range is fixed before
      the first callback, an index past the current end is skipped, and an off-screen
      obstacle is spliced out at the current index. */
  method SweepObstacles(obstacles: seq<Box>, speed: real, queen: Box) returns (kept: seq<Box>, hits: nat)
    ensures ObstacleOutcome(kept, hits) == ObstaclePass(obstacles, speed, queen)
  {
    ghost var total := ObstaclePass(obstacles, speed, queen);
    kept, hits := obstacles, 0;
    var n := |kept|;
    var index := 0;
    while index < n
      invariant index <= n && |kept| <= n
      invariant Done(kept, index) + ObstaclePass(Rest(kept, index), speed, queen).kept == total.kept
      invariant hits + ObstaclePass(Rest(kept, index), speed, queen).hits == total.hits
    {
      if index < |kept| {
        var hit;
        kept, hit := VisitObstacleAt(kept, index, speed, queen);
        if hit {
          hits := hits + 1;
        }
      }
      index := index + 1;
    }
    assert Rest(kept, index) == [] && Done(kept, index) == kept;
  }

  /** The sequence after the coin `forEach` callback has run at `index`. */
  function VisitCoin(s: seq<Coin>, index: nat, speed: real, queen: Box): (r: seq<Coin>)
    requires index < |s|
    ensures |r| <= |s|
  {
    if s[index].collected then s
    else
      var c := s[index].(box := Shift(s[index].box, speed));
      var once := if OffLeft(c.box) then Splice(s[index := c], index) else s[index := c];
      if Collides(queen, c.box) then Splice(once, index) else once
  }

  /** What a coin callback leaves from the visited index on: the coin itself when it was
      already collected, the moved coin when it stays, otherwise what follows after one
      splice (or two, when the coin is both off screen and hit). */
  function CoinTail(rest: seq<Coin>, speed: real, queen: Box): seq<Coin>
    requires rest != []
  {
    if rest[0].collected then rest
    else
      var c := Shift(rest[0].box, speed);
      if !OffLeft(c) && !Collides(queen, c) then [rest[0].(box := c)] + rest[1..]
      else if OffLeft(c) && Collides(queen, c) && |rest| > 1 then rest[2..]
      else rest[1..]
  }

  /** The callback only rewrites the sequence from the visited index on. */
  lemma VisitCoinShape(s: seq<Coin>, index: nat, speed: real, queen: Box)
    requires index < |s|
    ensures VisitCoin(s, index, speed, queen) == s[..index] + CoinTail(s[index..], speed, queen)
  {
    var rest := s[index..];
    assert rest[0] == s[index];
    if !s[index].collected {
      var c := s[index].(box := Shift(s[index].box, speed));
      var moved := s[index := c];
      assert moved == s[..index] + [c] + rest[1..];
      if OffLeft(c.box) {
        var once := Splice(moved, index);
        assert once == s[..index] + rest[1..];
        if Collides(queen, c.box) && index < |once| {
          assert Splice(once, index) == s[..index] + rest[2..];
        }
      }
      else if Collides(queen, c.box) {
        assert Splice(moved, index) == s[..index] + rest[1..];
      }
    }
  }

  /** The tail left by the callback continues CoinPass: its first element is settled and
      the pass over the remainder finishes the job. */
  lemma CoinTailPass(rest: seq<Coin>, speed: real, queen: Box)
    requires rest != []
    ensures var t := CoinTail(rest, speed, queen);
      var hit := if !rest[0].collected && Collides(queen, Shift(rest[0].box, speed)) then 1 else 0;
      var p := CoinPass(rest, speed, queen);
      && (t != [] ==> [t[0]] + CoinPass(t[1..], speed, queen).kept == p.kept
                        && hit + CoinPass(t[1..], speed, queen).picked == p.picked)
      && (t == [] ==> p.kept == [] && p.picked == hit)
  {
    if !rest[0].collected {
      var c := Shift(rest[0].box, speed);
      if !OffLeft(c) && !Collides(queen, c) {
        assert ([rest[0].(box := c)] + rest[1..])[1..] == rest[1..];
      }
    }
  }

  /** Splitting a sequence after one more element than a prefix. */
  lemma DoneRestAfter<T>(pre: seq<T>, tail: seq<T>)
    ensures tail != [] ==> Done(pre + tail, |pre| + 1) == pre + [tail[0]] && Rest(pre + tail, |pre| + 1) == tail[1..]
    ensures tail == [] ==> Done(pre + tail, |pre| + 1) == pre && Rest(pre + tail, |pre| + 1) == []
  {
    if tail != [] {
      assert (pre + tail)[..|pre| + 1] == pre + [tail[0]];
      assert (pre + tail)[|pre| + 1..] == tail[1..];
    }
  }

  /** One callback of the coin `forEach` does one step of CoinPass. */
  lemma VisitCoinStep(s: seq<Coin>, index: nat, speed: real, queen: Box)
    requires index < |s|
    ensures var s' := VisitCoin(s, index, speed, queen);
      var p := CoinPass(Rest(s, index), speed, queen);
      var p' := CoinPass(Rest(s', index + 1), speed, queen);
      var hit := !s[index].collected && Collides(queen, Shift(s[index].box, speed));
      && Done(s', index + 1) + p'.kept == Done(s, index) + p.kept
      && (if hit then 1 else 0) + p'.picked == p.picked
  {
    var rest := s[index..];
    var pre := s[..index];
    var tail := CoinTail(rest, speed, queen);
    assert rest[0] == s[index] && |pre| == index;
    assert Done(s, index) == pre && Rest(s, index) == rest;
    VisitCoinShape(s, index, speed, queen);
    assert VisitCoin(s, index, speed, queen) == pre + tail;
    CoinTailPass(rest, speed, queen);
    DoneRestAfter(pre, tail);
  }

  /** The callback of the coin `forEach` at `index`: it settles one more element of the
      pass, and `hit` says whether it counted a pickup. */
  method VisitCoinAt(kept: seq<Coin>, index: nat, speed: real, queen: Box) returns (after: seq<Coin>, hit: bool)
    requires index < |kept|
    ensures |after| <= |kept|
    ensures Done(after, index + 1) + CoinPass(Rest(after, index + 1), speed, queen).kept ==
            Done(kept, index) + CoinPass(Rest(kept, index), speed, queen).kept
    ensures (if hit then 1 else 0) + CoinPass(Rest(after, index + 1), speed, queen).picked ==
            CoinPass(Rest(kept, index), speed, queen).picked
  {
    after, hit := kept, false;
    var coin := after[index];
    if !coin.collected {
      coin := coin.(box := Shift(coin.box, speed));
      after := after[index := coin];
      if OffLeft(coin.box) {
        after := Splice(after, index);
      }
      if Collides(queen, coin.box) {
        hit := true;
        after := Splice(after, index);
      }
    }
    assert after == VisitCoin(kept, index, speed, queen);
    VisitCoinStep(kept, index, speed, queen);
  }

  /** A fresh coin touching the queen is removed once (the queen stands right of the
      canvas edge, so it is never also off screen), and the next coin slides into its index:
      the callback at `index + 1` never sees it, and it stays in place, unmoved. */
  lemma CoinSkippedAfterPickup(s: seq<Coin>, index: nat, speed: real, queen: Box)
    requires index + 1 < |s| && queen.x >= 0.0
    requires !s[index].collected && Collides(queen, Shift(s[index].box, speed))
    ensures |VisitCoin(s, index, speed, queen)| == |s| - 1
    ensures Done(VisitCoin(s, index, speed, queen), index + 1) == s[..index] + [s[index + 1]]
  {
    assert !OffLeft(Shift(s[index].box, speed));
    VisitCoinShape(s, index, speed, queen);
    assert s[index..][0] == s[index] && s[index..][1..] == s[index + 1..];
  }

  /** The coin `forEach` of update(), as JavaScript runs it. A coin both off screen and
      touching the queen is spliced twice at the same index (the second splice takes the
      following coin); marking the removed coin collected has no further effect. */
  method SweepCoins(coins: seq<Coin>, speed: real, queen: Box) returns (kept: seq<Coin>, picked: nat)
    ensures CoinOutcome(kept, picked) == CoinPass(coins, speed, queen)
  {
    ghost var total := CoinPass(coins, speed, queen);
    kept, picked := coins, 0;
    var n := |kept|;
    var index := 0;
    while index < n
      invariant index <= n && |kept| <= n
      invariant Done(kept, index) + CoinPass(Rest(kept, index), speed, queen).kept == total.kept
      invariant picked + CoinPass(Rest(kept, index), speed, queen).picked == total.picked
    {
      if index < |kept| {
        var hit;
        kept, hit := VisitCoinAt(kept, index, speed, queen);
        if hit {
          picked := picked + 1;
        }
      }
      index := index + 1;
    }
    assert Rest(kept, index) == [] && Done(kept, index) == kept;
  }

  class QueenShebaGame {
    const canvas: Canvas

    var isRunning: bool
    var isGameOver: bool
    var score: nat
    var coinsCollected: nat
    var speed: real
    var queen: Queen
    var obstacleTimer: int
    var coinTimer: int
    var obstacles: seq<Box>
    var coins: seq<Coin>
    var clouds: seq<Cloud>

    /** The game's state as a value. */
    function State(): World
      reads this
    {
      World(isRunning, isGameOver, score, coinsCollected, speed, queen,
            obstacleTimer, coinTimer, obstacles, coins, clouds)
    }

    ghost predicate Valid()
      reads this
    {
      Inv(State(), canvas)
    }

    /** The constructor with initClouds: idle, queen on the ground, three clouds. */
    constructor (canvas: Canvas, cloudRolls: seq<CloudRoll>)
      requires |cloudRolls| == CloudCount
      ensures Valid() && this.canvas == canvas
      ensures State() == World(false, false, 0, 0, InitialSpeed, Queen(canvas.QueenTop(), 0.0, false),
                               0, 0, [], [], seq(CloudCount, i requires 0 <= i < CloudCount => InitCloud(cloudRolls[i], canvas)))
    {
      var initial: seq<Cloud> := [];
      for i := 0 to CloudCount
        invariant |initial| == i
        invariant forall j :: 0 <= j < i ==> initial[j] == InitCloud(cloudRolls[j], canvas)
        invariant forall c <- initial :: CloudOk(c, canvas)
      {
        RunnerLaws.InitCloudOk(cloudRolls[i], canvas);
        initial := initial + [InitCloud(cloudRolls[i], canvas)];
      }
      this.canvas := canvas;
      isRunning, isGameOver := false, false;
      score, coinsCollected, speed := 0, 0, InitialSpeed;
      queen := Queen(canvas.QueenTop(), 0.0, false);
      obstacles, obstacleTimer := [], 0;
      coins, coinTimer := [], 0;
      clouds := initial;
    }

    /** `jump()`: only from the ground. */
    method Jump()
      requires Valid()
      modifies this
      ensures Valid()
      ensures State() == old(State()).(queen := RunnerRules.Jump(old(queen)))
      ensures old(queen.isJumping) ==> State() == old(State())
      ensures !old(queen.isJumping) ==> queen.velocityY == JumpForce && queen.isJumping
    {
      if !queen.isJumping {
        queen := queen.(velocityY := JumpForce, isJumping := true);
      }
    }

    /** `stop()`; cancelling the pending animation frame is host scheduling. */
    method Stop()
      modifies this`isRunning, this`isGameOver
      ensures State() == Halt(old(State()))
      ensures old(Valid()) ==> Valid()
    {
      isRunning := false;
      isGameOver := true;
    }

    /** `start()`: resets the run (not the spawn timers or clouds) and runs the first
        frame of the game loop at once. */
    method Start(cloudRolls: seq<Roll>, coinRoll: Roll) returns (reports: seq<RunResult>, scheduled: bool)
      requires Valid() && |cloudRolls| == |clouds|
      modifies this
      ensures Valid()
      ensures Tick(State(), reports) == Step(Restart(old(State()), canvas), canvas, cloudRolls, coinRoll)
      ensures scheduled == isRunning
    {
      isRunning := true;
      isGameOver := false;
      score := 0;
      coinsCollected := 0;
      speed := InitialSpeed;
      obstacles := [];
      coins := [];
      queen := queen.(y := canvas.QueenTop(), velocityY := 0.0, isJumping := false);
      assert State() == Restart(old(State()), canvas);
      RunnerLaws.RestartEstablishesInv(old(State()), canvas);
      reports, scheduled := GameLoop(cloudRolls, coinRoll);
    }

    /** One turn of `gameLoop()`: update, draw (not modelled), and reschedule while running. */
    method GameLoop(cloudRolls: seq<Roll>, coinRoll: Roll) returns (reports: seq<RunResult>, scheduled: bool)
      requires Valid() && |cloudRolls| == |clouds|
      modifies this
      ensures Valid()
      ensures Tick(State(), reports) == Step(old(State()), canvas, cloudRolls, coinRoll)
      ensures scheduled == isRunning
    {
      reports := Update(cloudRolls, coinRoll);
      scheduled := isRunning;
    }

    /** `update()`: one frame. Returns one report per `onGameOver` call the frame makes. */
    method Update(cloudRolls: seq<Roll>, coinRoll: Roll) returns (reports: seq<RunResult>)
      requires Valid() && |cloudRolls| == |clouds|
      modifies this
      ensures Valid()
      ensures Tick(State(), reports) == Step(old(State()), canvas, cloudRolls, coinRoll)
    {
      ghost var w := State();
      RunnerLaws.StepPreservesInv(w, canvas, cloudRolls, coinRoll);
      if !isRunning {
        reports := [];
        return;
      }
      AdvanceFrame(cloudRolls);
      var hits := ObstacleFrame();
      // Each hit calls stop() (idempotent) and onGameOver(), which reads score and coinsCollected.
      var report := RunResult(score, coinsCollected);
      reports := seq(hits, _ => report);
      CoinFrame(coinRoll);
    }

    /** The first part of update(): score and difficulty ramp, gravity and the ground
        clamp, and the cloud scroll. */
    method AdvanceFrame(cloudRolls: seq<Roll>)
      requires |cloudRolls| == |clouds|
      modifies this`score, this`speed, this`queen, this`clouds
      ensures State() == Advance(old(State()), canvas, cloudRolls)
    {
      score := score + 1;
      if score % RampPeriod == 0 {
        speed := speed + SpeedStep;
      }

      queen := queen.(velocityY := queen.velocityY + Gravity);
      queen := queen.(y := queen.y + queen.velocityY);
      if queen.y >= canvas.QueenTop() {
        queen := queen.(y := canvas.QueenTop(), velocityY := 0.0, isJumping := false);
      }

      var scrolled := clouds;
      var i := 0;
      while i < |scrolled|
        invariant 0 <= i <= |scrolled| == |clouds|
        invariant forall j :: 0 <= j < i ==> scrolled[j] == ScrollCloud(clouds[j], cloudRolls[j], canvas)
        invariant forall j :: i <= j < |scrolled| ==> scrolled[j] == clouds[j]
      {
        var cloud := scrolled[i];
        cloud := cloud.(x := cloud.x - cloud.speed);
        if cloud.x + cloud.width < 0.0 {
          cloud := cloud.(x := canvas.width as real, y := cloudRolls[i] * (canvas.GroundY() - CloudCeiling));
        }
        scrolled := scrolled[i := cloud];
        i := i + 1;
      }
      clouds := scrolled;
    }

    /** The obstacle part of update(): the spawn timer, then the obstacle loop; each hit
        calls stop(). Returns the number of hits. */
    method ObstacleFrame() returns (hits: nat)
      modifies this`obstacleTimer, this`obstacles, this`isRunning, this`isGameOver
      ensures (State(), hits) == ObstaclePhase(old(State()), canvas)
    {
      ghost var w := State();
      ghost var timer := TimerStep(obstacleTimer, ObstacleInterval);
      ghost var waiting := obstacles + (if timer.1 then [NewObstacle(canvas)] else []);
      obstacleTimer := obstacleTimer + 1;
      if obstacleTimer > ObstacleInterval {
        obstacleTimer := 0;
        obstacles := obstacles + [NewObstacle(canvas)];
      }
      assert obstacles == waiting && obstacleTimer == timer.0;
      obstacles, hits := SweepObstacles(obstacles, speed, QueenBox(queen));
      ghost var p := ObstaclePass(waiting, w.speed, QueenBox(w.queen));
      assert obstacles == p.kept && hits == p.hits;
      if hits > 0 {
        Stop();
      }
    }

    /** The coin part of update(): the spawn timer, then the coin loop, which adds each
        pickup to coinsCollected. */
    method CoinFrame(coinRoll: Roll)
      modifies this`coinTimer, this`coins, this`coinsCollected
      ensures State() == CoinPhase(old(State()), canvas, coinRoll)
    {
      ghost var w := State();
      ghost var timer := TimerStep(coinTimer, CoinInterval);
      ghost var waiting := coins + (if timer.1 then [NewCoin(canvas, coinRoll)] else []);
      coinTimer := coinTimer + 1;
      if coinTimer > CoinInterval {
        coinTimer := 0;
        coins := coins + [NewCoin(canvas, coinRoll)];
      }
      assert coins == waiting && coinTimer == timer.0;
      var picked;
      coins, picked := SweepCoins(coins, speed, QueenBox(queen));
      coinsCollected := coinsCollected + picked;
      ghost var p := CoinPass(waiting, w.speed, QueenBox(w.queen));
      assert coins == p.kept;
      assert State() == w.(coinTimer := timer.0, coins := p.kept, coinsCollected := w.coinsCollected + p.picked);
    }
  }
}
