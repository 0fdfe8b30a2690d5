// The runner simulation of game.js as values: its constants, the world it owns, and one
// frame of `update()` as the pure function Step. The class in runner.dfy is proved against it.

module RunnerRules {
  import opened Geometry

  // Physics and pacing constants of the QueenShebaGame constructor and update().
  const Gravity: real := 0.6
  const JumpForce: real := -12.0
  const InitialSpeed: real := 5.0
  const SpeedStep: real := 0.5
  const RampPeriod: nat := 500

  // Queen Sheba's fixed box (x never changes) and the ground line, 50 above the canvas bottom.
  const QueenX: real := 80.0
  const QueenWidth: real := 40.0
  const QueenHeight: real := 50.0
  const GroundMargin: real := 50.0

  // Spawning: rocks every obstacleInterval ticks, coins every coinInterval ticks.
  const ObstacleInterval: int := 100
  const ObstacleSize: real := 30.0
  const CoinInterval: int := 60
  const CoinSize: real := 25.0
  const CoinLift: real := 80.0
  const CoinSpread: real := 60.0

  // Decorative clouds: three of them, made by initClouds.
  const CloudCount: nat := 3
  const CloudHeight: real := 30.0
  const CloudMinWidth: real := 60.0
  const CloudWidthSpread: real := 40.0
  const CloudMinSpeed: real := 0.5
  const CloudSpeedSpread: real := 0.5
  const CloudCeiling: real := 100.0

  /** A value of `Math.random()`. */
  type Roll = r: real | 0.0 <= r < 1.0

  /** The canvas size the game was built with; groundY is derived from the height. */
  datatype Canvas = Canvas(width: nat, height: nat) {
    function GroundY(): real { height as real - GroundMargin }
    /** The y at which the queen stands on the ground (`groundY - queen.height`). */
    function QueenTop(): real { GroundY() - QueenHeight }
  }

  /** The mutable part of the `queen` record; x, width and height are constants. */
  datatype Queen = Queen(y: real, velocityY: real, isJumping: bool)

  function QueenBox(q: Queen): Box
  {
    Box(QueenX, q.y, QueenWidth, QueenHeight)
  }

  datatype Coin = Coin(box: Box, collected: bool)

  datatype Cloud = Cloud(x: real, y: real, width: real, height: real, speed: real)

  /** The four `Math.random()` draws initClouds makes for one cloud. */
  datatype CloudRoll = CloudRoll(x: Roll, y: Roll, width: Roll, speed: Roll)

  /** What the host reads from the game when `onGameOver` fires. */
  datatype RunResult = RunResult(score: nat, coinsCollected: nat)

  /** Everything `update()` reads or writes. */
  datatype World = World(
    isRunning: bool,
    isGameOver: bool,
    score: nat,
    coinsCollected: nat,
    speed: real,
    queen: Queen,
    obstacleTimer: int,
    coinTimer: int,
    obstacles: seq<Box>,
    coins: seq<Coin>,
    clouds: seq<Cloud>)

  /** One frame: the new world and one report per `onGameOver` call made during it. */
  datatype Tick = Tick(world: World, reports: seq<RunResult>)

  // ---------------------------------------------------------------------------------------
  // Entities as created by the game

  function InitCloud(r: CloudRoll, canvas: Canvas): Cloud
  {
    Cloud(r.x * canvas.width as real,
          r.y * (canvas.GroundY() - CloudCeiling),
          CloudMinWidth + r.width * CloudWidthSpread,
          CloudHeight,
          CloudMinSpeed + r.speed * CloudSpeedSpread)
  }

  function NewObstacle(canvas: Canvas): Box
  {
    Box(canvas.width as real, canvas.GroundY() - ObstacleSize, ObstacleSize, ObstacleSize)
  }

  function NewCoin(canvas: Canvas, r: Roll): Coin
  {
    Coin(Box(canvas.width as real, canvas.GroundY() - CoinLift - r * CoinSpread, CoinSize, CoinSize), false)
  }

  // ---------------------------------------------------------------------------------------
  // The pieces of one frame

  /** The queen's response to `jump()`: no jump while already airborne. */
  function Jump(q: Queen): Queen
  {
    if q.isJumping then q else q.(velocityY := JumpForce, isJumping := true)
  }

  /** Gravity, then the ground clamp. */
  function Fall(q: Queen, top: real): Queen
  {
    var v := q.velocityY + Gravity;
    var y := q.y + v;
    if y >= top then Queen(top, 0.0, false) else Queen(y, v, q.isJumping)
  }

  /** The speed after the score has been incremented to `score`. */
  function Ramp(speed: real, score: int): real
  {
    if score % RampPeriod as int == 0 then speed + SpeedStep else speed
  }

  /** The speed of a run after `n` running frames. */
  function SpeedAfter(n: nat): real
  {
    if n == 0 then InitialSpeed else Ramp(SpeedAfter(n - 1), n)
  }

  /** A spawn timer: incremented, and reset with a spawn once it exceeds the interval. */
  function TimerStep(timer: int, interval: int): (int, bool)
  {
    if timer + 1 > interval then (0, true) else (timer + 1, false)
  }

  function ScrollCloud(c: Cloud, r: Roll, canvas: Canvas): Cloud
  {
    var x := c.x - c.speed;
    if x + c.width < 0.0 then c.(x := canvas.width as real, y := r * (canvas.GroundY() - CloudCeiling))
    else c.(x := x)
  }

  function ScrollClouds(clouds: seq<Cloud>, rolls: seq<Roll>, canvas: Canvas): (r: seq<Cloud>)
    requires |rolls| == |clouds|
  {
    seq(|clouds|, i requires 0 <= i < |clouds| => ScrollCloud(clouds[i], rolls[i], canvas))
  }

  function Shift(b: Box, d: real): Box
  {
    b.(x := b.x - d)
  }

  /** Fully past the left edge of the canvas. */
  predicate OffLeft(b: Box)
  {
    b.x + b.width < 0.0
  }

  datatype ObstacleOutcome = ObstacleOutcome(kept: seq<Box>, hits: nat)

  /** The obstacle `forEach` of update(): each visited obstacle moves left by `speed`, is
      spliced out when off screen, and counts a hit when it overlaps the queen. Splicing the
      visited element shifts the next one into the current index, so that one is skipped
      this frame: it is kept, unmoved and untested. */
  function ObstaclePass(rest: seq<Box>, speed: real, queen: Box): (p: ObstacleOutcome)
    decreases |rest|
  {
    if rest == [] then ObstacleOutcome([], 0)
    else
      var o := Shift(rest[0], speed);
      var hit := if Collides(queen, o) then 1 else 0;
      if !OffLeft(o) then
        var p := ObstaclePass(rest[1..], speed, queen);
        ObstacleOutcome([o] + p.kept, hit + p.hits)
      else if |rest| == 1 then ObstacleOutcome([], hit)
      else
        var p := ObstaclePass(rest[2..], speed, queen);
        ObstacleOutcome([rest[1]] + p.kept, hit + p.hits)
  }

  datatype CoinOutcome = CoinOutcome(kept: seq<Coin>, picked: nat)

  /** The coin `forEach` of update(). A coin already collected is left alone. Otherwise it
      moves left; off screen it is spliced out; overlapping the queen it is counted and
      spliced out (again at the same index, so when both hold the second splice removes the
      following coin). The coin that slides into the index is skipped. */
  function CoinPass(rest: seq<Coin>, speed: real, queen: Box): (p: CoinOutcome)
    decreases |rest|
  {
    if rest == [] then CoinOutcome([], 0)
    else if rest[0].collected then
      var p := CoinPass(rest[1..], speed, queen);
      CoinOutcome([rest[0]] + p.kept, p.picked)
    else
      var c := Shift(rest[0].box, speed);
      var off := OffLeft(c);
      var hit := Collides(queen, c);
      if !off && !hit then
        var p := CoinPass(rest[1..], speed, queen);
        CoinOutcome([rest[0].(box := c)] + p.kept, p.picked)
      else
        var pick := if hit then 1 else 0;
        var after := if off && hit && |rest| > 1 then rest[2..] else rest[1..];
        if after == [] then CoinOutcome([], pick)
        else
          var p := CoinPass(after[1..], speed, queen);
          CoinOutcome([after[0]] + p.kept, pick + p.picked)
  }

  // ---------------------------------------------------------------------------------------
  // Whole-world operations

  /** The resets `start()` makes before running its first frame; timers and clouds stay. */
  function Restart(w: World, canvas: Canvas): World
  {
    w.(isRunning := true, isGameOver := false, score := 0, coinsCollected := 0,
       speed := InitialSpeed, obstacles := [], coins := [],
       queen := Queen(canvas.QueenTop(), 0.0, false))
  }

  /** `stop()`. */
  function Halt(w: World): World
  {
    w.(isRunning := false, isGameOver := true)
  }

  /** The first part of `update()`: score, difficulty ramp, the queen's fall, the clouds. */
  function Advance(w: World, canvas: Canvas, cloudRolls: seq<Roll>): World
    requires |cloudRolls| == |w.clouds|
  {
    var score := w.score + 1;
    w.(score := score, speed := Ramp(w.speed, score), queen := Fall(w.queen, canvas.QueenTop()),
       clouds := ScrollClouds(w.clouds, cloudRolls, canvas))
  }

  /** The obstacle timer and the obstacle pass; any hit stops the run. Also returns the
      number of hits. */
  function ObstaclePhase(w: World, canvas: Canvas): (World, nat)
  {
    var (timer, spawn) := TimerStep(w.obstacleTimer, ObstacleInterval);
    var p := ObstaclePass(w.obstacles + (if spawn then [NewObstacle(canvas)] else []), w.speed, QueenBox(w.queen));
    var v := w.(obstacleTimer := timer, obstacles := p.kept);
    (if p.hits > 0 then Halt(v) else v, p.hits)
  }

  /** The coin timer and the coin pass; pickups are added to coinsCollected. */
  function CoinPhase(w: World, canvas: Canvas, coinRoll: Roll): World
  {
    var (timer, spawn) := TimerStep(w.coinTimer, CoinInterval);
    var p := CoinPass(w.coins + (if spawn then [NewCoin(canvas, coinRoll)] else []), w.speed, QueenBox(w.queen));
    w.(coinTimer := timer, coins := p.kept, coinsCollected := w.coinsCollected + p.picked)
  }

  /** One call of `update()`, with one report per `onGameOver` call: each obstacle hit
      reports the new score and the coins counted before this frame's coin pass. */
  function Step(w: World, canvas: Canvas, cloudRolls: seq<Roll>, coinRoll: Roll): Tick
    requires |cloudRolls| == |w.clouds|
  {
    if !w.isRunning then Tick(w, [])
    else
      var a := Advance(w, canvas, cloudRolls);
      var (b, hits) := ObstaclePhase(a, canvas);
      Tick(CoinPhase(b, canvas, coinRoll), seq(hits, _ => RunResult(a.score, a.coinsCollected)))
  }

  // ---------------------------------------------------------------------------------------
  // The invariant every reachable world keeps

  ghost predicate ObstacleOk(o: Box, canvas: Canvas)
  {
    o.width == ObstacleSize && o.height == ObstacleSize && o.y == canvas.GroundY() - ObstacleSize &&
    -ObstacleSize <= o.x <= canvas.width as real
  }

  ghost predicate CoinOk(c: Coin, canvas: Canvas)
  {
    !c.collected && c.box.width == CoinSize && c.box.height == CoinSize &&
    canvas.GroundY() - CoinLift - CoinSpread < c.box.y <= canvas.GroundY() - CoinLift &&
    -CoinSize <= c.box.x <= canvas.width as real
  }

  ghost predicate CloudOk(c: Cloud, canvas: Canvas)
  {
    CloudMinWidth <= c.width < CloudMinWidth + CloudWidthSpread && c.height == CloudHeight &&
    CloudMinSpeed <= c.speed < CloudMinSpeed + CloudSpeedSpread &&
    -c.width <= c.x <= canvas.width as real
  }

  ghost predicate Inv(w: World, canvas: Canvas)
  {
    && 0 <= w.obstacleTimer <= ObstacleInterval
    && 0 <= w.coinTimer <= CoinInterval
    && w.speed == SpeedAfter(w.score)
    && (w.isRunning ==> !w.isGameOver)
    && w.queen.y <= canvas.QueenTop()
    && (!w.queen.isJumping ==> w.queen.y == canvas.QueenTop() && w.queen.velocityY == 0.0)
    && |w.clouds| == CloudCount
    && (forall c <- w.clouds :: CloudOk(c, canvas))
    && (forall o <- w.obstacles :: ObstacleOk(o, canvas))
    && (forall c <- w.coins :: CoinOk(c, canvas))
  }
}
