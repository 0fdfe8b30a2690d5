// The global `gameState` of script.js as a class whose handlers update its fields in
// place; each is proved against its pure counterpart in EconomyRules.

module Economy {
  import RunnerRules
  import Runner
  import opened EconomyRules
  import EconomyLaws

  /** `upgrades.find(u => u.id === id)`, as a scan from the front. */
  method Find(upgrades: seq<Upgrade>, id: int) returns (found: Option<nat>)
    ensures found == FindUpgrade(upgrades, id)
  {
    var i := 0;
    while i < |upgrades| && upgrades[i].id != id
      invariant 0 <= i <= |upgrades|
      invariant forall j :: 0 <= j < i ==> upgrades[j].id != id
    {
      i := i + 1;
    }
    found := if i == |upgrades| then None else Some(i);
  }

  class GameState {
    var coins: int
    var energy: int
    var maxEnergy: int
    var coinsPerTap: int
    var level: int
    var energyRegenRate: int
    var upgrades: seq<Upgrade>
    var lastDailyReward: Option<string>
    var needsSync: bool

    /** The state as a value. */
    function State(): Wallet
      reads this
    {
      Wallet(coins, energy, maxEnergy, coinsPerTap, level, energyRegenRate, upgrades,
              lastDailyReward, needsSync)
    }

    ghost predicate Valid()
      reads this
    {
      Inv(State())
    }

    /** The `gameState` literal. */
    constructor ()
      ensures State() == Initial() && Valid()
    {
      coins, energy, maxEnergy := 0, 10, DefaultMaxEnergy;
      coinsPerTap, level, energyRegenRate := DefaultCoinsPerTap, DefaultLevel, DefaultRegenRate;
      upgrades := [Upgrade(1, "Multitap", 1, 20, "tap"),
                   Upgrade(2, "Energy Limit", 1, 20, "energy"),
                   Upgrade(3, "Recharging Speed", 1, 50, "regen")];
      lastDailyReward := None;
      needsSync := false;
      EconomyLaws.InitialInv();
    }

    /** `updateCoins()`; the display, the upgrade list rendering and the local save are
        output only. */
    method UpdateCoins()
      modifies this
      ensures State() == Settle(old(State()))
      ensures old(energy <= maxEnergy) ==> Valid()
    {
      coins := if coins < 0 then 0 else coins;
      level := coins / LevelSpan + 1;
      needsSync := true;
      if old(energy <= maxEnergy) {
        EconomyLaws.SettleEstablishesInv(old(State()));
      }
    }

    /** `buyUpgrade(upgradeId)`. */
    method BuyUpgrade(id: int) returns (bought: bool)
      modifies this
      ensures State() == Buy(old(State()), id)
      ensures bought <==> FindUpgrade(old(upgrades), id).Some? &&
                          old(coins) >= old(upgrades)[FindUpgrade(old(upgrades), id).value].cost
      ensures old(Valid()) ==> Valid()
    {
      ghost var e := State();
      if Valid() {
        EconomyLaws.BuyKeepsInv(e, id);
      }
      var found := Find(upgrades, id);
      if found.None? || coins < upgrades[found.value].cost {
        bought := false;
        return;
      }
      var i := found.value;
      var upgrade := upgrades[i];
      ghost var paid := e.(coins := e.coins - upgrade.cost, upgrades := e.upgrades[i := LevelUp(upgrade)]);
      assert Buy(e, id) == Settle(ApplyUpgrade(paid, upgrade.kind));
      coins := coins - upgrade.cost;
      upgrades := upgrades[i := upgrade.(level := upgrade.level + 1, cost := upgrade.cost * 2)];
      assert State() == paid;
      Apply(upgrade.kind);
      UpdateCoins();
      bought := true;
    }

    /** The branch on the bought entry's `type` inside buyUpgrade(). */
    method Apply(kind: string)
      modifies this`coinsPerTap, this`maxEnergy, this`energy, this`energyRegenRate
      ensures State() == ApplyUpgrade(old(State()), kind)
    {
      if kind == "tap" {
        coinsPerTap := coinsPerTap + 1;
      } else if kind == "energy" {
        maxEnergy := maxEnergy + EnergyUpgradeStep;
        energy := energy + EnergyUpgradeStep;
      } else if kind == "regen" {
        energyRegenRate := energyRegenRate + 1;
      }
    }

    /** The body of the startEnergyRegen interval. */
    method RegenTick()
      modifies this`energy
      ensures State() == Regen(old(State()))
      ensures old(Valid()) ==> Valid()
    {
      if energy < maxEnergy {
        energy := Min(energy + energyRegenRate, maxEnergy);
      }
    }

    /** The onGameOver handler, for one report of the game. */
    method OnGameOver(r: RunnerRules.RunResult)
      modifies this
      ensures State() == Pay(old(State()), r)
      ensures old(Valid()) ==> Valid()
    {
      var coinsEarned := r.coinsCollected * coinsPerTap;
      var distanceBonus := r.score / 100;
      coins := coins + coinsEarned + distanceBonus;
      UpdateCoins();
    }

    /** The onGameOver calls one frame of the game made, in order. */
    method SettleRun(reports: seq<RunnerRules.RunResult>)
      modifies this
      ensures State() == PayAll(old(State()), reports)
      ensures old(Valid()) ==> Valid()
    {
      for k := 0 to |reports|
        invariant PayAll(State(), reports[k..]) == PayAll(old(State()), reports)
        invariant old(Valid()) ==> Valid()
      {
        assert reports[k..][1..] == reports[k + 1..];
        OnGameOver(reports[k]);
      }
    }

    /** `startGame()`: refuses without energy; otherwise spends one unit and starts the
        runner, whose first frame runs at once. Returns whether the game loop goes on and
        the onGameOver calls of that first frame, which are settled here. */
    method StartGame(game: Runner.QueenShebaGame, cloudRolls: seq<RunnerRules.Roll>, coinRoll: RunnerRules.Roll)
      returns (started: bool, scheduled: bool, reports: seq<RunnerRules.RunResult>)
      requires game.Valid() && |cloudRolls| == |game.clouds|
      modifies this, game
      ensures started <==> CanStart(old(State()))
      ensures !started ==> State() == old(State()) && game.State() == old(game.State()) && !scheduled && reports == []
      ensures started ==> game.Valid() && scheduled == game.isRunning
      ensures started ==> RunnerRules.Tick(game.State(), reports) ==
                            RunnerRules.Step(RunnerRules.Restart(old(game.State()), game.canvas), game.canvas, cloudRolls, coinRoll)
      ensures started ==> State() == PayAll(Spend(old(State())), reports)
      ensures old(Valid()) ==> Valid()
    {
      if energy < 1 {
        started, scheduled, reports := false, false, [];
        return;
      }
      EconomyLaws.SpendKeepsEnergy(State());
      energy := energy - 1;
      started := true;
      reports, scheduled := game.Start(cloudRolls, coinRoll);
      SettleRun(reports);
    }

    /** A later turn of the game loop, with the onGameOver calls it makes settled. */
    method Frame(game: Runner.QueenShebaGame, cloudRolls: seq<RunnerRules.Roll>, coinRoll: RunnerRules.Roll)
      returns (scheduled: bool, reports: seq<RunnerRules.RunResult>)
      requires game.Valid() && |cloudRolls| == |game.clouds|
      modifies this, game
      ensures game.Valid() && scheduled == game.isRunning
      ensures RunnerRules.Tick(game.State(), reports) == RunnerRules.Step(old(game.State()), game.canvas, cloudRolls, coinRoll)
      ensures State() == PayAll(old(State()), reports)
      ensures old(Valid()) ==> Valid()
    {
      reports, scheduled := game.GameLoop(cloudRolls, coinRoll);
      SettleRun(reports);
    }

    /** `claimDailyReward()` on the date string `today`. */
    method ClaimDailyReward(today: string) returns (claimed: bool)
      modifies this
      ensures State() == ClaimDaily(old(State()), today)
      ensures claimed <==> old(lastDailyReward) != Some(today)
      ensures old(Valid()) ==> Valid()
    {
      if lastDailyReward == Some(today) {
        claimed := false;
        return;
      }
      coins := coins + DailyReward;
      lastDailyReward := Some(today);
      UpdateCoins();
      claimed := true;
    }

    /** `joinChannelReward()`; opening the channel is a foreign call. */
    method JoinChannelReward()
      modifies this
      ensures State() == Credit(old(State()), ChannelReward)
      ensures old(Valid()) ==> Valid()
    {
      coins := coins + ChannelReward;
      UpdateCoins();
    }

    /** `subscribeChannelReward()`; opening the channel is a foreign call. */
    method SubscribeChannelReward()
      modifies this
      ensures State() == Credit(old(State()), SubscribeReward)
      ensures old(Valid()) ==> Valid()
    {
      coins := coins + SubscribeReward;
      UpdateCoins();
    }

    /** `loadGameState()` with the stored record (if any) already parsed and the clock
        reading `now` in milliseconds. */
    method LoadGameState(saved: Option<SaveData>, now: int) returns (loaded: bool)
      modifies this
      ensures loaded <==> saved.Some?
      ensures State() == LoadLocal(old(State()), saved, now)
    {
      if saved.None? {
        return false;
      }
      var data := saved.value;
      coins := data.coins;
      maxEnergy := OrDefault(data.maxEnergy, DefaultMaxEnergy);
      coinsPerTap := OrDefault(data.coinsPerTap, DefaultCoinsPerTap);
      level := OrDefault(data.level, DefaultLevel);
      energyRegenRate := OrDefault(data.energyRegenRate, DefaultRegenRate);
      if data.upgrades.Some? {
        upgrades := data.upgrades.value;
      }
      lastDailyReward := data.lastDailyReward;
      if data.timestamp != 0 {
        var timePassed := (now - data.timestamp) / MillisPerSecond;
        var energyGained := Min(timePassed * energyRegenRate, maxEnergy);
        energy := Min(energyGained, maxEnergy);
      } else {
        energy := maxEnergy;
      }
      return true;
    }

    /** The state-setting part of `init()`: the local save, then the server's answer (if
        any), the welcome energy, and updateCoins(). */
    method Init(saved: Option<SaveData>, now: int, server: Option<ServerData>)
      requires energy <= maxEnergy
      modifies this
      ensures State() == Boot(old(State()), saved, now, server)
      ensures Valid()
    {
      EconomyLaws.BootMerges(State(), saved, now, server);
      var loaded := LoadGameState(saved, now);
      if server.Some? && server.value.coins > coins {
        coins := server.value.coins;
        level := OrDefault(server.value.level, level);
      }
      if !loaded && server.None? {
        energy := maxEnergy;
      }
      UpdateCoins();
    }
  }
}
