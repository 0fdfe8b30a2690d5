// The gift economy of script.js as values: the global `gameState`, its initial contents,
// and every transition the page makes on it as a pure function. The class in economy.dfy
// is proved against these.

module EconomyRules {
  import RunnerRules

  datatype Option<T> = None | Some(value: T)

  /** One entry of `gameState.upgrades`; `kind` is the entry's `type` ("tap", "energy" or
      "regen"). The icon and benefit strings are display text and are not modelled. */
  datatype Upgrade = Upgrade(id: int, name: string, level: int, cost: int, kind: string)

  /** The fields of `gameState` the economy reads or writes (`friends` is not modelled). */
  datatype Wallet = Wallet(
    coins: int,
    energy: int,
    maxEnergy: int,
    coinsPerTap: int,
    level: int,
    energyRegenRate: int,
    upgrades: seq<Upgrade>,
    lastDailyReward: Option<string>,
    needsSync: bool)

  // Coins per level, and the fixed rewards.
  const LevelSpan: int := 100
  const DailyReward: int := 50
  const ChannelReward: int := 100
  const SubscribeReward: int := 200

  // What an upgrade of each kind adds.
  const EnergyUpgradeStep: int := 5

  // The fall-backs of loadGameState for a stored 0 or a missing field.
  const DefaultMaxEnergy: int := 10
  const DefaultCoinsPerTap: int := 1
  const DefaultLevel: int := 1
  const DefaultRegenRate: int := 1

  const MillisPerSecond: int := 1000

  /** The `gameState` literal the page starts from. */
  function Initial(): Wallet
  {
    Wallet(0, 10, DefaultMaxEnergy, DefaultCoinsPerTap, DefaultLevel, DefaultRegenRate,
            [Upgrade(1, "Multitap", 1, 20, "tap"),
             Upgrade(2, "Energy Limit", 1, 20, "energy"),
             Upgrade(3, "Recharging Speed", 1, 50, "regen")],
            None, false)
  }

  function Min(a: int, b: int): int { if a < b then a else b }

  // ---------------------------------------------------------------------------------------
  // updateCoins()

  /** The level shown for a (normalised) coin balance: one level per 100 coins, from 1. */
  function LevelFor(coins: nat): (level: int)
    ensures level >= 1
    ensures (level - 1) * LevelSpan <= coins < level * LevelSpan
  {
    coins / LevelSpan + 1
  }

  /** `updateCoins()`: clamp the balance at zero (Math.floor is the identity on the integer
      balance), set the level from it, and mark the state for the next server sync. */
  function Settle(e: Wallet): Wallet
  {
    var coins := if e.coins < 0 then 0 else e.coins;
    e.(coins := coins, level := LevelFor(coins), needsSync := true)
  }

  /** Credit (or debit) coins, then updateCoins(). */
  function Credit(e: Wallet, amount: int): Wallet
  {
    Settle(e.(coins := e.coins + amount))
  }

  /** What every handler of the page leaves behind: a non-negative balance, the level that
      goes with it, and no more energy than the cap. */
  predicate Inv(e: Wallet)
  {
    e.coins >= 0 && e.level == LevelFor(e.coins) && e.energy <= e.maxEnergy
  }

  // ---------------------------------------------------------------------------------------
  // buyUpgrade(upgradeId)

  /** `upgrades.find(u => u.id === id)`: the index of the first entry with that id. */
  function FindUpgrade(ups: seq<Upgrade>, id: int): (r: Option<nat>)
    ensures r.Some? ==> r.value < |ups| && ups[r.value].id == id
    ensures r.Some? ==> forall j :: 0 <= j < r.value ==> ups[j].id != id
    ensures r.None? ==> forall j :: 0 <= j < |ups| ==> ups[j].id != id
  {
    if ups == [] then None
    else if ups[0].id == id then Some(0)
    else
      match FindUpgrade(ups[1..], id)
      case None => None
      case Some(i) => Some(i + 1)
  }

  /** The effect of an upgrade of the given type; an unknown type has none. */
  function ApplyUpgrade(e: Wallet, kind: string): Wallet
  {
    if kind == "tap" then e.(coinsPerTap := e.coinsPerTap + 1)
    else if kind == "energy" then e.(maxEnergy := e.maxEnergy + EnergyUpgradeStep, energy := e.energy + EnergyUpgradeStep)
    else if kind == "regen" then e.(energyRegenRate := e.energyRegenRate + 1)
    else e
  }

  /** The bought entry: one level up, twice the price (floor of an integer cost times 2). */
  function LevelUp(u: Upgrade): Upgrade
  {
    u.(level := u.level + 1, cost := u.cost * 2)
  }

  /** `buyUpgrade(id)`: nothing without a matching entry or with too few coins; otherwise
      pay, apply the effect, level the entry up, and updateCoins(). */
  function Buy(e: Wallet, id: int): Wallet
  {
    match FindUpgrade(e.upgrades, id)
    case None => e
    case Some(i) =>
      var u := e.upgrades[i];
      if e.coins < u.cost then e
      else Settle(ApplyUpgrade(e.(coins := e.coins - u.cost, upgrades := e.upgrades[i := LevelUp(u)]), u.kind))
  }

  // ---------------------------------------------------------------------------------------
  // Energy

  /** One tick of the startEnergyRegen interval. */
  function Regen(e: Wallet): Wallet
  {
    if e.energy < e.maxEnergy then e.(energy := Min(e.energy + e.energyRegenRate, e.maxEnergy))
    else e
  }

  /** `n` ticks of the regeneration interval. */
  function RegenTicks(e: Wallet, n: nat): Wallet
    decreases n
  {
    if n == 0 then e else RegenTicks(Regen(e), n - 1)
  }

  /** startGame() goes ahead only with at least one unit of energy ... */
  predicate CanStart(e: Wallet)
  {
    e.energy >= 1
  }

  /** ... and spends exactly one. */
  function Spend(e: Wallet): Wallet
  {
    e.(energy := e.energy - 1)
  }

  // ---------------------------------------------------------------------------------------
  // The onGameOver handler

  /** Coins collected times coins per tap, plus one gift per 100 distance. */
  function Reward(r: RunnerRules.RunResult, coinsPerTap: int): (total: int)
    ensures 100 * (total - r.coinsCollected * coinsPerTap) <= r.score
    ensures r.score < 100 * (total - r.coinsCollected * coinsPerTap + 1)
  {
    r.coinsCollected * coinsPerTap + r.score / 100
  }

  /** One onGameOver call. */
  function Pay(e: Wallet, r: RunnerRules.RunResult): Wallet
  {
    Credit(e, Reward(r, e.coinsPerTap))
  }

  /** The onGameOver calls of one frame, in order. */
  function PayAll(e: Wallet, reports: seq<RunnerRules.RunResult>): Wallet
    decreases |reports|
  {
    if reports == [] then e else PayAll(Pay(e, reports[0]), reports[1..])
  }

  /** The sum of the rewards of a list of reports at a fixed coins-per-tap. */
  function TotalReward(reports: seq<RunnerRules.RunResult>, coinsPerTap: int): int
  {
    if reports == [] then 0 else Reward(reports[0], coinsPerTap) + TotalReward(reports[1..], coinsPerTap)
  }

  // ---------------------------------------------------------------------------------------
  // Tasks

  /** `claimDailyReward()` on the day whose date string is `today`. */
  function ClaimDaily(e: Wallet, today: string): Wallet
  {
    if e.lastDailyReward == Some(today) then e
    else Settle(e.(coins := e.coins + DailyReward, lastDailyReward := Some(today)))
  }

  // ---------------------------------------------------------------------------------------
  // Saving and loading

  /** What saveGameState() stores (the friends list is not modelled). A number the record
      lacks reads as 0 here, which the loader treats like a stored 0; a missing upgrade
      list is None. */
  datatype SaveData = SaveData(
    coins: int,
    energy: int,
    maxEnergy: int,
    coinsPerTap: int,
    level: int,
    energyRegenRate: int,
    upgrades: Option<seq<Upgrade>>,
    lastDailyReward: Option<string>,
    timestamp: int)

  /** The record saveGameState() writes at time `now` (milliseconds). */
  function Snapshot(e: Wallet, now: int): SaveData
  {
    SaveData(e.coins, e.energy, e.maxEnergy, e.coinsPerTap, e.level, e.energyRegenRate,
             Some(e.upgrades), e.lastDailyReward, now)
  }

  /** JavaScript's `v || d` on a number: 0 falls back to the default. */
  function OrDefault(v: int, d: int): (r: int)
    ensures r == v || r == d
    ensures r == d <==> v == 0 || v == d
  {
    if v == 0 then d else v
  }

  /** Energy after loading: the whole seconds since the save times the regeneration rate,
      capped at the maximum; a save without a timestamp loads with full energy. Whole
      seconds are floored, which Euclidean division by 1000 matches for either sign. */
  function OfflineEnergy(timestamp: int, now: int, rate: int, maxEnergy: int): int
  {
    if timestamp == 0 then maxEnergy
    else Min((now - timestamp) / MillisPerSecond * rate, maxEnergy)
  }

  /** loadGameState() on a stored record: the stored energy itself is never read back. */
  function Restore(e: Wallet, d: SaveData, now: int): Wallet
  {
    var maxEnergy := OrDefault(d.maxEnergy, DefaultMaxEnergy);
    var rate := OrDefault(d.energyRegenRate, DefaultRegenRate);
    e.(coins := d.coins,
       maxEnergy := maxEnergy,
       coinsPerTap := OrDefault(d.coinsPerTap, DefaultCoinsPerTap),
       level := OrDefault(d.level, DefaultLevel),
       energyRegenRate := rate,
       upgrades := if d.upgrades.Some? then d.upgrades.value else e.upgrades,
       lastDailyReward := d.lastDailyReward,
       energy := OfflineEnergy(d.timestamp, now, rate, maxEnergy))
  }

  /** loadGameState(): the stored record if there is one, else the state as it was. */
  function LoadLocal(e: Wallet, saved: Option<SaveData>, now: int): Wallet
  {
    if saved.Some? then Restore(e, saved.value, now) else e
  }

  /** What fetchUserData() answers, when it answers. */
  datatype ServerData = ServerData(coins: int, level: int)

  /** The start-up of init(): the local save first; then the server's balance, but only
      when it is strictly larger; full energy for a player known to neither; and finally
      updateCoins(). */
  function Boot(e: Wallet, saved: Option<SaveData>, now: int, server: Option<ServerData>): Wallet
  {
    var local := LoadLocal(e, saved, now);
    var merged :=
      if server.Some? && server.value.coins > local.coins
      then local.(coins := server.value.coins, level := OrDefault(server.value.level, local.level))
      else local;
    var welcomed := if saved.None? && server.None? then merged.(energy := merged.maxEnergy) else merged;
    Settle(welcomed)
  }
}
