// Properties of the gift economy (EconomyRules): what each handler of script.js promises
// about coins, levels, energy, upgrades, rewards and the start-up merge.

module EconomyLaws {
  import RunnerRules
  import opened EconomyRules

  // ---------------------------------------------------------------------------------------
  // updateCoins()

  /** The level bracket determines the level: no other level fits the balance. */
  lemma LevelForUnique(coins: nat, level: int)
    requires (level - 1) * LevelSpan <= coins < level * LevelSpan
    ensures level == LevelFor(coins)
  {
  }

  /** More coins never mean a lower level. */
  lemma LevelForMonotone(a: nat, b: nat)
    requires a <= b
    ensures LevelFor(a) <= LevelFor(b)
  {
  }

  /** updateCoins() leaves a non-negative balance that equals the old one when that was
      non-negative, the level of that balance, and nothing else changed but the sync flag;
      a second call changes nothing further. */
  lemma SettleNormalises(e: Wallet)
    ensures var r := Settle(e);
      && r.coins >= 0
      && (e.coins >= 0 ==> r.coins == e.coins)
      && (e.coins < 0 ==> r.coins == 0)
      && r.level == LevelFor(r.coins)
      && r.needsSync
      && r == e.(coins := r.coins, level := r.level, needsSync := true)
      && Settle(r) == r
  {
  }

  /** updateCoins() establishes the invariant whenever energy is within its cap. */
  lemma SettleEstablishesInv(e: Wallet)
    requires e.energy <= e.maxEnergy
    ensures Inv(Settle(e))
  {
  }

  /** A credit of a non-negative amount adds exactly that amount, with the matching level. */
  lemma CreditAdds(e: Wallet, amount: int)
    requires Inv(e) && amount >= 0
    ensures var r := Credit(e, amount);
      Inv(r) && r.coins == e.coins + amount && r.level >= e.level
      && r.energy == e.energy && r.upgrades == e.upgrades && r.coinsPerTap == e.coinsPerTap
  {
    LevelForMonotone(e.coins, e.coins + amount);
  }

  /** The channel rewards are unconditional: each call pays again. */
  lemma ChannelRewardsRepeat(e: Wallet)
    requires Inv(e)
    ensures Credit(Credit(e, ChannelReward), ChannelReward).coins == e.coins + 2 * ChannelReward
    ensures Credit(Credit(e, SubscribeReward), SubscribeReward).coins == e.coins + 2 * SubscribeReward
  {
    CreditAdds(e, ChannelReward);
    CreditAdds(Credit(e, ChannelReward), ChannelReward);
    CreditAdds(e, SubscribeReward);
    CreditAdds(Credit(e, SubscribeReward), SubscribeReward);
  }

  // ---------------------------------------------------------------------------------------
  // buyUpgrade()

  /** A purchase changes the state exactly when an entry has the id and the balance covers
      its cost. */
  lemma BuyRefusedIff(e: Wallet, id: int)
    ensures Buy(e, id) == e <==>
      FindUpgrade(e.upgrades, id).None? || e.coins < e.upgrades[FindUpgrade(e.upgrades, id).value].cost
  {
    var f := FindUpgrade(e.upgrades, id);
    if f.Some? && e.coins >= e.upgrades[f.value].cost {
      var i := f.value;
      assert Buy(e, id).upgrades[i].level == e.upgrades[i].level + 1;
    }
  }

  /** A purchase pays exactly the old cost, levels the bought entry up and doubles its
      price, leaves the other entries alone, and applies the entry's effect and nothing
      else. */
  lemma BuyPays(e: Wallet, id: int, i: nat)
    requires FindUpgrade(e.upgrades, id) == Some(i)
    requires e.coins >= e.upgrades[i].cost
    ensures var u := e.upgrades[i];
      var r := Buy(e, id);
      && r.coins == e.coins - u.cost
      && r.level == LevelFor(r.coins)
      && |r.upgrades| == |e.upgrades|
      && r.upgrades[i] == u.(level := u.level + 1, cost := 2 * u.cost)
      && (forall j :: 0 <= j < |e.upgrades| && j != i ==> r.upgrades[j] == e.upgrades[j])
      && r.lastDailyReward == e.lastDailyReward
      && r.coinsPerTap == e.coinsPerTap + (if u.kind == "tap" then 1 else 0)
      && r.maxEnergy == e.maxEnergy + (if u.kind == "energy" then 5 else 0)
      && r.energy == e.energy + (if u.kind == "energy" then 5 else 0)
      && r.energyRegenRate == e.energyRegenRate + (if u.kind == "regen" then 1 else 0)
  {
  }

  /** Every purchase, made or refused, keeps the invariant: the balance cannot go below
      zero and energy stays within its (possibly raised) cap. */
  lemma BuyKeepsInv(e: Wallet, id: int)
    requires Inv(e)
    ensures Inv(Buy(e, id))
    ensures e.energy >= 0 ==> Buy(e, id).energy >= 0
  {
  }

  // ---------------------------------------------------------------------------------------
  // Energy

  /** A regeneration tick touches only energy, and only below the cap; it never exceeds the
      cap, never makes energy negative at a non-negative rate, and at a positive rate makes
      progress. */
  lemma RegenBounds(e: Wallet)
    ensures var r := Regen(e);
      && r == e.(energy := r.energy)
      && (e.energy >= e.maxEnergy ==> r == e)
      && (e.energy <= e.maxEnergy ==> r.energy <= r.maxEnergy)
      && (0 <= e.energy && e.energyRegenRate >= 0 ==> 0 <= r.energy)
      && (e.energy < e.maxEnergy && e.energyRegenRate >= 1 ==> e.energy < r.energy)
  {
  }

  /** Enough ticks fill the energy bar: once `n` ticks at the current rate cover the
      shortfall, the energy is at the cap. */
  lemma {:induction false} RegenFills(e: Wallet, n: nat)
    requires e.energy <= e.maxEnergy && e.energyRegenRate >= 1
    requires n * e.energyRegenRate >= e.maxEnergy - e.energy
    ensures RegenTicks(e, n).energy == e.maxEnergy
    ensures RegenTicks(e, n) == e.(energy := e.maxEnergy)
    decreases n
  {
    if n > 0 {
      var r := Regen(e);
      if r.energy < r.maxEnergy {
        assert r.energy == e.energy + e.energyRegenRate;
        assert (n - 1) * e.energyRegenRate == n * e.energyRegenRate - e.energyRegenRate;
      }
      RegenFills(r, n - 1);
    }
  }

  /** startGame() with energy left spends exactly one unit, so energy never goes negative. */
  lemma SpendKeepsEnergy(e: Wallet)
    requires CanStart(e)
    ensures Spend(e).energy == e.energy - 1 >= 0
    ensures Inv(e) ==> Inv(Spend(e))
  {
  }

  // ---------------------------------------------------------------------------------------
  // The game-over reward

  /** The reward is never negative at a non-negative coins-per-tap rate. */
  lemma RewardNonNegative(r: RunnerRules.RunResult, coinsPerTap: int)
    requires coinsPerTap >= 0
    ensures Reward(r, coinsPerTap) >= 0
  {
  }

  /** Settling the reports of a frame adds up their rewards and keeps the invariant; the
      rate, the energy and the upgrades are not touched. */
  lemma {:induction false} PayAllAddsUp(e: Wallet, reports: seq<RunnerRules.RunResult>)
    requires Inv(e) && e.coinsPerTap >= 0
    ensures var r := PayAll(e, reports);
      && Inv(r)
      && r.coins == e.coins + TotalReward(reports, e.coinsPerTap)
      && r.coinsPerTap == e.coinsPerTap && r.energy == e.energy && r.upgrades == e.upgrades
    decreases |reports|
  {
    if reports != [] {
      var amount := Reward(reports[0], e.coinsPerTap);
      RewardNonNegative(reports[0], e.coinsPerTap);
      CreditAdds(e, amount);
      PayAllAddsUp(Pay(e, reports[0]), reports[1..]);
    }
  }

  // ---------------------------------------------------------------------------------------
  // claimDailyReward()

  /** One claim per date string: the first pays 50 and records the date, a second one with
      the same date changes nothing; a different date pays again. */
  lemma ClaimDailyOncePerDate(e: Wallet, today: string)
    ensures ClaimDaily(ClaimDaily(e, today), today) == ClaimDaily(e, today)
    ensures e.lastDailyReward == Some(today) ==> ClaimDaily(e, today) == e
    ensures Inv(e) && e.lastDailyReward != Some(today) ==>
      ClaimDaily(e, today).coins == e.coins + DailyReward &&
      ClaimDaily(e, today).lastDailyReward == Some(today)
  {
  }

  // ---------------------------------------------------------------------------------------
  // Saving, loading and start-up

  /** Offline energy never exceeds the cap, is never negative for a save from the past at
      non-negative rates, and is full once the elapsed whole seconds cover the cap. */
  lemma OfflineEnergyBounds(timestamp: int, now: int, rate: int, maxEnergy: int)
    ensures OfflineEnergy(timestamp, now, rate, maxEnergy) <= maxEnergy
    ensures timestamp != 0 && timestamp <= now && rate >= 0 && maxEnergy >= 0 ==>
      OfflineEnergy(timestamp, now, rate, maxEnergy) >= 0
    ensures timestamp != 0 && (now - timestamp) / MillisPerSecond * rate >= maxEnergy ==>
      OfflineEnergy(timestamp, now, rate, maxEnergy) == maxEnergy
  {
    if timestamp != 0 && timestamp <= now && rate >= 0 {
      var secs := (now - timestamp) / MillisPerSecond;
      assert secs >= 0;
      assert secs * rate >= 0;
    }
  }

  /** A save followed by a load restores every saved field except energy, which is
      recomputed from the time elapsed since the save; the sync flag is not saved. This
      needs non-zero numbers, since a stored 0 loads as the default. */
  lemma SnapshotRestore(e: Wallet, before: Wallet, saveTime: int, now: int)
    requires e.maxEnergy != 0 && e.coinsPerTap != 0 && e.level != 0 && e.energyRegenRate != 0
    ensures Restore(before, Snapshot(e, saveTime), now) ==
      e.(energy := OfflineEnergy(saveTime, now, e.energyRegenRate, e.maxEnergy), needsSync := before.needsSync)
  {
  }

  /** The initial state satisfies the invariant. */
  lemma InitialInv()
    ensures Inv(Initial())
  {
  }

  /** A loaded state never has more energy than its cap. */
  lemma LoadLocalEnergy(e: Wallet, saved: Option<SaveData>, now: int)
    requires e.energy <= e.maxEnergy
    ensures LoadLocal(e, saved, now).energy <= LoadLocal(e, saved, now).maxEnergy
  {
    if saved.Some? {
      var d := saved.value;
      OfflineEnergyBounds(d.timestamp, now, OrDefault(d.energyRegenRate, DefaultRegenRate),
                          OrDefault(d.maxEnergy, DefaultMaxEnergy));
    }
  }

  /** Start-up ends in a consistent state, whatever was stored and whatever the server
      said; the balance is the largest of zero, the local balance and the server's; and
      the level always follows the balance, so the server's level never survives. */
  lemma BootMerges(e: Wallet, saved: Option<SaveData>, now: int, server: Option<ServerData>)
    requires e.energy <= e.maxEnergy
    ensures var r := Boot(e, saved, now, server);
      var local := LoadLocal(e, saved, now);
      && Inv(r)
      && r.coins >= local.coins
      && (server.Some? ==> r.coins >= server.value.coins)
      && (r.coins == 0 || r.coins == local.coins || (server.Some? && r.coins == server.value.coins))
      && r.level == LevelFor(r.coins)
  {
    LoadLocalEnergy(e, saved, now);
  }

  /** A player known to neither the device nor the server starts from the initial state
      with full energy. */
  lemma BootFresh(now: int)
    ensures Boot(Initial(), None, now, None) == Initial().(needsSync := true)
  {
  }
}
