# Queen Sheba runner and Saba Gift economy

This project models the two state machines at the heart of the Saba Gift Telegram mini-app:

* **The runner** (`game.js`, class `QueenShebaGame`): Queen Sheba runs on a ground line
  while rocks and coins scroll in from the right. Each animation frame (`update()`) adds
  one to the score, raises the speed by 0.5 every 500 frames, applies gravity and the
  ground clamp to the queen, scrolls the three clouds, spawns a rock every 101 frames and
  a coin every 61, moves and culls rocks and coins, ends the run when a rock overlaps
  the queen, and counts the coins she touches. `jump()` works only from the ground.
  `start()` resets the run and runs the first frame at once. `stop()` ends the run.
* **The gift economy** (`script.js`, the global `gameState`): coins and the level they
  imply, energy with its cap and regeneration, three upgrades with doubling prices, the
  game-over reward, the daily and channel rewards, restoring a local save (with energy
  regenerated offline), and the start-up merge with the server's balance.

Each part is written twice. The first version is a set of pure functions over values:
`RunnerRules.Step` for one frame, and `EconomyRules.Buy`, `Regen`, `Pay`, `ClaimDaily`,
`Restore`, `Boot` and the rest for the economy. The second version is a class that
updates its fields in place as the JavaScript does: `Runner.QueenShebaGame` and
`Economy.GameState`. Each class method is proved to produce exactly the state that its
pure function gives (`State() == F(old(State()), …)`). The properties the source promises
are then proved about the pure functions, in `RunnerLaws` and `EconomyLaws`.

Each class has an invariant, `Valid()`. For the runner, it says:

* the timers stay within their intervals;
* the speed is the one the ramp prescribes;
* the queen is never below the ground and is at rest whenever she is not jumping;
* every rock, coin and cloud has the size, height band and position the game gives it.

For the economy, it says that the balance is non-negative, that the level matches the
balance, and that energy does not exceed the cap. The constructors establish these
invariants. `Jump`, `Start`, `GameLoop` and `Update` take the runner's invariant as a
precondition and keep it. `Stop` keeps it. The frame helpers `AdvanceFrame`,
`ObstacleFrame` and `CoinFrame` are sub-steps of `Update` and carry no `Valid()`
contract. So every state the game reaches on a canvas of fixed size satisfies the
invariant (a resize is not modelled, see "## Left out"). Every economy handler keeps the economy's
invariant, except `Economy.GameState.LoadGameState`: `loadGameState()` does not call
`updateCoins()`, so it can load a negative balance or a level that does not match the
balance. The `init()` that follows it does call `updateCoins()`, and
`Economy.GameState.Init` ends in a valid state. The invariant does not include
`energy >= 0`, because a save stamped later than the clock loads with negative energy
(the elapsed time is negative).

JavaScript behaviour modelled exactly:

* **`forEach` with `splice`.** The obstacle and coin loops remove elements from the array
  they are walking. JavaScript fixes the loop's range before the first callback and skips
  any index past the current end. A removed element therefore makes the following one
  slide into its index, and that element is skipped for the frame: it is neither moved
  nor tested. `RunnerRules.ObstaclePass` and `RunnerRules.CoinPass` define this
  behaviour. `Runner.SweepObstacles` and `Runner.SweepCoins` run the index loop as
  JavaScript does and are proved equal to them.
* **Coin off screen and hit.** A coin that is off screen and also overlaps the queen
  would be spliced twice, and the second splice would remove the next coin. The model
  keeps this behaviour, and `RunnerLaws.OffLeftNeverCollides` shows it cannot happen,
  because the queen stands at x = 80.
* **The loops continue after `stop()`.** A rock hit calls `stop()` and then `onGameOver`,
  but the obstacle loop keeps going and the coin loop still runs. One frame can
  therefore call `onGameOver` once per overlapping rock.
  * `update()` returns one `RunResult(score, coinsCollected)` for each `onGameOver` call it makes. The score is the
    new one. The coin count is the one from before that frame's coin pass.
  * `Economy.GameState.SettleRun` applies the reward handler to each result in order.
  * Settling after the frame gives the same result as calling the handler during it,
    because the game never reads `gameState`.
* **`value || default` on numbers in `loadGameState`.** A stored 0 falls back to the
  default, just as a missing field does (`EconomyRules.OrDefault`).
* **Floors.**
  * `Math.floor((now - timestamp) / 1000)` is Euclidean division by 1000, which floors
    for either sign.
  * `Math.floor(score / 100)` is division of a natural number.
  * `Math.floor(coins)` and `Math.floor(cost * 2)` act on integers, where floor changes
    nothing.

Where descriptions of the game and the code differ, the model follows `game.js`:

* There is no difficulty tier. The level passed to the constructor at `script.js:182` is
  ignored.
* There are no obstacle variants: every rock is 30×30 and rests on the ground.
* There are no particles.
* The collision test has no inset. Boxes that only touch do not collide
  (`Geometry.TouchingBoxesDoNotCollide`).
* A rock hit does not stop the rest of the frame.

`Economy.GameState.BuyUpgrade` writes the new level and price of the bought entry before it
applies the entry's effect, whereas `buyUpgrade` applies the effect first. The two writes
touch different fields and nothing is read in between, so the final state is the same.

Randomness is passed in as parameters of type `RunnerRules.Roll`, a real in [0, 1). The
clock is a parameter in milliseconds. A date string is an opaque `string`. The canvas
size is a constructor parameter of the game.

## Model

| member | source | states |
|---|---|---|
| Geometry.CollidesSymmetric | game.js:233-238 | The collision test gives the same answer whichever box comes first. |
| Geometry.CollidesIffCommonPoint | game.js:233-238 | For boxes of positive size, the test holds exactly when the two open rectangles share a point, in both directions. |
| Geometry.TouchingBoxesDoNotCollide | game.js:233-238 | The inequalities are strict: boxes that meet only along an edge do not collide. |
| Runner.VisitObstacleStep | game.js:180-193 | One obstacle callback at `index` (move, splice if off screen, test the hit) advances the recursive obstacle pass by one step. The prefix already visited plus the pass over the rest is unchanged, and the hit count is carried over. |
| Runner.SweepObstacles | game.js:180-193 | The obstacle `forEach`, run as JavaScript runs it (range fixed at the start, indices past the current end skipped, splice at the current index), keeps exactly the obstacles `ObstaclePass` keeps and counts exactly its hits. |
| Runner.VisitCoinStep | game.js:209-230 | One coin callback (collected coins untouched; move; splice when off screen; count and splice again on a hit) advances the recursive coin pass by one step. |
| Runner.SweepCoins | game.js:209-230 | The coin `forEach`, run with JavaScript's splice semantics, keeps exactly the coins `CoinPass` keeps and counts exactly its pickups. |
| Runner.VisitObstacleAt | game.js:179-192 | One obstacle callback settles exactly one more step of `ObstaclePass`: the visited prefix plus the pass over what is left is unchanged. `hit` accounts for exactly the one hit that step counts. The track never grows. |
| Runner.ObstacleTailPass | game.js:179-192 | What one callback leaves from its index onwards continues `ObstaclePass`. The first element left is already final. A hit is counted exactly when the moved rock overlaps the queen. |
| Runner.ObstacleSkippedAfterRemoval | game.js:179-186 | At any index, a rock spliced out because it left the screen shortens the track by one. The next rock slides into its index and stays there unmoved, so the callback at the next index never sees it this frame. |
| Runner.VisitCoinAt | game.js:209-230 | One coin callback settles exactly one more step of `CoinPass`, double splice included: the visited prefix plus the pass over what is left is unchanged. `hit` accounts for exactly the one pickup that step counts. The track never grows. |
| Runner.CoinTailPass | game.js:209-230 | What one coin callback leaves from its index onwards continues `CoinPass`. A pickup is counted exactly for a fresh coin whose moved box overlaps the queen. |
| Runner.CoinSkippedAfterPickup | game.js:209-225 | At any index, a fresh coin touching a queen at x ≥ 0 is removed exactly once, so the track shrinks by one. The next coin slides into its index and stays there unmoved, so the callback at the next index never sees it this frame. |
| Runner.QueenShebaGame.constructor | game.js:12-48 | The new game is idle and not over, with score 0, no coins counted and speed 5. The queen stands still on the ground. No rocks or coins, timers at 0, and three clouds built by initClouds from the given rolls. The invariant holds. |
| Runner.QueenShebaGame.Jump | game.js:100-110 | A grounded queen gets velocity -12 and is marked jumping. An airborne queen is left unchanged. Nothing else changes. |
| Runner.QueenShebaGame.Stop | game.js:127-133 | The run is marked not running and over; every other field keeps its value. |
| Runner.QueenShebaGame.Start | game.js:112-125 | The new state and the reports equal one frame of `Step` applied to the `Restart` of the old state. `Restart` gives: running, score 0, speed 5, empty tracks, queen at rest on the ground, timers and clouds kept. The loop is rescheduled exactly when the game is still running. |
| Runner.QueenShebaGame.GameLoop | game.js:374-381 | One turn is exactly one `Step`, and the next turn is scheduled exactly when the game is still running. |
| Runner.QueenShebaGame.Update | game.js:135-231 | The new state and the `onGameOver` reports are exactly `Step` of the old state, and the invariant is kept. |
| Runner.QueenShebaGame.AdvanceFrame | game.js:138-164 | Score, ramp, gravity with the ground clamp, and the cloud scroll and wrap together make up `Advance` of the old state. |
| Runner.QueenShebaGame.ObstacleFrame | game.js:166-193 | The spawn timer, the optional new rock and the obstacle loop give `ObstaclePhase`: the obstacles `ObstaclePass` keeps and its hit count. A hit leaves the game stopped. |
| Runner.QueenShebaGame.CoinFrame | game.js:195-230 | The coin timer, the optional new coin and the coin loop give `CoinPhase`: the coins `CoinPass` keeps, with its pickups added to `coinsCollected`. |
| RunnerLaws.SpeedAfterClosedForm | game.js:139-144 | After n running frames, the speed is 5 + 0.5 × ⌊n/500⌋. |
| RunnerLaws.SpeedAfterMonotone | game.js:139-144 | The speed never decreases from one frame to the next and never drops below 5. |
| RunnerLaws.InvSpeed | game.js:139-144 | In every reachable state, the speed is 5 + 0.5 × ⌊score/500⌋, so at least 5. |
| RunnerLaws.JumpOnlyFromGround | game.js:100-110 | A jump from the ground sets the velocity to -12 and the jumping flag. A jump while airborne is a no-op, so a second jump changes nothing. |
| RunnerLaws.ObstaclePassHitsSound | game.js:180-193 | A reported hit always comes from a moved obstacle that overlaps the queen. |
| RunnerLaws.ObstaclePassWithoutRemoval | game.js:180-193 | If no obstacle leaves the screen, every obstacle moves left by exactly `speed` and keeps its order. The run is hit exactly when some moved obstacle overlaps the queen. |
| RunnerLaws.ObstaclePassKeepsShape | game.js:180-193 | Every surviving obstacle is still a 30×30 rock resting on the ground and within the canvas. |
| RunnerLaws.OffLeftNeverCollides | game.js:214-222 | A box fully left of the canvas cannot overlap a queen at x ≥ 0, so the coin double splice never occurs. |
| RunnerLaws.CoinPassConserves | game.js:209-230 | The kept coins plus the pickups never outnumber the coins. If no coin leaves the screen, every coin is either kept or picked up. |
| RunnerLaws.CoinPassPickupsSound | game.js:218-221 | A counted pickup always comes from a coin that was not yet collected and whose moved box overlaps the queen. |
| RunnerLaws.CoinPassWithoutRemoval | game.js:209-230 | If no coin leaves the screen or touches the queen, nothing is picked up and the track keeps its length and order. Each fresh coin moves left by exactly `speed`, and each collected coin is untouched. |
| RunnerLaws.CoinPassKeepsShape | game.js:209-230 | Surviving coins stay uncollected, 25×25, inside their height band and within the canvas. |
| RunnerLaws.StepIdle | game.js:135-136 | When the game is not running, a frame changes nothing and reports nothing. |
| RunnerLaws.StepAdvances | game.js:138-164 | A running frame adds exactly 1 to the score. It adds 0.5 to the speed exactly when the new score is a multiple of 500. The queen ends on or above the ground, and landing stops her fall. The clouds scroll. |
| RunnerLaws.StepEndsRunOnlyOnHit | game.js:188-192 | A running frame stops the game exactly when it reports a game over, which also marks the game as over. Each report carries the new score and the coins counted before the coin pass. The coin count never decreases. |
| RunnerLaws.StepSpawnsObstacle | game.js:166-177 | When the timer passes 100, it goes back to 0 and exactly one rock is appended, already moved one step left from the right edge. This holds when no obstacle leaves the screen in that frame. |
| RunnerLaws.StepSpawnsCoin | game.js:195-206 | When the coin timer passes 60, it goes back to 0. Exactly one fresh 25×25 coin is appended, at its drawn height and already moved left from the right edge by the new speed. Nothing is picked up. |
| RunnerLaws.TimerStepRange | game.js:166-169 | A spawn timer stays within [0, interval]. It fires, reset to 0, exactly when the incremented count passes the interval. Otherwise it just counts up. |
| RunnerLaws.NewEntitiesOk | game.js:170-205 | A new rock is 30×30 at the right edge, resting on the ground. A new coin is 25×25, not collected, at the right edge, with its top between 140 (exclusive) and 80 above the ground. |
| RunnerLaws.InitCloudOk | game.js:88-98 | A cloud from initClouds starts within the canvas, is 60 to 100 wide and 30 high, and moves at a speed of 0.5 to 1. |
| RunnerLaws.ScrollCloudsKeepShape | game.js:157-164 | Scrolling and wrapping keeps every cloud within the canvas and keeps its size and speed. |
| RunnerLaws.StepPreservesInv | game.js:135-231 | Every frame keeps the invariant. |
| RunnerLaws.RestartEstablishesInv | game.js:112-125 | start() leaves a running, not-over, well-formed world. Score, coin count and tracks are reset, speed is 5 and the queen is at rest on the ground. The spawn timers and clouds are not reset. |
| EconomyRules.LevelFor | script.js:261 | The level is at least 1, and the balance lies in [100·(level−1), 100·level). |
| EconomyRules.FindUpgrade | script.js:317 | The search returns the first index whose entry has the id. It returns none exactly when no entry has it. |
| EconomyRules.Reward | script.js:188-190 | The reward minus coins × coins-per-tap is the whole number of hundreds in the score. |
| EconomyRules.OrDefault | script.js:568-572 | `v \|\| d` gives v or d. It gives d exactly when v is 0 or equals d. |
| EconomyLaws.LevelForUnique | script.js:261 | Only one level fits a given balance. |
| EconomyLaws.LevelForMonotone | script.js:261 | More coins never give a lower level. |
| EconomyLaws.SettleNormalises | script.js:255-271 | updateCoins() leaves a non-negative balance: the same one if it was non-negative, 0 otherwise. The level matches the balance, the sync flag is set and nothing else changes. A second call changes nothing. |
| EconomyLaws.SettleEstablishesInv | script.js:255-271 | After updateCoins(), the invariant holds whenever energy is within its cap. |
| EconomyLaws.CreditAdds | script.js:369-371 | A non-negative credit adds exactly its amount and never lowers the level. Energy, upgrades and coins-per-tap stay the same. |
| EconomyLaws.ChannelRewardsRepeat | script.js:369-393 | The channel rewards have no guard: claiming twice pays 200 (join) or 400 (subscribe). |
| EconomyLaws.BuyRefusedIff | script.js:316-321 | A purchase leaves the state unchanged if and only if no entry has the id or the balance is below its cost. |
| EconomyLaws.BuyPays | script.js:323-339 | A purchase costs exactly the old price and the level follows the new balance. The bought entry's level rises by 1 and its price doubles. Other entries are untouched. The kind's effect applies and nothing else changes: tap adds 1 coin per tap, energy adds 5 to both cap and energy, regen adds 1 to the rate. |
| EconomyLaws.BuyKeepsInv | script.js:316-339 | Every purchase, made or refused, keeps the balance non-negative, the level consistent and energy within the cap. It never makes energy negative. |
| EconomyLaws.RegenBounds | script.js:528-535 | A tick changes only energy, and only when it is below the cap. When it starts at or below the cap, it never exceeds the cap. It never goes negative at a non-negative rate. At a positive rate it makes strict progress. |
| EconomyLaws.RegenFills | script.js:527-537 | Once n ticks at the rate cover the shortfall, energy equals the cap. |
| EconomyLaws.SpendKeepsEnergy | script.js:220-226 | A game only starts with at least 1 energy and spends exactly 1, so energy never goes negative. The invariant is kept. |
| EconomyLaws.RewardNonNegative | script.js:188-190 | The game-over reward is never negative. |
| EconomyLaws.PayAllAddsUp | script.js:184-193 | Settling a frame's reports adds exactly the sum of their rewards and keeps the invariant. Coins per tap, energy and upgrades stay the same. |
| EconomyLaws.ClaimDailyOncePerDate | script.js:350-359 | Claiming twice with the same date equals claiming once. A date already recorded changes nothing. A new date pays 50 and records that date. |
| EconomyLaws.OfflineEnergyBounds | script.js:578-591 | Restored energy never exceeds the cap. It is non-negative for a save from the past. It is full once the elapsed whole seconds × rate reach the cap. |
| EconomyLaws.SnapshotRestore | script.js:540-591 | A save followed by a load restores every saved field except energy, which is recomputed from the time elapsed since the save. This needs non-zero cap, coins-per-tap, level and rate. |
| EconomyLaws.InitialInv | script.js:5-44 | The initial `gameState` satisfies the invariant. |
| EconomyLaws.LoadLocalEnergy | script.js:560-600 | A loaded state never has more energy than its cap. |
| EconomyLaws.BootMerges | script.js:633-652 | Start-up always ends consistent. The balance is the largest of 0, the local balance and the server's, and the level follows the balance, so the server's level never survives. |
| EconomyLaws.BootFresh | script.js:647-650 | A player unknown to both the device and the server starts from the initial state with full energy. |
| Economy.GameState.constructor | script.js:5-44 | Fields are the initial literal: 0 coins, 10/10 energy, 1 per tap, level 1, rate 1, the three upgrades, no daily claim. |
| Economy.GameState.UpdateCoins | script.js:255-271 | The new state is `Settle` of the old, and the invariant holds if energy was within its cap. |
| Economy.Find | script.js:317 | The front-to-back scan returns the same index as `FindUpgrade`: the first entry with the id, or none. |
| Economy.GameState.Apply | script.js:325-333 | The branch on the entry's type is exactly `ApplyUpgrade`. "tap" adds 1 per tap, "energy" adds 5 to both cap and energy, "regen" adds 1 to the rate, and any other type changes nothing. |
| Economy.GameState.BuyUpgrade | script.js:316-347 | The linear `find` followed by the in-place update gives exactly `Buy`. It reports success exactly when an entry matched and was affordable, and it keeps the invariant. |
| Economy.GameState.RegenTick | script.js:528-535 | One interval tick is exactly `Regen` and keeps the invariant. |
| Economy.GameState.OnGameOver | script.js:184-193 | The handler credits exactly `Reward` at the current coins-per-tap, then runs updateCoins(). |
| Economy.GameState.SettleRun | script.js:184-193 | Handling a frame's reports in order is `PayAll` and keeps the invariant. |
| Economy.GameState.StartGame | script.js:219-243 | The game starts exactly when energy is at least 1. Otherwise neither the economy nor the game changes. When it starts, one unit is spent, the game state and reports are one `Step` after `Restart`, and the reports are settled. |
| Economy.GameState.Frame | game.js:374-381 | A later loop turn is one `Step` of the game, with its reports settled against the economy. |
| Economy.GameState.ClaimDailyReward | script.js:350-367 | The new state is `ClaimDaily`. The claim pays exactly when the recorded date differs from today's. |
| Economy.GameState.JoinChannelReward | script.js:369-380 | Always credits 100 and then runs updateCoins(). |
| Economy.GameState.SubscribeChannelReward | script.js:382-393 | Always credits 200 and then runs updateCoins(). |
| Economy.GameState.LoadGameState | script.js:560-600 | The load reports success exactly when a record exists. The new state is the record restored with offline energy, or the old state when there is no record. |
| Economy.GameState.Init | script.js:629-652 | The result is exactly `Boot`: load, merge with the server, give full energy to a player neither side knows, then updateCoins(). It always ends with the invariant. |

## Left out

- Drawing (`draw`, `drawQueen`) and the DOM: output only.
- `resize()`: the canvas size is fixed when the game is constructed. A resize during a run would move the ground line and the right edge under the rocks, coins, clouds and queen already placed. The invariant's clauses on the queen's ground clamp, the rocks resting on the ground, the coins' height band and every entity being within the canvas width would then no longer hold. The model does not promise them across a resize.
- `setupControls` and the page's other event listeners, plus `requestAnimationFrame`, `cancelAnimationFrame`, `setInterval` and `setTimeout`: these are host scheduling. One call to `update()`, one turn of `gameLoop()` and one regeneration tick are each one method call.
- `Math.random()`: every draw is a `Roll` parameter.
- IEEE-754 rounding: physics uses exact reals, and coins and energy are unbounded integers.
- `fetchUserData`, `syncGameState`, `fetchReferrals` and the friends list: network I/O. The server's answer to `init()` is an `Option<ServerData>` parameter.
- `localStorage`, `JSON` and `saveGameState` as a side effect of `updateCoins()`: storage I/O. The friends list that the save stores and the load restores (`data.friends || []`) is not part of `SaveData`. The stored record is `SaveData`, and `EconomyRules.Snapshot` is what a save writes.
- Telegram WebApp calls, haptics, toasts, `window.open`, navigation, clipboard, `renderUpgrades`, `renderFriends`, `updateEnergy` and `preventZoom`: UI and foreign calls.
- `new Date().toDateString()` and `Date.now()`: the date is a string parameter and the clock is an integer parameter.
- The score display interval started by `startGame()`: display only.
- `startGame()` when `game.js` has not loaded yet (no game object) is not modelled. `StartGame` always receives a game.
- Running a second `start()` while a game is running (two animation loops at once) is not modelled: it is host scheduling.
- RunnerLaws.StepSpawnsCoin: states the appended coin only for frames in which no coin leaves the screen or touches the queen. In other frames the splices shift the indices.
- RunnerLaws.StepSpawnsObstacle: states the appended rock only for frames in which no obstacle leaves the screen. In other frames the splice shifts the indices.
- EconomyLaws.SnapshotRestore: states the round trip only for non-zero numbers, because a stored 0 loads as its default.
