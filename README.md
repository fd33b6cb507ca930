# Wagering engines of the skin-gambling site, in Dafny

This project models the three game components of the site and proves properties of them.

- **RunnerGame** is a crash round. The stake is debited, then the multiplier climbs by 0.01 every 100 ms from 1.00 until it reaches a crash point drawn at the start. The player cashes out either by hand or automatically at a chosen threshold (1.1, 1.2, 1.5 or 2), for `floor(stake * multiplier)`. A crash loses the stake.
- **TileRoulette** is a wheel of 15 tiles in three colours. Bets per colour are debited when placed. After a 7-second countdown, a first draw picks the colour group: orange below 5%, blue below 52.5%, mint otherwise. A second draw picks a tile of that group. The stake on the winning colour is paid times the tile's multiplier (orange 14, the others 2).
- **UpgradeSystem** stakes an inventory skin against a market skin. The chance is the stake's share of the combined value, scaled by a 0-100% slider and clamped to [5, 95]. The stake's full price is always debited. A win credits the target's price only in "get" mode.

Each component follows the same pattern:

- A value datatype holds the component's state (`Round`, `Table`, `Bench`).
- A predicate states what every reachable state satisfies (`ValidRound`, `ValidTable`, `ValidBench`).
- Pure transition functions (`...Step`) state what each handler and each timer does.
- Lemmas state what whole rounds do.
- A class whose fields are the component's state hooks runs the same handlers step by step. Each method ensures that its new state is the transition function applied to its old state.

Timers are explicit methods: `Tick`, `Settle`, `Reset`, `Roll`, `Clear`. `Math.random()` becomes draw parameters with their ranges. The crash multiplier is an exact rational (`real`), so `1.00 + k * 0.01` has no rounding. The bet controls both games share (typed amount, x2, quick amounts), RunnerGame's /2, and the capped history feeds are in `common.dfy`.

## Model

| member | source | states |
|---|---|---|
| Stakes.TypedBet | src/components/RunnerGame.tsx:224 | the typed stake is the entry raised to 0: never negative, equal to a non-negative entry |
| Stakes.DoubledBet | src/components/RunnerGame.tsx:229 | x2 gives twice the stake unless that exceeds the balance, in which case the balance; never above either |
| Stakes.HalvedBet | src/components/RunnerGame.tsx:237 | /2 gives floor(stake / 2): `2r <= stake < 2r + 2`, and stays within [0, stake] for a non-negative stake |
| History.Prepend | src/components/RunnerGame.tsx:66 | the new entry is first, the feed keeps at most `cap` entries, the rest is a prefix of the old feed, and nothing is dropped below the cap |
| RunnerGame.CrashPoint | src/components/RunnerGame.tsx:37 | `max(1.01, draw * 10)` lies in [1.01, 10) for every draw in [0, 1) |
| RunnerGame.Payout | src/components/RunnerGame.tsx:60 | the payout is the floor of stake * multiplier: `r <= bet * m < r + 1` |
| RunnerGame.PayoutCoversStake | src/components/RunnerGame.tsx:60 | a cash-out at a multiplier of at least 1 returns at least the stake |
| RunnerGame.Initial | src/components/RunnerGame.tsx:13-25 | the mounted state (stake 100, multiplier 1.00, threshold 2, the thirteen sample history entries, nothing paid or crashed) is valid and idle |
| RunnerGame.StartStep | src/components/RunnerGame.tsx:27-49 | rejected unless 0 < stake <= balance; otherwise debits the stake once, resets the multiplier to 1.00, arms the crash point `max(1.01, draw * 10)` (so in [1.01, 10)) and the manual or auto interval, and keeps the invariant |
| RunnerGame.StopGameStep | src/components/RunnerGame.tsx:51-67 | stopping pays floor(stake * multiplier) exactly when the round did not crash and was not yet paid, and records the multiplier in the history |
| RunnerGame.TickStep | src/components/RunnerGame.tsx:39-48 | a tick crashes at the crash point (no payout, the crash point recorded), cashes out an auto round at its threshold (paying floor(stake * threshold)), or raises the multiplier by exactly 0.01 |
| RunnerGame.CashOutStep | src/components/RunnerGame.tsx:69-72 | ignored unless running and not yet paid; otherwise pays floor(stake * multiplier) and ends the round |
| RunnerGame.CashOutOnce | src/components/RunnerGame.tsx:69-72 | a second cash-out changes nothing |
| RunnerGame.ResolvedIsFinal | src/components/RunnerGame.tsx:51-55 | after a round is resolved no tick or cash-out changes the state (the interval is cleared) |
| RunnerGame.RoundPaysOnce | src/components/RunnerGame.tsx:51-67 | over any sequence of ticks and cash-outs a running round pays at most once, exactly floor(stake * terminal multiplier) and only if cashed out, and ends with exactly one history entry |
| RunnerGame.RoundLedger | src/components/RunnerGame.tsx:27-67 | a whole round ends at balance - stake + (payout if cashed out) |
| RunnerGame.MultiplierClimbs | src/components/RunnerGame.tsx:39-48 | below the crash point and the threshold, k ticks raise the multiplier by exactly k * 0.01 and change nothing else |
| RunnerGame.RoundEnds | src/components/RunnerGame.tsx:37-48 | a running round ends within (10 - multiplier) * 100 ticks |
| RunnerGame.ResolvedTicks | src/components/RunnerGame.tsx:51-55 | ticks after the end change nothing |
| RunnerGame.StartedRoundEnds | src/components/RunnerGame.tsx:27-49 | every started round is over after 900 ticks |
| RunnerGame.ManualCashOutScenario | src/components/RunnerGame.tsx:27-72 | balance 1500, stake 100, crash point 2.5: 100 ticks reach 2.00 and cashing out leaves 1600 |
| RunnerGame.StaleStopGameStep | src/components/RunnerGame.tsx:51-67 | stopGame as the interval runs it, reading balance, stake, multiplier and cashedOut from the render that started the round |
| RunnerGame.StaleTickStep | src/components/RunnerGame.tsx:86-103 | the interval as written: a crash leaves the balance alone; when the auto threshold is reached the balance ends at the starting render's `balance - bet + floor(bet * threshold)` if that render was already paid, and otherwise at its `balance + floor(bet * multiplier)`, and the history records that render's multiplier |
| RunnerGame.StaleAutoCashOutScenario | src/components/RunnerGame.tsx:91-99 | an auto cash-out at 1.1 after mount should leave 1510 but as written leaves 1600 and records 1.00 |
| RunnerGame.StaleAfterCrashScenario | src/components/RunnerGame.tsx:91-99 | after a round that crashed at 7.50, an auto cash-out at 1.1 from 1400 should leave 1410 but as written leaves 1400 + floor(100 * 7.50) = 2150 |
| RunnerGame.StaleCrashScenario | src/components/RunnerGame.tsx:42-45 | a crash at 1.01 after mount is recorded as 1.00 as written; the balance is the same either way |
| RunnerGame.Game.constructor | src/components/RunnerGame.tsx:13-23 | the fields start as the mounted state |
| RunnerGame.Game.Launch | src/components/RunnerGame.tsx:27-49 | the shared body of the start handlers, updating the fields as StartStep |
| RunnerGame.Game.StartGame | src/components/RunnerGame.tsx:27-49 | startGame updates the fields as StartStep with the manual interval and keeps the invariant |
| RunnerGame.Game.AutoBet | src/components/RunnerGame.tsx:74-104 | autoBet updates the fields as StartStep with the auto interval at the selected threshold |
| RunnerGame.Game.StopGame | src/components/RunnerGame.tsx:51-67 | updates the fields as StopGameStep |
| RunnerGame.Game.Tick | src/components/RunnerGame.tsx:39-48 | one firing of the interval updates the fields as TickStep and keeps the invariant |
| RunnerGame.Game.CashOut | src/components/RunnerGame.tsx:69-72 | updates the fields as CashOutStep |
| RunnerGame.Game.EnterBet | src/components/RunnerGame.tsx:224-226 | only the stake changes, to TypedBet of the entry |
| RunnerGame.Game.DoubleBet | src/components/RunnerGame.tsx:229-232 | only the stake changes, to DoubledBet |
| RunnerGame.Game.HalveBet | src/components/RunnerGame.tsx:237-240 | only the stake changes, to HalvedBet |
| RunnerGame.Game.QuickBet | src/components/RunnerGame.tsx:248-255 | only the stake changes, to the chosen quick amount |
| RunnerGame.Game.SelectMultiplier | src/components/RunnerGame.tsx:268 | only the selected threshold changes; an armed auto round keeps its own |
| TileRoulette.CatalogueMultipliers | src/components/TileRoulette.tsx:34-50 | the wheel has 15 tiles; orange pays 14, blue and mint pay 2 |
| TileRoulette.OfColour | src/components/TileRoulette.tsx:114 | the colour filter keeps exactly the tiles of that colour |
| TileRoulette.PickIndex | src/components/TileRoulette.tsx:115 | `floor(u * length)` is a valid index for every u in [0, 1) |
| TileRoulette.PickIndexReachesAll | src/components/TileRoulette.tsx:115 | every index is picked by the draw i / length |
| TileRoulette.SpinChoice | src/components/TileRoulette.tsx:107-119 | on any tile list with a blue and a mint tile: the chosen tile is in the list, is the second tile below 5, blue below 52.5 and mint otherwise |
| TileRoulette.WheelTilePays | src/components/TileRoulette.tsx:34-50 | every wheel tile pays 14 if orange and 2 otherwise |
| TileRoulette.SelectTile | src/components/TileRoulette.tsx:107-119 | below 5 the orange tile (x14) is picked, below 52.5 a blue tile (x2), otherwise a mint tile (x2), always a wheel tile |
| TileRoulette.SelectTileFollowsGroup | src/components/TileRoulette.tsx:111-113 | the first draw's group (`GroupOf`) is orange exactly below 5, blue exactly in [5, 52.5), mint exactly from 52.5 on, and the spun tile has that group's colour |
| TileRoulette.SpinChoiceReachesGroup | src/components/TileRoulette.tsx:113-118 | on any tile list, every tile of the blue or mint group the first draw chose is picked by some second draw |
| TileRoulette.GroupFullyReachable | src/components/TileRoulette.tsx:113-118 | on the wheel, in the blue and mint groups every tile of the group is picked by some second draw |
| TileRoulette.FindBet | src/components/TileRoulette.tsx:64 | finds a bet of the colour exactly when one exists |
| TileRoulette.GetBetAmount | src/components/TileRoulette.tsx:78-80 | the stake on a colour, 0 when there is none |
| TileRoulette.GetTotalBet | src/components/TileRoulette.tsx:74-76 | the sum of the stakes; non-negative, and positive for a non-empty table of positive stakes |
| TileRoulette.AddToBet | src/components/TileRoulette.tsx:66 | adds the stake to the bet of that colour, in place, leaving the other bets as they were |
| TileRoulette.TotalAfterAdd | src/components/TileRoulette.tsx:66 | adding to an existing bet raises the total by exactly the stake |
| TileRoulette.TotalAppend | src/components/TileRoulette.tsx:68 | appending a bet raises the total by its amount |
| TileRoulette.AddFindsSame | src/components/TileRoulette.tsx:66 | after adding, each colour's bet is found as before, raised by the stake for its own colour only |
| TileRoulette.AppendFinds | src/components/TileRoulette.tsx:68 | after appending a new colour, that colour finds the new bet and the others find what they found before |
| TileRoulette.MergeBetSpec | src/components/TileRoulette.tsx:64-69 | the contract of `MergeBet`: merge-or-append keeps one bet per colour, raises the colour's stake and the total by the stake, and leaves other colours alone |
| TileRoulette.MergeKeepsStakesPositive | src/components/TileRoulette.tsx:64-69 | merging a positive stake keeps every stake positive |
| TileRoulette.Initial | src/components/TileRoulette.tsx:25-31 | the mounted state is valid: the given balance, a stake of 100, no bets, not spinning, no countdown or timer, no winning tile and an empty history |
| TileRoulette.PlaceBetStep | src/components/TileRoulette.tsx:61-72 | rejected while spinning or when the stake is not positive or not covered; otherwise debits the stake, adds it to that colour, and leaves the other colours alone |
| TileRoulette.PlaceBetConserves | src/components/TileRoulette.tsx:61-72 | balance + total stake is unchanged by placing a bet |
| TileRoulette.StartSpinStep | src/components/TileRoulette.tsx:82-105 | rejected with no bets or while spinning; otherwise arms the countdown at 7 without touching money |
| TileRoulette.TickStep | src/components/TileRoulette.tsx:93-104 | a countdown second decrements, and from 1 sets 0 and spins with the drawn tile |
| TileRoulette.CountdownRuns | src/components/TileRoulette.tsx:93-104 | k seconds take the countdown down by k, and the spin happens exactly when it is used up |
| TileRoulette.SpinAfterSevenTicks | src/components/TileRoulette.tsx:82-105 | after startSpin the spin happens on the seventh tick and not before |
| TileRoulette.Winnings | src/components/TileRoulette.tsx:131-135 | the stake on the winning colour times the tile's multiplier, 0 without a bet on it |
| TileRoulette.SettleStep | src/components/TileRoulette.tsx:127-135 | shows and records the tile (history capped at 20) and credits the winnings once |
| TileRoulette.ResetStep | src/components/TileRoulette.tsx:137-141 | stops spinning and clears the bets, without touching money or history |
| TileRoulette.PlaceAll | src/components/TileRoulette.tsx:61-72 | any sequence of stake-and-colour clicks keeps the table valid and balance + total stake, and leaves the spin, countdown, timer, winning tile and history alone |
| TileRoulette.RoundLedger | src/components/TileRoulette.tsx:61-141 | from an idle table with no bets: after any placements, with no bets a spin click does nothing; otherwise spin, seven ticks, settle and reset end at the idle balance minus all stakes plus the stake on the spun colour times its multiplier, with the bets cleared, not spinning, and the spun tile at the head of the history |
| TileRoulette.OrangeScenario | src/components/TileRoulette.tsx:61-141 | 1500 with 100 on blue and 50 on orange: orange comes up on the seventh tick and the balance ends at 2050 |
| TileRoulette.Roulette.constructor | src/components/TileRoulette.tsx:25-32 | the fields start as the mounted state |
| TileRoulette.Roulette.PlaceBet | src/components/TileRoulette.tsx:61-72 | updates the fields as PlaceBetStep and keeps the invariant |
| TileRoulette.Roulette.StartSpin | src/components/TileRoulette.tsx:82-92 | updates the fields as StartSpinStep |
| TileRoulette.Roulette.Tick | src/components/TileRoulette.tsx:93-104 | updates the fields as TickStep |
| TileRoulette.Roulette.PerformSpin | src/components/TileRoulette.tsx:107-127 | arms the five-second timer with SelectTile of the draws, nothing else |
| TileRoulette.Roulette.Settle | src/components/TileRoulette.tsx:127-136 | updates the fields as SettleStep |
| TileRoulette.Roulette.Reset | src/components/TileRoulette.tsx:137-141 | updates the fields as ResetStep |
| TileRoulette.Roulette.EnterBet | src/components/TileRoulette.tsx:288-290 | only the stake changes, to TypedBet of the entry |
| TileRoulette.Roulette.DoubleBet | src/components/TileRoulette.tsx:293-296 | only the stake changes, to DoubledBet |
| TileRoulette.Roulette.QuickBet | src/components/TileRoulette.tsx:304-311 | only the stake changes, to the chosen quick amount |
| UpgradeSystem.CataloguePricesPositive | src/components/UpgradeSystem.tsx:33-48 | every market and inventory skin has a positive price |
| UpgradeSystem.RawChance | src/components/UpgradeSystem.tsx:63-66 | the share is in [0, 100) and satisfies `r * (L + R) == L * 100` |
| UpgradeSystem.Clamp | src/components/UpgradeSystem.tsx:67 | the result lies in [5, 95], equals values already inside, and is 5 below and 95 above |
| UpgradeSystem.ClampedShareBounds | src/components/UpgradeSystem.tsx:66-67 | the clamped share equals the exact share strictly inside (5, 95), and sits at 5 or 95 only when the exact share is at or beyond that bound |
| UpgradeSystem.CalculateChance | src/components/UpgradeSystem.tsx:60-68 | 50 while either side is unselected; otherwise in [5, 95], equal to the stake's share of the combined value when unclamped, and at a bound only when the share is beyond it |
| UpgradeSystem.EqualPricesEven | src/components/UpgradeSystem.tsx:63-66 | equal prices at a full slider give 50 |
| UpgradeSystem.EmptySliderFloor | src/components/UpgradeSystem.tsx:63-67 | a slider at 0 gives 5 |
| UpgradeSystem.RawChanceGrowsWithStake | src/components/UpgradeSystem.tsx:66 | the share is non-decreasing in the stake's value |
| UpgradeSystem.RawChanceShrinksWithTarget | src/components/UpgradeSystem.tsx:66 | the share is non-increasing in the target's price |
| UpgradeSystem.StakeValueMonotone | src/components/UpgradeSystem.tsx:63 | the stake's value `price * slider / 100` is non-negative and grows with the price and the slider |
| UpgradeSystem.StakeValueRange | src/components/UpgradeSystem.tsx:63 | the stake's value (`StakeValue`) is 0 with the slider at 0, the full price at 100, and never more than the price |
| UpgradeSystem.ChanceGrowsWithSlider | src/components/UpgradeSystem.tsx:63-67 | the chance is non-decreasing in the slider |
| UpgradeSystem.ChanceGrowsWithStakePrice | src/components/UpgradeSystem.tsx:63-67 | the chance is non-decreasing in the stake's price |
| UpgradeSystem.ChanceShrinksWithTargetPrice | src/components/UpgradeSystem.tsx:63-67 | the chance is non-increasing in the target's price |
| UpgradeSystem.CatalogueChanceCap | src/components/UpgradeSystem.tsx:33-48 | for any inventory skin against any market skin, at any slider, the chance is below 21: no pairing in the catalogues comes near the 95 cap |
| UpgradeSystem.Initial | src/components/UpgradeSystem.tsx:24-31 | the mounted state is valid: the given balance, nothing selected, the slider at 50, "improve" mode, no result and no timer |
| UpgradeSystem.SelectLeftStep | src/components/UpgradeSystem.tsx:265 | a click on an inventory skin selects it, and is ignored while upgrading |
| UpgradeSystem.SelectRightStep | src/components/UpgradeSystem.tsx:318 | a click on a market skin selects it, and is ignored while upgrading |
| UpgradeSystem.StartUpgradeStep | src/components/UpgradeSystem.tsx:70-79 | no change when a side is missing or the price exceeds the balance; otherwise debits exactly the stake's price (whatever the slider) and arms the roll with the chance of the moment |
| UpgradeSystem.RollStep | src/components/UpgradeSystem.tsx:80-88 | success exactly when draw * 100 < chance; the balance becomes post-debit + target price only on success in "get" mode |
| UpgradeSystem.ClearStep | src/components/UpgradeSystem.tsx:90-95 | unlocks the bench and clears both selections and the result |
| UpgradeSystem.UpgradeLedger | src/components/UpgradeSystem.tsx:70-97 | a whole upgrade ends at balance - stake price + (target price if it won in "get" mode), unlocked and unselected |
| UpgradeSystem.RejectedUpgradeIsInert | src/components/UpgradeSystem.tsx:71-74 | a rejected click changes nothing |
| UpgradeSystem.SucceedsBelowChance | src/components/UpgradeSystem.tsx:82 | the roll (`Succeeds`) wins exactly when the draw is below chance / 100: never at a chance of 0, always at 100, and on every draw a smaller chance wins on |
| UpgradeSystem.EvenUpgradeScenario | src/components/UpgradeSystem.tsx:60-88 | 50000 against 50000 at a full slider is 50%; a roll of 0.4 wins and "get" mode restores 60000 |
| UpgradeSystem.Lower | src/components/UpgradeSystem.tsx:100 | lower-casing keeps the length and lowers each ASCII letter |
| UpgradeSystem.LowerIdempotent | src/components/UpgradeSystem.tsx:100 | lower-casing twice is lower-casing once |
| UpgradeSystem.Contains | src/components/UpgradeSystem.tsx:100 | `includes` holds exactly when the query occurs at some position |
| UpgradeSystem.Filter | src/components/UpgradeSystem.tsx:99-105 | keeps exactly the skins whose lower-cased name contains the lower-cased query |
| UpgradeSystem.FilterAppend | src/components/UpgradeSystem.tsx:99-105 | filtering distributes over concatenation, so catalogue order is kept |
| UpgradeSystem.EmptyQueryKeepsAll | src/components/UpgradeSystem.tsx:99-105 | an empty search keeps every skin |
| UpgradeSystem.QueryCaseIgnored | src/components/UpgradeSystem.tsx:99-105 | the query's case does not matter |
| UpgradeSystem.FilteredInventory | src/components/UpgradeSystem.tsx:99-101 | the inventory skins matching the query |
| UpgradeSystem.FilteredMarket | src/components/UpgradeSystem.tsx:103-105 | the market skins matching the query |
| UpgradeSystem.Upgrader.constructor | src/components/UpgradeSystem.tsx:24-31 | the fields start as the mounted state |
| UpgradeSystem.Upgrader.SelectLeft | src/components/UpgradeSystem.tsx:265 | updates the fields as SelectLeftStep |
| UpgradeSystem.Upgrader.SelectRight | src/components/UpgradeSystem.tsx:318 | updates the fields as SelectRightStep |
| UpgradeSystem.Upgrader.SetSlider | src/components/UpgradeSystem.tsx:209-221 | in "improve" mode, where the slider is shown, only the slider changes, to a value in [0, 100] |
| UpgradeSystem.Upgrader.SetMode | src/components/UpgradeSystem.tsx:195 | only the mode changes; an armed roll keeps its mode |
| UpgradeSystem.Upgrader.StartUpgrade | src/components/UpgradeSystem.tsx:70-79 | updates the fields as StartUpgradeStep and keeps the invariant |
| UpgradeSystem.Upgrader.Roll | src/components/UpgradeSystem.tsx:80-88 | updates the fields as RollStep |
| UpgradeSystem.Upgrader.Clear | src/components/UpgradeSystem.tsx:90-95 | updates the fields as ClearStep |

## Left out

- Rendering, styling, icons, the rotation and its animation, and the number formatting are display only and are not modelled.
- Timers and `Math.random()` are not modelled as such. Each timer firing is an explicit step, and each random number is a parameter with its range. The distribution of the draws is not modelled, only which draws lead where.
- `src/pages/Index.tsx` is not part of this model. It does not mount the three components. `onBalanceChange` is modelled as setting the balance to the value passed, and the balance as the component's own field. Changes to the balance by other parts of the page while a round runs are not modelled.
- JavaScript floating point is not modelled. Prices, stakes and balances are integers. Multipliers and chances are exact rationals, so the float drift of `prev + 0.01` is not modelled.
- Stakes.TypedBet: the typed stake is an integer. A fractional typed amount is not modelled.
- UpgradeSystem.Lower: lower-cases ASCII letters only. `toLowerCase` also folds non-ASCII letters, and that is not modelled.
- RunnerGame.TickStep: keeps the intended single credit and records the terminal multiplier. The stale-closure behaviour as written is modelled separately as StaleTickStep (see Findings).
- RunnerGame.StaleStopGameStep: models the stale `balance` and `multiplier` only for the interval's calls. The manual cash-out handler belongs to the current render and is modelled by CashOutStep.
- Disabled controls are preconditions of the class methods and the transition functions, not no-op branches:
  - the start buttons are hidden while a round runs;
  - the stake controls are disabled while running or spinning;
  - the slider and the upgrade button are disabled while upgrading;
  - the slider is shown only in "improve" mode.
- RunnerGame.Initial: the sample history includes entries of 10 and above (11.40, 15.19), which no round can produce. The history invariant bounds only its length.
- The table keeps at most one bet per colour (`OneBetPerColour` in the invariant). The resulting bound of at most three bets is not stated as a lemma of its own.
- The React `useEffect` clean-up on unmount, which clears the interval, is not modelled.

## Findings

| source | as written | input that shows it | evidently intended | confidence | as-written member | corrected member |
|---|---|---|---|---|---|---|
| src/components/RunnerGame.tsx:91-99 | the auto cash-out sets `balance - bet + win`, then the interval's stale `stopGame(false)` sets `balance + floor(bet * multiplier)` from the render in which the round started, because that render's `cashedOut` is false | balance 1500, stake 100, auto threshold 1.1 right after mount: ends at 1600 instead of 1510; after a round that crashed at 7.50, the same bet from 1400 ends at 2150 instead of 1410 | pay floor(stake * threshold) once: balance - stake + win | not executed | RunnerGame.StaleAutoCashOutScenario | RunnerGame.RoundPaysOnce |
| src/components/RunnerGame.tsx:42-45 | a crash or auto cash-out records the multiplier of the render in which the round started, not the round's terminal multiplier | a round that crashes at 1.01 right after mount is recorded as 1.00 | record the multiplier at which the round ended | not executed | RunnerGame.StaleCrashScenario | RunnerGame.TickStep |
