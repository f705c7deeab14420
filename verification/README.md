# Mining economy engine — Dafny model

A model of the economy core of a Telegram mini-app backend (`webapp.py`).
Users earn a virtual currency (SAB) in timed mining cycles. They spend it on
profile cards and on three upgrades that shorten the cycle or raise its
reward. They also invite friends for a referral bonus and send coins to each
other.

Each HTTP handler becomes a pure function from a `World` to a result. The
handler's time is an integer `now` in seconds. A refused request returns a
typed `Error` and no new world, so a refusal never changes state.

Modules, one per component:

- `Money` (`money.dfy`): currency as exact reals, `int(x)` as truncation, and `round(x, 2)` as round-half-even to the cent.
- `Pricing` (`pricing.dfy`): the `UPGRADE_TYPES` table, i.e. prices, effects, mining duration and the mining reward.
- `Ledger` (`ledger.dfy`): accounts, upgrade levels, card catalog and ownership, transactions, referral facts. Also row lookup with `.first()` semantics, the validity invariant and the balance total.
- `Mining` (`mining.dfy`): `start_mining`, `mining_status`, `claim` and the cycle Idle → Locked → Expired → Claimable → Idle.
- `Registration` (`registration.dfy`): `register`, and the loop that draws referral codes until one is unused.
- `Shop` (`shop.dfy`): `buy_card`, `buy_upgrade`, `add_game_reward`, `get_upgrades`.
- `Transfer` (`transfer.dfy`): `send` and the paged `history`.
- `Ranking` (`ranking.dfy`): `leaderboard`, i.e. sorting by balance, places and trophy labels.
- `Economy` (`economy.dfy`): every state-changing request as one step function. It proves the invariants that hold after any sequence of requests.
- `FloatGuards` (`float_guards.dfy`): the amount guards evaluated on Python floats (see Findings).

Accounts are kept as a sequence of rows in insertion order, like the `user` table. A lookup returns the first matching row, as `.first()` does. The telegram id is the account's key. The tables' integer surrogate ids are not modelled, so upgrades, ownership facts, transactions, referral facts and `ref_by` refer to accounts by telegram id. Telegram ids are unique, so nothing is lost.

Some behaviours in the model follow the code exactly:

- Every transfer is stored with kind `"transfer"`. The history computes the in/out direction when it is read. A self-transfer reads as outgoing.
- A self-transfer is allowed. The receiver is read after the debit, so the balance nets out and one transaction is still logged.
- `send` treats only an empty `from`/`to` string as missing.
- `add_game_reward` looks the user up before it checks the amount.

## Model

| member | source | states |
|---|---|---|
| `Money.Round2` | webapp.py:282 | rounding to two decimals yields a whole number of cents, at most half a cent away from the input, and never negative for a non-negative input |
| `Money.Trunc` | webapp.py:223 | `int()` of a non-negative real is the largest whole number not above it |
| `Money.PowAtLeastOne` | webapp.py:467 | a price multiplier of at least one raised to any level is at least one |
| `Pricing.ParseKind` | webapp.py:462-464 | a requested type is found exactly when it is `speed`, `income` or `multiplier`, and the entry found carries that tag |
| `Pricing.ParseTag` | webapp.py:68-96 | each catalog entry is found under its own tag |
| `Pricing.Price` | webapp.py:467 | the price of any level is at least the type's base price |
| `Pricing.FirstPrice` | webapp.py:467 | the first level costs exactly the base price (50, 100, 500) |
| `Pricing.PriceStep` | webapp.py:467 | buying one level more always costs strictly more, because every multiplier exceeds one and base × (multiplier − 1) ≥ 1 |
| `Pricing.PriceIncreasing` | webapp.py:467 | prices rise strictly with the level across any gap of levels |
| `Pricing.SpeedEffect` | webapp.py:75 | the speed factor stays between the 30% floor and 1 |
| `Pricing.IncomeEffect` | webapp.py:84 | the income factor is never below 1 |
| `Pricing.MultiplierEffect` | webapp.py:93 | the multiplier factor is never below 1 |
| `Pricing.EffectsAtZero` | webapp.py:75-93 | every effect at level 0 is the identity factor |
| `Pricing.MiningDuration` | webapp.py:214-225 | the lock lasts 28800 s at level 0, 28800 − 1440·L s up to level 14, and 8640 s from level 14 on, so it always lies in [8640, 28800] |
| `Pricing.DurationNonIncreasing` | webapp.py:219-225 | a higher speed level never lengthens the lock |
| `Pricing.RawRewardFormula` | webapp.py:266-280 | skipping the level-0 effects gives the same reward as applying the formula unconditionally, and the reward is never below 35% of the balance |
| `Pricing.MiningReward` | webapp.py:266-282 | the stored reward is non-negative and within half a cent of balance × 0.35 × income effect × multiplier effect |
| `Pricing.RewardWithoutUpgrades` | webapp.py:266-282 | without upgrades the reward is exactly 35% of the balance rounded to cents |
| `Pricing.RawRewardMonotone` | webapp.py:272-280 | higher income or multiplier levels never lower the reward |
| `Ledger.FindFirst` | webapp.py:141 | a lookup returns the first matching row, and it returns nothing exactly when no row matches |
| `Ledger.FindUser` | webapp.py:141 | the identity lookup returns a row with that telegram id, or nothing exactly when no row has it |
| `Ledger.FindByRefCode` | webapp.py:154 | the referral-code lookup returns a row with that code, or nothing exactly when no row holds it |
| `Ledger.FindUserExact` | webapp.py:20 | with unique telegram ids, the lookup lands on a row exactly when that row has the id |
| `Ledger.FindUserAfterUpdate` | webapp.py:141 | rewriting a row without changing its telegram id leaves every lookup unchanged |
| `Ledger.TotalAfterUpdate` | webapp.py:516-517 | changing one row's balance changes the total by exactly that row's change |
| `Ledger.TotalAfterAppend` | webapp.py:157-167 | a new row adds its balance to the total |
| `Ledger.UpdateKeepsValid` | webapp.py:20-31 | rewriting a row's money with non-negative values, keeping its id and code, keeps ids and codes unique and money non-negative |
| `Ledger.AppendKeepsValid` | webapp.py:148-167 | a new row with an unused id and code and non-negative money keeps the world valid |
| `Mining.StartMining` | webapp.py:199-230 | unknown user, an active lock, or a pending reward is refused with that error; otherwise only that row changes: the lock is set to now plus the speed-level duration (8640–28800 s ahead), the pending claim is zeroed, the balance is untouched, and the account becomes Locked |
| `Mining.MiningStatus` | webapp.py:252-285 | no balance or total changes; while locked it reports the seconds left (> 0) and changes nothing; only when expired with nothing pending does it store the reward priced from the current balance and levels; in every other case nothing changes |
| `Mining.Claim` | webapp.py:233-249 | refused with "nothing to claim" when nothing is pending, and "not finished" when the lock is still ahead; it succeeds exactly when Claimable, crediting exactly the pending amount, zeroing it, clearing the lock and returning to Idle |
| `Mining.MiningKeepsValid` | webapp.py:206-247 | starting, reading status and claiming keep money non-negative and ids and codes unique |
| `Mining.NoDoubleClaim` | webapp.py:240-247 | after a successful claim, the next claim fails with "nothing to claim", whatever its time |
| `Mining.NoRewardWithoutNewCycle` | webapp.py:247-264 | after a claim, no status read at any time prices a new reward; only a new start begins a cycle |
| `Mining.MiningCycle` | webapp.py:206-285 | after a start, reads before expiry report the time left and claims find nothing; the first read at or after expiry prices the reward from the balance and levels of that moment; a positive reward is then paid exactly by a claim |
| `Registration.PickRefCode` | webapp.py:148-150 | the retry loop returns the first drawn code that no account holds, and every earlier draw was taken |
| `Registration.ResolveInviter` | webapp.py:151-156 | an inviter is found exactly when a non-empty code is given and some account holds it |
| `Registration.Register` | webapp.py:134-177 | an existing identity gets its data back with no change and both flags false; otherwise one row is added with balance 25, the fresh code and the inviter as `ref_by`; with a resolving code only the inviter gains exactly 25 and exactly one referral fact is added; with no resolving code no one else's row and no referral fact changes; the total rises by 25 or 50 |
| `Registration.RegisterKeepsValid` | webapp.py:148-175 | registration keeps ids and codes unique and money non-negative |
| `Registration.RegisterIdempotent` | webapp.py:141-146 | registering the same identity again changes nothing and reports neither new nor bonus |
| `Shop.BuyCard` | webapp.py:375-405 | a missing user or card, an owned card, or a short balance are refused with that error; otherwise only that balance drops by exactly the price (staying ≥ 0), exactly one ownership fact is added, and the total falls by the price |
| `Shop.NoDoublePurchase` | webapp.py:389-392 | a second purchase of the same card is refused as already owned |
| `Shop.BuyUpgrade` | webapp.py:455-478 | an unknown user or type is refused; a balance below the current level's price is refused; otherwise the balance drops by exactly that price (staying ≥ 0), that type's level rises by exactly one (created at 1 when absent), and every other level is untouched |
| `Shop.UpgradeGetsDearer` | webapp.py:466-477 | after a purchase, the next level of the same upgrade costs strictly more |
| `Shop.AddGameReward` | webapp.py:482-499 | an unknown user, then a non-positive reward, is refused; otherwise only that balance rises by exactly the reward |
| `Shop.ListUpgrades` | webapp.py:432-451 | an unknown user is refused; otherwise exactly three entries, speed, income and multiplier in catalog order, each with the user's current level of that type, the price of the next level and the current effect |
| `Shop.ListedPriceIsCharged` | webapp.py:439-478 | the next price shown by the listing is what a purchase charges, and the level it reaches is one above the listed level |
| `Transfer.Move` | webapp.py:516-517 | between distinct accounts the sender loses and the receiver gains exactly the amount; a self-transfer leaves every row as it was; no other row changes and the total is conserved |
| `Transfer.Send` | webapp.py:502-520 | empty ids or a non-positive amount, then missing accounts, then a short sender balance are refused; otherwise the sender loses and the receiver gains exactly the amount, other rows are untouched, the total is conserved, and exactly one transaction is appended |
| `Transfer.SendKeepsValid` | webapp.py:513-518 | a transfer keeps money non-negative and ids and codes unique |
| `Transfer.NewestFirst` | webapp.py:530 | the history list holds exactly the log entries sent or received by the viewer, each as many times as it occurs in the log, so repeated identical transfers are separate rows |
| `Transfer.NewestFirstIsDescending` | webapp.py:530 | when the log was written with a clock that never runs backwards, the list is in descending timestamp order |
| `Transfer.PageCount` | webapp.py:548 | the page count is the least number of 10-row pages that holds every row |
| `Transfer.History` | webapp.py:523-548 | an unknown user is refused; a page shows at most 10 entries, namely those at positions offset to offset+9 of the newest-first list; it is full when enough rows follow the offset, holds every remaining row on an incomplete last page, and is empty past the end |
| `Transfer.EveryTransferOnItsPage` | webapp.py:530-548 | the n-th entry of the list appears, as its row, at position n mod 10 of page n div 10 + 1, which is within the page count |
| `Ranking.Insert` | webapp.py:309 | inserting into a richest-first list keeps it richest first and adds exactly that account |
| `Ranking.SortByBalance` | webapp.py:309 | the ordering is a permutation of the accounts, richest first |
| `Ranking.ParsePrinted` | webapp.py:321 | a place printed in decimal reads back as the same place |
| `Ranking.TrophiesDistinct` | webapp.py:313-321 | two different places never share a trophy label |
| `Ranking.Leaderboard` | webapp.py:308-333 | the board has min(100, number of accounts) rows, row k describing the (k+1)-th richest account |
| `Ranking.BoardRowsNumbered` | webapp.py:311-328 | row k has place k+1, that place's trophy, and its account's balance rounded to cents |
| `Ranking.BoardIsTop` | webapp.py:309 | the board lists real accounts, richest first, and no account left off the board is richer than any on it |
| `Economy.StepInvariant` | webapp.py:133-520 | any single request keeps the world valid; accounts are never removed and never change id, code or inviter; levels never fall; ownership, transactions and referral facts only grow; the catalog never changes |
| `Economy.RunInvariant` | webapp.py:133-520 | the same holds after any sequence of requests |
| `Economy.BalancesNeverNegative` | webapp.py:395-516 | starting from no accounts, no balance is ever negative, whatever requests come |
| `FloatGuards.RewardAsWritten` | webapp.py:485-495 | the reward guard as written leaves the balance alone when `reward <= 0` holds in Python, and for a finite non-negative balance only then |
| `FloatGuards.NaNRewardCorruptsBalance` | webapp.py:491-495 | a NaN reward passes the guard and turns a sound balance into NaN |
| `FloatGuards.InfRewardCorruptsBalance` | webapp.py:491-495 | an infinite reward passes the guard and turns a sound balance into infinity |
| `FloatGuards.RewardGuarded` | webapp.py:491-495 | with a finite-and-positive guard, the balance stays finite and non-negative, and rises by exactly an accepted reward |
| `FloatGuards.SendAsWritten` | webapp.py:506-517 | the transfer guards as written leave both balances alone when `amount <= 0` or `sender < amount` holds in Python, and for finite non-negative balances only then |
| `FloatGuards.SendCommitAsWritten` | webapp.py:506-519 | as written, `send` is refused exactly when a guard holds; otherwise the commit fails exactly when the amount is NaN, because the transfer row's amount column is NOT NULL; a committed transfer from sound balances moves a finite positive amount the sender covers and leaves both balances sound |
| `FloatGuards.NaNPassesSendGuards` | webapp.py:507-519 | a NaN amount passes both guards, so it is not refused as invalid data; both balances turn NaN in memory, and the commit then fails, so the request ends in a server error with nothing stored |
| `FloatGuards.SendGuarded` | webapp.py:507-517 | with a finite-and-positive guard, both balances stay finite and non-negative and their sum is conserved |
| `FloatGuards.SendCommitGuarded` | webapp.py:506-519 | with the corrected guard, `send` never ends in a server error: it is refused exactly when the amount is not a finite positive amount the sender covers, and otherwise commits sound, conserved balances |
| `FloatGuards.GuardsAgreeOnFinite` | webapp.py:491-517 | on finite amounts the corrected guards behave exactly like the written ones |

## Left out

- HTTP plumbing is not modelled: Flask routing, JSON parsing, status codes, the `user_profile` template and the `print` logging. Errors are the `Ledger.Error` datatype.
- Persistence is not modelled: SQLAlchemy sessions, `db.create_all`, migrations and the card seeding in `create_tables`. The card catalog is part of the world, given as input.
- Display-only handlers are not modelled: `get_profile`, `get_referrals`, `set_card_bg`, `user_stats`, `shop_cards`, `my_cards`. Display fields are dropped too: names, photo, `card_bg`, `created_at`. These handlers only read or set presentation data.
- `bot.py` and `fakeusers.py` are not part of this model. They are Telegram glue and a seeding script.
- Concurrency is not modelled. The source has no locking, and the model treats requests as serialized.
- Python float rounding is not modelled. Money is exact reals, and `price_mult ** lvl` is computed exactly.
- Inputs that make the source raise are not modelled, e.g. `float()` or `int()` of a non-numeric value. These end in a server error, not a domain answer.
- The random draw of `secrets.token_hex` is not modelled. The draws are an input sequence.
- `Pricing.MiningDuration`: uses exact arithmetic. In IEEE floats `int(28800 * (1.0 - 0.05 * L))` is one second shorter at levels 7, 11 and 12 (18719, 12959, 11519 instead of 18720, 12960, 11520). The bounds [8640, 28800] and the non-increase hold for both.
- `Pricing.Price`: uses exact reals. For large levels the float power in the source can differ from the exact floor.
- `Money.Round2`: rounds the exact real half-to-even. Python's `round` rounds the nearest binary float, which can differ on values that print as exact half cents.
- `Registration.PickRefCode`: needs some draw in its input to be unused. The source keeps drawing forever, and the model does not express that it terminates with probability one.
- `Mining.MiningStatus`: times are whole seconds. The source measures microseconds and truncates `seconds_left`.
- `Transfer.History`: orders the viewer's transactions by newest log entry first. The source orders by `timestamp` descending. `Transfer.NewestFirstIsDescending` proves the two agree when the clock never runs backwards. Ties and out-of-order clocks are not modelled further.
- `Transfer.History`: a page below 1 gives a negative offset. The model reads that as offset 0, which is SQLite's rule. The `'unknown'` peer cannot arise, because accounts are never deleted. The date string is not modelled.
- `Ranking.Leaderboard`: puts tied balances in one fixed order, where SQL leaves the order open.
- `Shop.ListUpgrades`: static titles, descriptions and units are left out. Prices are tied to `buy_upgrade` by `Shop.ListedPriceIsCharged`.

## Findings

| source | as written | input that shows it | evidently intended | confidence | as-written member | corrected member |
|---|---|---|---|---|---|---|
| webapp.py:485-495 | the only guard on the reward is `if reward <= 0` | `reward` = `"nan"`: `float("nan") <= 0` is false, so the balance becomes NaN, which SQLite stores as NULL; `reward` = `"inf"` passes the same guard and makes the balance infinite | credit only finite positive rewards | medium, not executed | `FloatGuards.NaNRewardCorruptsBalance`, `FloatGuards.InfRewardCorruptsBalance` | `FloatGuards.RewardGuarded` |
| webapp.py:506-519 | the guards are `amount <= 0` and `sender.balance < amount` | `amount` = `"nan"`: both comparisons are false, so the request is not refused as invalid data; the NaN amount then goes into the NOT NULL amount column of the transfer row, the commit fails and the request ends in a server error, with no balance stored | refuse every amount that is not finite and positive with "Invalid data" | medium, not executed | `FloatGuards.NaNPassesSendGuards` | `FloatGuards.SendCommitGuarded` |

The rest of the model uses the corrected domain. `Shop.AddGameReward` and `Transfer.Send` take amounts as reals, where NaN cannot occur. `FloatGuards.GuardsAgreeOnFinite` shows the corrected guards agree with the written ones on every finite amount.
