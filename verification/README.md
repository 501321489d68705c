# Neoenergia ledger rules, modelled in Dafny

This project models the money-moving rules of the Django views in
`core/views.py` of the Neoenergia investment and referral platform. Users
hold an available balance, a subsidy balance, roulette spin credits, an
optional inviter and a `level_active` flag. They buy levels (catalog tiers
with a price and a daily gain), collect a daily gain from a 24-hour
cooldown, pay their inviter a 15% commission, withdraw money under time,
frequency, minimum and balance rules, spin a weighted prize roulette, and
have deposits credited by staff.

The views are modelled without the HTTP and ORM layers:

- `Ledger.User`, `Ledger.UserLevel` and `Ledger.Deposit` are classes, because
  the views update their fields in place.
- `Ledger.Store` holds the tables the views append to: level purchases,
  task history, withdrawals and roulette draws. Each table is a sequence in
  primary-key order.
- Each view is one method that runs as one sequential step.
- The clock, the time of day, today's date, the staff flag, the
  bank-details flag and the configured prize text are parameters.
- The random draw is a nondeterministic choice of an index into the pool.

Modules:

- `Cooldown` (cooldown.dfy): the next-gain time, the accrual check as a
  value, the at-most-once-per-cooldown bound over any run of checks, and
  the countdown shown by `tarefa`.
- `WithdrawalRules` (withdrawal_rules.dfy): the constants of `saque` and
  its decision as "the first failing rule".
- `PrizeText` (prize_text.dfy): Python's `str.split(',')`, `str.strip()`
  and `int()` as used on the prize list. It proves that a written list
  reads back unchanged.
- `RoulettePool` (roulette_pool.dfy): the weighted pool, the loop that
  builds it, and the default pool.
- `Ledger` (ledger.dfy): the entities and the operations.
- `Scenarios` (scenarios.dfy): worked runs, and the properties that take
  two calls (idempotence of accrual and of deposit approval).

Units:

- Money is `real`, because Python `Decimal` is exact. So
  `deposit_value * Decimal('0.15')` is exactly `depositValue * 0.15`.
- Instants and times of day are integers counting microseconds, which is
  the resolution of Python's `datetime`. This keeps two things exact: the
  inclusive `18:00:00` bound, and the truncation in
  `int(total_seconds())`.

## Behaviour as written

The model follows the code where it departs from the intended design:

- The withdrawal window is closed at both ends. `START_TIME <= now <= END_TIME`
  accepts 18:00:00 exactly (core/views.py:278).
- Buying a second, different level does not deactivate the first. A user
  may hold several active level purchases, and the daily gain uses the
  one `.first()` returns, taken here to be the first in primary-key order
  (core/views.py:31, 381-396). No
  single-active-level invariant is assumed.
- The spin credit is consumed and saved before the prize text is parsed.
  A prize entry that is not an integer raises `ValueError`, and nothing
  catches it, so the spin is lost and nothing is credited
  (`SpinOutcome.PrizeConfigError`). The settings do not make requests
  atomic. The `except RouletteSettings.DoesNotExist` branch can never run,
  because `.first()` returns `None` instead of raising.
- The default pool `[100, 200, 300, 500, 1000, 2000]` is drawn from without
  weighting. Only a configured list is weighted.
- Configured prizes may be negative (`int()` accepts a sign), and a spin
  that draws one lowers both balances. With no configuration, or with no
  negative configured prize, a spin never lowers either balance.

## Model

| member | source | states |
|---|---|---|
| Cooldown.ReferenceTime | core/views.py:43 | `last_daily_gain_date or purchase_date`: the last gain when there was one, else the purchase date; no contract of its own, its meaning is stated by `AccrualCheck` |
| Cooldown.NextGainTime | core/views.py:44 | the reference instant plus the 24-hour cooldown; no contract of its own, stated by `AccrualCheck` and `NextGainWithinOneCooldown` |
| Cooldown.GainDue | core/views.py:47 | `now >= next_gain_time`; no contract of its own, stated by `AccrualCheck`, `GainRestartsCooldown` and `AccrualRun` |
| Cooldown.AccrualCheck | core/views.py:43-73 | the gain is due iff at least 24h have passed since `last_daily_gain_date`, or since `purchase_date` when no gain was applied; a due check reports now + 24h, a check that is not due reports reference + 24h, which is still in the future |
| Cooldown.GainRestartsCooldown | core/views.py:56-70 | after a gain at `now` the next one is due exactly 24h later whatever the purchase date, so a second check at the same instant is not due |
| Cooldown.NextGainWithinOneCooldown | core/views.py:43-73 | when the reference instant is not in the future, the reported next-gain instant lies in (now, now + 24h] |
| Cooldown.AccrualRun | core/views.py:43-57 | over successive checks on one purchase, each applying `AccrualCheck` and moving the last-gain date to the check's instant when due: no gain is applied iff no check is due against the starting reference, and then the last-gain date is left as it was |
| Cooldown.AccrualAtMostOncePerCooldown | core/views.py:43-57 | however checks are timed, n applied gains need n full cooldowns between the reference instant and the latest check (at most one gain per 24h window) |
| Cooldown.CooldownSecondsRemaining | core/views.py:339-350 | the countdown is the whole number of seconds until the next gain, truncated, when there is an active level and the next gain is in the future, and 0 otherwise |
| Cooldown.CountdownAtMostOneDay | core/views.py:334-350 | the countdown read after a check never exceeds 86400 seconds |
| WithdrawalRules.IsTimeAllowed | core/views.py:278 | `START_TIME <= now <= END_TIME`, closed at both ends; no contract of its own, stated by `Decide` and `Scenarios.WithdrawAtEightPm` |
| WithdrawalRules.Decide | core/views.py:265-304 | a withdrawal is accepted iff bank details exist, the time is within [09:00:00, 18:00:00], no withdrawal was made today, amount >= 2000 and balance >= amount; missing bank details is reported iff they are missing; acceptance leaves balance - amount >= 0 |
| WithdrawalRules.FirstFailureIsEarliest | core/views.py:296-303 | an ordered rule chain reports the failure of the earliest rule that does not hold |
| WithdrawalRules.FirstFailureAllHold | core/views.py:304-306 | an ordered rule chain accepts when every rule holds |
| WithdrawalRules.DecideReportsFirstFailingRule | core/views.py:292-304 | the decision equals the first failing rule of the list bank details, time window, one per day, minimum, balance |
| PrizeText.IsSpace | core/views.py:503 | the characters `str.strip()` removes, Python's `str.isspace()` set; no contract of its own, used by `TrimStart` and `TrimEnd` |
| PrizeText.Strip | core/views.py:503 | `str.strip()` with no argument: `TrimEnd` after `TrimStart`; it has no contract of its own, and its meaning is carried by theirs and by `StripPadded` |
| PrizeText.ParseInt | core/views.py:503 | `int()` on a string; it has no ensures: it accepts, after stripping, an optional `+` or `-` and then ASCII digits with single underscores only between digits, and returns None where `int()` raises `ValueError` on such text; the digit-count limit of newer interpreters is not modelled (see Left out); `ParseIntDecimal` proves it inverts `str()` |
| PrizeText.TrimStart | core/views.py:503 | leading whitespace (Python's `isspace` set) is removed, and only that |
| PrizeText.TrimEnd | core/views.py:503 | trailing whitespace is removed, and only that |
| PrizeText.Split | core/views.py:503 | `split(',')` yields at least one piece, no piece holds a comma, and joining the pieces with commas gives back the text |
| PrizeText.ParsePieces | core/views.py:503 | `int(p.strip())` for each piece, in order, as per-piece results; its meaning is stated by `ParsePiecesAt` and, through `ParseAll`, by `ParseAllAt` and `ParseAllFails` |
| PrizeText.Collect | core/views.py:503 | the comprehension's result: the integers when every piece parsed, None at the first `ValueError`; one value per piece, and `ParseAllAt`, `ParseAllFails` and `ParseAllOf` state the rest |
| PrizeText.ParseAll | core/views.py:503 | a parsed list has one integer per piece |
| PrizeText.ParseAllAt | core/views.py:503 | entry i of a parsed list is `int(pieces[i].strip())` |
| PrizeText.ParseAllFails | core/views.py:503 | the list fails to parse iff some stripped piece is not an integer |
| PrizeText.ParseAllOf | core/views.py:503 | when every stripped piece is an integer, the parse is exactly those integers in order |
| PrizeText.ParsePrizes | core/views.py:503 | a prize text that parses yields at least one prize |
| PrizeText.StripPadded | core/views.py:503 | `strip()` removes whitespace padding around a word whose ends are not whitespace |
| PrizeText.ParsePrizesFails | core/views.py:503 | a prize text fails to parse iff some comma-separated piece is not an integer once stripped |
| PrizeText.ParsePrizesAt | core/views.py:503 | in a prize text that parses, prize i is `int()` of piece i |
| PrizeText.ParsePrizesSpaced | core/views.py:503 | a prize list written with a space after every comma (`"500, 2000"`) reads back as the same list |
| PrizeText.ParsePrizesPadded | core/views.py:503 | comma-separated pieces that strip to decimal integers read back as those integers, whatever whitespace surrounds each piece |
| PrizeText.ParseIntDecimal | core/views.py:503 | the model's `int()` inverts its `str()`: `int(str(n).strip()) == n` for every integer n, with and without a sign; in Python this holds for n of at most 4300 digits (see Left out) |
| PrizeText.SplitJoin | core/views.py:503 | splitting comma-joined pieces that hold no comma gives the pieces back |
| PrizeText.ParsePrizesFormat | core/views.py:503 | a prize list written as comma-separated integers reads back as the same list |
| RoulettePool.Weight | core/views.py:506-509 | every configured prize enters the pool at least once |
| RoulettePool.WeightedPool | core/views.py:504-509 | the weighted pool as a value: each configured prize, in order, repeated `Weight(prize)` times; its properties are `WeightedPoolAppend`, `WeightedPoolMultiplicity` and `WeightedPoolMembers` |
| RoulettePool.BuildWeightedPool | core/views.py:504-509 | the loop that extends `prizes_weighted` builds exactly the weighted pool of the configured list |
| RoulettePool.WeightedPoolAppend | core/views.py:504-509 | the pool keeps the configured order: the pool of a concatenation is the concatenation of the pools |
| RoulettePool.WeightedPoolMultiplicity | core/views.py:505-509 | each prize <= 1000 occurs in the pool 3 times per configured occurrence, every other prize once |
| RoulettePool.WeightedPoolMembers | core/views.py:504-510 | the pool holds exactly the configured prizes |
| RoulettePool.PrizePool | core/views.py:500-517 | the pool a spin draws from: the default list unweighted when the configuration is missing or its text is empty, the weighted pool of the parsed list otherwise, and None where `int()` raises; its properties are `PrizePoolNonEmpty` and `PoolPrizesNonNegative` |
| RoulettePool.ConfiguredPool | core/views.py:500-513 | loads exactly the pool of the configuration: the default list when the text is missing or empty, the weighted pool when it parses, none when it does not; a loaded pool is non-empty |
| RoulettePool.PrizePoolNonEmpty | core/views.py:502-513 | every pool a spin can draw from (default or weighted) is non-empty |
| RoulettePool.PoolPrizesNonNegative | core/views.py:502-513 | with no configuration, or no negative configured prize, every prize that can be drawn is non-negative |
| Ledger.TaskEarnings | core/views.py:588 | `Sum('earnings')` over the user's Task rows (0 when there are none), as a value; `TaskEarningsAppend` states how it changes |
| Ledger.TaskEarningsAppend | core/views.py:588 | appending a history record adds its earnings to its owner's earnings total and to nobody else's |
| Ledger.UserLevel.constructor | core/views.py:390-396 | a new level purchase belongs to the given user and level, carries the given active flag (`PurchaseLevel` passes true), is dated at the given instant and has no last gain |
| Ledger.Deposit.Approve | core/views.py:246-259 | non-staff callers change nothing; staff approval of an unapproved deposit sets it approved and credits the owner's available balance by exactly the amount; an approved deposit is never credited again |
| Ledger.Store.HasActiveLevel | core/views.py:402 | the user has some active level purchase (`UserLevel.objects.filter(user=..., is_active=True).exists()`) |
| Ledger.Store.HoldsActiveLevel | core/views.py:375-381 | the user holds an active purchase of the given level (`level_to_buy.id in user_levels`) |
| Ledger.Store.WithdrewOn | core/views.py:282-285 | the user has a withdrawal created on the given day (`created_at__date=today` ... `.exists()`) |
| Ledger.Store.FirstActive | core/views.py:31 | `.filter(user=user, is_active=True).first()`: the first active purchase of the user from the start of the table; its meaning is stated by `FirstActiveFrom` with k = 0 |
| Ledger.Store.FirstActiveFrom | core/views.py:31 | the purchase used for accrual is the first active purchase of the user in table order (taken to be `.first()`'s order), or none when the user has none |
| Ledger.Store.CheckAndApplyDailyGain | core/views.py:21-73 | with no active purchase: (false, None), no change; otherwise the result is the accrual check of the first active purchase, and when due the balance rises by exactly the level's daily gain, the last-gain date becomes now and exactly one Task with that gain is appended; when not due nothing changes; no other purchase changes |
| Ledger.Store.PurchaseLevel | core/views.py:369-415 | refused with no change iff the level is already held actively, or the balance is below the price; otherwise the balance drops by exactly the price (so it stays >= 0), one new active purchase with no last gain is appended and `level_active` is set; the inviter is credited 15% of the price into both balances iff it exists and holds an active level, and is otherwise unchanged |
| Ledger.Store.RequestWithdrawal | core/views.py:263-310 | the verdict is the first failing withdrawal rule; acceptance appends exactly one pending withdrawal of the amount for today and debits the balance by exactly the amount, leaving it >= 0; every refusal changes nothing |
| Ledger.Store.SpinRoulette | core/views.py:490-525 | with no spins the spin fails and nothing changes; otherwise one spin is consumed; a prize text that does not parse fails with nothing credited; otherwise the prize is drawn from the pool, both balances rise by it and one approved draw record is appended |
| Scenarios.PurchaseThenAccrue | core/views.py:385-399 | buying a 3000 level from 5000 leaves 2000; a check 23h later is not due and reports purchase + 24h; a check at 25h applies the 50 gain (balance 2050) |
| Scenarios.CommissionToInviter | core/views.py:401-408 | an invitee's 1000 purchase pays an inviter who holds an active level 150 into both balances, and pays an inviter without one nothing |
| Scenarios.BuySameLevelTwice | core/views.py:381-383 | a second purchase of an actively held level is refused and costs nothing |
| Scenarios.WithdrawAtEightPm | core/views.py:277-278 | a request at 20:00 is refused as outside hours with the balance unchanged; a request at 18:00:00 exactly is accepted |
| Scenarios.WithdrawTwiceOneDay | core/views.py:281-299 | a second withdrawal on the same day is refused |
| Scenarios.ExamplePrizePool | core/views.py:502-509 | the prize text "500,2000" gives the pool [500, 500, 500, 2000] |
| Scenarios.SpinWithNonNegativePrizes | core/views.py:502-525 | with no configuration, a configuration that does not parse, or no negative configured prize, a spin never lowers either balance |
| Scenarios.SpinWithDefaultPool | core/views.py:511-513 | with one spin and no configuration, a spin leaves 0 spins and wins a prize of the default list |
| Scenarios.GainTwiceAtSameInstant | core/views.py:43-70 | two accrual checks at one instant apply the gain at most once, and the user's task-earnings total rises by exactly the gain when it is applied |
| Scenarios.ApproveTwice | core/views.py:252-256 | approving a deposit twice credits it at most once |

## Left out

- Django plumbing is not modelled: requests, responses, rendering, redirects, messages, login checks, `require_POST`, `get_object_or_404` and form validation. An unknown level id in `nivel` ends in a 404 before any rule runs. In `approve_deposit` the staff check runs first (core/views.py:247-249), so a non-staff caller is redirected whatever the id, and only a staff caller gets a 404 for an unknown deposit id (core/views.py:251); the model takes an existing deposit. An invalid withdrawal form reaches none of the rules.
- Concurrency is not modelled. `transaction.atomic` and `select_for_update` serialise concurrent requests, and each operation here is one sequential step.
- The probability of each prize under `random.choice` is not modelled. The draw is any element of the pool, and the pool's multiplicities are proved instead.
- Clocks and timezones are parameters. The wall-clock instant, the local time of day and today's date number are passed in, so the timezone conversion behind them is not modelled.
- Ledger.Store.PurchaseLevel: requires that a buyer is not its own inviter. Registration looks the inviter up before the new user exists, so this cannot happen.
- Ledger.UserLevel: `is_active` is a constant, because no operation of this core changes it.
- Ledger.Store.FirstActiveFrom: `.first()` is taken to return the lowest primary key. The ordering it actually uses is declared in the models file (`Meta.ordering`), which is not part of this model.
- Ledger.Store.PurchaseLevel: the new purchase's `purchase_date` is taken to be the instant of purchase. The `create` call does not pass it (core/views.py:390-396); the models file, which sets it, is not part of this model.
- Decimal rounding when a row is saved is not modelled. The field precision is declared in the models file, which is not part of this model. Commissions are exact reals here.
- Ledger.Task: `completed_at` is taken to be the instant of the check. The models file, which sets it automatically, is not part of this model. `task_definition` is always `None` here and is not stored.
- Ledger.Withdrawal: the status at creation is taken to be pending. The model default is not part of this model. Only the creation day is recorded, for the one-per-day rule. Approving a withdrawal happens outside this code.
- Ledger.User: a null `roulette_spins` is not modelled. The source treats it like 0.
- PrizeText.ParseInt: `int()` also accepts non-ASCII decimal digits, and those are not modelled. Only ASCII digits, a sign and single underscores between digits are accepted.
- PrizeText.ParseInt: the limit on integer-string conversion in CPython 3.11 and later (and in the 3.7.14, 3.8.14, 3.9.14 and 3.10.7 security releases) is not modelled. Those interpreters raise `ValueError` on a decimal string of more than 4300 digits, where the model returns the value. The interpreter version is not fixed by the code. `PrizeText.IntToDecimal` and `PrizeText.ParseIntDecimal` likewise ignore the limit that makes `str(n)` raise on such n.
- Registration, login, logout, profile and password changes, the download, menu and about pages, and building invite links are CRUD and display code.
- The team page (`equipa`) and the income page (`renda`) are read-only aggregations. Of these, only the per-user sum of task earnings is modelled.
