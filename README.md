# Kraken trailing-stop bot, modelled in Dafny

This project models the core of a single-position trailing-stop trading bot
for the Kraken exchange. It covers five parts.

- **The trading engine** (`TradingBot` in `src/bot.py`).
  - `_load_initial_state` rebuilds the position record from the newest open row in the store.
  - `execute_buy` opens a position. The size is the whole capital over the ask, rounded up to a satoshi.
  - `execute_sell` closes it. It tries a limit order at the bid first and falls back to a market order only after `InvalidOrder`.
  - `manage_orders` ratchets the stop upward.
  - `shutdown` sells an open position before closing the pool.
  - `handle_webhook` dispatches `buy` and `sell`.
- **The position watcher** (`src/watcher.py`).
  - One pass over the open positions raises each high-water mark and recomputes each stop.
  - When the price reaches the stop, the pass sells at the stop and closes the position.
- **The signal processor** (`src/signals.py`): validation, normalisation and per-symbol duplicate suppression.
- **The exchange client** (`src/exchange.py`): the nonce generator, the order-response check and the five-minute clock resync.
- **The configuration** (`src/config.py`). The environment is a `map<string, string>`.

## How it is modelled

Money is exact: Dafny `real`. Python's decimal context belongs to a
thread. `getcontext().prec = 12` at src/bot.py:21 runs on the main thread
at import time, so only the main thread works to 12 digits. Every other
thread starts from `DefaultContext`, which has 28 digits. That includes
waitress's eight worker threads (src/bot.py:337-343), where
`handle_webhook` runs. `Decimal.Context` names the two cases:
`MainContext` (12 digits) and `WorkerContext` (28 digits).
- `Bot.TradingBot.HandleWebhook` buys and sells under `WorkerContext`.
- `Bot.TradingBot.Shutdown` is the `atexit` handler (src/bot.py:349). It
  sells under `MainContext`.

Of each context the model keeps one effect: `quantize` raises
`InvalidOperation`, here `None`, when the rounded coefficient needs more
digits than the precision. At satoshi precision a 12-digit context
cannot hold a price of 10000 or more. `Bot.ShutdownRefusesHighBids` shows
the result: the exit handler cannot sell a position at such a price. It
sends nothing and leaves the position open. The rounding of intermediate
results to the context's significant digits is not modelled; see
"Left out". `ROUND_HALF_EVEN` and `ROUND_UP` are written out in
`Decimal`.

The exchange, the store and the clock are replaced by inputs and records.
- **Exchange:** ticker fields and order outcomes are inputs (`Quote`, `OrderOutcome`).
- **Store:** every call on the store is recorded (`StoreCall`, `Watcher.Call`).
- **Clock:** clock readings are parameters.

Each bot operation is a pure step function: `Bot.SellStep`, `Bot.BuyStep`
and `Bot.ManageOnce`. Each returns the reply, the new state, the orders sent
and the store calls. The class `Bot.TradingBot` keeps `_state` in a field,
and its methods are proved to perform exactly those steps. Properties of the
steps are proved as lemmas.

The watcher works in place on the list of positions. `Watcher.RunOnce`
updates an `array<Position>` and is proved equal to the pass function
`Watcher.Sweep`.

Not every code path assumes the record is complete. The state after
`_load_initial_state` has no `order_id` and no `current_stop` key, so both
are `Option`s. `Bot.RecoveredStopNeverMoves` shows the consequence: for a
recovered position, a higher price makes `manage_orders` raise `KeyError`
(caught and logged), so the stop is never moved. `execute_buy` never checks
for an open position; `Bot.BuyStep` overwrites it, as the source does.

## Model

| member | source | states |
|---|---|---|
| Text.Upper | src/signals.py:97 | `str.upper` keeps the length, maps every character through upper-casing, and leaves no lower-case letter |
| Text.Lower | src/signals.py:64 | `str.lower` keeps the length, maps every character through lower-casing, and leaves no upper-case letter |
| Text.UpperConcat | src/signals.py:97 | upper-casing a concatenation is concatenating the upper-cased parts |
| Text.RemoveChar | src/signals.py:97 | `replace(c, '')` leaves no `c`, is no longer than its input and keeps only characters of the input |
| Text.Strip | src/config.py:37 | stripping (`str.strip` for the `str.isspace` set, the skipping done by `int` and `float` for theirs) is no longer than its input, leaves no whitespace of that set at either end, and leaves a text without edge whitespace as it is |
| Text.StripPadded | src/config.py:37 | any whitespace around a text without edge whitespace is stripped back to exactly that text |
| Text.TrimLeft | src/config.py:37 | the result is a suffix of the input, what was cut is all whitespace, and the result does not start with whitespace |
| Text.TrimRight | src/config.py:37 | the result is a prefix of the input, what was cut is all whitespace, and the result does not end with whitespace |
| Text.StripAllSpace | src/config.py:37 | stripping an all-whitespace string gives `""` |
| Text.ParseInt | src/config.py:55 | `int(s)` succeeds exactly when the text stripped of the whitespace `int` skips (ASCII 9-13 and 32, and non-ASCII `str.isspace` characters, but not 28-31) is, after an optional sign, a non-empty run of digits; its value is then that run's value, negated after a minus |
| Text.ParseIntOfDigits | src/config.py:55-56 | text that strips to plain digits is read as their value |
| Text.ParseIntPadded | src/config.py:55-56 | digits inside any whitespace that `int` skips are read as their value (`" 8080 "` is 8080) |
| Text.SeparatorIsNotNumberSpace | src/config.py:37-55 | a file separator (character 28) before `8080` is removed by `str.strip` but makes `int` fail |
| Text.ParseIntPaddedNegative | src/config.py:55-56 | the same digits after a minus sign are read as the negated value |
| Text.ParseFloat | src/signals.py:69 | `float(s)` succeeds exactly when the unsigned text, stripped of the whitespace `float` skips, is digits, optionally a `.` and more digits, with at least one digit; its value is then `whole + frac / 10^len(frac)`, negated after a minus |
| Text.FloatAgreesWithInt | src/signals.py:69 | wherever `int(s)` succeeds, `float(s)` gives the same number |
| Config.StrippedSetting | src/config.py:34-42 | `KRAKEN_API_KEY` and `KRAKEN_SECRET`: `""` when unset; otherwise stripped (no whitespace at either end), no longer than the raw value, and the raw value itself when it has no edge whitespace |
| Config.IsProduction | src/config.py:67-70 | production exactly when `RAILWAY_ENVIRONMENT` is set to a non-empty value (`bool` of a string) |
| Config.DatabaseUrl | src/config.py:44-49 | `DATABASE_URL` in production, `PUBLIC_DATABASE_URL` otherwise |
| Config.WebServerPort | src/config.py:51-56 | the port is 3000 when the variable read (`PORT` in production, `WEB_SERVER_PORT` otherwise) is unset; a port exists exactly when that text parses as an integer; text that strips (as `int` strips) to digits gives their value |
| Config.PaddedPortParses | src/config.py:54-55 | `PORT=" 8080 "` in production gives the port 8080 |
| Config.DefaultPortParses | src/config.py:55-56 | the default text `"3000"` parses to 3000 |
| Config.SettingsIgnoreOtherEnvironment | src/config.py:44-56 | production ignores `PUBLIC_DATABASE_URL` and `WEB_SERVER_PORT`; development ignores `DATABASE_URL` and `PORT` |
| Config.RedactKey | src/config.py:82-86 | None exactly for a missing or empty key; for a key longer than 4, seven characters (the first two, `***`, the last two); otherwise `****` |
| Config.RedactRevealsOnlyEnds | src/config.py:86 | two long keys with the same two first and two last characters redact alike, whatever their lengths |
| Config.RedactShortKeysAlike | src/config.py:86 | every key of 1 to 4 characters redacts to `****` |
| Config.Missing | src/config.py:22-28 | each of the three names is listed exactly when its setting is empty, and the list has at most three entries |
| Config.MissingOf | src/config.py:22-28 | a name is in the list exactly when its check failed, nothing else is, and the names appear in the order `KRAKEN_API_KEY`, `KRAKEN_SECRET`, `DATABASE_URL` |
| Config.ValidateCore | src/config.py:20-32 | the list built step by step equals `Missing(env)`, and the error is raised exactly when it is non-empty |
| Config.BlankCredentialsAreMissing | src/config.py:22-42 | a whitespace-only key is reported missing; the secret is reported missing exactly when its stripped value is empty |
| Signals.NormalizeSymbol | src/signals.py:93-97 | the result has no `-`, no `/` and no lower-case letter, and is no longer than the input; a symbol without `-` or `/` normalises to its upper-case form |
| Signals.NormalizeSymbolConcat | src/signals.py:97 | normalising a concatenation is concatenating the normalised parts |
| Signals.NormalizeSymbolIdempotent | src/signals.py:97 | normalising twice is normalising once |
| Signals.LowerDashSpelling | src/signals.py:97 | `srm-eur` normalises to `SRMEUR` |
| Signals.SlashSpelling | src/signals.py:97 | `SRM/EUR` normalises to `SRMEUR` |
| Signals.AsFloat | src/signals.py:69 | `float(v)`: a number is itself, `True`/`False` are 1.0/0.0, `None` raises, a string is `ParseFloat`, and an integer string gives its integer value |
| Signals.ValidateSignal | src/signals.py:56-81 | accepts exactly the signals with all three required fields, a `buy`/`sell` action in any case, a trailing value in [0.001, 0.2] (both ends inclusive) and a normalised symbol that is not blacklisted; a missing field gives False, not an exception; it raises only for a non-string action or symbol, or a trailing value `float` rejects |
| Signals.BlacklistedPairRejected | src/signals.py:75-79 | a signal for `srm-eur` or `SRM/EUR` is never accepted |
| Signals.NormalizeSignal | src/signals.py:83-91 | the action is lower-cased, the symbol normalised, the trailing value is `float(trailing_stop)` (so in range), the timestamp the clock; `take_profit` is None exactly when absent and otherwise `float(take_profit)`; the call fails exactly when `float(take_profit)` raises |
| Signals.Process | src/signals.py:38-54 | invalid signals give None and leave the table; a valid signal that normalises and differs from the last one for its symbol is returned; a returned signal is the normalised one, was not the last one for its symbol, and is stored under its symbol; None leaves the table unchanged; entries for other symbols never change |
| Signals.RepeatSuppressedOnlyWithSameTimestamp | src/signals.py:105-111 | a signal that went through is suppressed when repeated with the same clock, and let through again with any other clock |
| Signals.SignalProcessor.constructor | src/signals.py:18-21 | not initialised, empty table |
| Signals.SignalProcessor.Initialize | src/signals.py:23-27 | sets `initialized`, leaves the table |
| Signals.SignalProcessor.IsDuplicate | src/signals.py:105-111 | true exactly when the signal equals the stored one for its symbol; on false it stores the signal for that symbol and changes nothing else |
| Signals.SignalProcessor.ProcessSignal | src/signals.py:38-54 | result and new table are those of `Process` |
| Exchange.NextNonce | src/exchange.py:64-65 | the nonce is above the previous one, at least the clock reading, and one of the two candidates |
| Exchange.NonceRun | src/exchange.py:60-66 | nonces are strictly increasing, each at least its clock reading, and all above the initial `last_nonce` |
| Exchange.NonceGenerator.constructor | src/exchange.py:62 | `last_nonce` starts at the first clock reading |
| Exchange.NonceGenerator.Next | src/exchange.py:63-66 | the nonce yielded exceeds the previous one, is at least the clock reading, and becomes `last_nonce` |
| Exchange.FirstMissing | src/exchange.py:118-121 | every field before the index is present, the field at the index is absent |
| Exchange.ValidateOrderResponse | src/exchange.py:116-124 | reports `id`, `status`, `filled` as missing in that order, then an unknown status; passes exactly when all three are present and the status is `closed` or `open` |
| Exchange.CheckResponse | src/exchange.py:93-104 | the order is returned exactly when the library answered and the answer passes the check; it is the answer unchanged |
| Exchange.ExchangeClient.constructor | src/exchange.py:17-19 | `_last_sync` starts at 0 |
| Exchange.ExchangeClient.CreateOrder | src/exchange.py:83-114 | resyncs exactly when more than 300 s have passed; `_last_sync` moves only then, to the clock after a successful sync; a failed sync (any exception `fetch_time` raises, labelled `SyncError`) raises before the order is sent; otherwise the order is sent once and its answer checked |
| Decimal.RoundHalfEven | src/bot.py:140 | the nearest integer, ties to the even one |
| Decimal.RoundUp | src/bot.py:196 | the next integer away from zero |
| Decimal.Quantize | src/bot.py:195-196 | a result is on the grid and its coefficient within the context's precision (12 digits on the main thread, 28 elsewhere); half-even gives a value within half a step, and at exactly half a step the even grid point; round-up rounds away from zero: for a non-negative value at most one step above it, for a negative one at most one step below it; every value that fits has a result, and a value whose coefficient reaches the limit has none |
| Decimal.RoundedUpCost | src/bot.py:196-212 | buying the capital-over-price quotient rounded up costs at least the capital and less than one step more |
| Bot.LoadInitialState | src/bot.py:104-130 | active exactly when the first row exists and reads; its fields then come from that row; otherwise the idle state (no symbol, size 0, trailing 0.02, initial capital); never an order id or a stop |
| Bot.SellAttempt | src/bot.py:143-156 | a limit order for the full size at the price, then a market order for the same size only after `InvalidOrder` |
| Bot.SellStep | src/bot.py:131-188 | without a position: refused and nothing changes. A refusal always leaves the state as it was and writes nothing. At most two orders, the first a limit sell of the full size. On success the position is closed, symbol and size are cleared, and `CloseOpenPositions` records the limit price and the unrounded capital |
| Bot.SellRoundsToGrids | src/bot.py:140-166 | the limit price is the bid rounded half-even to a satoshi; the new capital is the proceeds rounded half-even to a cent; in both, a value exactly halfway goes to the even grid point |
| Bot.SellCompletes | src/bot.py:139-184 | on a webhook thread (28 digits), a placed order means success with that order's id for any bid up to 10^9, size up to 10^6 and capital up to 10^12 in size |
| Bot.SellCompletesAtShutdown | src/bot.py:139-184 | on the main thread (12 digits), the same holds for bids below 10000, sizes up to 10000 and capital up to 10^9 in size |
| Bot.ShutdownRefusesHighBids | src/bot.py:21-140 | on the main thread, a bid of 10000 or more makes the sell raise at quantize: refused, no order sent, state unchanged |
| Bot.SellStepAsWritten | src/bot.py:158-162 | as written, every sell is refused and the state is unchanged; once an order is placed the refusal is the `Decimal - float` TypeError |
| Bot.SellAsWrittenKeepsSoldPosition | src/bot.py:159-169 | selling 0.4 at 100: as written, the limit order is placed yet the bot stays active; as intended, it is flat with capital 40.00 |
| Bot.BuyStep | src/bot.py:190-223 | a refusal changes nothing and writes nothing; at most one order, a market buy; on success the position is open with the symbol, the trailing, the order id, the stop `price * (1 - trailing)`, the capital less `price * size`, and one `InsertPosition` |
| Bot.BuyRoundsToGrids | src/bot.py:195-196 | the entry price is the ask rounded half-even to a non-zero satoshi value, a tie going to the even one; the size is the capital over it rounded away from zero to a satoshi: at most one satoshi above a non-negative quotient, at most one satoshi below a negative one (a buy over an open position, whose capital is already at or below 0) |
| Bot.BuySpendsAllCapital | src/bot.py:195-212 | after a buy with non-negative capital the remaining capital is at most 0 and above minus one satoshi's worth |
| Bot.BuyCompletes | src/bot.py:193-220 | on a webhook thread, a placed order means success for any ask from 0.0001 to 10^9 and capital from 0 to 10^12, whether or not a position was open |
| Bot.BuyStepAsWritten | src/bot.py:201-210 | as written, every buy is refused and writes nothing to the store, with the same orders as the intended buy; where the intended buy succeeds, the refusal is the `Decimal - float` TypeError, and the state is the intended one except that `current_stop` and `capital` are not updated; otherwise it is the intended step |
| Bot.BuyAsWrittenLeavesHalfOpenPosition | src/bot.py:201-216 | buying at 100 with 40: as written, the order for 0.4 is placed, the webhook answers 400 and the bot is active with no stop and capital 40; as intended, 200, stop 98, capital 0 and one `InsertPosition` |
| Bot.ManageOnce | src/bot.py:228-251 | only `current_stop` can change, and it never falls; inactive means nothing happens and a 15 s pause; the stop changes only to `last * (1 - trailing)`, only when that is strictly higher and `update_order` succeeded; the exact update calls; with a position, the 60 s pause exactly on errors and never the 15 s one |
| Bot.ManageRun | src/bot.py:228-251 | repeated passes of the loop make at most one update call per pass, and without a position nothing happens |
| Bot.MonitorOnlyRaisesStop | src/bot.py:228-251 | over any number of passes, nothing but `current_stop` changes (no sell, no deactivation), the stop never falls, and every update call names the position's own order id |
| Bot.RecoveredStopNeverMoves | src/bot.py:240-244 | from a state loaded from the store, any run of the monitor leaves the state unchanged and makes no update call |
| Bot.ActionOf | src/bot.py:293-318 | buy exactly when the lower-cased action is `buy`, sell exactly when it is `sell` |
| Bot.TradingBot.constructor | src/bot.py:89-92 | the state is the loaded one; nothing sent or recorded |
| Bot.TradingBot.ExecuteSell | src/bot.py:131-188 | under the calling thread's context, reply, new state, orders and store calls are those of the corrected `SellStep` (the profit of line 161 computed without a TypeError); nothing else changes |
| Bot.TradingBot.ExecuteBuy | src/bot.py:190-223 | under the calling thread's context, reply, new state, orders and store calls are those of `BuyStep`, with `trailing` an exact decimal as the signature declares; nothing else changes |
| Bot.TradingBot.ManageTick | src/bot.py:229-251 | state, update calls and pause are those of `ManageOnce` |
| Bot.TradingBot.ManageOrders | src/bot.py:225-251 | the loop performs `ManageRun` over the ticks unless shutdown was requested; orders and store are untouched |
| Bot.TradingBot.Shutdown | src/bot.py:253-266 | the event is set; an open position is sold as the corrected `SellStep` under the main thread's 12-digit context; the pool is closed last |
| Bot.TradingBot.HandleWebhook | src/bot.py:290-326 | under the worker thread's 28-digit context: `buy` runs the intended `BuyStep` (the trailing value as an exact decimal, see Findings) with the signal's trailing or 0.02, starts a monitor only on success, answers 200/400; `sell` runs the corrected `SellStep`, 200/400; any other action 400 with nothing done |
| Watcher.Max | src/watcher.py:29-30 | the new high-water mark is the larger of the old one and the price |
| Watcher.Observe | src/watcher.py:29-31 | only the high-water mark and the stop change; the mark is the maximum; the stop tracks it |
| Watcher.StopRatchets | src/watcher.py:29-31 | with a percentage of at most 1, one tick never lowers the stop |
| Watcher.StopNeverFalls | src/watcher.py:23-31 | across any ticks the stop and the high-water mark never fall and the stop keeps tracking |
| Watcher.TwoPercentExample | src/watcher.py:29-31 | at 2 %: high 100 gives stop 98, a rise to 110 gives 107.8, a fall to 90 keeps 98 |
| Watcher.Visit | src/watcher.py:27-46 | one update per position; a sell exactly when `last <= stop`, a limit sell of the amount at the stop; closed only after the sell returns, then a second update; a failed fetch or a raising sell ends the pass |
| Watcher.Sweep | src/watcher.py:26-46 | a pass keeps the list's length, makes at most three calls per position, and a completed pass made at least one per position |
| Watcher.SweepKeepsPositions | src/watcher.py:26-46 | a pass keeps every holding and never lowers a mark or reopens a position; a completed pass saw a price for every position, left each mark at the maximum and each stop tracking, and closed exactly the positions whose price reached the stop (or that were closed already) |
| Watcher.SellsAreAtStops | src/watcher.py:34-44 | every sell a pass sends is a limit sell at some position's new stop, with the price at or below it |
| Watcher.VisitAt | src/watcher.py:27-46 | updates position `i` in place to `Visit`'s result and nothing else |
| Watcher.RunOnce | src/watcher.py:25-46 | the array, calls and completion are those of `Sweep` on the old contents |

## Left out

- The HTTP layer is not modelled: Flask routes, `validate_webhook`, `health_check`, JSON bodies, and the 500 answer for an exception in `handle_webhook`. Only the buy/sell dispatch is modelled.
- Concurrency is left out: `Lock`, `Event`, `Thread` and the `synchronized` decorator. Each method is one atomic step. A started monitor thread is only counted (`monitors`).
- The store never raises in the model. In the source, `transactional` takes its connection outside its `try` (src/database.py:139), so an exhausted or closed pool raises `PoolError`. `execute_sell` and `execute_buy` then return `(False, msg)` after `_state` was already updated, and the webhook answers 400 with the position open. Bot.SellStep and Bot.BuyStep state "a refusal leaves the state as it was" only for stores that do not raise.
- `src/database.py` is not part of this model. Its calls are recorded as `StoreCall` values. The source never looks at what `transactional` returns, so the model does not take it.
- The exchange library is left out: ccxt, `fetch_time`, `_force_time_sync` and the network side of `create_order`. Their results are inputs. `fetch_ticker`, `create_limit_order`, `create_market_order` and `update_order` are not defined in `src/exchange.py`. The model takes their outcomes as inputs; a failure outcome stands for any exception they raise.
- `trading_engine` (the watcher's `execute_limit_order`) is not part of this model. The sell's outcome is an input.
- `params` of `create_order` is left out, and so is `_initialize_client`.
- Decimal arithmetic is exact. The rounding of intermediate sums, products and quotients to the context's significant digits is not modelled. Only quantize's failure beyond the precision is.
- Bot.BuyRoundsToGrids holds for exact division only. On a webhook thread, `capital / price` at src/bot.py:196 is rounded to 28 significant digits before `ROUND_UP`. The two disagree only when the exact quotient lies above a satoshi multiple by less than half a unit in its 28th digit: rounding can then land on that multiple, and the source buys one satoshi less. For 40 at 0.03 both give 1333.33333334.
- Bot.BuySpendsAllCapital holds for exact division only, for the same reason. In that rare case the source leaves a tiny positive capital.
- Float plumbing is left out: `float(...)` values sent to the exchange and the store, `round(float, 4)` in `_normalize_signal`, and `Decimal(str(float))`. Numbers are exact reals throughout.
- Text.ParseInt and Text.ParseFloat reject what Python also accepts: `_` between digits (`int("3_000")`) and non-ASCII decimal digits. Such values are None in the model.
- `Text.Upper` and `Text.Lower` map ASCII letters only. Python's Unicode case mapping is not modelled.
- `Text.ParseFloat` accepts only `[sign]digits[.digits]`. Exponents, `inf` and `nan` are not modelled.
- `config.INITIAL_CAPITAL` is a parameter.
- Logging and the trade-audit log are left out. This includes the sell's log line, which reads `symbol` after it has been cleared.
- The outer `while True` of the watcher, its sleeps and `WATCH_INTERVAL` are left out. `Watcher.RunOnce` models one pass of the `for` loop; an exception ends the pass.
- Watcher positions are records in an array. Aliasing between the list the store returned and the store itself is not modelled.
- `Watcher.RunOnce` leaves out a failing `get_open_positions` or `update_position`; only the fetch and the sell can fail.
- `Signals.SignalProcessor.IsDuplicate` compares records instead of `hash(frozenset(...))`. Hash collisions are not modelled.
- `ENVIRONMENT`, `SSL_DATABASE` and `_log_config_state` of `src/config.py` are left out. The unreachable lines after `return` in `_normalize_symbol` are left out too.

## Findings

| source | as written | input that shows it | evidently intended | confidence | as-written member | corrected member |
|---|---|---|---|---|---|---|
| src/bot.py:210 | the webhook passes `trailing_cfg = float(...)` (src/bot.py:298), so `Decimal('1') - trailing` raises TypeError after the buy order was placed and `order_id`, `active`, `symbol`, `entry_price`, `size` and `trailing_stop` were written, before `current_stop`, `capital` and the store; the webhook answers 400 and starts no monitor | a webhook buy at an ask of 100 with 40 of capital and the order placed | take the trailing stop as a Decimal and complete the buy | not executed | Bot.BuyStepAsWritten, Bot.BuyAsWrittenLeavesHalfOpenPosition | Bot.BuyStep |
| src/bot.py:161 | `profit = new_capital - config.INITIAL_CAPITAL` subtracts a float from a Decimal, which raises TypeError after the sell order was placed and before the state is updated; the sell returns `(False, msg)` with the position still open | a position of 0.4 at a bid of 100 with the limit order placed | compute the profit in Decimal and close the position | not executed | Bot.SellStepAsWritten, Bot.SellAsWrittenKeepsSoldPosition | Bot.SellStep |
