# Grid trading bot core, modelled in Dafny

This project models the parts of the grid trading bot that hold real logic, and proves properties about them:

- **Grid start-up** (`GridStrategy`). The strategy lays a ladder of `grid_size` evenly spaced prices between `lower_price` and `upper_price`. It then tries to place one limit order per rung: a buy below the current market price, a sell at or above it. A failed placement is swallowed and the next rung is still tried.
- **Token-bucket rate limiter** (`RateLimiting`). This is the limiter that guards exchange calls. `acquire` refills the bucket in proportion to elapsed time, capped at `max_requests`, for as long as the bucket holds nothing positive. Then it spends one token.
- **The simpler limiter of the `scripts/` tree** (`ScriptsRateLimiting`). It refills once per call and spends a token only if a whole one is there. Otherwise it returns without one.
- **The shared refill rule** (`TokenBucket`): `min(max_requests, tokens + elapsed * max_requests / time_window)`.
- **Metrics balance tracking** (`Metrics`). Recorded trades move a running balance and a peak balance. The model ties both numbers to the trade list: the balance is the sum of the trades' cash flows, and the peak is the best balance any prefix of the list reached.
- **Configuration** (`ConfigLoader`, `Validation`). This covers the field validators (`grid_size >= 2`, `0 < grid_spread < 1`), the field defaults, and the step that lets `EXCHANGE_API_KEY` / `EXCHANGE_API_SECRET` replace the file's credentials.

Design choices:

- Prices, quantities and balances are `real`. Exact arithmetic stands in for `Decimal`.
- Time is an explicit argument. The main limiter receives the list of clock readings its wait loop would take.
- The exchange is an oracle. `Initialize` receives one reply per placement and one market price per round.
- Raised exceptions are modelled as result values, not as preconditions: a zero `time_window`, a `grid_size` of 1, a missing `exchange` section and failed validation.

Where the code departs from what a grid bot with a token-bucket limiter would be expected to do, the model follows the code:

- No risk check, order registry or rebalancing exists in the code. `active_orders` is never written.
- Inverted price bounds are accepted.
- The scripts limiter returns without a token instead of waiting.
- The main limiter can exceed `max_requests` when it is given a larger `initial_tokens`.

`grid_trading_bot/grid_trading/utils/rate_limiter.py` is damaged at lines 49-51: a shell heredoc is spliced into the refill expression. The model uses the expression rejoined from lines 49 and 52: `time_passed * self.max_requests / self.time_window`.

## Model

| member | source | states |
|---|---|---|
| `TokenBucket.Refill` | grid_trading_bot/grid_trading/utils/rate_limiter.py:47-53 | a refill never exceeds `max_requests`, never adds more than the elapsed time accrues, and is either the cap or the uncapped sum |
| `TokenBucket.AccruedAdditive` | grid_trading_bot/grid_trading/utils/rate_limiter.py:45-54 | the uncapped accruals over two consecutive intervals add up to the accrual over their union |
| `TokenBucket.RefillBetween` | scripts/grid_trading_bot/grid_trading/utils/rate_limiter.py:15-20 | a bucket at most full, refilled after time that did not run backwards, stays between its old content and its capacity |
| `TokenBucket.RefillWithoutElapsedTime` | grid_trading_bot/grid_trading/utils/rate_limiter.py:46-53 | with no elapsed time the refill adds nothing and can only cap an overfull bucket |
| `RateLimiting.InitialTokens` | grid_trading_bot/grid_trading/utils/rate_limiter.py:37 | `initial_tokens` is used when it is truthy; `None` and `0` both give a full bucket of `max_requests` |
| `RateLimiting.RateLimiter.constructor` | grid_trading_bot/grid_trading/utils/rate_limiter.py:21-39 | stores the limits, starts with `InitialTokens` tokens and stamps the construction time |
| `RateLimiting.RateLimiter.Acquire` | grid_trading_bot/grid_trading/utils/rate_limiter.py:41-59 | the loop's outcome, final tokens, final stamp and readings used are exactly those of `AcquireSpec` on the old state |
| `RateLimiting.AcquireRefillsThenSpends` | grid_trading_bot/grid_trading/utils/rate_limiter.py:44-59 | `acquire` refills once per reading while the bucket holds nothing positive; a completed call leaves exactly one token less than the refills gave; a waiting call has used every reading and still holds nothing positive |
| `RateLimiting.AcquireFastPath` | grid_trading_bot/grid_trading/utils/rate_limiter.py:44-59 | with a positive amount on entry, no clock is read, the stamp stays and exactly one token is spent |
| `RateLimiting.AcquireLeavesMoreThanMinusOne` | grid_trading_bot/grid_trading/utils/rate_limiter.py:44-59 | a completed call leaves more than -1 tokens, though possibly a negative amount |
| `RateLimiting.AcquireKeepsCapacity` | grid_trading_bot/grid_trading/utils/rate_limiter.py:47-59 | a bucket not over capacity stays within `max_requests` whatever the outcome |
| `RateLimiting.AcquireStampsLastReading` | grid_trading_bot/grid_trading/utils/rate_limiter.py:44-54 | `last_update` becomes the last reading taken and is unchanged when no refill happens; a zero window raises at the first reading and changes nothing |
| `RateLimiting.AcquireNeedsElapsedTime` | grid_trading_bot/grid_trading/utils/rate_limiter.py:44-57 | an empty bucket gets no token from readings at which no time has passed |
| `RateLimiting.AcquireEventuallySucceeds` | grid_trading_bot/grid_trading/utils/rate_limiter.py:44-59 | with a positive rate, a call acquires once its last reading is late enough for the accrual since the last update to be positive |
| `RateLimiting.AsWrittenAcquiresAfterAMicrosecond` | grid_trading_bot/grid_trading/utils/rate_limiter.py:44 | as written, an emptied 30-per-second bucket hands out a token one microsecond later and goes about one token into debt |
| `RateLimiting.WholeTokenWaitsForAccrual` | grid_trading_bot/grid_trading/utils/rate_limiter.py:44-59 | with the guard `tokens < 1`, a bucket holding less than a token never hands one out before the missing fraction has accrued |
| `RateLimiting.WholeTokenEmptyBucketWaits` | grid_trading_bot/grid_trading/utils/rate_limiter.py:44-59 | with the guard `tokens < 1`, an emptied 30-per-second bucket makes the next call wait 1/30 s |
| `RateLimiting.WholeTokenNeverBorrows` | grid_trading_bot/grid_trading/utils/rate_limiter.py:44-59 | with the guard `tokens < 1` and a clock that does not run backwards, the bucket never goes negative |
| `RateLimiting.RateLimiter.Enter` | grid_trading_bot/grid_trading/utils/rate_limiter.py:61-64 | entering the guarded block is one `acquire` |
| `RateLimiting.RateLimiter.Exit` | grid_trading_bot/grid_trading/utils/rate_limiter.py:66-68 | leaving the guarded block gives no token back and changes nothing |
| `ScriptsRateLimiting.RateLimiter.constructor` | scripts/grid_trading_bot/grid_trading/utils/rate_limiter.py:6-11 | the bucket starts full (`max_requests` tokens); with a sensible configuration the bounds invariant holds |
| `ScriptsRateLimiting.RateLimiter.Acquire` | scripts/grid_trading_bot/grid_trading/utils/rate_limiter.py:13-26 | the new state is `AcquireSpec` of the old; `0 <= tokens <= max_requests` is preserved for a clock that does not run backwards |
| `ScriptsRateLimiting.AcquireRefillsThenMaybeSpends` | scripts/grid_trading_bot/grid_trading/utils/rate_limiter.py:15-26 | every call refills and stamps `now`, and leaves at most `max_requests`; it spends one token exactly when the refill reached one; otherwise it keeps the refilled amount and takes nothing |
| `ScriptsRateLimiting.AcquireKeepsBounds` | scripts/grid_trading_bot/grid_trading/utils/rate_limiter.py:9-26 | `0 <= tokens <= max_requests` is kept, given `max_requests >= 0`, a positive window and a clock that does not run backwards |
| `ScriptsRateLimiting.BurstAtOneInstant` | scripts/grid_trading_bot/grid_trading/utils/rate_limiter.py:15-26 | at one instant, a bucket of `k` whole tokens serves exactly the first `k` calls and skips every later one |
| `Metrics.MetricsCollector.constructor` | grid_trading_bot/grid_trading/monitoring/metrics.py:34-38 | no trades, balance and peak both 0, invariant established |
| `Metrics.MetricsCollector.AddTrade` | grid_trading_bot/grid_trading/monitoring/metrics.py:40-67 | appends exactly the given trade; a `'buy'` lowers the balance by value plus fees, any other side raises it by value minus fees; the peak becomes the larger of the old peak and the new balance; balance and peak stay equal to `Balance` and `Peak` of the trade list |
| `Metrics.BalanceOfConcatenation` | grid_trading_bot/grid_trading/monitoring/metrics.py:59-63 | the balance over two stretches of trading is the sum of their balances |
| `Metrics.PeakBoundsEveryPrefix` | grid_trading_bot/grid_trading/monitoring/metrics.py:66-67 | the peak is at least the balance after every prefix of the trades, the current balance included |
| `Metrics.PeakIsReached` | grid_trading_bot/grid_trading/monitoring/metrics.py:37-67 | the peak is a balance some prefix actually reached (zero for the empty prefix) |
| `Metrics.PeakNonNegative` | grid_trading_bot/grid_trading/monitoring/metrics.py:38-67 | the peak never falls below the starting balance of zero |
| `Metrics.PeakNeverFalls` | grid_trading_bot/grid_trading/monitoring/metrics.py:66-67 | recording a trade never lowers the peak |
| `Validation.ValidateGridSize` | scripts/grid_trading_bot/grid_trading/utils/validation.py:13-17 | accepts exactly the values `>= 2`, unchanged, and raises the "at least 2" error for every smaller one |
| `Validation.MakeGridConfig` | scripts/grid_trading_bot/grid_trading/utils/validation.py:6-17 | a config is built exactly when `grid_size >= 2`, with every field as given |
| `Validation.ValidateGridSizeIdempotent` | scripts/grid_trading_bot/grid_trading/utils/validation.py:13-17 | validating an accepted value again gives the same result |
| `Validation.SmallestGridSize` | scripts/grid_trading_bot/grid_trading/utils/validation.py:15-17 | 2 is accepted; 1, 0 and -1 are rejected |
| `Validation.UncheckedPricesAccepted` | scripts/grid_trading_bot/grid_trading/utils/validation.py:9-11 | no validator looks at the prices or the quantity: inverted bounds and a non-positive quantity are accepted |
| `GridStrategy.GridTradingStrategy.constructor` | grid_trading_bot/grid_trading/strategies/grid.py:28-39 | stores config and interval (1.0 by default, never read by the core); `active_orders` empty, `is_running` false |
| `GridStrategy.GridTradingStrategy.PlaceGridOrder` | grid_trading_bot/grid_trading/strategies/grid.py:58-69 | the placement uses the configured symbol and quantity with the given side and price, and returns normally whatever the exchange answers |
| `GridStrategy.GridTradingStrategy.Initialize` | grid_trading_bot/grid_trading/strategies/grid.py:41-56 | `grid_size == 1` raises before any placement; otherwise there is exactly one attempt per rung, in rung order. Rung `i` is priced on the reference ladder, with the configured symbol and quantity. It buys iff strictly below that round's market price. Every exchange reply is recorded and none stops the ladder. No field is written |
| `GridStrategy.StepsReachLevel` | grid_trading_bot/grid_trading/strategies/grid.py:46-50 | `lower + step * i` equals the reference rung `lower + (upper - lower) * i / (grid_size - 1)` |
| `GridStrategy.LadderEndpoints` | grid_trading_bot/grid_trading/strategies/grid.py:46-50 | rung 0 is `lower_price` and rung `grid_size - 1` is `upper_price`, in exact arithmetic |
| `GridStrategy.LadderSpacing` | grid_trading_bot/grid_trading/strategies/grid.py:46-50 | neighbouring rungs differ by exactly `price_step` |
| `GridStrategy.LadderRises` | grid_trading_bot/grid_trading/strategies/grid.py:46-50 | with `upper_price > lower_price` the rungs strictly increase |
| `GridStrategy.InvertedLadderFalls` | grid_trading_bot/grid_trading/strategies/grid.py:46-50 | with the bounds inverted (which validation allows) the rungs strictly decrease |
| `GridStrategy.LadderWithinBounds` | grid_trading_bot/grid_trading/strategies/grid.py:46-50 | with ordered bounds every rung lies between them |
| `GridStrategy.SellsStayAbove` | grid_trading_bot/grid_trading/strategies/grid.py:53-56 | against one market price, every rung above a sell rung is a sell: buys below, sells above |
| `GridStrategy.TenRungScenario` | grid_trading_bot/grid_trading/strategies/grid.py:46-56 | 10 rungs from 40000 to 50000: the step is 10000/9 and rung 3 is 130000/3; with the market at 45000, rungs 0-4 buy and rungs 5-9 sell |
| `ConfigLoader.ValidateGridSize` | grid_trading_bot/grid_trading/config/loader.py:36-40 | accepts exactly the values `>= 2`, unchanged, and raises the "at least 2" error otherwise |
| `ConfigLoader.ValidateGridSpread` | grid_trading_bot/grid_trading/config/loader.py:42-46 | accepts exactly `0 < v < 1`, unchanged; both endpoints raise |
| `ConfigLoader.StrField` | grid_trading_bot/grid_trading/config/loader.py:23-25 | a required `str` field is accepted exactly when it is present as a string, and then it is that string; otherwise one error at `section.field`, `Missing` when absent and `WrongType` when present |
| `ConfigLoader.IntField` | grid_trading_bot/grid_trading/config/loader.py:31-34 | an `int` field is accepted exactly when it is present as an integer, or omitted with a default; it is then that integer or the default; otherwise one located `Missing` or `WrongType` error |
| `ConfigLoader.FloatField` | grid_trading_bot/grid_trading/config/loader.py:32-33 | a required `float` field is accepted exactly when it is present as a float or an integer, and then it is that number (an integer widened); otherwise one located error |
| `ConfigLoader.GridSizeField` | grid_trading_bot/grid_trading/config/loader.py:31-40 | accepted exactly when `grid_size` is an integer of at least 2, and then it is that integer; an integer below 2 yields exactly one error at `grid.grid_size` naming the rule |
| `ConfigLoader.GridSpreadField` | grid_trading_bot/grid_trading/config/loader.py:32-46 | accepted exactly when `grid_spread` is numeric and strictly inside (0, 1), and then it is that number; a numeric value outside yields the spread error |
| `ConfigLoader.ParseExchange` | grid_trading_bot/grid_trading/config/loader.py:21-26 | built exactly when `api_key`, `api_secret` and `base_url` are strings and a given `rate_limit` is an integer; the record carries those values, `rate_limit` 30 when omitted; a rejection reports at least one error |
| `ConfigLoader.ParseGrid` | grid_trading_bot/grid_trading/config/loader.py:28-46 | built exactly when `trading_pair` is a string, `grid_size` an integer of at least 2, `grid_spread` a number strictly inside (0, 1), `base_order_size` a number and a given `check_interval` an integer; the record carries those values, `check_interval` 60 when omitted |
| `ConfigLoader.ParseDatabase` | grid_trading_bot/grid_trading/config/loader.py:48-51 | built exactly when `path` is a string and a given `pool_size` is an integer; the record carries those values, `pool_size` 5 when omitted |
| `ConfigLoader.ParseConfig` | grid_trading_bot/grid_trading/config/loader.py:53-57 | the root model is built exactly when all three sections are present and valid, from exactly those sections |
| `ConfigLoader.OverrideCredentials` | grid_trading_bot/grid_trading/config/loader.py:80-84 | a set, non-empty variable replaces `exchange.api_key` / `api_secret`; an unset or empty one leaves the file value. No other section or key changes. A needed override without an `exchange` section raises `KeyError` |
| `ConfigLoader.LoadConfig` | grid_trading_bot/grid_trading/config/loader.py:80-87 | a needed override without an `exchange` section fails with `KeyError("exchange")`, and only then; otherwise the result is the root model of the overridden dictionary, and a rejection is a `ValidationError` listing at least one failing field |
| `ConfigLoader.LoadedCredentials` | grid_trading_bot/grid_trading/config/loader.py:59-87 | in a loaded configuration a truthy environment value wins over the file, and otherwise the file's credential is used |
| `ConfigLoader.LoadedGridIsValid` | grid_trading_bot/grid_trading/config/loader.py:36-46 | every loaded configuration has `grid_size >= 2` and `0 < grid_spread < 1` |
| `ConfigLoader.LoadedDefaults` | grid_trading_bot/grid_trading/config/loader.py:21-51 | omitted fields load as `rate_limit = 30`, `check_interval = 60`, `pool_size = 5` |
| `ConfigLoader.SmallGridSizeRejected` | grid_trading_bot/grid_trading/config/loader.py:36-40 | a file with an integer `grid_size` below 2 never loads; a validation error names `grid.grid_size` |

## Left out

- Exchange clients, HMAC signing, HTTP sessions, database models and connections, logging, the CLI and the example script are plumbing around the core. They are not part of this model. The exchange appears only as the reply oracle of `Initialize`.
- The abstract strategy base and the `scripts/` `GridStrategy` loop are left out. The loop calls `_initialize_grid` and `_check_and_update_orders`; neither is defined in the files this model covers.
- `GridTradingStrategy` does not implement the base class's abstract `start`, `stop`, `on_price_update` and `on_order_filled`, so Python would refuse to instantiate it. The model takes the class as if it could be built.
- `_get_current_price` is defined neither by `GridTradingStrategy` (grid_trading_bot/grid_trading/strategies/grid.py) nor by its base `TradingStrategy` (grid_trading_bot/grid_trading/core/strategy.py); no covered file defines it. The model takes its answers as the input `marketPrices`, one per round.
- `GridStrategy.GridTradingStrategy.Initialize`: the `exchange` attribute and the log messages are not modelled. The attempts list records what was sent and what came back.
- Concurrency: `asyncio.Lock` is not modelled. Method calls are sequential, which is what the lock provides. The 0.1 s sleeps are not modelled.
- `RateLimiting.RateLimiter.Acquire`: the wait loop can run for ever, so it is modelled against a finite list of clock readings. When they run out, the call ends `Waiting` with nothing spent.
- No proof covers "at most `max_requests` acquisitions per `time_window`", which a token bucket of capacity `max_requests` would be expected to give: the 31st back-to-back call on a 30-per-second bucket should wait `time_window / max_requests`. The main limiter does not meet it (see Findings). The scripts limiter lets skipped callers proceed, so only the tokens it spends are bounded.
- The scripts limiter has no `__aenter__` / `__aexit__`, although the scripts Coinbase client uses it in `async with`. That client is not part of this model.
- Decimal rounding to 28 significant digits and IEEE float rounding of `time_passed` and `grid_spread` are not modelled. All arithmetic is exact `real`, so `LadderEndpoints` states the exact-arithmetic ideal.
- `MetricsCollector.calculate_metrics` is a stub that returns `None`, and `TradingMetrics` is never built, so neither is modelled. A `datetime` is an opaque integer stamp.
- `load_config`: reading the YAML file and the `CONFIG_PATH` fallback are file I/O. An empty file (`Config(**None)`) and non-mapping sections are not modelled. Environment lookups are parameters.
- Pydantic's type coercion is modelled only for exact types plus an integer given for a float field. The coercion of numbers to strings, of floats to ints and of booleans to ints is not modelled.

## Findings

| source | as written | input that shows it | evidently intended | confidence | as-written member | corrected member |
|---|---|---|---|---|---|---|
| grid_trading_bot/grid_trading/utils/rate_limiter.py:44 | the wait loop stops as soon as `tokens > 0`, then spends a whole token | `max_requests=30`, `time_window=1.0`. The bucket is emptied at time 0. The next call reads the clock at 0.000001 s, refills to 0.00003, acquires and leaves -0.99997. So 31 calls complete within one microsecond | wait until a whole token is there (`tokens < 1`, as the `scripts/` limiter tests), so that the next call waits 1/30 s | medium; not executed | `RateLimiting.AsWrittenAcquiresAfterAMicrosecond` | `RateLimiting.WholeTokenWaitsForAccrual` |

The corrected guard is `RateLimiting.AcquireWholeSpec`. `WholeTokenEmptyBucketWaits` and `WholeTokenNeverBorrows` are proved about it. The `RateLimiter` class keeps the guard as written, because it models the source file. Nothing else in the model calls the limiter.
