# robo-trader core, modelled in Dafny

This project models the trading core of the robo-trader repository:

- **`BacktestBroker`** is a simulated broker. It keeps an in-memory order table keyed by order id, a current price per symbol and a clock.
  - `create_order` sizes an order from a cash amount, net of the transaction cost, in whole units, meaning to store the order and fill it at once whatever its type. As written it always raises instead (Findings, row 1). The model keeps that version and a corrected one that stamps the order with the broker clock.
  - `update` re-evaluates every pending order. STOP orders fill when the price reaches the stop. TRAILING_STOP orders ratchet their stop or fill. As written, the trailing rule has its signs and ratchet directions swapped (Findings, row 2). The model keeps that rule and evaluates trailing orders in `update` by the corrected one.
- **The records of `broker.py`**: the order type, side and status enumerations, and the `Trade` and `Order` dataclasses.
- **`Portfolio`**: cash, tokens and a ledger of trades.
  - `backtest_buy` spends all the cash except a reserve of 10.
  - `backtest_sell` sells what restores the cash reserve percentage, or every token when the reserve is already covered.
  - `get_valuation` values the portfolio now or at a past point from the ledger.
- **`PortfolioManager`**: the same ledger with priced trades.
  - `execute_trade` refuses a trade the funds do not cover.
  - `calculate_performance` measures a period of candles against the ledger.
- **`DummyExchange`**: a price map, a trade log and a settable clock.
- **`DummySignalGenerator`**: an append-only history of candles. It emits BUY when the latest close is below 100 and SELL otherwise.

Modules follow the source files:

| file | module | models |
|---|---|---|
| `results.dfy` | `Results` | `Option` (Python's `None`) and `Result` (a raised error) |
| `broker.dfy` | `Broker` | `broker.py` records |
| `backtest_broker.dfy` | `BacktestBroker` | `brokers/backtest_broker.py` |
| `accounting.dfy` | `Accounting` | the trade action of `types.py`, plus the ledger entry and the formulas `portfolio.py` and `portfolio_manager.py` share |
| `portfolio.dfy` | `Portfolio` | `portfolio.py` |
| `portfolio_manager.dfy` | `PortfolioManager` | `portfolio_manager.py` |
| `exchange.dfy` | `Exchange` | `exchange.py` |
| `signal_generator.dfy` | `SignalGenerator` | `signal_generator.py` |

Representation choices:

- Each class whose fields the source updates is a Dafny `class`, and its methods state the whole new state.
- The pure computations are functions, which the methods are proved against.
- Prices and amounts are `real`.
- Python's `int()` is truncation toward zero.
- Dates are integers, such as seconds since an epoch.
- The wall clock (`datetime.now()`) is a `now` parameter.
- Order ids come from a counter where the source draws a `uuid4`.
- A raised `ValueError` or `TypeError` is an `Err` result.

Apart from the two corrections under "## Findings", the model follows the code as written:

- The corrected `create_order` fills every order at once, whatever its type. So no order ever stays pending through the broker's own operations, and `update` only acts on orders placed in the table some other way.
- `update()` takes no arguments.
- The code has no OCO order and no take-profit or stop-loss order type, and the model has none either.

## Model

| member | source | states |
|---|---|---|
| Broker.NewOrder | robo-trader/robo_trader/broker.py:33-49 | every field is as passed; status defaults to PENDING and trades to an empty list |
| Broker.DefaultOrderIsPendingWithoutTrades | robo-trader/robo_trader/broker.py:44-49 | an order built without status or trades is PENDING with no trades |
| BacktestBroker.Trunc | robo-trader/robo_trader/brokers/backtest_broker.py:24 | `int()` truncates toward zero: the floor for non-negative values, the ceiling for negative ones |
| BacktestBroker.OrderQuantity | robo-trader/robo_trader/brokers/backtest_broker.py:18-24 | for a non-negative cash amount and a cost rate of at most 1: the quantity is the largest whole number of units whose price fits in the cash left after the cost |
| BacktestBroker.Fill | robo-trader/robo_trader/brokers/backtest_broker.py:75-90 | the status becomes FILLED; exactly one trade is appended; it carries the order's id, symbol, type, side and quantity, the price, the clock and cost = price × quantity × rate; nothing else changes |
| BacktestBroker.TrailAsWritten | robo-trader/robo_trader/brokers/backtest_broker.py:55-67 | the trailing rule as written. A BUY candidate is price × (1 − trail/100) and replaces the stop when higher; a SELL candidate is price × (1 + trail/100) and replaces the stop when lower. Otherwise the order gets the standard fill when the stop is reached, and is unchanged when it is not. So a BUY stop only rises, a SELL stop only falls, and a ratchet never fills |
| BacktestBroker.Trail | robo-trader/robo_trader/brokers/backtest_broker.py:55-67 | the corrected trailing rule: a BUY stop only falls and a SELL stop only rises, and always to price × (1 ± trail/100); a tighter candidate always moves the stop. Otherwise the order gets the standard fill when the stop is reached, and is unchanged when it is not |
| BacktestBroker.TrailingAsWrittenDiscrepancy | robo-trader/robo_trader/brokers/backtest_broker.py:55-67 | concrete orders on which the rule as written and the corrected rule differ (see Findings) |
| BacktestBroker.SellTrailingStopScenario | robo-trader/robo_trader/brokers/backtest_broker.py:62-67 | a SELL trailing stop follows the price up to 110 (stop 108.9), then fills at 108.9 with one trade at that price and clock, under the corrected rule `Trail` (Findings, row 2) |
| BacktestBroker.Evaluate | robo-trader/robo_trader/brokers/backtest_broker.py:47-67 | only pending orders with a priced symbol change; MARKET and LIMIT orders never change; a STOP order fills if and only if the price reaches its stop; a TRAILING_STOP order is evaluated by the corrected trailing rule `Trail` (Findings, row 2); only a trailing stop moves its stop; the only status change is PENDING to FILLED |
| BacktestBroker.UpdateAll | robo-trader/robo_trader/brokers/backtest_broker.py:46-67 | `update` keeps the same set of order ids and evaluates each order on its own |
| BacktestBroker.UpdateAllPointwise | robo-trader/robo_trader/brokers/backtest_broker.py:46-67 | a table that agrees with each order's own evaluation is the table `update` produces |
| BacktestBroker.UpdateAllKeepsTableValid | robo-trader/robo_trader/brokers/backtest_broker.py:46-67 | `update` keeps every order under its own id, below the next id, with trades it owns |
| BacktestBroker.UpdateIdleWithoutPending | robo-trader/robo_trader/brokers/backtest_broker.py:46-48 | with no pending order, `update` changes nothing |
| BacktestBroker.BacktestBroker.constructor | robo-trader/robo_trader/brokers/backtest_broker.py:7-11 | no orders, no prices, no clock, the given cost rate |
| BacktestBroker.BacktestBroker.GetPrice | robo-trader/robo_trader/brokers/backtest_broker.py:43-44 | the stored price, or 0 for a symbol never priced |
| BacktestBroker.BacktestBroker.SetPrice | robo-trader/robo_trader/brokers/backtest_broker.py:69-70 | reading the symbol's price back gives the new price; every other symbol keeps its price; orders and clock are unchanged |
| BacktestBroker.BacktestBroker.SetTimestamp | robo-trader/robo_trader/brokers/backtest_broker.py:72-73 | the clock reads the timestamp; nothing else changes |
| BacktestBroker.BacktestBroker.FetchOrder | robo-trader/robo_trader/brokers/backtest_broker.py:40-41 | None exactly for an unknown id; otherwise the stored order |
| BacktestBroker.BacktestBroker.EditOrder | robo-trader/robo_trader/brokers/backtest_broker.py:32-34 | a known order gets the new stop and nothing else changes; an unknown id is ignored; the table invariant holds |
| BacktestBroker.BacktestBroker.CancelOrder | robo-trader/robo_trader/brokers/backtest_broker.py:36-38 | a known order becomes CANCELLED and nothing else changes; an unknown id is ignored |
| BacktestBroker.BacktestBroker.ExecuteOrder | robo-trader/robo_trader/brokers/backtest_broker.py:75-90 | the stored order is replaced by its fill at the current price (0 if the symbol is unpriced) and the broker clock |
| BacktestBroker.BacktestBroker.CreateOrder | robo-trader/robo_trader/brokers/backtest_broker.py:13-30 | corrected `create_order`. A price that is not strictly positive gives InvalidPrice and stores nothing. Otherwise the order gets a fresh id and the whole-unit quantity, is stored, and is returned FILLED with exactly one trade |
| BacktestBroker.BacktestBroker.CreateOrderAsWritten | robo-trader/robo_trader/brokers/backtest_broker.py:13-30 | as written, `create_order` always raises: InvalidPrice for a non-positive price, otherwise the missing `timestamp` argument |
| BacktestBroker.CreateOrderDiscrepancy | robo-trader/robo_trader/brokers/backtest_broker.py:13-30 | with XBTGBP at 100: as written the call fails; corrected, it fills 9 units from 1000 at a 0.4% cost |
| BacktestBroker.BacktestBroker.EvaluateOrder | robo-trader/robo_trader/brokers/backtest_broker.py:47-67 | the order after one iteration of `update`'s loop, following the source's branches, is its evaluation `Evaluate`, with trailing orders under the corrected rule |
| BacktestBroker.BacktestBroker.Update | robo-trader/robo_trader/brokers/backtest_broker.py:46-67 | the order table after the loop is every order evaluated on its own, with trailing orders under the corrected rule; prices, clock and ids are unchanged |
| Accounting.TradeCost | robo-trader/robo_trader/portfolio.py:112-114 | the cost is non-negative for non-negative inputs, and 0 when the amount, the price or the rate is 0 |
| Accounting.Apply | robo-trader/robo_trader/portfolio.py:116-125 | BUY takes value plus cost from cash and adds the tokens; SELL adds value minus cost and removes the tokens |
| Accounting.TradeLosesOnlyItsCost | robo-trader/robo_trader/portfolio.py:116-125 | valued at the trade's price, a trade changes the portfolio's worth by exactly its cost |
| Accounting.BuySellRoundTrip | robo-trader/robo_trader/portfolio.py:116-125 | buying then selling the same amount at one price restores the tokens and costs twice the transaction cost |
| Accounting.AmountToSell | robo-trader/robo_trader/portfolio.py:46-68 | never negative; 0 without tokens; all tokens when the cash covers the reserve; otherwise the shortfall divided by the price |
| Accounting.SellWithinHoldings | robo-trader/robo_trader/portfolio.py:46-68 | with a reserve share in [0, 1], non-negative cash and a positive price, it never sells more than is held |
| Accounting.PartialSellRestoresReserve | robo-trader/robo_trader/portfolio.py:57-60 | a partial sale brings the cash exactly to the reserve, before costs |
| Accounting.LastIndexBefore | robo-trader/robo_trader/portfolio.py:162-167 | the backward search finds the entry nearest the end whose date is before the given one, or None exactly when no entry is |
| Accounting.SnapshotBefore | robo-trader/robo_trader/portfolio_manager.py:147-159 | the balances recorded by that entry, or the fallback when there is none |
| Accounting.NearestEndIsNotLatestDate | robo-trader/robo_trader/portfolio.py:163-166 | with dates out of order, the search picks the entry nearest the end, not the latest date |
| Portfolio.AmountToBuy | robo-trader/robo_trader/portfolio.py:42-44 | the amount times the cost-inclusive price equals the cash minus the reserve of 10 |
| Portfolio.BuyLeavesReserve | robo-trader/robo_trader/portfolio.py:42-44 | buying that amount leaves exactly 10 in cash |
| Portfolio.FullSellExample | robo-trader/tests/test_portfolio.py:39-62 | 100 tokens at 10 with 1000 in cash are all sold, at a cost of 4, leaving 1996 |
| Portfolio.Portfolio.constructor | robo-trader/robo_trader/portfolio.py:11-31 | the settings as given, cash and tokens at their initial values, an empty ledger |
| Portfolio.Portfolio.RecordTrade | robo-trader/robo_trader/portfolio.py:116-135 | the balances are updated by the trade; exactly one entry with the new balances is appended; the ledger invariant holds |
| Portfolio.Portfolio.BacktestBuy | robo-trader/robo_trader/portfolio.py:81-87 | a positive amount buys down to a cash reserve of 10 and records one entry; otherwise nothing changes |
| Portfolio.Portfolio.BacktestSell | robo-trader/robo_trader/portfolio.py:100-106 | a positive amount to sell is sold and recorded; otherwise nothing changes |
| Portfolio.Portfolio.GetLastTradeBefore | robo-trader/robo_trader/portfolio.py:162-167 | None exactly when no entry is strictly before the date; otherwise a ledger entry before it |
| Portfolio.Portfolio.GetValuation | robo-trader/robo_trader/portfolio.py:139-160 | a point before inception, or a point without a price, is an error; a point values the snapshot before it (or the initial balances) at the given price; no point values the current balances at the given price or 100 |
| Portfolio.ValuationAfterLastTradeIsCurrent | robo-trader/robo_trader/portfolio.py:139-160 | valuing at a point after every trade equals valuing the current balances |
| Portfolio.ValuationBeforeFirstTradeIsInitial | robo-trader/robo_trader/portfolio.py:146-152 | valuing at a point no trade precedes gives the initial balances' worth |
| Portfolio.BacktestBuyExample | robo-trader/tests/test_portfolio.py:17-37 | buying at 10 from 1000 leaves 10 in cash, 990/10.04 tokens and one entry |
| PortfolioManager.Performance | robo-trader/robo_trader/portfolio_manager.py:166 | 0 for a zero start; otherwise growing the start by the result percent gives the end |
| PortfolioManager.PeriodPerformance | robo-trader/robo_trader/portfolio_manager.py:132-168 | 0 for an empty period or one outside inception to now; otherwise the performance from the snapshot strictly before the first date at the first open to the snapshot on or before the last date at the last close |
| PortfolioManager.PerformanceAfterLastTradeIsCurrent | robo-trader/robo_trader/portfolio_manager.py:147-163 | under the ledger invariant, a period that starts after every trade measures the current balances from the first open to the last close |
| PortfolioManager.PerformanceExample | robo-trader/tests/test_portfolio_manager.py:59-89 | the test's ledger and three-day period give −17.1875% |
| PortfolioManager.PortfolioManager.constructor | robo-trader/robo_trader/portfolio_manager.py:11-29 | the settings as given, cash and tokens at their initial values, an empty ledger |
| PortfolioManager.PortfolioManager.GetCurrentPrice | robo-trader/robo_trader/portfolio_manager.py:73-79 | the override when given, else 100 |
| PortfolioManager.PortfolioManager.GetDate | robo-trader/robo_trader/portfolio_manager.py:81-87 | the override when given, else the clock |
| PortfolioManager.PortfolioManager.CalculateTradeCost | robo-trader/robo_trader/portfolio_manager.py:89-92 | the shared trade cost at the overridden price |
| PortfolioManager.PortfolioManager.GetPortfolioValue | robo-trader/robo_trader/portfolio_manager.py:127-130 | the worth of the current balances at the overridden price |
| PortfolioManager.PortfolioManager.CalculatePerformance | robo-trader/robo_trader/portfolio_manager.py:132-168 | the period performance of this ledger |
| PortfolioManager.PortfolioManager.ExecuteTrade | robo-trader/robo_trader/portfolio_manager.py:94-123 | a BUY the cash does not cover, or a SELL of more than is held, is refused with state unchanged; otherwise the trade is applied and exactly one entry is appended; the ledger invariant holds |
| PortfolioManager.BuyAmount | robo-trader/robo_trader/portfolio_manager.py:42-43 | the amount `buy` computes costs, value plus transaction cost, exactly the cash held |
| PortfolioManager.PortfolioManager.Buy | robo-trader/robo_trader/portfolio_manager.py:40-46 | never refused; leaves exactly 0 cash and adds the `BuyAmount` a = cash/(price × (1 + rate)) tokens; appends exactly one BUY entry of a at the price, dated by the override or the clock, with its cost and the new balances |
| PortfolioManager.PortfolioManager.Sell | robo-trader/robo_trader/portfolio_manager.py:48-71 | no change when the amount to sell is 0; a refusal when it exceeds the holdings; otherwise that sale is applied and recorded |
| PortfolioManager.SellExamples | robo-trader/tests/test_portfolio_manager.py:25-43 | 20 tokens: 5 are sold; 10 tokens: all are sold, with the test's cash |
| PortfolioManager.BuyExample | robo-trader/tests/test_portfolio_manager.py:17-23 | buying leaves 0 cash, one trade and exactly 10 / 1.004 tokens, within the test's tolerance of 10 × (1 − 0.004) |
| PortfolioManager.PortfolioValueExample | robo-trader/tests/test_portfolio_manager.py:49-57 | after `buy` the worth is exactly 1000 / 1.004, within 0.1 of 1000 × (1 − 0.004); the rebalancing `sell` then sells half the tokens and lowers the worth by exactly half the worth times the cost rate |
| Exchange.PriceOf | robo-trader/robo_trader/exchange.py:63-70 | the mapped price, or 0 for an unknown symbol |
| Exchange.Execution | robo-trader/robo_trader/exchange.py:57-59 | the trade succeeds at the current price with cost = amount × price × rate |
| Exchange.UnknownSymbolTradesForNothing | robo-trader/robo_trader/exchange.py:57-70 | a trade in an unpriced symbol has price 0 and cost 0 |
| Exchange.DummyExchange.constructor | robo-trader/robo_trader/exchange.py:37-46 | the given prices and cost rate, no trades, the clock at now |
| Exchange.DummyExchange.GetCurrentPrice | robo-trader/robo_trader/exchange.py:63-70 | the mapped price, or 0 for an unknown symbol |
| Exchange.DummyExchange.ExecuteTrade | robo-trader/robo_trader/exchange.py:48-61 | returns the successful trade at the current price with its cost, and appends exactly that trade; nothing else changes |
| Exchange.DummyExchange.SetCurrentPrice | robo-trader/robo_trader/exchange.py:72-79 | reading the symbol's price back gives the new price; other symbols are unchanged |
| Exchange.DummyExchange.GetCurrentDate | robo-trader/robo_trader/exchange.py:81-87 | the exchange clock |
| Exchange.DummyExchange.SetCurrentDate | robo-trader/robo_trader/exchange.py:89-95 | reading the date back gives the date that was set; nothing else changes |
| SignalGenerator.SignalOf | robo-trader/robo_trader/signal_generator.py:36-46 | None if and only if there is no history; BUY if and only if the latest close is below 100; SELL if and only if it is 100 or more |
| SignalGenerator.SignalDependsOnLatestRowOnly | robo-trader/robo_trader/signal_generator.py:40 | any earlier history gives the same signal as the latest row alone |
| SignalGenerator.DummySignalGenerator.constructor | robo-trader/robo_trader/signal_generator.py:7-10 | an empty history for the symbol |
| SignalGenerator.DummySignalGenerator.AddHistoricalData | robo-trader/robo_trader/signal_generator.py:12-22 | exactly one row is appended at the end; the signal is then BUY or SELL by the new close |
| SignalGenerator.DummySignalGenerator.GenerateSignal | robo-trader/robo_trader/signal_generator.py:36-46 | the rule on the history; None if and only if the history is empty |
| SignalGenerator.DummySignalGenerator.UpdatePrediction | robo-trader/robo_trader/signal_generator.py:48-51 | changes nothing |
| SignalGenerator.SignalExample | robo-trader/tests/test_dummy_signal_generator.py:10-12 | after one row the signal is BUY or SELL by that row's close |

## Left out

- The `Broker`, `Exchange` and `SignalGenerator` abstract base classes. Only their concrete subclasses are modelled, as classes.
- JSON persistence (`save_state`, `load_state`, `from_file`) and the state file name. This is file I/O.
- `Portfolio.buy` and `Portfolio.sell`: they route through an external exchange object. `backtest_buy` and `backtest_sell` carry the same arithmetic and are modelled.
- `Portfolio.get_current_price` and `__str__` are not modelled separately: the placeholder 100 appears inside `GetValuation`, and string formatting is not modelled.
- Wall-clock reads (`datetime.now()`): they become a `now` parameter. Date strings and `strptime`/`strftime` become integer dates.
- `uuid4` ids: they become a counter, with trade ids numbered per order.
- Floating-point rounding: prices and amounts are exact reals. Of the tests' tolerance checks, robo-trader/tests/test_portfolio_manager.py:56-57 and :89 hold exactly (`PortfolioManager.PortfolioValueExample`, `PortfolioManager.PerformanceExample`). The checks at :19 and :52-53 compare with 10 × (1 − 0.004) and 1000 × (1 − 0.004), which approximate 10 / 1.004 and 1000 / 1.004. The model proves the exact values, 10 / 1.004 tokens and a worth of 1000 / 1.004, each within the test's tolerance (`PortfolioManager.BuyExample`, `PortfolioManager.PortfolioValueExample`). The tests' exact float literals are not reproduced either: robo-trader/tests/test_portfolio.py:33,36 expect a cash of 9.999999999999886 where `Portfolio.BacktestBuyExample` proves exactly 10.
- PortfolioManager.PortfolioManager.Buy: "never refused" holds in exact arithmetic only. Under float rounding the value plus cost of the sized amount can exceed the cash by a rounding error, and then `execute_trade` refuses the buy (robo-trader/robo_trader/portfolio_manager.py:103). The model does not capture that.
- Constructor default arguments: every constructor takes all its parameters.
- BacktestBroker.BacktestBroker.Update: requires that every pending STOP order on a priced symbol has a stop, and every such TRAILING_STOP order a trail and a stop. The source raises a `TypeError` comparing with `None` there, and the model does not represent that crash.
- BacktestBroker.Evaluate, BacktestBroker.BacktestBroker.EvaluateOrder and BacktestBroker.BacktestBroker.Update: evaluate TRAILING_STOP orders by the corrected rule `Trail`, not by the rule as written in lines 55-67 of `brokers/backtest_broker.py`. That rule is modelled on its own as `TrailAsWritten` (Findings, row 2). The difference is latent, because no order is left pending through the broker's own operations.
- BacktestBroker.BacktestBroker.Update: collects the evaluated orders in a new table and stores it once after the loop, whereas the source changes each order object in place as it goes. Each evaluation reads only its own order and the prices, so the final table is the same.
- BacktestBroker.BacktestBroker.Update: the loop visits orders in an unspecified order rather than insertion order. Each order's evaluation reads only that order, so the result is the same.
- BacktestBroker.BacktestBroker.FetchOrder, BacktestBroker.BacktestBroker.CreateOrder and Exchange.DummyExchange.constructor: orders and price maps are values. The source hands out the stored `Order` object from `fetch_order` and from `create_order` (robo-trader/robo_trader/brokers/backtest_broker.py:27-29), and `DummyExchange.__init__` keeps the caller's `price_map` dict (robo-trader/robo_trader/exchange.py:43). A caller's later changes to those objects would alias the broker's table or the exchange's prices, and the model does not capture that aliasing.
- Portfolio.Portfolio.BacktestBuy, PortfolioManager.PortfolioManager.Buy, PortfolioManager.BuyAmount and Portfolio.AmountToBuy: require price × (1 + cost rate) ≠ 0. The source divides by it and raises `ZeroDivisionError`.
- Accounting.AmountToSell, Portfolio.Portfolio.BacktestSell and PortfolioManager.PortfolioManager.Sell: require a non-zero price when a partial sale is computed. The source divides by it there.
- Trade actions other than BUY and SELL: the source's string-typed action is a two-valued datatype, so the source's fall-through branch for an unknown action is not modelled.
- `add_historical_data`'s pandas conversions (`to_datetime`, `float`): the model takes the converted values.
- The ccxt broker, price feeds, price providers, strategies, the driver loops (`trader.py`, `robo_trader.py`, `main.py`) and the dash chart: these are network, UI or infrastructure code.

## Findings

| source | as written | input that shows it | evidently intended | confidence | as-written member | corrected member |
|---|---|---|---|---|---|---|
| robo-trader/robo_trader/brokers/backtest_broker.py:27 | `Order(...)` is called without `timestamp`, a dataclass field with no default (robo-trader/robo_trader/broker.py:43), so the constructor raises `TypeError` every time the price check passes | any symbol priced above 0, e.g. XBTGBP at 100 with a cash amount of 1000 | the order is stamped with the broker clock and filled: 9 units at 100 | high, not executed | BacktestBroker.BacktestBroker.CreateOrderAsWritten, BacktestBroker.CreateOrderDiscrepancy | BacktestBroker.BacktestBroker.CreateOrder |
| robo-trader/robo_trader/brokers/backtest_broker.py:56-67 | the trailing candidate's sign and ratchet direction are swapped on both sides. A SELL stop moves down as the price falls and never follows it up. A BUY stop sits below the price, follows it up, and fills as soon as the price stops rising, unless the price has already fallen below the stop. This is latent: no order stays pending through the broker's own operations | SELL, trail 1%, stop 99: at 95 the stop moves to 95.95 instead of filling; at 110 it stays at 99. BUY, trail 1%, stop 99: at 100 or on a dip to 99.5 it fills; at 95 it stays pending; at 101 the stop moves to 99.99 and the order fills if the price holds at 101 | a SELL stop trails below the price, ratchets up, and fills when the price falls to it; a BUY stop trails above the price, ratchets down, and fills when the price rises to it | medium, not executed | BacktestBroker.TrailAsWritten, BacktestBroker.TrailingAsWrittenDiscrepancy | BacktestBroker.Trail, used by BacktestBroker.Evaluate, BacktestBroker.BacktestBroker.EvaluateOrder and BacktestBroker.BacktestBroker.Update |
