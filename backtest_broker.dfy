/**
 * The simulated broker used for back-testing (robo_trader/brokers/backtest_broker.py):
 * an in-memory order table keyed by order id, a price per symbol and a clock.
 * Orders are sized from a cash amount, filled against the current price, and
 * re-evaluated by `Update`, which triggers stop orders and ratchets trailing stops.
 */
module BacktestBroker {
  import opened Results
  import opened Broker

  /** What `create_order` raises. */
  datatype BrokerError =
    | InvalidPrice(symbol: string, price: real)  // ValueError: price not strictly positive
    | MissingArgument(name: string)              // TypeError: a required Order field not passed

  /** Python's `int()` on a float: truncation toward zero. */
  function Trunc(x: real): (n: int)
    ensures 0.0 <= x ==> 0 <= n && n as real <= x < n as real + 1.0
    ensures x < 0.0 ==> n <= 0 && n as real - 1.0 < x <= n as real
  {
    if x >= 0.0 then x.Floor else -((-x).Floor)
  }

  /**
   * The whole number of units `create_order` buys with `cashAmount` once the
   * transaction cost is set aside: the largest whole quantity whose price fits
   * in the remaining cash.
   */
  function OrderQuantity(cashAmount: real, costRate: real, price: real): (q: int)
    requires price > 0.0
    ensures 0.0 <= cashAmount && costRate <= 1.0 ==>
              0 <= q && q as real * price <= cashAmount * (1.0 - costRate) < (q + 1) as real * price
  {
    var available := cashAmount - cashAmount * costRate;
    var q := Trunc(available / price);
    if 0.0 <= available then
      assert 0.0 <= available / price;
      QuotientBounds(available, price, q);
      q
    else
      q
  }

  /** If q is the floor of a / p (p > 0), then q * p <= a < (q + 1) * p. */
  lemma QuotientBounds(a: real, p: real, q: int)
    requires p > 0.0 && q as real <= a / p < q as real + 1.0
    ensures q as real * p <= a < (q + 1) as real * p
  {
    var x, lo, hi := a / p, q as real, (q + 1) as real;
    assert x * p == a;
    assert (x - lo) * p >= 0.0;
    assert (hi - x) * p > 0.0;
    assert (x - lo) * p == a - lo * p;
    assert (hi - x) * p == hi * p - a;
    assert hi * p - a > 0.0;
    assert a < hi * p;
  }

  /** The trade `_execute_order` appends to `o` at `price`. */
  function ExecutionTrade(o: Order, price: real, clock: Option<int>, costRate: real): Trade
  {
    Trade(TradeId(o.id, |o.trades|), o.id, o.symbol, o.orderType, o.orderSide,
          price, o.quantity, clock, price * o.quantity * costRate)
  }

  /**
   * Filling an order: exactly one trade is appended, carrying the order's id,
   * side, type and quantity, the given price, the broker clock and the
   * transaction cost; the status becomes FILLED and nothing else changes.
   */
  function Fill(o: Order, price: real, clock: Option<int>, costRate: real): (r: Order)
    ensures r.status == FILLED
    ensures |r.trades| == |o.trades| + 1 && r.trades[..|o.trades|] == o.trades
    ensures var t := r.trades[|o.trades|];
            && t.orderId == o.id && t.symbol == o.symbol
            && t.orderType == o.orderType && t.orderSide == o.orderSide
            && t.price == price && t.quantity == o.quantity && t.timestamp == clock
            && t.transactionCosts == price * o.quantity * costRate
    ensures r.(status := o.status, trades := o.trades) == o
    ensures TradesBelong(o) ==> TradesBelong(r)
  {
    o.(trades := o.trades + [ExecutionTrade(o, price, clock, costRate)], status := FILLED)
  }

  /** The price has reached the stop: from below for a BUY, from above for a SELL. */
  predicate StopReached(side: OrderSide, price: real, stop: real)
  {
    match side
    case BUY => price >= stop
    case SELL => price <= stop
  }

  /**
   * A pending order whose symbol has a price can be evaluated by `update`
   * without a TypeError: a STOP order needs a stop, a TRAILING_STOP order a
   * trail and a stop.
   */
  ghost predicate Armed(o: Order, prices: map<string, real>)
  {
    o.status == PENDING && o.symbol in prices ==>
      (o.orderType == STOP ==> o.stop.Some?) &&
      (o.orderType == TRAILING_STOP ==> o.trail.Some? && o.stop.Some?)
  }

  ghost predicate AllArmed(m: map<OrderId, Order>, prices: map<string, real>)
  {
    forall id :: id in m ==> Armed(m[id], prices)
  }

  ghost predicate NoPending(m: map<OrderId, Order>)
  {
    forall id :: id in m ==> m[id].status != PENDING
  }

  // ---------------------------------------------------------------------------
  // Trailing stops
  // ---------------------------------------------------------------------------

  /** The stop candidate as the source computes it: below the price for a BUY, above it for a SELL. */
  function CandidateAsWritten(side: OrderSide, price: real, trail: real): real
  {
    match side
    case BUY => price * (1.0 - trail / 100.0)
    case SELL => price * (1.0 + trail / 100.0)
  }

  /** The source's ratchet test: a higher candidate for a BUY, a lower one for a SELL. */
  predicate RatchetsAsWritten(side: OrderSide, candidate: real, stop: real)
  {
    match side
    case BUY => candidate > stop
    case SELL => candidate < stop
  }

  /**
   * One trailing-stop evaluation exactly as the source writes it: a BUY order's
   * candidate is `price * (1 - trail/100)` and replaces the stop when higher, a
   * SELL order's is `price * (1 + trail/100)` and replaces the stop when lower;
   * otherwise the order fills once the price reaches the stop.
   */
  function TrailAsWritten(o: Order, price: real, clock: Option<int>, costRate: real): (r: Order)
    requires o.trail.Some? && o.stop.Some?
    ensures r.stop.Some?
    ensures o.orderSide == BUY ==> r.stop.value >= o.stop.value
    ensures o.orderSide == SELL ==> r.stop.value <= o.stop.value
    ensures r.stop != o.stop ==> r.status == o.status && r.trades == o.trades
    ensures r.status == FILLED && o.status != FILLED ==> r.stop == o.stop && StopReached(o.orderSide, price, o.stop.value)
    ensures var c := CandidateAsWritten(o.orderSide, price, o.trail.value);
            && (RatchetsAsWritten(o.orderSide, c, o.stop.value) ==> r == o.(stop := Some(c)))
            && (!RatchetsAsWritten(o.orderSide, c, o.stop.value) ==>
                  r == if StopReached(o.orderSide, price, o.stop.value) then Fill(o, price, clock, costRate) else o)
  {
    var trail, stop := o.trail.value, o.stop.value;
    match o.orderSide
    case BUY =>
      var newStop := price * (1.0 - trail / 100.0);
      assert newStop == CandidateAsWritten(BUY, price, trail);
      if newStop > stop then o.(stop := Some(newStop))
      else if price >= stop then Fill(o, price, clock, costRate)
      else o
    case SELL =>
      var newStop := price * (1.0 + trail / 100.0);
      assert newStop == CandidateAsWritten(SELL, price, trail);
      if newStop < stop then o.(stop := Some(newStop))
      else if price <= stop then Fill(o, price, clock, costRate)
      else o
  }

  /** The stop a trailing order would move to at `price`: above the price for a BUY, below it for a SELL. */
  function TrailingCandidate(side: OrderSide, price: real, trail: real): real
  {
    match side
    case BUY => price * (1.0 + trail / 100.0)
    case SELL => price * (1.0 - trail / 100.0)
  }

  /** The candidate stop is closer to the price than the current one (lower for a BUY, higher for a SELL). */
  predicate Tighter(side: OrderSide, candidate: real, stop: real)
  {
    match side
    case BUY => candidate < stop
    case SELL => candidate > stop
  }

  /**
   * One trailing-stop evaluation with the per-side signs put right: the stop
   * follows the price in the favourable direction only and the order fills
   * when the price comes back through it. In one call the order either
   * ratchets or fills, never both.
   */
  function Trail(o: Order, price: real, clock: Option<int>, costRate: real): (r: Order)
    requires o.trail.Some? && o.stop.Some?
    ensures r.stop.Some?
    ensures o.orderSide == BUY ==> r.stop.value <= o.stop.value
    ensures o.orderSide == SELL ==> r.stop.value >= o.stop.value
    ensures r.stop != o.stop ==>
              r == o.(stop := Some(TrailingCandidate(o.orderSide, price, o.trail.value)))
    ensures r.status == FILLED && o.status != FILLED ==>
              r.stop == o.stop && StopReached(o.orderSide, price, o.stop.value)
              && r == Fill(o, price, clock, costRate)
    ensures Tighter(o.orderSide, TrailingCandidate(o.orderSide, price, o.trail.value), o.stop.value) ==>
              r.stop == Some(TrailingCandidate(o.orderSide, price, o.trail.value))
    ensures !Tighter(o.orderSide, TrailingCandidate(o.orderSide, price, o.trail.value), o.stop.value) ==>
              r == (if StopReached(o.orderSide, price, o.stop.value) then Fill(o, price, clock, costRate) else o)
  {
    var candidate := TrailingCandidate(o.orderSide, price, o.trail.value);
    if Tighter(o.orderSide, candidate, o.stop.value) then o.(stop := Some(candidate))
    else if StopReached(o.orderSide, price, o.stop.value) then Fill(o, price, clock, costRate)
    else o
  }

  /** A pending SELL trailing stop with a 1% trail and its stop at 99, as placed at a price of 100. */
  function SellTrailingAt99(): Order
  {
    Order("XBTGBP", TRAILING_STOP, SELL, 1.0, Some(1.0), None, Some(99.0), 0, None, PENDING, [])
  }

  /** A pending BUY trailing stop with a 1% trail whose stop the source's rule set to 99 at a price of 100. */
  function BuyTrailingAt99(): Order
  {
    Order("XBTGBP", TRAILING_STOP, BUY, 1.0, Some(1.0), None, Some(99.0), 0, None, PENDING, [])
  }

  /**
   * The trailing rule as written protects nothing: a SELL stop at 99 moves
   * down to 95.95 when the price falls to 95 instead of filling, and stays at
   * 99 when the price rises to 110. A BUY stop at 99 sits below the price:
   * it fills at an unchanged price of 100 and on a dip to 99.5, stays pending
   * once the price has fallen through it to 95, and after a rise to 101
   * follows the price up to 99.99 and fills when the price then holds at 101.
   * The corrected rule fills the SELL at 95, follows the price up to
   * 108.9, and leaves pending a BUY whose stop it placed at 101 when the
   * price stays at 100.
   */
  lemma TrailingAsWrittenDiscrepancy()
    ensures TrailAsWritten(SellTrailingAt99(), 95.0, None, 0.0) == SellTrailingAt99().(stop := Some(95.95))
    ensures TrailAsWritten(SellTrailingAt99(), 110.0, None, 0.0) == SellTrailingAt99()
    ensures TrailAsWritten(BuyTrailingAt99(), 100.0, None, 0.0).status == FILLED
    ensures TrailAsWritten(BuyTrailingAt99(), 99.5, None, 0.0).status == FILLED
    ensures TrailAsWritten(BuyTrailingAt99(), 95.0, None, 0.0) == BuyTrailingAt99()
    ensures TrailAsWritten(BuyTrailingAt99(), 101.0, None, 0.0) == BuyTrailingAt99().(stop := Some(99.99))
    ensures TrailAsWritten(BuyTrailingAt99().(stop := Some(99.99)), 101.0, None, 0.0).status == FILLED
    ensures Trail(SellTrailingAt99(), 95.0, None, 0.0).status == FILLED
    ensures Trail(SellTrailingAt99(), 110.0, None, 0.0).stop == Some(108.9)
    ensures Trail(BuyTrailingAt99().(stop := Some(101.0)), 100.0, None, 0.0).status == PENDING
  {
  }

  /**
   * A protective SELL trailing stop placed at 100 with a 1% trail: the price
   * rises to 110, moving the stop to 108.9, then falls to 108.9, where the
   * order fills with one trade at that price.
   */
  lemma SellTrailingStopScenario()
    ensures var o1 := Trail(SellTrailingAt99(), 110.0, Some(1), 0.004);
            && o1.stop == Some(108.9) && o1.status == PENDING
            && var o2 := Trail(o1, 108.9, Some(2), 0.004);
            && o2.status == FILLED && |o2.trades| == 1 && o2.trades[0].price == 108.9
            && o2.trades[0].timestamp == Some(2)
  {
    var o1 := Trail(SellTrailingAt99(), 110.0, Some(1), 0.004);
    assert o1.stop == Some(108.9);
    assert !Tighter(SELL, TrailingCandidate(SELL, 108.9, 1.0), 108.9);
  }

  /**
   * What one pass of `update` does to one order: only a pending order whose
   * symbol has a price is looked at; a STOP order fills exactly when the price
   * reaches its stop; a TRAILING_STOP order ratchets or fills; every other
   * type is left as it is.
   */
  function Evaluate(o: Order, prices: map<string, real>, clock: Option<int>, costRate: real): (r: Order)
    requires Armed(o, prices)
    ensures o.status != PENDING || o.symbol !in prices ==> r == o
    ensures o.orderType == MARKET || o.orderType == LIMIT ==> r == o
    ensures o.status == PENDING && o.symbol in prices && o.orderType == STOP ==>
              (r.status == FILLED <==> StopReached(o.orderSide, prices[o.symbol], o.stop.value))
              && (r.status == FILLED ==> r == Fill(o, prices[o.symbol], clock, costRate))
              && (r.status != FILLED ==> r == o)
    ensures o.status == PENDING && o.symbol in prices && o.orderType == TRAILING_STOP ==>
              r == Trail(o, prices[o.symbol], clock, costRate)
    ensures r.stop != o.stop ==> o.orderType == TRAILING_STOP && r.status == PENDING
    ensures r.status != o.status ==> o.status == PENDING && r.status == FILLED
    ensures TradesBelong(o) ==> TradesBelong(r)
    ensures r.id == o.id
  {
    if o.status != PENDING || o.symbol !in prices then o
    else
      var price := prices[o.symbol];
      match o.orderType
      case STOP => if StopReached(o.orderSide, price, o.stop.value) then Fill(o, price, clock, costRate) else o
      case TRAILING_STOP => Trail(o, price, clock, costRate)
      case _ => o
  }

  /** The order table after one `update`: every order evaluated on its own. */
  function UpdateAll(m: map<OrderId, Order>, prices: map<string, real>, clock: Option<int>, costRate: real)
    : (r: map<OrderId, Order>)
    requires AllArmed(m, prices)
    ensures r.Keys == m.Keys
  {
    map id | id in m :: Evaluate(m[id], prices, clock, costRate)
  }

  /** With no pending order, `update` changes nothing. */
  lemma UpdateIdleWithoutPending(m: map<OrderId, Order>, prices: map<string, real>, clock: Option<int>, costRate: real)
    requires NoPending(m)
    ensures AllArmed(m, prices) && UpdateAll(m, prices, clock, costRate) == m
  {
  }

  /**
   * Every order of the table is stored under its own id, below `nextId`,
   * and owns its trades.
   */
  ghost predicate TableValid(m: map<OrderId, Order>, nextId: OrderId)
  {
    forall id :: id in m ==> m[id].id == id && id < nextId && TradesBelong(m[id])
  }

  /** A table that agrees with every order's evaluation is the table `update` produces. */
  lemma UpdateAllPointwise(m: map<OrderId, Order>, u: map<OrderId, Order>, prices: map<string, real>,
                           clock: Option<int>, costRate: real)
    requires AllArmed(m, prices) && u.Keys == m.Keys
    requires forall id :: id in m ==> u[id] == Evaluate(m[id], prices, clock, costRate)
    ensures u == UpdateAll(m, prices, clock, costRate)
  {
  }

  /** `update` keeps every order under its id and its trades its own. */
  lemma UpdateAllKeepsTableValid(m: map<OrderId, Order>, prices: map<string, real>, clock: Option<int>,
                                 costRate: real, nextId: OrderId)
    requires AllArmed(m, prices) && TableValid(m, nextId)
    ensures TableValid(UpdateAll(m, prices, clock, costRate), nextId)
  {
  }

  // ---------------------------------------------------------------------------
  // The broker
  // ---------------------------------------------------------------------------

  class BacktestBroker {
    var orders: map<OrderId, Order>
    var currentPrices: map<string, real>
    var currentTimestamp: Option<int>
    const transactionCostPercentage: real
    /** The next fresh order id (the source draws a uuid4 instead). */
    var nextId: OrderId

    /** Every order is stored under its own id, which has been handed out, and owns its trades. */
    ghost predicate Valid()
      reads this
    {
      TableValid(orders, nextId)
    }

    constructor (transactionCostPercentage: real)
      ensures Valid()
      ensures orders == map[] && currentPrices == map[] && currentTimestamp == None
      ensures this.transactionCostPercentage == transactionCostPercentage
    {
      orders := map[];
      currentPrices := map[];
      currentTimestamp := None;
      this.transactionCostPercentage := transactionCostPercentage;
      nextId := 0;
    }

    /** The current price of `symbol`, 0 for a symbol never priced. */
    function GetPrice(symbol: string): (p: real)
      reads this
      ensures symbol in currentPrices ==> p == currentPrices[symbol]
      ensures symbol !in currentPrices ==> p == 0.0
    {
      if symbol in currentPrices then currentPrices[symbol] else 0.0
    }

    method SetPrice(symbol: string, price: real)
      modifies this
      ensures currentPrices == old(currentPrices)[symbol := price]
      ensures GetPrice(symbol) == price
      ensures forall s :: s != symbol ==> GetPrice(s) == old(GetPrice(s))
      ensures orders == old(orders) && currentTimestamp == old(currentTimestamp) && nextId == old(nextId)
    {
      currentPrices := currentPrices[symbol := price];
    }

    method SetTimestamp(timestamp: int)
      modifies this
      ensures currentTimestamp == Some(timestamp)
      ensures orders == old(orders) && currentPrices == old(currentPrices) && nextId == old(nextId)
    {
      currentTimestamp := Some(timestamp);
    }

    /** The stored order, or None for an unknown id. */
    function FetchOrder(orderId: OrderId): (r: Option<Order>)
      reads this
      ensures r.None? <==> orderId !in orders
      ensures r.Some? ==> r.value == orders[orderId]
    {
      if orderId in orders then Some(orders[orderId]) else None
    }

    /** Replaces the stop of a known order, whatever its status; an unknown id is ignored. */
    method EditOrder(orderId: OrderId, stop: real)
      requires Valid()
      modifies this
      ensures Valid()
      ensures orderId in old(orders) ==> orders == old(orders)[orderId := old(orders)[orderId].(stop := Some(stop))]
      ensures orderId !in old(orders) ==> orders == old(orders)
      ensures NoPending(old(orders)) ==> NoPending(orders)
      ensures currentPrices == old(currentPrices) && currentTimestamp == old(currentTimestamp) && nextId == old(nextId)
    {
      if orderId in orders {
        orders := orders[orderId := orders[orderId].(stop := Some(stop))];
      }
    }

    /** Marks a known order CANCELLED, whatever its status; an unknown id is ignored. */
    method CancelOrder(orderId: OrderId)
      requires Valid()
      modifies this
      ensures Valid()
      ensures orderId in old(orders) ==> orders == old(orders)[orderId := old(orders)[orderId].(status := CANCELLED)]
      ensures orderId !in old(orders) ==> orders == old(orders)
      ensures NoPending(old(orders)) ==> NoPending(orders)
      ensures currentPrices == old(currentPrices) && currentTimestamp == old(currentTimestamp) && nextId == old(nextId)
    {
      if orderId in orders {
        orders := orders[orderId := orders[orderId].(status := CANCELLED)];
      }
    }

    /** `_execute_order`: fills the stored order at the current price (0 if unknown) and the broker clock. */
    method ExecuteOrder(orderId: OrderId)
      requires Valid() && orderId in orders
      modifies this
      ensures Valid()
      ensures orders == old(orders)[orderId := Fill(old(orders)[orderId], GetPrice(old(orders)[orderId].symbol),
                                                     currentTimestamp, transactionCostPercentage)]
      ensures currentPrices == old(currentPrices) && currentTimestamp == old(currentTimestamp) && nextId == old(nextId)
    {
      var order := orders[orderId];
      var currentPrice := GetPrice(order.symbol);
      var transactionCosts := currentPrice * order.quantity * transactionCostPercentage;
      var trade := Trade(TradeId(order.id, |order.trades|), order.id, order.symbol, order.orderType,
                         order.orderSide, currentPrice, order.quantity, currentTimestamp, transactionCosts);
      assert trade == ExecutionTrade(order, currentPrice, currentTimestamp, transactionCostPercentage);
      orders := orders[orderId := order.(trades := order.trades + [trade], status := FILLED)];
    }

    /**
     * `create_order` with the order's timestamp taken from the broker clock:
     * rejects a symbol whose price is not strictly positive (including one
     * never priced); otherwise sizes the order from the cash amount, stores
     * it under a fresh id and fills it at once, whatever its type.
     */
    method CreateOrder(symbol: string, orderType: OrderType, orderSide: OrderSide, cashAmount: real,
                       trail: Option<real>, limit: Option<real>, stop: Option<real>)
      returns (r: Result<Order, BrokerError>)
      requires Valid()
      modifies this
      ensures Valid()
      ensures currentPrices == old(currentPrices) && currentTimestamp == old(currentTimestamp)
      ensures GetPrice(symbol) <= 0.0 ==>
                r == Err(InvalidPrice(symbol, GetPrice(symbol))) && orders == old(orders) && nextId == old(nextId)
      ensures GetPrice(symbol) > 0.0 ==>
                && r.Ok? && r.value.id == old(nextId) && r.value.id !in old(orders)
                && orders == old(orders)[r.value.id := r.value]
                && r.value.quantity == OrderQuantity(cashAmount, transactionCostPercentage, GetPrice(symbol)) as real
                && r.value == Fill(NewOrder(symbol, orderType, orderSide, r.value.quantity, trail, limit, stop,
                                            r.value.id, currentTimestamp, None, None),
                                   GetPrice(symbol), currentTimestamp, transactionCostPercentage)
                && r.value.status == FILLED && |r.value.trades| == 1
      ensures NoPending(old(orders)) ==> NoPending(orders)
    {
      var currentPrice := GetPrice(symbol);
      if currentPrice <= 0.0 {
        return Err(InvalidPrice(symbol, currentPrice));
      }
      var transactionCost := cashAmount * transactionCostPercentage;
      var availableCash := cashAmount - transactionCost;
      var quantity := Trunc(availableCash / currentPrice);
      var orderId := nextId;
      nextId := nextId + 1;
      var order := NewOrder(symbol, orderType, orderSide, quantity as real, trail, limit, stop,
                            orderId, currentTimestamp, None, None);
      orders := orders[orderId := order];
      ExecuteOrder(orderId);
      r := Ok(orders[orderId]);
    }

    /**
     * `create_order` exactly as written: the `Order(...)` call leaves out the
     * dataclass's required `timestamp` field, so once the price check passes
     * the constructor raises and nothing is stored.
     */
    method CreateOrderAsWritten(symbol: string, orderType: OrderType, orderSide: OrderSide, cashAmount: real,
                                trail: Option<real>, limit: Option<real>, stop: Option<real>)
      returns (r: Result<Order, BrokerError>)
      ensures r.Err?
      ensures GetPrice(symbol) <= 0.0 ==> r == Err(InvalidPrice(symbol, GetPrice(symbol)))
      ensures GetPrice(symbol) > 0.0 ==> r == Err(MissingArgument("timestamp"))
    {
      var currentPrice := GetPrice(symbol);
      if currentPrice <= 0.0 {
        return Err(InvalidPrice(symbol, currentPrice));
      }
      r := Err(MissingArgument("timestamp"));
    }

    /**
     * The body of `update`'s loop for one order: the order as it stands after
     * the branch for its type and side (a fill is `_execute_order` at the
     * symbol's price and the broker clock).
     */
    method EvaluateOrder(order: Order) returns (r: Order)
      requires Armed(order, currentPrices)
      ensures r == Evaluate(order, currentPrices, currentTimestamp, transactionCostPercentage)
    {
      r := order;
      if order.status == PENDING && order.symbol in currentPrices {
        var currentPrice := currentPrices[order.symbol];
        if order.orderType == STOP {
          if (order.orderSide == BUY && currentPrice >= order.stop.value)
             || (order.orderSide == SELL && currentPrice <= order.stop.value) {
            r := Fill(order, currentPrice, currentTimestamp, transactionCostPercentage);
          }
        } else if order.orderType == TRAILING_STOP {
          if order.orderSide == BUY {
            var newStop := currentPrice * (1.0 + order.trail.value / 100.0);
            assert TrailingCandidate(BUY, currentPrice, order.trail.value) == newStop;
            if newStop < order.stop.value {
              r := order.(stop := Some(newStop));
            } else if currentPrice >= order.stop.value {
              r := Fill(order, currentPrice, currentTimestamp, transactionCostPercentage);
            }
          } else {
            var newStop := currentPrice * (1.0 - order.trail.value / 100.0);
            assert TrailingCandidate(SELL, currentPrice, order.trail.value) == newStop;
            if newStop > order.stop.value {
              r := order.(stop := Some(newStop));
            } else if currentPrice <= order.stop.value {
              r := Fill(order, currentPrice, currentTimestamp, transactionCostPercentage);
            }
          }
        }
      }
    }

    /**
     * `update`: every pending order whose symbol has a price is re-evaluated
     * on its own (STOP orders trigger, TRAILING_STOP orders ratchet or fill);
     * prices, clock and ids are left alone.
     */
    method Update()
      requires Valid() && AllArmed(orders, currentPrices)
      modifies this
      ensures currentPrices == old(currentPrices) && currentTimestamp == old(currentTimestamp) && nextId == old(nextId)
      ensures Valid()
      ensures orders == UpdateAll(old(orders), currentPrices, currentTimestamp, transactionCostPercentage)
    {
      var updated := orders;
      var pending := orders.Keys;
      while pending != {}
        invariant unchanged(this) && AllArmed(orders, currentPrices)
        invariant pending <= orders.Keys && updated.Keys == orders.Keys
        invariant forall id :: id in orders && id !in pending ==>
                    updated[id] == Evaluate(orders[id], currentPrices, currentTimestamp, transactionCostPercentage)
        invariant forall id :: id in pending ==> updated[id] == orders[id]
        decreases pending
      {
        var id :| id in pending;
        var evaluated := EvaluateOrder(orders[id]);
        updated := updated[id := evaluated];
        pending := pending - {id};
      }
      UpdateAllPointwise(orders, updated, currentPrices, currentTimestamp, transactionCostPercentage);
      UpdateAllKeepsTableValid(orders, currentPrices, currentTimestamp, transactionCostPercentage, nextId);
      orders := updated;
    }
  }

  /**
   * The same call on a broker that prices XBTGBP at 100: as written it raises
   * for want of a timestamp; with the clock passed it buys 9 whole units with
   * 1000 (996 left after a 0.4% cost) and fills them.
   */
  method CreateOrderDiscrepancy() returns (asWritten: Result<Order, BrokerError>, corrected: Result<Order, BrokerError>)
    ensures asWritten == Err(MissingArgument("timestamp"))
    ensures corrected.Ok? && corrected.value.status == FILLED && corrected.value.quantity == 9.0
    ensures corrected.Ok? && |corrected.value.trades| == 1 && corrected.value.trades[0].price == 100.0
  {
    var broker := new BacktestBroker(0.004);
    broker.SetPrice("XBTGBP", 100.0);
    asWritten := broker.CreateOrderAsWritten("XBTGBP", MARKET, BUY, 1000.0, None, None, None);
    corrected := broker.CreateOrder("XBTGBP", MARKET, BUY, 1000.0, None, None, None);
    assert OrderQuantity(1000.0, 0.004, 100.0) == 9;
  }
}
