/**
 * The order and trade records shared by every broker (robo_trader/broker.py):
 * the order type, side and status enumerations, the `Trade` and `Order`
 * dataclasses and the defaults the `Order` constructor fills in.
 */
module Broker {
  import opened Results

  /** Order ids; the source draws a fresh uuid4 string, the model a fresh number. */
  type OrderId = nat

  /** The four order types the source defines; there is no take-profit or stop-loss type. */
  datatype OrderType = MARKET | LIMIT | STOP | TRAILING_STOP

  datatype OrderSide = BUY | SELL

  datatype OrderStatus = FILLED | CANCELLED | PENDING | PARTIALLY_FILLED

  /** A trade id: the order it fills and its position in that order's trade list. */
  datatype TradeId = TradeId(order: OrderId, seqNo: nat)

  /** One execution of (part of) an order. */
  datatype Trade = Trade(
    id: TradeId,
    orderId: OrderId,
    symbol: string,
    orderType: OrderType,
    orderSide: OrderSide,
    price: real,
    quantity: real,
    timestamp: Option<int>,
    transactionCosts: real)

  /** An order with the trades executed against it so far. */
  datatype Order = Order(
    symbol: string,
    orderType: OrderType,
    orderSide: OrderSide,
    quantity: real,
    trail: Option<real>,
    limit: Option<real>,
    stop: Option<real>,
    id: OrderId,
    timestamp: Option<int>,
    status: OrderStatus,
    trades: seq<Trade>)

  /**
   * The dataclass constructor: `status` defaults to PENDING, and a missing
   * (`None`) trade list is replaced by a fresh empty one.
   */
  function NewOrder(symbol: string, orderType: OrderType, orderSide: OrderSide, quantity: real,
                    trail: Option<real>, limit: Option<real>, stop: Option<real>, id: OrderId,
                    timestamp: Option<int>, status: Option<OrderStatus>,
                    trades: Option<seq<Trade>>): (o: Order)
    ensures o.symbol == symbol && o.orderType == orderType && o.orderSide == orderSide
    ensures o.quantity == quantity && o.trail == trail && o.limit == limit && o.stop == stop
    ensures o.id == id && o.timestamp == timestamp
    ensures status.None? ==> o.status == PENDING
    ensures status.Some? ==> o.status == status.value
    ensures trades.None? ==> o.trades == []
    ensures trades.Some? ==> o.trades == trades.value
  {
    Order(symbol, orderType, orderSide, quantity, trail, limit, stop, id, timestamp,
          if status.Some? then status.value else PENDING,
          if trades.Some? then trades.value else [])
  }

  /** An order built with neither a status nor trades is pending and has no trades. */
  lemma DefaultOrderIsPendingWithoutTrades(symbol: string, orderType: OrderType, orderSide: OrderSide,
                                           quantity: real, trail: Option<real>, limit: Option<real>,
                                           stop: Option<real>, id: OrderId, timestamp: Option<int>)
    ensures var o := NewOrder(symbol, orderType, orderSide, quantity, trail, limit, stop, id, timestamp, None, None);
            o.status == PENDING && o.trades == []
  {
  }

  /** Every trade of the order names the order it belongs to, under a distinct id. */
  ghost predicate TradesBelong(o: Order)
  {
    forall k :: 0 <= k < |o.trades| ==> o.trades[k].orderId == o.id && o.trades[k].id == TradeId(o.id, k)
  }
}
