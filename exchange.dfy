/**
 * The simulated exchange of robo_trader/exchange.py: a map from symbol to
 * mocked price, a log of the trades it executed, and a settable clock.
 */
module Exchange {
  import opened Accounting

  /** The record an executed trade returns; `date` is the wall-clock time of execution. */
  datatype ExchangeTrade = ExchangeTrade(action: TradeAction, success: bool, tradeAmount: real,
                                         price: real, date: int, cost: real)

  /** The mocked price of `symbol`, 0 when the map has none. */
  function PriceOf(priceMap: map<string, real>, symbol: string): (p: real)
    ensures symbol in priceMap ==> p == priceMap[symbol]
    ensures symbol !in priceMap ==> p == 0.0
  {
    if symbol in priceMap then priceMap[symbol] else 0.0
  }

  /**
   * The trade the exchange records for `amount` of `symbol` at time `now`:
   * always successful, at the mocked price, costing the rate's share of its value.
   */
  function Execution(priceMap: map<string, real>, costRate: real, symbol: string,
                     action: TradeAction, amount: real, now: int): (t: ExchangeTrade)
    ensures t.success && t.action == action && t.tradeAmount == amount && t.date == now
    ensures t.price == PriceOf(priceMap, symbol)
    ensures t.cost == TradeCost(amount, t.price, costRate)
  {
    var price := PriceOf(priceMap, symbol);
    ExchangeTrade(action, true, amount, price, now, amount * price * costRate)
  }

  /** A symbol the exchange has no price for trades at 0 and costs nothing. */
  lemma UnknownSymbolTradesForNothing(priceMap: map<string, real>, costRate: real, symbol: string,
                                      action: TradeAction, amount: real, now: int)
    requires symbol !in priceMap
    ensures Execution(priceMap, costRate, symbol, action, amount, now).price == 0.0
    ensures Execution(priceMap, costRate, symbol, action, amount, now).cost == 0.0
  {
  }

  class DummyExchange {
    var priceMap: map<string, real>
    var trades: seq<ExchangeTrade>
    var currentDate: int
    const transactionCosts: real

    /** A new exchange quoting `priceMap`, with no trades, its clock read at `now`. */
    constructor (priceMap: map<string, real>, transactionCosts: real, now: int)
      ensures this.priceMap == priceMap && trades == [] && currentDate == now
      ensures this.transactionCosts == transactionCosts
    {
      this.priceMap := priceMap;
      this.trades := [];
      this.currentDate := now;
      this.transactionCosts := transactionCosts;
    }

    /** `get_current_price`: the mocked price, 0 for an unknown symbol. */
    function GetCurrentPrice(symbol: string): (p: real)
      reads this
      ensures p == PriceOf(priceMap, symbol)
    {
      PriceOf(priceMap, symbol)
    }

    /**
     * `execute_trade`: returns the trade executed at the current price with
     * its cost, appends exactly that trade to the log and changes nothing else.
     */
    method ExecuteTrade(symbol: string, action: TradeAction, amount: real, now: int)
      returns (t: ExchangeTrade)
      modifies this
      ensures t == Execution(priceMap, transactionCosts, symbol, action, amount, now)
      ensures trades == old(trades) + [t]
      ensures priceMap == old(priceMap) && currentDate == old(currentDate)
    {
      var price := GetCurrentPrice(symbol);
      var cost := amount * price * transactionCosts;
      t := ExchangeTrade(action, true, amount, price, now, cost);
      trades := trades + [t];
    }

    /** `set_current_price`: the symbol now quotes `price`; every other symbol keeps its quote. */
    method SetCurrentPrice(symbol: string, price: real)
      modifies this
      ensures GetCurrentPrice(symbol) == price
      ensures forall s :: s != symbol ==> GetCurrentPrice(s) == old(GetCurrentPrice(s))
      ensures priceMap == old(priceMap)[symbol := price]
      ensures trades == old(trades) && currentDate == old(currentDate)
    {
      priceMap := priceMap[symbol := price];
    }

    /** `get_current_date`: the exchange clock. */
    function GetCurrentDate(): (d: int)
      reads this
      ensures d == currentDate
    {
      currentDate
    }

    /** `set_current_date`: the clock now reads `newDate`; nothing else changes. */
    method SetCurrentDate(newDate: int)
      modifies this
      ensures GetCurrentDate() == newDate
      ensures priceMap == old(priceMap) && trades == old(trades)
    {
      currentDate := newDate;
    }
  }
}
