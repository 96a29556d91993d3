/**
 * The older single-symbol portfolio of robo_trader/portfolio_manager.py: the
 * same cash, tokens and trade ledger as the Portfolio, but trades are sized
 * and priced from an optional override and refused when the funds do not
 * cover them, and performance over a period of candles is measured from the
 * ledger's snapshots.
 */
module PortfolioManager {
  import opened Results
  import opened Accounting

  /** What `execute_trade` raises. */
  datatype TradeError = NotEnoughCash | NotEnoughTokens

  /** One row of the period: its date (the frame's index) and its opening and closing prices. */
  datatype Candle = Candle(date: int, open: real, close: real)

  /** The placeholder price used when no override is given. */
  const DefaultPrice: real := 100.0

  /**
   * The percentage change from `startValue` to `endValue`, 0 when the start is 0:
   * growing the start by that percentage gives the end.
   */
  function Performance(startValue: real, endValue: real): (r: real)
    ensures startValue == 0.0 ==> r == 0.0
    ensures startValue != 0.0 ==> startValue + startValue * r / 100.0 == endValue
  {
    if startValue != 0.0 then (endValue - startValue) / startValue * 100.0 else 0.0
  }

  /**
   * `calculate_performance` over a ledger: 0 for an empty period or one that
   * ends before inception or starts after `now`; otherwise the performance
   * from the balances recorded by the last trade strictly before the first
   * date (the initial balances when there is none), valued at the first
   * opening price, to the balances recorded by the last trade on or before
   * the last date (the start balances when there is none), valued at the last
   * closing price.
   */
  function PeriodPerformance(trades: seq<LedgerEntry>, initial: Balance, inceptionDate: int,
                             period: seq<Candle>, now: int): (r: real)
    ensures period == [] ==> r == 0.0
    ensures period != [] && (period[|period| - 1].date < inceptionDate || period[0].date > now) ==> r == 0.0
    ensures period != [] && period[|period| - 1].date >= inceptionDate && period[0].date <= now ==>
              var start := SnapshotBefore(trades, period[0].date, false, initial);
              var end := SnapshotBefore(trades, period[|period| - 1].date, true, start);
              r == Performance(Value(start, period[0].open), Value(end, period[|period| - 1].close))
  {
    if period == [] then 0.0
    else
      var startDate, endDate := period[0].date, period[|period| - 1].date;
      if endDate < inceptionDate || startDate > now then 0.0
      else
        var startBalance := SnapshotBefore(trades, startDate, false, initial);
        var startValue := Value(startBalance, period[0].open);
        var endBalance := SnapshotBefore(trades, endDate, true, startBalance);
        var endValue := Value(endBalance, period[|period| - 1].close);
        Performance(startValue, endValue)
  }

  const Day: int := 86400

  /**
   * The three-day period of the performance test, dated in seconds from
   * 2022-01-01, with a BUY the day before (10 tokens, 600 cash) and a SELL on
   * the second day (5 tokens, 700 cash): the start is worth 600 + 10 * 100,
   * the end 700 + 5 * 125, a change of -17.1875%.
   */
  lemma PerformanceExample()
    ensures PeriodPerformance(
              [LedgerEntry(BUY, 10.0, 100.0, -Day, 40.0, 10.0, 600.0),
               LedgerEntry(SELL, 5.0, 105.0, Day, 20.0, 5.0, 700.0)],
              Balance(1000.0, 0.0), 0,
              [Candle(0, 100.0, 105.0), Candle(Day, 110.0, 115.0), Candle(2 * Day, 120.0, 125.0)],
              1000 * Day)
            == -17.1875
  {
    var trades := [LedgerEntry(BUY, 10.0, 100.0, -Day, 40.0, 10.0, 600.0),
                   LedgerEntry(SELL, 5.0, 105.0, Day, 20.0, 5.0, 700.0)];
    assert LastIndexBefore(trades, 0, false) == Some(0);
    assert LastIndexBefore(trades, 2 * Day, true) == Some(1);
  }

  /**
   * The amount `buy` trades: all of `cash` spent at `price` with the cost
   * rate on top, so that value and transaction cost together are exactly `cash`.
   */
  function BuyAmount(cash: real, price: real, costRate: real): (a: real)
    requires price * (1.0 + costRate) != 0.0
    ensures price * a + TradeCost(a, price, costRate) == cash
  {
    var a := cash / (price * (1.0 + costRate));
    assert a * (price * (1.0 + costRate)) == cash;
    assert price * a + price * a * costRate == a * (price * (1.0 + costRate));
    a
  }

  class PortfolioManager {
    const symbol: string
    const initialCash: real
    const initialTokens: real
    const transactionCosts: real
    const stopLossPercentage: real
    const cashReservePercentage: real
    const inceptionDate: int
    var cash: real
    var tokens: real
    var trades: seq<LedgerEntry>

    function Balances(): Balance
      reads this
    {
      Balance(cash, tokens)
    }

    /** The ledger's last entry (or, before any trade, the initial state) is the current balance. */
    ghost predicate Valid()
      reads this
    {
      if trades == [] then Balances() == Balance(initialCash, initialTokens)
      else Snapshot(trades[|trades| - 1]) == Balances()
    }

    constructor (symbol: string, inceptionDate: int, initialCash: real, initialTokens: real,
                 transactionCosts: real, stopLossPercentage: real, cashReservePercentage: real)
      ensures Valid() && trades == []
      ensures cash == initialCash && tokens == initialTokens
      ensures this.symbol == symbol && this.inceptionDate == inceptionDate
      ensures this.initialCash == initialCash && this.initialTokens == initialTokens
      ensures this.transactionCosts == transactionCosts && this.stopLossPercentage == stopLossPercentage
      ensures this.cashReservePercentage == cashReservePercentage
    {
      this.symbol := symbol;
      this.inceptionDate := inceptionDate;
      this.initialCash := initialCash;
      this.initialTokens := initialTokens;
      this.transactionCosts := transactionCosts;
      this.stopLossPercentage := stopLossPercentage;
      this.cashReservePercentage := cashReservePercentage;
      cash := initialCash;
      tokens := initialTokens;
      trades := [];
    }

    /** `get_current_price`: the override when one is given, else the placeholder 100. */
    function GetCurrentPrice(override: Option<real>): (p: real)
      ensures override.Some? ==> p == override.value
      ensures override.None? ==> p == DefaultPrice
    {
      if override.Some? then override.value else DefaultPrice
    }

    /** `get_date`: the override when one is given, else the wall clock `now`. */
    function GetDate(override: Option<int>, now: int): (d: int)
      ensures override.Some? ==> d == override.value
      ensures override.None? ==> d == now
    {
      if override.Some? then override.value else now
    }

    /** `calculate_trade_cost`: the cost of trading `amount` at the (overridden) current price. */
    function CalculateTradeCost(amount: real, priceOverride: Option<real>): (c: real)
      reads this
      ensures c == TradeCost(amount, GetCurrentPrice(priceOverride), transactionCosts)
    {
      GetCurrentPrice(priceOverride) * amount * transactionCosts
    }

    /** `get_portfolio_value`: cash plus tokens at the (overridden) current price. */
    function GetPortfolioValue(priceOverride: Option<real>): (v: real)
      reads this
      ensures v == Value(Balances(), GetCurrentPrice(priceOverride))
    {
      cash + tokens * GetCurrentPrice(priceOverride)
    }

    /** `calculate_performance` on this ledger, with the wall clock as `now`. */
    function CalculatePerformance(period: seq<Candle>, now: int): (r: real)
      reads this
      ensures r == PeriodPerformance(trades, Balance(initialCash, initialTokens), inceptionDate, period, now)
    {
      PeriodPerformance(trades, Balance(initialCash, initialTokens), inceptionDate, period, now)
    }

    /**
     * `execute_trade`: refuses a BUY whose value plus cost exceeds the cash
     * and a SELL of more tokens than held, changing nothing; otherwise applies
     * the cost-inclusive update and appends one entry with the new balances.
     */
    method ExecuteTrade(action: TradeAction, tradeAmount: real, priceOverride: Option<real>,
                        dateOverride: Option<int>, now: int)
      returns (r: Result<(), TradeError>)
      modifies this
      ensures var price := GetCurrentPrice(priceOverride);
              var cost := TradeCost(tradeAmount, price, transactionCosts);
              if action == BUY && old(cash) < price * tradeAmount + cost then
                r == Err(NotEnoughCash) && Balances() == old(Balances()) && trades == old(trades)
              else if action == SELL && old(tokens) < tradeAmount then
                r == Err(NotEnoughTokens) && Balances() == old(Balances()) && trades == old(trades)
              else
                && r.Ok?
                && Balances() == Apply(old(Balances()), action, tradeAmount, price, cost)
                && trades == old(trades) + [LedgerEntry(action, tradeAmount, price, GetDate(dateOverride, now),
                                                        cost, tokens, cash)]
      ensures old(Valid()) ==> Valid()
    {
      var price := GetCurrentPrice(priceOverride);
      var tradeDate := GetDate(dateOverride, now);
      var cost := CalculateTradeCost(tradeAmount, priceOverride);
      var cashValue := price * tradeAmount;
      if action == BUY {
        if cash < cashValue + cost {
          return Err(NotEnoughCash);
        }
        cash := cash - (cashValue + cost);
        tokens := tokens + tradeAmount;
      } else {
        if tokens < tradeAmount {
          return Err(NotEnoughTokens);
        }
        cash := cash + (cashValue - cost);
        tokens := tokens - tradeAmount;
      }
      trades := trades + [LedgerEntry(action, tradeAmount, price, tradeDate, cost, tokens, cash)];
      r := Ok(());
    }

    /**
     * `buy`: spends all the cash, cost included, at the (overridden) current
     * price; the trade is never refused and leaves the cash at exactly 0.
     */
    method Buy(priceOverride: Option<real>, dateOverride: Option<int>, now: int)
      returns (r: Result<(), TradeError>)
      requires GetCurrentPrice(priceOverride) * (1.0 + transactionCosts) != 0.0
      modifies this
      ensures r.Ok? && cash == 0.0
      ensures var price := GetCurrentPrice(priceOverride);
              var a := BuyAmount(old(cash), price, transactionCosts);
              && tokens == old(tokens) + a
              && trades == old(trades) + [LedgerEntry(BUY, a, price, GetDate(dateOverride, now),
                                                      TradeCost(a, price, transactionCosts), tokens, cash)]
      ensures old(Valid()) ==> Valid()
    {
      var currentPrice := GetCurrentPrice(priceOverride);
      var tradeAmount := BuyAmount(cash, currentPrice, transactionCosts);
      r := ExecuteTrade(BUY, tradeAmount, priceOverride, dateOverride, now);
    }

    /**
     * `sell`: with tokens held, sells the amount the reserve rule gives at the
     * (overridden) current price when it is positive; refused (changing
     * nothing) only when that amount exceeds the tokens held.
     */
    method Sell(priceOverride: Option<real>, dateOverride: Option<int>, now: int)
      returns (r: Result<(), TradeError>)
      requires var price := GetCurrentPrice(priceOverride);
               tokens > 0.0 && cash < ReserveRequired(Balances(), price, cashReservePercentage) ==> price != 0.0
      modifies this
      ensures var price := GetCurrentPrice(priceOverride);
              var a := AmountToSell(old(Balances()), price, cashReservePercentage);
              var cost := TradeCost(a, price, transactionCosts);
              if a <= 0.0 then
                r.Ok? && Balances() == old(Balances()) && trades == old(trades)
              else if old(tokens) < a then
                r == Err(NotEnoughTokens) && Balances() == old(Balances()) && trades == old(trades)
              else
                && r.Ok?
                && Balances() == Apply(old(Balances()), SELL, a, price, cost)
                && trades == old(trades) + [LedgerEntry(SELL, a, price, GetDate(dateOverride, now), cost, tokens, cash)]
      ensures old(Valid()) ==> Valid()
    {
      r := Ok(());
      var tradeAmount := AmountToSell(Balances(), GetCurrentPrice(priceOverride), cashReservePercentage);
      if tradeAmount > 0.0 {
        r := ExecuteTrade(SELL, tradeAmount, priceOverride, dateOverride, now);
      }
    }
  }

  /**
   * For a period that starts after every trade and ends no earlier than any,
   * the performance measures the current balances from the first open to the
   * last close: the ledger's last entry is both snapshots.
   */
  lemma PerformanceAfterLastTradeIsCurrent(m: PortfolioManager, period: seq<Candle>, now: int)
    requires m.Valid() && period != []
    requires period[|period| - 1].date >= m.inceptionDate && period[0].date <= now
    requires forall i :: 0 <= i < |m.trades| ==>
               m.trades[i].date < period[0].date && m.trades[i].date <= period[|period| - 1].date
    ensures m.CalculatePerformance(period, now)
            == Performance(Value(m.Balances(), period[0].open), Value(m.Balances(), period[|period| - 1].close))
  {
    var first, last := period[0].date, period[|period| - 1].date;
    var initial := Balance(m.initialCash, m.initialTokens);
    if m.trades == [] {
      assert SnapshotBefore(m.trades, first, false, initial) == m.Balances();
    } else {
      var n := |m.trades| - 1;
      assert LastIndexBefore(m.trades, first, false) == Some(n);
      assert LastIndexBefore(m.trades, last, true) == Some(n);
    }
  }

  /**
   * A manager holding 1000 in cash and 20 tokens at the placeholder price of
   * 100 with a 50% reserve sells 5 tokens, leaving 15 and 1000 + 500 * (1 - 0.004)
   * in cash; holding 10 tokens it sells them all.
   */
  method SellExamples() returns (partial: PortfolioManager, full: PortfolioManager)
    ensures partial.tokens == 15.0 && partial.cash == 1000.0 + 500.0 * (1.0 - 0.004) && |partial.trades| == 1
    ensures full.tokens == 0.0 && full.cash == 1000.0 + 1000.0 * (1.0 - 0.004) && |full.trades| == 1
  {
    partial := new PortfolioManager("XBTGBP", 0, 1000.0, 20.0, 0.004, 0.1, 0.5);
    var r := partial.Sell(None, None, 1);
    full := new PortfolioManager("XBTGBP", 0, 1000.0, 10.0, 0.004, 0.1, 0.5);
    r := full.Sell(None, None, 1);
  }

  /**
   * With 1000 in cash at the placeholder price, `buy` leaves no cash and
   * records one trade. The tokens are exactly 10 / 1.004, which lies within
   * the test's one-sided tolerance of its approximation 10 * (1 - 0.004).
   */
  method BuyExample() returns (m: PortfolioManager)
    ensures m.cash == 0.0 && |m.trades| == 1 && m.tokens == 10.0 / 1.004
    ensures m.tokens - 10.0 * (1.0 - 0.004) < 0.001
  {
    m := new PortfolioManager("XBTGBP", 0, 1000.0, 0.0, 0.004, 0.1, 0.5);
    var r := m.Buy(None, None, 1);
  }

  /**
   * Buying with 1000 in cash makes the portfolio worth exactly 1000 / 1.004,
   * within 0.1 of the test's approximation 1000 * (1 - 0.004). Rebalancing to
   * a 50% reserve then sells half the tokens and loses exactly the cost of
   * selling half the value.
   */
  method PortfolioValueExample() returns (m: PortfolioManager, afterBuy: real)
    ensures afterBuy == 1000.0 / 1.004
    ensures -0.1 < afterBuy - 1000.0 * (1.0 - 0.004) < 0.1
    ensures m.GetPortfolioValue(None) == afterBuy - afterBuy * 0.5 * 0.004
    ensures m.tokens == 5.0 / 1.004 && |m.trades| == 2
  {
    m := new PortfolioManager("XBTGBP", 0, 1000.0, 0.0, 0.004, 0.1, 0.5);
    var r := m.Buy(None, None, 1);
    afterBuy := m.GetPortfolioValue(None);
    r := m.Sell(None, None, 1);
  }
}
