/**
 * The single-symbol portfolio of robo_trader/portfolio.py: cash, tokens and an
 * append-only trade ledger, with back-test buying and selling at a given
 * price and valuation now or at a past point in time.
 */
module Portfolio {
  import opened Results
  import opened Accounting

  /** What `get_valuation` raises. */
  datatype ValuationError = BeforeInception | MissingPrice

  /** `get_current_price`: a fixed placeholder price. */
  const DefaultPrice: real := 100.0

  /** The cash `calculate_amount_to_buy` leaves untouched. */
  const CashReserve: real := 10.0

  /**
   * `calculate_amount_to_buy`: the amount whose price plus transaction cost
   * uses up all cash except the reserve of 10.
   */
  function AmountToBuy(cash: real, price: real, costRate: real): (a: real)
    requires price * (1.0 + costRate) != 0.0
    ensures a * (price * (1.0 + costRate)) == cash - CashReserve
  {
    (cash - CashReserve) / (price * (1.0 + costRate))
  }

  /** Buying the amount `calculate_amount_to_buy` gives, at the same price and cost rate, leaves exactly 10 in cash. */
  lemma BuyLeavesReserve(b: Balance, price: real, costRate: real)
    requires price * (1.0 + costRate) != 0.0
    ensures var a := AmountToBuy(b.cash, price, costRate);
            Apply(b, BUY, a, price, TradeCost(a, price, costRate)).cash == CashReserve
  {
    var a := AmountToBuy(b.cash, price, costRate);
    assert price * a + price * a * costRate == a * (price * (1.0 + costRate));
  }

  /**
   * Selling 100 tokens held beside 1000 in cash at a price of 10 with a 50%
   * reserve: the cash already covers the reserve, so every token is sold and
   * the 0.4% cost of 4 leaves 1996 in cash.
   */
  lemma FullSellExample()
    ensures AmountToSell(Balance(1000.0, 100.0), 10.0, 0.5) == 100.0
    ensures TradeCost(100.0, 10.0, 0.004) == 4.0
    ensures Apply(Balance(1000.0, 100.0), SELL, 100.0, 10.0, 4.0) == Balance(1996.0, 0.0)
  {
  }

  class Portfolio {
    const symbol: string
    const initialCash: real
    const initialTokens: real
    const transactionCosts: real
    const stopLossPercentage: real
    const cashReservePercentage: real
    const inceptionDate: int
    var cash: real
    var tokens: real
    var trades: seq<LedgerEntry>

    function Balances(): Balance
      reads this
    {
      Balance(cash, tokens)
    }

    /** The ledger agrees with the balances: its last entry (or, before any trade, the initial state) is the current balance. */
    ghost predicate Valid()
      reads this
    {
      if trades == [] then Balances() == Balance(initialCash, initialTokens)
      else Snapshot(trades[|trades| - 1]) == Balances()
    }

    constructor (symbol: string, inceptionDate: int, initialCash: real, initialTokens: real,
                 transactionCosts: real, stopLossPercentage: real, cashReservePercentage: real)
      ensures Valid() && trades == []
      ensures cash == initialCash && tokens == initialTokens
      ensures this.symbol == symbol && this.inceptionDate == inceptionDate
      ensures this.initialCash == initialCash && this.initialTokens == initialTokens
      ensures this.transactionCosts == transactionCosts && this.stopLossPercentage == stopLossPercentage
      ensures this.cashReservePercentage == cashReservePercentage
    {
      this.symbol := symbol;
      this.inceptionDate := inceptionDate;
      this.initialCash := initialCash;
      this.initialTokens := initialTokens;
      this.transactionCosts := transactionCosts;
      this.stopLossPercentage := stopLossPercentage;
      this.cashReservePercentage := cashReservePercentage;
      cash := initialCash;
      tokens := initialTokens;
      trades := [];
    }

    /**
     * `record_trade`: applies the trade to the balances without any funds
     * check and appends one ledger entry holding the new balances.
     */
    method RecordTrade(action: TradeAction, tradeAmount: real, price: real, tradeDate: int, cost: real)
      modifies this
      ensures Balances() == Apply(old(Balances()), action, tradeAmount, price, cost)
      ensures trades == old(trades) + [LedgerEntry(action, tradeAmount, price, tradeDate, cost, tokens, cash)]
      ensures Valid()
    {
      var cashValue := price * tradeAmount;
      if action == BUY {
        cash := cash - (cashValue + cost);
        tokens := tokens + tradeAmount;
      } else {
        cash := cash + (cashValue - cost);
        tokens := tokens - tradeAmount;
      }
      trades := trades + [LedgerEntry(action, tradeAmount, price, tradeDate, cost, tokens, cash)];
    }

    /**
     * `backtest_buy`: buys everything but the cash reserve at `price`, which
     * leaves exactly 10 in cash; does nothing when that amount is not positive.
     */
    method BacktestBuy(price: real, tradeDate: int)
      requires price * (1.0 + transactionCosts) != 0.0
      modifies this
      ensures var a := AmountToBuy(old(cash), price, transactionCosts);
              var c := TradeCost(a, price, transactionCosts);
              if a > 0.0 then
                && Balances() == Apply(old(Balances()), BUY, a, price, c)
                && trades == old(trades) + [LedgerEntry(BUY, a, price, tradeDate, c, tokens, cash)]
                && cash == CashReserve
              else
                Balances() == old(Balances()) && trades == old(trades)
      ensures old(Valid()) ==> Valid()
    {
      var tradeAmount := AmountToBuy(cash, price, transactionCosts);
      var cost := TradeCost(tradeAmount, price, transactionCosts);
      if tradeAmount > 0.0 {
        BuyLeavesReserve(Balances(), price, transactionCosts);
        RecordTrade(BUY, tradeAmount, price, tradeDate, cost);
      }
    }

    /**
     * `backtest_sell`: sells the amount `calculate_amount_to_sell` gives at
     * `price`; does nothing when that amount is not positive.
     */
    method BacktestSell(price: real, tradeDate: int)
      requires tokens > 0.0 && cash < ReserveRequired(Balances(), price, cashReservePercentage) ==> price != 0.0
      modifies this
      ensures var a := AmountToSell(old(Balances()), price, cashReservePercentage);
              var c := TradeCost(a, price, transactionCosts);
              if a > 0.0 then
                && Balances() == Apply(old(Balances()), SELL, a, price, c)
                && trades == old(trades) + [LedgerEntry(SELL, a, price, tradeDate, c, tokens, cash)]
              else
                Balances() == old(Balances()) && trades == old(trades)
      ensures old(Valid()) ==> Valid()
    {
      var tradeAmount := AmountToSell(Balances(), price, cashReservePercentage);
      var cost := TradeCost(tradeAmount, price, transactionCosts);
      if tradeAmount > 0.0 {
        RecordTrade(SELL, tradeAmount, price, tradeDate, cost);
      }
    }

    /**
     * `get_last_trade_before`: the ledger entry nearest the end whose date is
     * strictly before `date`, or None.
     */
    function GetLastTradeBefore(date: int): (r: Option<LedgerEntry>)
      reads this
      ensures r.None? <==> forall i :: 0 <= i < |trades| ==> trades[i].date >= date
      ensures r.Some? ==> exists i :: 0 <= i < |trades| && trades[i] == r.value && trades[i].date < date
                                       && forall j :: i < j < |trades| ==> trades[j].date >= date
    {
      match LastIndexBefore(trades, date, false)
      case None => None
      case Some(i) => Some(trades[i])
    }

    /**
     * `get_valuation`: cash plus tokens at a price. At a valuation point it
     * rejects a point before inception and a missing price, and uses the
     * balances recorded by the last trade strictly before the point (the
     * initial balances when there is none); without a point it uses the
     * current balances and, when no price is given, the placeholder price.
     */
    function GetValuation(priceAtValuation: Option<real>, valuationPoint: Option<int>)
      : (r: Result<real, ValuationError>)
      reads this
      ensures valuationPoint.Some? && valuationPoint.value < inceptionDate ==> r == Err(BeforeInception)
      ensures valuationPoint.Some? && valuationPoint.value >= inceptionDate && priceAtValuation.None? ==>
                r == Err(MissingPrice)
      ensures valuationPoint.Some? && valuationPoint.value >= inceptionDate && priceAtValuation.Some? ==>
                r == Ok(Value(SnapshotBefore(trades, valuationPoint.value, false, Balance(initialCash, initialTokens)),
                              priceAtValuation.value))
      ensures valuationPoint.None? ==>
                r == Ok(Value(Balances(), if priceAtValuation.Some? then priceAtValuation.value else DefaultPrice))
    {
      if valuationPoint.Some? then
        if valuationPoint.value < inceptionDate then Err(BeforeInception)
        else if priceAtValuation.None? then Err(MissingPrice)
        else
          var last := GetLastTradeBefore(valuationPoint.value);
          var b := if last.Some? then Snapshot(last.value) else Balance(initialCash, initialTokens);
          Ok(Value(b, priceAtValuation.value))
      else
        var price := if priceAtValuation.Some? then priceAtValuation.value else DefaultPrice;
        Ok(Value(Balances(), price))
    }
  }

  /**
   * For a portfolio whose ledger agrees with its balances, valuing at a point
   * after every recorded trade gives the current valuation at that price.
   */
  lemma ValuationAfterLastTradeIsCurrent(p: Portfolio, price: real, point: int)
    requires p.Valid() && point >= p.inceptionDate
    requires forall i :: 0 <= i < |p.trades| ==> p.trades[i].date < point
    ensures p.GetValuation(Some(price), Some(point)) == p.GetValuation(Some(price), None)
  {
    if p.trades != [] {
      assert LastIndexBefore(p.trades, point, false) == Some(|p.trades| - 1);
    }
  }

  /**
   * For a portfolio whose ledger agrees with its balances, valuing at a point
   * no later than the first trade gives the initial balances at that price.
   */
  lemma ValuationBeforeFirstTradeIsInitial(p: Portfolio, price: real, point: int)
    requires p.Valid() && point >= p.inceptionDate
    requires forall i :: 0 <= i < |p.trades| ==> p.trades[i].date >= point
    ensures p.GetValuation(Some(price), Some(point)) == Ok(Value(Balance(p.initialCash, p.initialTokens), price))
  {
  }

  /**
   * The back-test buy at a price of 10 on a fresh portfolio holding 1000 in
   * cash with a 0.4% cost: one BUY is recorded and exactly 10 remains in cash.
   */
  method BacktestBuyExample() returns (p: Portfolio)
    ensures |p.trades| == 1 && p.trades[0].action == BUY && p.trades[0].price == 10.0
    ensures p.cash == 10.0 && p.tokens == 990.0 / 10.04
    ensures p.trades[0].currentCash == 10.0 && p.trades[0].currentTokens == p.tokens
  {
    p := new Portfolio("XBTGBP", 0, 1000.0, 0.0, 0.004, 0.1, 0.5);
    p.BacktestBuy(10.0, 1);
  }
}
