/**
 * The cash/token bookkeeping that robo_trader/portfolio.py and its older twin
 * robo_trader/portfolio_manager.py both carry out: the trade action
 * (robo_trader/types.py), the ledger entry each recorded trade appends, the
 * cost-inclusive balance update, the sell-sizing rule that restores a cash
 * reserve, valuation, and the backward search for the last trade before a date.
 */
module Accounting {
  import opened Results

  datatype TradeAction = BUY | SELL

  /** Cash and token holdings. */
  datatype Balance = Balance(cash: real, tokens: real)

  /** One entry of the append-only trade ledger, with the balances right after the trade. */
  datatype LedgerEntry = LedgerEntry(
    action: TradeAction,
    tradeAmount: real,
    price: real,
    date: int,
    cost: real,
    currentTokens: real,
    currentCash: real)

  /** The balances an entry records. */
  function Snapshot(e: LedgerEntry): Balance
  {
    Balance(e.currentCash, e.currentTokens)
  }

  /** The worth of a balance at a price: cash plus tokens at that price. */
  function Value(b: Balance, price: real): real
  {
    b.cash + b.tokens * price
  }

  /** The transaction cost of trading `amount` tokens at `price`: a share `costRate` of the traded value. */
  function TradeCost(amount: real, price: real, costRate: real): (c: real)
    ensures 0.0 <= amount && 0.0 <= price && 0.0 <= costRate ==> 0.0 <= c
    ensures amount == 0.0 || price == 0.0 || costRate == 0.0 ==> c == 0.0
  {
    price * amount * costRate
  }

  /**
   * Applying a trade to the balances: a BUY pays the traded value plus the
   * cost and receives the tokens, a SELL receives the traded value less the
   * cost and gives up the tokens. No funds are checked here.
   */
  function Apply(b: Balance, action: TradeAction, amount: real, price: real, cost: real): (r: Balance)
    ensures action == BUY ==> r.cash == b.cash - (price * amount + cost) && r.tokens == b.tokens + amount
    ensures action == SELL ==> r.cash == b.cash + (price * amount - cost) && r.tokens == b.tokens - amount
  {
    var cashValue := price * amount;
    match action
    case BUY => Balance(b.cash - (cashValue + cost), b.tokens + amount)
    case SELL => Balance(b.cash + (cashValue - cost), b.tokens - amount)
  }

  /** Valued at the trade's own price, a trade changes the worth of the balances by exactly its cost. */
  lemma TradeLosesOnlyItsCost(b: Balance, action: TradeAction, amount: real, price: real, cost: real)
    ensures Value(Apply(b, action, amount, price, cost), price) == Value(b, price) - cost
  {
    var r := Apply(b, action, amount, price, cost);
    match action
    case BUY =>
      assert r.tokens * price == b.tokens * price + amount * price;
    case SELL =>
      assert r.tokens * price == b.tokens * price - amount * price;
  }

  /**
   * Buying and then selling the same amount at the same price restores the
   * tokens and costs exactly twice the transaction cost in cash.
   */
  lemma BuySellRoundTrip(b: Balance, amount: real, price: real, costRate: real)
    ensures var c := TradeCost(amount, price, costRate);
            Apply(Apply(b, BUY, amount, price, c), SELL, amount, price, c)
              == Balance(b.cash - 2.0 * price * amount * costRate, b.tokens)
  {
  }

  /** Python's built-in `max` on two reals. */
  function Max(a: real, b: real): real
  {
    if a >= b then a else b
  }

  /** The cash a sale has to restore: `cashReservePercentage` of the portfolio's worth at `price`. */
  function ReserveRequired(b: Balance, price: real, reservePct: real): real
  {
    (b.cash + b.tokens * price) * reservePct
  }

  /**
   * `calculate_amount_to_sell`: nothing without tokens; all tokens when the
   * cash already covers the reserve; otherwise just enough tokens to bring
   * the cash up to the reserve, never a negative amount.
   */
  function AmountToSell(b: Balance, price: real, reservePct: real): (r: real)
    requires b.tokens > 0.0 && b.cash < ReserveRequired(b, price, reservePct) ==> price != 0.0
    ensures 0.0 <= r
    ensures b.tokens <= 0.0 ==> r == 0.0
    ensures b.tokens > 0.0 && b.cash >= ReserveRequired(b, price, reservePct) ==> r == b.tokens
    ensures b.tokens > 0.0 && b.cash < ReserveRequired(b, price, reservePct) ==>
              r == Max((ReserveRequired(b, price, reservePct) - b.cash) / price, 0.0)
  {
    if b.tokens > 0.0 then
      var currentAssetValue := b.tokens * price;
      var cashReserveRequired := (b.cash + currentAssetValue) * reservePct;
      var tradeAmount :=
        if b.cash < cashReserveRequired then
          var residualHolding := b.tokens - ((cashReserveRequired - b.cash) / price);
          b.tokens - residualHolding
        else
          b.tokens;
      Max(tradeAmount, 0.0)
    else
      0.0
  }

  /**
   * With a reserve share between 0 and 1, non-negative cash and a positive
   * price, the amount to sell never exceeds the tokens held.
   */
  lemma SellWithinHoldings(b: Balance, price: real, reservePct: real)
    requires 0.0 <= reservePct <= 1.0 && 0.0 <= b.cash && 0.0 < price
    ensures AmountToSell(b, price, reservePct) <= Max(b.tokens, 0.0)
  {
    if b.tokens > 0.0 && b.cash < ReserveRequired(b, price, reservePct) {
      var worth := b.cash + b.tokens * price;
      var need := ReserveRequired(b, price, reservePct) - b.cash;
      assert worth >= 0.0;
      assert worth * reservePct <= worth;
      assert need <= b.tokens * price;
      DivideMonotone(need, b.tokens * price, price);
      assert (b.tokens * price) / price == b.tokens;
      assert need / price <= b.tokens;
    }
  }

  /** Dividing by a positive number keeps the order. */
  lemma DivideMonotone(x: real, y: real, p: real)
    requires 0.0 < p && x <= y
    ensures x / p <= y / p
  {
    assert y / p - x / p == (y - x) / p;
  }

  /**
   * When the cash is short of the reserve and the price is positive, selling
   * the computed amount at that price (before costs) brings the cash exactly
   * to the reserve.
   */
  lemma PartialSellRestoresReserve(b: Balance, price: real, reservePct: real)
    requires 0.0 < price && b.tokens > 0.0 && b.cash < ReserveRequired(b, price, reservePct)
    ensures b.cash + AmountToSell(b, price, reservePct) * price == ReserveRequired(b, price, reservePct)
  {
    var need := ReserveRequired(b, price, reservePct) - b.cash;
    assert need > 0.0;
    assert need / price > 0.0;
    assert (need / price) * price == need;
  }

  /** Whether an entry dated `d` counts as before `date` (strictly, or also on it). */
  predicate DatedBefore(d: int, date: int, inclusive: bool)
  {
    if inclusive then d <= date else d < date
  }

  /**
   * The backward search over the ledger: the index of the entry nearest the
   * end whose date is before `date`, or None when there is none.
   */
  function LastIndexBefore(trades: seq<LedgerEntry>, date: int, inclusive: bool): (r: Option<nat>)
    ensures r.None? <==> forall i :: 0 <= i < |trades| ==> !DatedBefore(trades[i].date, date, inclusive)
    ensures r.Some? ==> r.value < |trades| && DatedBefore(trades[r.value].date, date, inclusive)
    ensures r.Some? ==> forall j :: r.value < j < |trades| ==> !DatedBefore(trades[j].date, date, inclusive)
    decreases |trades|
  {
    if trades == [] then None
    else if DatedBefore(trades[|trades| - 1].date, date, inclusive) then Some(|trades| - 1)
    else LastIndexBefore(trades[..|trades| - 1], date, inclusive)
  }

  /** The balances recorded by the last entry before `date`, or `fallback` when there is none. */
  function SnapshotBefore(trades: seq<LedgerEntry>, date: int, inclusive: bool, fallback: Balance): (b: Balance)
    ensures LastIndexBefore(trades, date, inclusive).None? ==> b == fallback
    ensures LastIndexBefore(trades, date, inclusive).Some? ==>
              b == Snapshot(trades[LastIndexBefore(trades, date, inclusive).value])
  {
    match LastIndexBefore(trades, date, inclusive)
    case None => fallback
    case Some(i) => Snapshot(trades[i])
  }

  function EntryAt(date: int): LedgerEntry
  {
    LedgerEntry(BUY, 1.0, 1.0, date, 0.0, 0.0, 0.0)
  }

  /**
   * The search takes the entry nearest the end of the ledger, not the latest
   * date: in a ledger dated 5 then 3, the last entry before 10 is the one
   * dated 3.
   */
  lemma NearestEndIsNotLatestDate()
    ensures LastIndexBefore([EntryAt(5), EntryAt(3)], 10, false) == Some(1)
  {
  }
}
