/**
 * The placeholder signal generator of robo_trader/signal_generator.py: an
 * append-only history of candles and a threshold rule on the latest close.
 */
module SignalGenerator {
  import opened Results

  /** One row of the history, prices and volume already converted to numbers. */
  datatype Row = Row(date: int, open: real, high: real, low: real, close: real, volume: real)

  datatype Signal = BUY | SELL

  /** The latest close below which the dummy rule buys. */
  const Threshold: real := 100.0

  /**
   * The dummy rule on a history: no signal without data, BUY when the latest
   * close is below the threshold, SELL otherwise.
   */
  function SignalOf(history: seq<Row>): (s: Option<Signal>)
    ensures s.None? <==> history == []
    ensures s == Some(BUY) <==> history != [] && history[|history| - 1].close < Threshold
    ensures s == Some(SELL) <==> history != [] && history[|history| - 1].close >= Threshold
  {
    if history == [] then None
    else if history[|history| - 1].close < Threshold then Some(BUY)
    else Some(SELL)
  }

  /** The signal depends on the latest row alone: any earlier history gives the same answer. */
  lemma SignalDependsOnLatestRowOnly(earlier: seq<Row>, latest: Row)
    ensures SignalOf(earlier + [latest]) == SignalOf([latest])
  {
  }

  class DummySignalGenerator {
    const symbol: string
    var historicalData: seq<Row>

    /** A generator for `symbol` with an empty history. */
    constructor (symbol: string)
      ensures this.symbol == symbol && historicalData == []
    {
      this.symbol := symbol;
      historicalData := [];
    }

    /**
     * `add_historical_data`: appends exactly one row at the end, keeping the
     * earlier rows in order; afterwards there is always a signal.
     */
    method AddHistoricalData(date: int, openPrice: real, highPrice: real, lowPrice: real,
                             closePrice: real, volume: real)
      modifies this
      ensures historicalData == old(historicalData) + [Row(date, openPrice, highPrice, lowPrice, closePrice, volume)]
      ensures GenerateSignal() == (if closePrice < Threshold then Some(BUY) else Some(SELL))
    {
      historicalData := historicalData + [Row(date, openPrice, highPrice, lowPrice, closePrice, volume)];
    }

    /** `generate_signal`: the dummy rule on the history so far. */
    function GenerateSignal(): (s: Option<Signal>)
      reads this
      ensures s == SignalOf(historicalData)
      ensures s.None? <==> historicalData == []
    {
      SignalOf(historicalData)
    }

    /** `update_prediction`: does nothing. */
    method UpdatePrediction()
      ensures unchanged(this)
    {
    }
  }

  /** A generator fed one close of 95 says BUY; fed another of 105 after it, SELL. */
  method SignalExample() returns (s1: Option<Signal>, s2: Option<Signal>)
    ensures s1 == Some(BUY) && s2 == Some(SELL)
  {
    var g := new DummySignalGenerator("XBTGBP");
    g.AddHistoricalData(0, 90.0, 96.0, 89.0, 95.0, 1000.0);
    s1 := g.GenerateSignal();
    g.AddHistoricalData(86400, 95.0, 106.0, 94.0, 105.0, 1000.0);
    s2 := g.GenerateSignal();
  }
}
