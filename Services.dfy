/** The prediction service's decision rule: the two class probabilities of the
    trained model become BUY, SELL or HOLD. Loading prices, computing features
    and running the model happen outside; their results are parameters. */
module Services {
  import opened Numbers
  import opened Text

  /** A probability at or above this one is a signal. */
  const Threshold: real := 0.55

  /** Fewer price rows than this and no signal is produced. */
  const MinRows: nat := 50

  datatype Signal = Buy | Sell | Hold {
    function Label(): string {
      match this
      case Buy => "BUY"
      case Sell => "SELL"
      case Hold => "HOLD"
    }
  }

  datatype Decision = Decision(signal: Signal, confidence: real)

  /** BUY first, then SELL, else HOLD with the larger probability. */
  function Decide(buyConfidence: real, sellConfidence: real): (d: Decision)
    ensures d.signal == Buy <==> buyConfidence >= Threshold
    ensures d.signal == Sell <==> buyConfidence < Threshold && sellConfidence >= Threshold
    ensures d.signal == Hold <==> buyConfidence < Threshold && sellConfidence < Threshold
    ensures d.confidence == buyConfidence || d.confidence == sellConfidence
    ensures d.signal == Buy ==> d.confidence == buyConfidence
    ensures d.signal == Sell ==> d.confidence == sellConfidence
    ensures d.signal != Hold ==> d.confidence >= Threshold
    ensures d.signal == Hold ==>
              d.confidence < Threshold && d.confidence >= buyConfidence && d.confidence >= sellConfidence
  {
    if buyConfidence >= Threshold then Decision(Buy, buyConfidence)
    else if sellConfidence >= Threshold then Decision(Sell, sellConfidence)
    else Decision(Hold, if buyConfidence >= sellConfidence then buyConfidence else sellConfidence)
  }

  /** The reply of `fetch_and_predict`: an error message, or the upper-cased
      symbol, the signal and the confidence and price rounded to hundredths. */
  datatype Reply =
    | Error(message: string)
    | Prediction(symbol: string, signal: string, confidence: int, currentPrice: int)

  /** `fetch_and_predict(symbol)` for a price history of `rows` rows whose last
      close is `lastClose`; `indicatorsEmpty` says whether dropping rows with
      missing indicators left nothing, and `sellProbability` and
      `buyProbability` are the model's two class probabilities. */
  function FetchAndPredict(symbol: string, rows: nat, lastClose: real, indicatorsEmpty: bool,
                           sellProbability: real, buyProbability: real): (r: Reply)
    ensures rows < MinRows ==> r == Error("Not enough historical data for " + symbol)
    ensures rows >= MinRows && indicatorsEmpty ==> r == Error("Indicators resulted in empty dataset")
    ensures r.Prediction? <==> rows >= MinRows && !indicatorsEmpty
    ensures r.Prediction? ==>
              && r.symbol == ToUpper(symbol)
              && r.signal == Decide(buyProbability, sellProbability).signal.Label()
              && r.confidence == Round2(Decide(buyProbability, sellProbability).confidence)
              && r.currentPrice == Round2(lastClose)
  {
    // an empty history has zero rows, so `df.empty` is covered by the length test
    if rows == 0 || rows < MinRows then
      Error("Not enough historical data for " + symbol)
    else if indicatorsEmpty then
      Error("Indicators resulted in empty dataset")
    else
      var d := Decide(buyProbability, sellProbability);
      Prediction(ToUpper(symbol), d.signal.Label(), Round2(d.confidence), Round2(lastClose))
  }

  /** A BUY or SELL reply reports a confidence of at least 0.55. */
  lemma SignalConfidenceReported(symbol: string, rows: nat, lastClose: real, indicatorsEmpty: bool,
                                 sellProbability: real, buyProbability: real)
    requires FetchAndPredict(symbol, rows, lastClose, indicatorsEmpty, sellProbability, buyProbability).Prediction?
    requires FetchAndPredict(symbol, rows, lastClose, indicatorsEmpty, sellProbability, buyProbability).signal != "HOLD"
    ensures FetchAndPredict(symbol, rows, lastClose, indicatorsEmpty, sellProbability, buyProbability).confidence >= 55
  {
    var d := Decide(buyProbability, sellProbability);
    Round2AtLeast(d.confidence, 55);
  }

  /** A HOLD reply reports at most 0.55: rounding can lift a probability just
      under the threshold onto it. */
  lemma HoldConfidenceReported(symbol: string, rows: nat, lastClose: real, indicatorsEmpty: bool,
                               sellProbability: real, buyProbability: real)
    requires FetchAndPredict(symbol, rows, lastClose, indicatorsEmpty, sellProbability, buyProbability).Prediction?
    requires FetchAndPredict(symbol, rows, lastClose, indicatorsEmpty, sellProbability, buyProbability).signal == "HOLD"
    ensures FetchAndPredict(symbol, rows, lastClose, indicatorsEmpty, sellProbability, buyProbability).confidence <= 55
  {
    var d := Decide(buyProbability, sellProbability);
    Round2AtMost(d.confidence, 55);
  }

  /** A last close that is a whole number of cents is reported unchanged. */
  lemma CentPriceReportedExactly(symbol: string, rows: nat, cents: int, indicatorsEmpty: bool,
                                 sellProbability: real, buyProbability: real)
    requires rows >= MinRows && !indicatorsEmpty
    ensures FetchAndPredict(symbol, rows, Dollars(cents), indicatorsEmpty, sellProbability, buyProbability)
            == Prediction(ToUpper(symbol), Decide(buyProbability, sellProbability).signal.Label(),
                          Round2(Decide(buyProbability, sellProbability).confidence), cents)
  {
    Round2Exact(cents);
  }

  /** The bound is reached: 0.549 is a HOLD that reports 0.55. */
  lemma HoldCanReportThreshold()
    ensures FetchAndPredict("msft", 150, 410.123, false, 0.2, 0.549)
            == Prediction("MSFT", "HOLD", 55, 41012)
  {
    assert ToUpper("msft") == "MSFT";
  }

  /** BUY wins whenever its probability reaches the threshold, whatever the
      other probability is. */
  lemma BuyHasPriority(buyConfidence: real, sellConfidence: real, otherSell: real)
    requires buyConfidence >= Threshold
    ensures Decide(buyConfidence, sellConfidence) == Decide(buyConfidence, otherSell)
  {
  }
}
