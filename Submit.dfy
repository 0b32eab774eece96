/** What the browser client does with one prediction response: build the
    trade plan, show it and log it, or alert and leave everything as it was. */
module Submit {
  import opened Options
  import opened Numbers
  import opened Text
  import opened TradeLevels
  import opened ChartData
  import opened PredictionHistory

  const Timeframe: string := "1-2 Weeks"
  const BackendDownMessage: string := "Backend server not responding. Make sure it's running on port 8001!"

  /** Draws of `Math.random()` one plan takes: the confidence first, then one
      per chart day. */
  const DrawsPerPlan: nat := 1 + DefaultDays

  /** `finalPrediction`. Prices in cents; confidence, profit, risk and ratio in
      hundredths, as their `toFixed(2)` texts give them. */
  datatype TradePlan = TradePlan(
    symbol: string,
    prediction: string,
    confidence: int,
    currentPrice: nat,
    targetPrice: int,
    stopLoss: int,
    potentialProfit: Fixed2,
    risk: Fixed2,
    riskRewardRatio: Fixed2,
    chartData: seq<ChartPoint>,
    timeframe: string)

  /** The trade plan for a price (in cents) and a signal, given the draws. */
  function BuildPlan(symbol: string, currentPrice: nat, aiSignal: string, draws: seq<real>): (p: TradePlan)
    requires |draws| == DrawsPerPlan
    ensures p.symbol == symbol && p.currentPrice == currentPrice && p.timeframe == Timeframe
    ensures p.prediction == ToUpper(aiSignal)
    ensures p.prediction == "BUY" ==> p.stopLoss <= p.currentPrice <= p.targetPrice
    ensures p.prediction != "BUY" ==> p.targetPrice <= p.currentPrice <= p.stopLoss
    ensures p.potentialProfit.NonNegative() && p.risk.NonNegative() && p.riskRewardRatio.NonNegative()
  {
    var isBuy := IsBuy(aiSignal);
    var targetPrice := TargetPrice(currentPrice, isBuy);
    var stopLoss := StopLoss(currentPrice, isBuy);
    var potentialProfit := DistancePercent(targetPrice, currentPrice);
    var risk := DistancePercent(stopLoss, currentPrice);
    TradePlan(
      symbol,
      ToUpper(aiSignal),
      Confidence(draws[0]),
      currentPrice,
      targetPrice,
      stopLoss,
      potentialProfit,
      risk,
      RiskReward(potentialProfit, risk),
      Series(currentPrice, DefaultDays, draws[1..]),
      Timeframe)
  }

  /** The label stored is upper case, and reads "BUY" exactly when the buy
      branch was taken; "sell", "HOLD" and anything else take the sell branch. */
  lemma PlanLabel(symbol: string, currentPrice: nat, aiSignal: string, draws: seq<real>)
    requires |draws| == DrawsPerPlan
    ensures ToUpper(BuildPlan(symbol, currentPrice, aiSignal, draws).prediction)
            == BuildPlan(symbol, currentPrice, aiSignal, draws).prediction
    ensures BuildPlan(symbol, currentPrice, aiSignal, draws).prediction == "BUY" <==> IsBuy(aiSignal)
  {
    ToUpperIdempotent(aiSignal);
  }

  /** From 13 cents on the target and the stop lie strictly on either side of
      the price, both percentages are positive and the ratio is their
      quotient rounded to hundredths. */
  lemma PlanStrict(symbol: string, currentPrice: nat, aiSignal: string, draws: seq<real>)
    requires |draws| == DrawsPerPlan && currentPrice >= 13
    ensures var p := BuildPlan(symbol, currentPrice, aiSignal, draws);
      && (IsBuy(aiSignal) ==> p.stopLoss < p.currentPrice < p.targetPrice)
      && (!IsBuy(aiSignal) ==> p.targetPrice < p.currentPrice < p.stopLoss)
      && p.potentialProfit.Num? && p.potentialProfit.hundredths > 0
      && p.risk.Num? && p.risk.hundredths > 0
      && p.riskRewardRatio == Num(Round2(p.potentialProfit.hundredths as real / p.risk.hundredths as real))
  {
    var isBuy := IsBuy(aiSignal);
    ProfitPositive(currentPrice, isBuy);
    RiskPositive(currentPrice, isBuy);
  }

  /** Below 13 cents the stop rounds back onto the price, the risk reads 0.00
      and the ratio is NaN or Infinity; at zero every percentage is NaN. */
  lemma PlanDegenerate(symbol: string, currentPrice: nat, aiSignal: string, draws: seq<real>)
    requires |draws| == DrawsPerPlan && currentPrice < 13
    ensures var p := BuildPlan(symbol, currentPrice, aiSignal, draws);
      && p.stopLoss == p.currentPrice
      && (currentPrice > 0 ==> p.risk == Num(0))
      && (currentPrice == 0 ==> p.potentialProfit == NaN && p.risk == NaN)
      && (p.riskRewardRatio == NaN || p.riskRewardRatio == Infinity)
  {
    if currentPrice > 0 {
      RiskPositive(currentPrice, IsBuy(aiSignal));
    }
  }

  /** The confidence comes from the first draw alone: 85.00 to 95.00. */
  lemma PlanConfidence(symbol: string, currentPrice: nat, aiSignal: string, draws: seq<real>)
    requires |draws| == DrawsPerPlan && AllDraws(draws)
    ensures 8500 <= BuildPlan(symbol, currentPrice, aiSignal, draws).confidence <= 9500
  {
  }

  /** The chart has 31 points, days 1 to 31, and ends at the price, "Today". */
  lemma PlanChart(symbol: string, currentPrice: nat, aiSignal: string, draws: seq<real>)
    requires |draws| == DrawsPerPlan
    ensures var chart := BuildPlan(symbol, currentPrice, aiSignal, draws).chartData;
      && |chart| == DefaultDays + 1
      && (forall i :: 0 <= i < |chart| ==> chart[i].day == i + 1)
      && chart[DefaultDays] == ChartPoint(DefaultDays + 1, Today, currentPrice)
  {
  }

  /** $150.00 with BUY: target $165.00, stop $144.00, profit 10.00%, risk
      4.00%, ratio 2.50. */
  lemma BuyAt150(draws: seq<real>)
    requires |draws| == DrawsPerPlan
    ensures var p := BuildPlan("AAPL", 15000, "BUY", draws);
      && p.prediction == "BUY"
      && p.targetPrice == 16500 && p.stopLoss == 14400
      && p.potentialProfit == Num(1000) && p.risk == Num(400) && p.riskRewardRatio == Num(250)
  {
    assert IsBuy("BUY");
    assert DistancePercent(16500, 15000) == Num(1000);
    assert DistancePercent(14400, 15000) == Num(400);
  }

  /** $150.00 with a lower-case "sell": target $135.00, stop $156.00, the same
      percentages and ratio, and the label "SELL". */
  lemma SellAt150(draws: seq<real>)
    requires |draws| == DrawsPerPlan
    ensures var p := BuildPlan("AAPL", 15000, "sell", draws);
      && p.prediction == "SELL"
      && p.targetPrice == 13500 && p.stopLoss == 15600
      && p.potentialProfit == Num(1000) && p.risk == Num(400) && p.riskRewardRatio == Num(250)
  {
    assert !IsBuy("sell");
    assert ToUpper("sell") == "SELL";
    assert DistancePercent(13500, 15000) == Num(1000);
    assert DistancePercent(15600, 15000) == Num(400);
  }

  /** The fields of the service's JSON reply the client reads; `confidence`
      is carried but never read. */
  datatype Response = Response(
    error: Option<string>,
    symbol: string,
    currentPrice: nat,
    prediction: Option<string>,
    confidence: Option<real>)

  /** The client's React state: the plan on screen and the log. */
  datatype UiState = UiState(shown: Option<TradePlan>, history: seq<TradePlan>)

  datatype Outcome = Outcome(state: UiState, alert: Option<string>)

  /** A truthy `data.error`: present and not the empty string. */
  predicate HasError(resp: Response) {
    resp.error.Some? && resp.error.value != ""
  }

  /** `handleSubmit` once the reply has arrived: an error alerts; a reply
      without `prediction` makes `toUpperCase` throw, which is caught and
      alerted; otherwise the plan is shown and pushed onto the log. */
  function HandleResponse(state: UiState, resp: Response, draws: seq<real>): (r: Outcome)
    requires |draws| == DrawsPerPlan
    ensures r.alert.None? <==> !HasError(resp) && resp.prediction.Some?
    ensures HasError(resp) ==> r.alert == Some("Error: " + resp.error.value)
    ensures !HasError(resp) && resp.prediction.None? ==> r.alert == Some(BackendDownMessage)
    ensures r.alert.Some? ==> r.state == state
    ensures r.alert.None? ==>
              && r.state.shown.Some?
              && r.state.shown.value == BuildPlan(resp.symbol, resp.currentPrice, resp.prediction.value, draws)
              && r.state.history == Push(r.state.shown.value, state.history)
    ensures |r.state.history| <= Capacity || r.state.history == state.history
  {
    if HasError(resp) then
      Outcome(state, Some("Error: " + resp.error.value))
    else if resp.prediction.None? then
      Outcome(state, Some(BackendDownMessage))
    else
      var plan := BuildPlan(resp.symbol, resp.currentPrice, resp.prediction.value, draws);
      Outcome(UiState(Some(plan), Push(plan, state.history)), None)
  }

  /** Whatever confidence the service reports, the plan is the same. */
  lemma IgnoresReportedConfidence(state: UiState, resp: Response, other: Option<real>, draws: seq<real>)
    requires |draws| == DrawsPerPlan
    ensures HandleResponse(state, resp, draws) == HandleResponse(state, resp.(confidence := other), draws)
  {
  }

  /** Starting from a log of at most five entries, any run of replies keeps it
      at five entries or fewer. */
  lemma {:induction false} HistoryStaysBounded(state: UiState, replies: seq<Response>, draws: seq<seq<real>>)
    requires |state.history| <= Capacity
    requires |replies| == |draws| && forall i :: 0 <= i < |draws| ==> |draws[i]| == DrawsPerPlan
    ensures |Replay(state, replies, draws).history| <= Capacity
    decreases |replies|
  {
    if replies != [] {
      HistoryStaysBounded(state, replies[..|replies| - 1], draws[..|draws| - 1]);
    }
  }

  /** The state after handling the replies in order. */
  function Replay(state: UiState, replies: seq<Response>, draws: seq<seq<real>>): UiState
    requires |replies| == |draws| && forall i :: 0 <= i < |draws| ==> |draws[i]| == DrawsPerPlan
    decreases |replies|
  {
    if replies == [] then state
    else
      var n := |replies| - 1;
      HandleResponse(Replay(state, replies[..n], draws[..n]), replies[n], draws[n]).state
  }
}
