# Stock market predictor: trade-plan engine and signal rule

A Dafny model of the two pieces of decision logic in the stock market
predictor.

* The browser client (`frontend/src/App.js`) takes a price and a BUY/SELL
  signal and builds a trade plan. The plan has a target 10% away from the
  price and a stop-loss 4% away, each rounded to cents. It has the profit and
  risk percentages, the risk/reward ratio and a random "confidence" of 85 to
  95. It also carries a 31-point synthetic price chart: a random walk from 85%
  of the price that ends at the price itself, labelled "Today". The client
  keeps the last five plans, newest first.
* The prediction service (`backend/app/services.py`) turns the model's two
  class probabilities into BUY, SELL or HOLD. The threshold is 0.55 and BUY is
  checked first. The service refuses histories shorter than 50 rows.

Modules:

* `Numbers`: `Round2` models `toFixed(2)` and Python's `round(x, 2)` on exact
  reals. It gives the nearest hundredth, with ties away from zero. `Fixed2`
  is the value of a `toFixed(2)` text, including `NaN` and `Infinity`.
* `Text`: upper-casing of ASCII letters.
* `TradeLevels`: target, stop, percentages, ratio and confidence.
* `ChartData`: `generateChartData`. It is an imperative method, proved equal
  to the reference function `Series`.
* `PredictionHistory`: the bounded log.
* `Submit`: the plan record, and what the client does with one reply.
* `Services`: the service's decision rule and reply.
* `Options`: an `Option` type.

Representation:

* Prices are whole cents. The current price is a `nat`; the target, the stop
  and the chart prices are `int` values, as results of rounding.
* Percentages, confidence and ratio are whole hundredths, as their
  `toFixed(2)` texts give them.
* `Math.random()` is a sequence of draws. One plan takes 31 draws: the
  confidence takes the first, because it comes before `chartData` in the
  object literal. The chart takes the other 30.
* The walk's running price is an exact `real` and is never rounded.

Behaviour of the code worth knowing:

* A signal that does not upper-case to `BUY` is not rejected: it takes the
  sell branch, `HOLD` included (`IsBuy`).
* After rounding to cents, `stop < price < target` holds only from 13 cents
  on. Below 13 cents the stop rounds back onto the price, the risk is `0.00`
  (`NaN` at a zero price) and the ratio is `NaN` or `Infinity` (`PlanDegenerate`).
* With 30 days the walk cannot go below zero; from 95 days on it can
  (`SeriesNonNegative`, `LongWalkGoesNegative`).
* The client reads `data.prediction`, but the service sends `signal`. Each
  side is modelled on its own. `HandleResponse` covers a reply without
  `prediction`: the client alerts and keeps its state.

## Model

| member | source | states |
|---|---|---|
| `Numbers.Round2` | frontend/src/App.js:58-64 | the result is within half a hundredth of x, with ties going away from zero (`toFixed(2)`) |
| `Numbers.Divide` | frontend/src/App.js:79 | JavaScript division of two non-negative `toFixed(2)` values: NaN exactly for a NaN operand, 0/0 or Infinity/Infinity; Infinity exactly for Infinity over a number or a positive number over 0; a number over a positive number gives the rounded quotient, and a number over Infinity gives 0 |
| `Text.ToUpper` | frontend/src/App.js:54 | same length; every letter is upper-cased and every other character is kept |
| `Text.ToUpperIdempotent` | frontend/src/App.js:72 | upper-casing the stored label again changes nothing |
| `Text.ToUpperMatches` | frontend/src/App.js:54 | a string upper-cases to an upper-case target exactly when it spells the target letter by letter in either case |
| `TradeLevels.IsBuy` | frontend/src/App.js:54 | the buy branch is taken exactly for "buy" in any mixture of cases; every other signal, HOLD included, is a sell |
| `TradeLevels.TargetPrice` | frontend/src/App.js:58-60 | the target is the nearest cent, ties rounded up, to 110% (buy) or 90% (sell) of the price; it is never on the wrong side of the price, strictly above from 5 cents on for a buy and strictly below from 6 cents on for a sell |
| `TradeLevels.StopLoss` | frontend/src/App.js:62-64 | the stop is the nearest cent, ties rounded up, to 96% (buy) or 104% (sell) of the price; it is never on the wrong side of the price, and strictly on its side exactly from 13 cents on |
| `TradeLevels.DistancePercent` | frontend/src/App.js:66-67 | for a positive price, 100·abs(level − price) / price rounded to hundredths; at a zero price NaN for a zero level and Infinity otherwise; never negative |
| `TradeLevels.DistanceInCents` | frontend/src/App.js:66-67 | the percentage times the price in cents equals 100·abs(level − price) |
| `TradeLevels.DistanceAtLeast` | frontend/src/App.js:66-67 | a level at least c% of the price away gives a percentage of at least c |
| `TradeLevels.RiskPositive` | frontend/src/App.js:62-67 | for a positive price the risk is a number, and it is positive exactly when the price is at least 13 cents |
| `TradeLevels.ProfitPositive` | frontend/src/App.js:58-66 | from 6 cents on, the profit percentage is positive in both branches |
| `TradeLevels.RiskReward` | frontend/src/App.js:79 | a non-zero risk gives profit / risk rounded to hundredths; a zero risk gives NaN or Infinity |
| `TradeLevels.Confidence` | frontend/src/App.js:73 | the confidence is within half a hundredth of r·10+85; a draw in [0,1) shows as 85.00 to 95.00 |
| `ChartData.GenerateChartData` | frontend/src/App.js:12-34 | the loop's output equals the reference series `Series` for the same draws |
| `ChartData.Series` | frontend/src/App.js:12-34 | days+1 points with `day` 1 to days+1; point i is dated days-i days back and shows the closed-form running price over the first i+1 draws, rounded to cents; the last point is the current price, dated "Today" |
| `ChartData.AnchorIgnoresDraws` | frontend/src/App.js:27-31 | the anchor point is the same whatever the draws |
| `ChartData.Walk` | frontend/src/App.js:14-18 | the running price after n steps is 0.85·p + (Σr_k − 0.45·n)·0.02·p |
| `ChartData.Change` | frontend/src/App.js:17 | for a non-negative price and a draw in [0,1), one step moves the walk by between -0.9% and +1.1% of the price |
| `ChartData.WalkBounds` | frontend/src/App.js:14-18 | after n steps the walk is within n·0.9% below and n·1.1% above its start |
| `ChartData.SeriesNonNegative` | frontend/src/App.js:14-22 | with at most 94 days, no chart price is negative, whatever the draws |
| `ChartData.LongWalkGoesNegative` | frontend/src/App.js:14-18 | from 95 steps on, draws of 0 take the walk below zero for any positive price |
| `PredictionHistory.Push` | frontend/src/App.js:87 | the log has min(5, n+1) entries; the new entry is first, and the rest is a prefix of the old log |
| `PredictionHistory.PushFull` | frontend/src/App.js:87 | pushing onto a full log drops exactly the oldest entry |
| `PredictionHistory.PushAllKeepsNewest` | frontend/src/App.js:87 | after any run of pushes, the log holds the five most recent entries, newest first |
| `PredictionHistory.SixPushes` | frontend/src/App.js:87 | six pushes onto an empty log leave five: the sixth is first and the second is last |
| `Submit.BuildPlan` | frontend/src/App.js:52-83 | the label is the upper-cased signal; the levels are ordered by the label (BUY: stop <= price <= target, else the reverse); percentages and ratio are non-negative |
| `Submit.PlanLabel` | frontend/src/App.js:54-72 | the stored label is upper case, and it is "BUY" exactly when the buy branch was taken |
| `Submit.PlanStrict` | frontend/src/App.js:58-79 | from 13 cents on, the levels are strictly on either side of the price, profit and risk are positive, and the ratio is their rounded quotient |
| `Submit.PlanDegenerate` | frontend/src/App.js:58-79 | below 13 cents, the stop equals the price, the risk is 0.00 (NaN at 0) and the ratio is NaN or Infinity |
| `Submit.PlanConfidence` | frontend/src/App.js:73 | the plan's confidence is 85.00 to 95.00 |
| `Submit.PlanChart` | frontend/src/App.js:80 | the plan's chart has 31 points numbered 1 to 31 and ends at the price, "Today" |
| `Submit.BuyAt150` | frontend/src/App.js:58-79 | $150.00 with BUY gives 165.00 / 144.00 / 10.00 / 4.00 / 2.50 |
| `Submit.SellAt150` | frontend/src/App.js:58-79 | $150.00 with "sell" gives the label SELL and 135.00 / 156.00 / 10.00 / 4.00 / 2.50 |
| `Submit.HandleResponse` | frontend/src/App.js:45-91 | a truthy error or a missing prediction alerts and leaves the state unchanged; otherwise the plan is shown and pushed onto the log |
| `Submit.IgnoresReportedConfidence` | frontend/src/App.js:52-83 | the confidence the service reports has no effect on the outcome |
| `Submit.HistoryStaysBounded` | frontend/src/App.js:87 | from a log of at most 5 entries, any run of replies keeps a log of at most 5 entries |
| `Services.Decide` | backend/app/services.py:87-95 | BUY exactly when buy >= 0.55, whatever sell is; SELL exactly when buy < 0.55 <= sell; otherwise HOLD with max(buy, sell) < 0.55; the confidence is always one of the two inputs, and >= 0.55 for BUY and SELL |
| `Services.FetchAndPredict` | backend/app/services.py:36-104 | fewer than 50 rows, or empty indicators, give an error and no signal; otherwise the reply has the upper-cased symbol, the decided label, and the confidence and price rounded to hundredths |
| `Services.SignalConfidenceReported` | backend/app/services.py:87-103 | a BUY or SELL reply reports a confidence of at least 0.55 |
| `Services.HoldConfidenceReported` | backend/app/services.py:93-103 | a HOLD reply reports a confidence of at most 0.55 |
| `Services.CentPriceReportedExactly` | backend/app/services.py:100-104 | a last close that is a whole number of cents is reported as exactly that price |
| `Services.HoldCanReportThreshold` | backend/app/services.py:93-103 | a buy probability of 0.549 is a HOLD that reports 0.55 |
| `Services.BuyHasPriority` | backend/app/services.py:87-89 | once buy >= 0.55, the sell probability does not affect the decision |

## Left out

- Numbers.Round2: it rounds exact reals. It does not model IEEE-754 doubles, where `toFixed(2)` rounds the binary value, nor Python's half-to-even `round`.
- Text.ToUpper: it upper-cases ASCII letters only. Full Unicode case mapping (`ß` to `SS`, for example) is not modelled.
- The `fetch` calls, `alert`, React state setters, the loading flag and the `try`/`catch`/`finally` plumbing are left out. `HandleResponse` keeps only what they decide: the alert text and the new state.
- Real calendar dates and the `timestamp` string are left out. They depend on the clock and locale. A chart date is modelled as "n days ago" or "Today".
- A reply without `current_price` is not modelled. The price is always a cent amount.
- All JSX and chart rendering is left out.
- Price download (yfinance), model loading and `predict_proba` are left out. The row count, the last close, the indicator-emptiness flag and the two probabilities are parameters.
- Feature engineering and `calculate_rsi` are left out. They are pandas rolling-window numerics. They reach the decision only through the model's two probabilities, which are parameters here; their only other effect is the emptiness test.
- The `details` block of the service's reply (RSI, volatility, 50-day average) is left out, because it comes from those features.
- Services.FetchAndPredict: the emptiness of the indicator table is a free parameter. In the source, `pct_change(50)` leaves no complete row when there are exactly 50 rows, so 50 rows always end in the indicators error; the model does not tie the flag to the row count.
- An exception inside `fetch_and_predict` is not modelled. The service would catch it and reply `{"error": str(e)}`.
- backend/app/main.py, backend/app/schemas.py and backend/models/check_model.py are not part of this model. They hold routing, a data class and a diagnostic script.
