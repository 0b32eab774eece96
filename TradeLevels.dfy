/** The trade levels the browser client derives from a price and a signal:
    target and stop-loss, profit and risk percentages, the risk/reward ratio
    and the displayed confidence. Prices are whole cents. */
module TradeLevels {
  import opened Numbers
  import opened Text

  /** The branch taken: only a signal that upper-cases to "BUY" is a buy;
      everything else, "HOLD" included, is treated as a sell. The signal reads
      "buy" in any mixture of cases, and nothing else. */
  function IsBuy(aiSignal: string): (b: bool)
    ensures b <==> |aiSignal| == 3 && aiSignal[0] in "bB" && aiSignal[1] in "uU" && aiSignal[2] in "yY"
  {
    var t := "BUY";
    ToUpperMatches(aiSignal, t);
    assert |aiSignal| == 3 ==>
      && (SameIgnoringCase(aiSignal[0], t[0]) <==> aiSignal[0] in "bB")
      && (SameIgnoringCase(aiSignal[1], t[1]) <==> aiSignal[1] in "uU")
      && (SameIgnoringCase(aiSignal[2], t[2]) <==> aiSignal[2] in "yY");
    ToUpper(aiSignal) == t
  }

  /** 10% above the price for a buy, 10% below for a sell, in cents. The
      target is never on the wrong side of the price; it is strictly above
      from 5 cents on for a buy and strictly below from 6 cents on for a
      sell. */
  function TargetPrice(price: nat, isBuy: bool): (t: int)
    ensures t as real - 0.5 <= price as real * (if isBuy then 1.10 else 0.90) < t as real + 0.5
    ensures isBuy ==> price <= t && (price < t <==> price >= 5)
    ensures !isBuy ==> t <= price && (t < price <==> price >= 6)
  {
    var x := Dollars(price) * (if isBuy then 1.10 else 0.90);
    Round2AtLeast(x, price);
    Round2AtLeast(x, price + 1);
    Round2AtMost(x, price);
    Round2AtMost(x, price - 1);
    if isBuy then Round2(Dollars(price) * 1.10) else Round2(Dollars(price) * 0.90)
  }

  /** 4% below the price for a buy, 4% above for a sell, in cents. The stop is
      never on the wrong side of the price, and strictly on its side exactly
      from 13 cents on. */
  function StopLoss(price: nat, isBuy: bool): (s: int)
    ensures s as real - 0.5 <= price as real * (if isBuy then 0.96 else 1.04) < s as real + 0.5
    ensures isBuy ==> s <= price && (s < price <==> price >= 13)
    ensures !isBuy ==> price <= s && (price < s <==> price >= 13)
  {
    var x := Dollars(price) * (if isBuy then 0.96 else 1.04);
    Round2AtLeast(x, price);
    Round2AtLeast(x, price + 1);
    Round2AtMost(x, price);
    Round2AtMost(x, price - 1);
    if isBuy then Round2(Dollars(price) * 0.96) else Round2(Dollars(price) * 1.04)
  }

  /** `Math.abs(((level - price) / price) * 100).toFixed(2)`: the distance of a
      level from the price as a percentage, 100·|level - price| / price in
      cents, rounded. At a zero price JavaScript divides by zero: 0/0 is NaN,
      anything else over 0 is Infinity once `Math.abs` has been applied. */
  function DistancePercent(level: int, price: nat): (r: Fixed2)
    ensures r.NonNegative()
    ensures r.NaN? <==> price == 0 && level == 0
    ensures r.Infinity? <==> price == 0 && level != 0
    ensures price > 0 ==> r == Num(Round2(Abs((level - price) as real) * 100.0 / price as real))
  {
    if price == 0 then (if level == 0 then NaN else Infinity)
    else
      DistanceInCents(level, price);
      FactorIsQuotient(DistancePercentValue(level, price), price as real, Abs((level - price) as real) * 100.0);
      Num(Round2(DistancePercentValue(level, price)))
  }

  /** The unrounded percentage distance, for a positive price. */
  function DistancePercentValue(level: int, price: nat): real
    requires price > 0
  {
    Abs(((Dollars(level) - Dollars(price)) / Dollars(price)) * 100.0)
  }

  /** The percentage in terms of cents: percentage · price == 100·|level - price|. */
  lemma DistanceInCents(level: int, price: nat)
    requires price > 0
    ensures DistancePercentValue(level, price) * price as real == Abs((level - price) as real) * 100.0
  {
    var a, b := (level - price) as real, price as real;
    var q := (Dollars(level) - Dollars(price)) / Dollars(price);
    assert Dollars(level) - Dollars(price) == a / 100.0;
    assert q * (b / 100.0) == a / 100.0;
    assert q * b == a;
    if q < 0.0 {
      assert Abs(q * 100.0) * b == -(q * b) * 100.0;
    } else {
      assert Abs(q * 100.0) * b == (q * b) * 100.0;
    }
  }

  /** The factor that scales a positive b to a is a / b. */
  lemma FactorIsQuotient(d: real, b: real, a: real)
    requires b > 0.0 && d * b == a
    ensures d == a / b
  {
  }

  /** A factor that scales a positive number to at least c times it is at least c. */
  lemma FactorAtLeast(d: real, b: real, c: real)
    requires b > 0.0 && d * b >= c * b
    ensures d >= c
  {
  }

  /** A level at least c percent of the price away gives a percentage of at
      least c. */
  lemma DistanceAtLeast(level: int, price: nat, c: real)
    requires price > 0 && Abs((level - price) as real) * 100.0 >= c * price as real
    ensures DistancePercentValue(level, price) >= c
  {
    DistanceInCents(level, price);
    FactorAtLeast(DistancePercentValue(level, price), price as real, c);
  }

  /** The risk percentage is positive exactly when the stop moved, that is from
      13 cents on; below that the stop rounds back onto the price. */
  lemma RiskPositive(price: nat, isBuy: bool)
    requires price > 0
    ensures DistancePercent(StopLoss(price, isBuy), price).Num?
    ensures DistancePercent(StopLoss(price, isBuy), price).hundredths > 0 <==> price >= 13
  {
    var stop := StopLoss(price, isBuy);
    DistanceInCents(stop, price);
    var gap := Abs((stop - price) as real);
    if price >= 13 {
      // the stop lies at least 4% of the price, less half a cent, away
      assert gap >= 0.04 * price as real - 0.5;
      assert gap * 100.0 >= 0.15 * price as real;
      DistanceAtLeast(stop, price, 0.15);
      Round2AtLeast(DistancePercentValue(stop, price), 1);
    } else {
      assert gap == 0.0;
      assert DistancePercentValue(stop, price) == 0.0;
    }
  }

  /** The profit percentage is positive from 6 cents on, whichever way the
      trade goes. */
  lemma ProfitPositive(price: nat, isBuy: bool)
    requires price >= 6
    ensures DistancePercent(TargetPrice(price, isBuy), price).Num?
    ensures DistancePercent(TargetPrice(price, isBuy), price).hundredths > 0
  {
    var target := TargetPrice(price, isBuy);
    var gap := Abs((target - price) as real);
    // the target lies at least 10% of the price, less half a cent, away
    assert gap >= 0.1 * price as real - 0.5;
    assert gap * 100.0 >= 1.0 * price as real;
    DistanceAtLeast(target, price, 1.0);
    Round2AtLeast(DistancePercentValue(target, price), 1);
  }

  /** `(potentialProfit / risk).toFixed(2)`. */
  function RiskReward(profit: Fixed2, risk: Fixed2): (r: Fixed2)
    requires profit.NonNegative() && risk.NonNegative()
    ensures r.NonNegative()
    ensures profit.Num? && risk.Num? && risk.hundredths > 0 ==>
              r == Num(Round2(profit.hundredths as real / risk.hundredths as real))
    ensures risk == Num(0) ==> r == NaN || r == Infinity
  {
    Divide(profit, risk)
  }

  /** `(r * 10 + 85).toFixed(2)` for a draw r of `Math.random()`, in hundredths
      of a percent. A draw in [0, 1) gives r * 10 + 85 in [85, 95), which shows
      as 85.00 up to 95.00 once rounded. */
  function Confidence(draw: real): (c: int)
    ensures c as real - 0.5 <= draw * 1000.0 + 8500.0 <= c as real + 0.5
    ensures 0.0 <= draw < 1.0 ==> 8500 <= c <= 9500
  {
    Round2AtLeast(draw * 10.0 + 85.0, 8500);
    Round2AtMost(draw * 10.0 + 85.0, 9500);
    Round2(draw * 10.0 + 85.0)
  }
}
