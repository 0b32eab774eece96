/** The synthetic price series the browser client charts: a random walk that
    starts at 85% of the current price and ends in an exact anchor point
    labelled "Today". Prices in points are whole cents; the running price of
    the walk is an unrounded real number of dollars. */
module ChartData {
  import opened Numbers

  const DefaultDays: nat := 30

  /** The date shown under a point: a day the given number of days before the
      current date, or the literal "Today". */
  datatype DateLabel = DaysAgo(days: nat) | Today

  datatype ChartPoint = ChartPoint(day: nat, date: DateLabel, price: int)

  predicate AllDraws(draws: seq<real>) {
    forall i :: 0 <= i < |draws| ==> 0.0 <= draws[i] < 1.0
  }

  /** One step of the walk: `(Math.random() - 0.45) * (currentPrice * 0.02)`.
      For a non-negative price and a draw in [0, 1) the step lies between
      -0.9% and +1.1% of the price. */
  function Change(current: real, draw: real): (c: real)
    ensures current >= 0.0 && 0.0 <= draw < 1.0 ==> -(current * 0.009) <= c <= current * 0.011
  {
    var u := current * 0.02;
    ProductSign(draw, u);
    ProductSign(1.0 - draw, u);
    assert (draw - 0.45) * u + current * 0.009 == draw * u;
    assert current * 0.011 - (draw - 0.45) * u == (1.0 - draw) * u;
    (draw - 0.45) * u
  }

  lemma ProductSign(x: real, y: real)
    ensures x >= 0.0 && y >= 0.0 ==> x * y >= 0.0
  {
  }

  /** The running price after one step per draw, starting at 85% of current;
      in closed form 0.85·p + Σ (r_k - 0.45)·0.02·p. */
  function Walk(current: real, draws: seq<real>): (w: real)
    ensures w == ClosedForm(current, draws)
    decreases |draws|
  {
    if draws == [] then current * 0.85
    else
      var n := |draws| - 1;
      assert Change(current, draws[n]) == draws[n] * (current * 0.02) - 0.45 * (current * 0.02);
      Walk(current, draws[..n]) + Change(current, draws[n])
  }

  function Sum(xs: seq<real>): real
    decreases |xs|
  {
    if xs == [] then 0.0 else Sum(xs[..|xs| - 1]) + xs[|xs| - 1]
  }

  /** Point i of the walk (0-based): day i + 1, dated days - i days back, at
      the running price rounded to cents. */
  function WalkPoint(current: nat, days: nat, draws: seq<real>, i: nat): ChartPoint
    requires i < days && |draws| == days
  {
    ChartPoint(i + 1, DaysAgo(days - i), Round2(Walk(Dollars(current), draws[..i + 1])))
  }

  /** The series `generateChartData(current, days)` returns for the given draws:
      days + 1 points numbered 1 to days + 1; walk point i is dated days - i
      days back and shows the closed-form running price over the first i + 1
      draws, rounded to cents; the last point is dated "Today" at exactly the
      current price. */
  function Series(current: nat, days: nat, draws: seq<real>): (s: seq<ChartPoint>)
    requires |draws| == days
    ensures |s| == days + 1
    ensures forall i :: 0 <= i <= days ==> s[i].day == i + 1
    ensures forall i :: 0 <= i < days ==>
              s[i].date == DaysAgo(days - i) && s[i].price == Round2(ClosedForm(Dollars(current), draws[..i + 1]))
    ensures s[days] == ChartPoint(days + 1, Today, current)
  {
    seq(days, i requires 0 <= i < days => WalkPoint(current, days, draws, i))
      + [ChartPoint(days + 1, Today, current)]
  }

  /** `generateChartData`: the loop pushes one walk point per day, then the
      anchor. */
  method GenerateChartData(current: nat, days: nat, draws: seq<real>) returns (data: seq<ChartPoint>)
    requires |draws| == days
    ensures data == Series(current, days, draws)
  {
    var currentPrice := Dollars(current);
    data := [];
    var price := currentPrice * 0.85;
    var i := 0;
    while i < days
      invariant 0 <= i <= days
      invariant price == Walk(currentPrice, draws[..i])
      invariant |data| == i
      invariant forall k :: 0 <= k < i ==> data[k] == WalkPoint(current, days, draws, k)
    {
      var change := (draws[i] - 0.45) * (currentPrice * 0.02);
      assert draws[..i + 1][..i] == draws[..i];
      price := price + change;
      data := data + [ChartPoint(i + 1, DaysAgo(days - i), Round2(price))];
      i := i + 1;
    }
    data := data + [ChartPoint(days + 1, Today, current)];
  }

  /** The anchor does not depend on the draws. */
  lemma AnchorIgnoresDraws(current: nat, days: nat, draws: seq<real>, others: seq<real>)
    requires |draws| == days && |others| == days
    ensures Series(current, days, draws)[days] == Series(current, days, others)[days]
  {
  }

  /** The running price in closed form: 0.85·p + Σ (r_k - 0.45)·0.02·p. */
  function ClosedForm(current: real, draws: seq<real>): real {
    current * 0.85 + (Sum(draws) - 0.45 * |draws| as real) * (current * 0.02)
  }

  /** After n steps the walk lies within n times those bounds of its start. */
  lemma {:induction false} WalkBounds(current: real, draws: seq<real>)
    requires current >= 0.0 && AllDraws(draws)
    ensures current * 0.85 - |draws| as real * (current * 0.009) <= Walk(current, draws)
    ensures Walk(current, draws) <= current * 0.85 + |draws| as real * (current * 0.011)
    decreases |draws|
  {
    if draws != [] {
      var n := |draws| - 1;
      WalkBounds(current, draws[..n]);
      assert |draws| as real * (current * 0.009) == n as real * (current * 0.009) + current * 0.009;
      assert |draws| as real * (current * 0.011) == n as real * (current * 0.011) + current * 0.011;
    }
  }

  /** Walk point i is not below zero when i < 94. */
  lemma WalkPointNonNegative(current: nat, days: nat, draws: seq<real>, i: nat)
    requires i < days && |draws| == days && i < 94 && AllDraws(draws)
    ensures WalkPoint(current, days, draws, i).price >= 0
  {
    var p := Dollars(current);
    var prefix := draws[..i + 1];
    assert AllDraws(prefix);
    WalkBounds(p, prefix);
    ProductSign((94 - |prefix|) as real, p * 0.009);
    assert Walk(p, prefix) >= 0.0;
  }

  /** Up to 94 days (the client asks for 30) no point of the walk goes below
      zero, whatever the draws. */
  lemma SeriesNonNegative(current: nat, days: nat, draws: seq<real>)
    requires |draws| == days && days <= 94 && AllDraws(draws)
    ensures forall i :: 0 <= i <= days ==> Series(current, days, draws)[i].price >= 0
  {
    var s := Series(current, days, draws);
    forall i | 0 <= i < days ensures s[i].price >= 0 {
      WalkPointNonNegative(current, days, draws, i);
    }
  }

  lemma {:induction false} SumZeros(n: nat)
    ensures Sum(seq(n, _ => 0.0)) == 0.0
  {
    if n > 0 {
      assert seq(n, _ => 0.0)[..n - 1] == seq(n - 1, _ => 0.0);
      SumZeros(n - 1);
    }
  }

  /** From 95 days on, a run of zero draws takes the walk below zero for any
      positive price: the walk is not bounded below in general. */
  lemma LongWalkGoesNegative(current: real, n: nat)
    requires current > 0.0 && n >= 95
    ensures AllDraws(seq(n, _ => 0.0))
    ensures Walk(current, seq(n, _ => 0.0)) < 0.0
  {
    SumZeros(n);
    assert 0.009 * current * n as real >= 0.009 * current * 95.0;
  }
}
