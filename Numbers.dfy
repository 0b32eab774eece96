/** Decimal rounding shared by the browser client and the prediction service.

    Money is kept as a whole number of cents. JavaScript's `x.toFixed(2)` and
    Python's `round(x, 2)` are both modelled by Round2 on exact reals: the
    nearest whole number of hundredths, ties away from zero. */
module Numbers {

  /** The dollar value of a whole number of cents. */
  function Dollars(cents: int): real {
    cents as real / 100.0
  }

  function Abs(x: real): (r: real)
    ensures r >= 0.0 && (r == x || r == -x)
  {
    if x < 0.0 then -x else x
  }

  function Min(a: int, b: int): (m: int)
    ensures m <= a && m <= b && (m == a || m == b)
  {
    if a <= b then a else b
  }

  /** The number of hundredths nearest to x (ties away from zero). */
  function Round2(x: real): (n: int)
    ensures n as real - 0.5 <= x * 100.0 <= n as real + 0.5
    ensures x >= 0.0 ==> n >= 0 && x * 100.0 < n as real + 0.5
    ensures x <= 0.0 ==> n <= 0 && n as real - 0.5 < x * 100.0
  {
    if x >= 0.0 then (x * 100.0 + 0.5).Floor else -((-x) * 100.0 + 0.5).Floor
  }

  /** A value that is already a whole number of hundredths is left unchanged. */
  lemma Round2Exact(n: int)
    ensures Round2(Dollars(n)) == n
  {
    var x := Dollars(n);
    assert x * 100.0 == n as real;
  }

  /** Rounding to hundredths at or above a bound k (positive, or any bound for
      a non-negative x): exactly when 100·x reaches k - 1/2. */
  lemma Round2AtLeast(x: real, k: int)
    requires x >= 0.0 || k >= 1
    ensures Round2(x) >= k <==> x * 100.0 >= k as real - 0.5
  {
  }

  /** Rounding to hundredths at or below a bound k (non-negative, or any bound
      for a non-negative x): exactly when 100·x stays below k + 1/2. */
  lemma Round2AtMost(x: real, k: int)
    requires x >= 0.0 || k >= 0
    ensures Round2(x) <= k <==> x * 100.0 < k as real + 0.5
  {
  }

  /** The text `toFixed(2)` produces, read back as a number: a whole number of
      hundredths, or JavaScript's NaN or Infinity after a division by zero. */
  datatype Fixed2 = Num(hundredths: int) | NaN | Infinity {
    predicate NonNegative() {
      Num? ==> hundredths >= 0
    }
  }

  /** `(a / b).toFixed(2)` for the numbers two `toFixed(2)` texts denote, as
      JavaScript divides IEEE numbers: 0/0 and any NaN give NaN, a positive
      number over 0 gives Infinity, a finite number over Infinity gives 0. */
  function Divide(a: Fixed2, b: Fixed2): (r: Fixed2)
    requires a.NonNegative() && b.NonNegative()
    ensures r.NonNegative()
    ensures r.NaN? <==> a.NaN? || b.NaN? || (a.Infinity? && b.Infinity?) || (a == Num(0) && b == Num(0))
    ensures r.Infinity? <==> (a.Infinity? && b.Num?) || (a.Num? && a.hundredths > 0 && b == Num(0))
    ensures a.Num? && b.Num? && b.hundredths > 0 ==>
              r == Num(Round2(a.hundredths as real / b.hundredths as real))
    ensures a.Num? && b.Infinity? ==> r == Num(0)
  {
    match (a, b)
    case (NaN, _) => NaN
    case (_, NaN) => NaN
    case (Infinity, Infinity) => NaN
    case (Infinity, Num(_)) => Infinity
    case (Num(_), Infinity) => Num(0)
    case (Num(p), Num(q)) =>
      if q == 0 then (if p == 0 then NaN else Infinity)
      // the hundredths cancel: (p / 100) / (q / 100) == p / q
      else Num(Round2(p as real / q as real))
  }
}
