/** The price sample both source files store, and the two roundings to
    cents they use: `Math.round(x * 100) / 100` in the densifier and
    `parseFloat(x.toFixed(2))` on the chart values. */
module Quotes {
  import opened Calendar

  /** One `{ date: "YYYY-MM", price }` sample. */
  datatype StockPrice = StockPrice(date: YearMonth, price: real)

  /** True when `x` is a whole number of cents. */
  predicate IsCents(x: real)
  {
    (x * 100.0).Floor as real == x * 100.0
  }

  /** `Math.round(x * 100) / 100`: the nearest whole number of cents, with
      ties sent towards plus infinity, as `Math.round` sends them. */
  function RoundCents(x: real): (r: real)
    ensures IsCents(r)
    ensures x - 0.005 < r <= x + 0.005
  {
    var n := (x * 100.0 + 0.5).Floor;
    assert (n as real * 100.0 / 100.0) == n as real;
    n as real / 100.0
  }

  /** `parseFloat(x.toFixed(2))`. `toFixed` rounds the magnitude and puts
      the sign back (section 20.1.3.3 of ECMA-262, 10th edition), so its
      ties go away from zero: up for positive values, down for negative
      ones. */
  function ToFixedCents(x: real): (r: real)
    ensures IsCents(r)
    decreases if x < 0.0 then 1 else 0
  {
    if x < 0.0 then
      var m := ToFixedCents(-x);
      CentsNegate(m);
      -m
    else RoundCents(x)
  }

  /** `toFixed(2)` gives the nearest whole number of cents, with ties away
      from zero. */
  lemma ToFixedCentsNearest(x: real)
    ensures x >= 0.0 ==> x - 0.005 < ToFixedCents(x) <= x + 0.005
    ensures x < 0.0 ==> x - 0.005 <= ToFixedCents(x) < x + 0.005
  {
    if x < 0.0 {
      var m := RoundCents(-x);
      assert -x - 0.005 < m <= -x + 0.005;
    }
  }

  /** The negation of a whole number of cents is one. */
  lemma CentsNegate(x: real)
    requires IsCents(x)
    ensures IsCents(-x)
  {
    var c := (x * 100.0).Floor;
    assert -x * 100.0 == (-c) as real;
  }

  /** A whole number of cents is left as it is by both roundings. */
  lemma RoundCentsKeepsCents(x: real)
    requires IsCents(x)
    ensures RoundCents(x) == x
    ensures ToFixedCents(x) == x
  {
    var c := (x * 100.0).Floor;
    assert c as real == x * 100.0;
    assert (x * 100.0 + 0.5).Floor == c;
    if x < 0.0 {
      CentsNegate(x);
      var d := (-x * 100.0).Floor;
      assert d as real == -x * 100.0;
      assert (-x * 100.0 + 0.5).Floor == d;
    }
  }

  /** On exact values the two roundings agree except on negative ties:
      `Math.round(-112.5) / 100` is -1.12 while `(-1.125).toFixed(2)` is
      "-1.13". */
  lemma RoundingsDifferOnNegativeTies()
    ensures RoundCents(-1.125) == -1.12
    ensures ToFixedCents(-1.125) == -1.13
    ensures forall x :: x >= 0.0 ==> ToFixedCents(x) == RoundCents(x)
  {
    assert (-1.125 * 100.0 + 0.5).Floor == -112;
    assert (1.125 * 100.0 + 0.5).Floor == 113;
  }
}
