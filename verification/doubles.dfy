/** Temperatures as a handler hands them over: double-precision numbers, whose
    scaling to hundredths is rounded. */
module Doubles {
  import opened Values
  import opened LuaConversion

  const SIGNIFICAND: int := 0x20_0000_0000_0000

  function Power(e: int): (r: real)
    ensures r > 0.0
    decreases if e < 0 then -e else e
  {
    if e == 0 then 1.0 else if e > 0 then 2.0 * Power(e - 1) else Power(e + 1) / 2.0
  }

  function Distance(a: real, b: real): real { if a >= b then a - b else b - a }

  predicate WrittenAs(x: real, m: int, e: int) {
    -SIGNIFICAND <= m <= SIGNIFICAND && x == m as real * Power(e)
  }

  /** A 53-bit significand times a power of two; the range of exponents is not
      bounded. */
  ghost predicate IsDouble(x: real) { exists m: int, e: int :: WrittenAs(x, m, e) }

  /** A correctly rounded result. */
  ghost predicate Nearest(x: real, exact: real) {
    IsDouble(x) && forall y :: IsDouble(y) ==> Distance(x, exact) <= Distance(y, exact)
  }

  function TwoTo(n: nat): (r: nat)
    ensures r >= 1
  {
    if n == 0 then 1 else 2 * TwoTo(n - 1)
  }

  lemma {:induction false} PowerDivides(e: int, f: int)
    requires f <= e
    ensures Power(e) == TwoTo(e - f) as real * Power(f)
    decreases e - f
  {
    if f < e {
      PowerDivides(e - 1, f);
      PowerDoubles(e - 1);
    }
  }

  lemma PowerDoubles(e: int)
    ensures Power(e + 1) == 2.0 * Power(e)
  {
  }

  lemma {:induction false} TwoToAdds(a: nat, b: nat)
    ensures TwoTo(a + b) == TwoTo(a) * TwoTo(b)
    decreases b
  {
    if b > 0 { TwoToAdds(a, b - 1); }
  }

  lemma Significand()
    ensures TwoTo(53) == SIGNIFICAND
  {
    assert TwoTo(3) == 8 && TwoTo(5) == 32;
    TwoToAdds(5, 5);
    TwoToAdds(10, 10);
    TwoToAdds(20, 10);
    TwoToAdds(20, 30);
    TwoToAdds(50, 3);
  }

  /** Doubles with small exponents are small. */
  lemma SmallExponent(x: real, m: int, e: int, k: int)
    requires WrittenAs(x, m, e) && e < k - 52
    ensures Distance(x, 0.0) <= Power(k)
  {
    hide Power, TwoTo;
    Significand();
    PowerDivides(k, k - 53);
    PowerDivides(k - 53, e);
    var small, step := Power(e), Power(k - 53);
    ScaleUp(SIGNIFICAND as real, small, step);
    ScaleUp(small, 1.0, TwoTo(k - 53 - e) as real);
    Magnitude(m as real, SIGNIFICAND as real, small);
  }

  lemma ScaleUp(factor: real, a: real, b: real)
    requires factor >= 0.0 && a <= b
    ensures factor * a <= factor * b && a * factor <= b * factor
  {
    assert factor * (b - a) >= 0.0;
  }

  lemma Negated(a: real, b: real)
    ensures (-a) * b == -(a * b) && a * b == b * a
  {
  }

  lemma Magnitude(x: real, bound: real, unit: real)
    requires -bound <= x <= bound && unit >= 0.0
    ensures Distance(x * unit, 0.0) <= bound * unit
  {
    ScaleUp(unit, x, bound);
    ScaleUp(unit, -bound, x);
    Negated(bound, unit);
  }

  /** Doubles above `2^k` lie on a grid of spacing `2^(k - 52)`. */
  lemma OnGrid(x: real, k: int) returns (j: int)
    requires IsDouble(x) && Distance(x, 0.0) > Power(k)
    ensures x == j as real * Power(k - 52)
  {
    hide Power, TwoTo;
    var m, e :| WrittenAs(x, m, e);
    if e < k - 52 { SmallExponent(x, m, e, k); }
    PowerDivides(e, k - 52);
    j := m * TwoTo(e - (k - 52));
    Regroup(m, TwoTo(e - (k - 52)), Power(k - 52));
  }

  lemma Regroup(a: int, b: int, c: real)
    ensures a as real * (b as real * c) == (a * b) as real * c
  {
  }

  /** Rounding is off by half a step at most. */
  lemma HalfAStep(x: real, exact: real, e: int)
    requires Nearest(x, exact) && Distance(exact, 0.0) <= SIGNIFICAND as real * Power(e)
    ensures Distance(x, exact) <= Power(e) / 2.0
  {
    hide Power, IsDouble;
    var step := Power(e);
    var steps := exact / step;
    QuotientBound(exact, step, SIGNIFICAND as real);
    var m := RoundHalfAway(steps);
    var y := m as real * step;
    assert IsDouble(y) by { DoubleIs(y, m, e); }
    RoundedProduct(exact, step, m);
  }

  lemma QuotientBound(exact: real, step: real, bound: real)
    requires step > 0.0 && Distance(exact, 0.0) <= bound * step
    ensures -bound <= exact / step <= bound
  {
    var steps := exact / step;
    assert steps * step == exact;
    Expands(steps, bound, step);
    if steps > bound { Positive(steps - bound, step); }
    if steps < -bound { Positive(-bound - steps, step); }
  }

  lemma Expands(a: real, b: real, step: real)
    ensures (a - b) * step == a * step - b * step && (-b - a) * step == -(b * step) - a * step
  {
  }

  lemma Positive(a: real, b: real)
    requires a > 0.0 && b > 0.0
    ensures a * b > 0.0
  {
  }

  lemma RoundedProduct(exact: real, step: real, m: int)
    requires step > 0.0 && m == RoundHalfAway(exact / step)
    ensures Distance(m as real * step, exact) <= step / 2.0
  {
    var steps := exact / step;
    var off := m as real - steps;
    assert steps * step == exact && -0.5 <= off <= 0.5;
    Expands(m as real, steps, step);
    HalfStep(off, step);
    WithinHalf(m as real * step, exact, off * step, step / 2.0);
  }

  lemma WithinHalf(a: real, b: real, apart: real, half: real)
    requires apart == a - b && -half <= apart <= half
    ensures Distance(a, b) <= half
  {
  }

  lemma HalfStep(off: real, step: real)
    requires step > 0.0 && -0.5 <= off <= 0.5
    ensures -(step / 2.0) <= off * step <= step / 2.0
  {
    ScaleUp(step, off, 0.5);
    ScaleUp(step, -0.5, off);
    assert step * off == off * step;
    assert step * -0.5 == -(step / 2.0) && step * 0.5 == step / 2.0;
  }

  lemma DoubleIs(x: real, m: int, e: int)
    requires WrittenAs(x, m, e)
    ensures IsDouble(x)
  {
  }

  /** The powers used below. */
  lemma Powers()
    ensures Power(0) == 1.0 && Power(22) == 4_194_304.0 && Power(-30) == 1.0 / 1_073_741_824.0
    ensures Power(-36) == 1.0 / 68_719_476_736.0 && Power(-37) == 1.0 / 137_438_953_472.0
    ensures Power(17) == 131_072.0 && Power(-35) == 1.0 / 34_359_738_368.0
    ensures Power(23) == 8_388_608.0 && Power(-29) == 1.0 / 536_870_912.0
  {
    assert Power(0) == 1.0;
    SomeTwoTos();
    hide Power, TwoTo;
    PowerDivides(22, 0);
    PowerDivides(17, 0);
    PowerDivides(23, 0);
    PowerDivides(0, -30);
    PowerDivides(0, -36);
    PowerDivides(0, -37);
    PowerDivides(0, -35);
    PowerDivides(0, -29);
  }

  lemma SomeTwoTos()
    ensures TwoTo(17) == 131_072 && TwoTo(22) == 4_194_304 && TwoTo(23) == 8_388_608 && TwoTo(29) == 536_870_912
    ensures TwoTo(30) == 1_073_741_824 && TwoTo(35) == 34_359_738_368 && TwoTo(36) == 68_719_476_736 && TwoTo(37) == 137_438_953_472
  {
    assert TwoTo(1) == 2 && TwoTo(2) == 4 && TwoTo(5) == 32;
    hide TwoTo;
    TwoToAdds(5, 2);
    TwoToAdds(5, 5);
    TwoToAdds(10, 7);
    TwoToAdds(10, 10);
    TwoToAdds(17, 5);
    TwoToAdds(20, 10);
    TwoToAdds(22, 7);
    TwoToAdds(30, 5);
    TwoToAdds(30, 7);
    TwoToAdds(22, 1);
    TwoToAdds(30, 5);
    TwoToAdds(35, 1);
  }

  // ----- hundredths of a degree ------------------------------------------------------------

  /** Whole numbers are doubles. */
  lemma WholeIsDouble(c: int)
    requires -SIGNIFICAND <= c <= SIGNIFICAND
    ensures IsDouble(c as real)
  {
    DoubleIs(c as real, c, 0);
  }

  /** The product is off by no more than its exact value. */
  lemma ProductIsClose(c: int, degrees: real, scaled: real, noise: real)
    requires -SIGNIFICAND <= c <= SIGNIFICAND && Nearest(scaled, degrees * 100.0)
    requires Distance(degrees, c as real / 100.0) <= noise
    ensures Distance(scaled, c as real) <= 200.0 * noise
  {
    hide IsDouble;
    WholeIsDouble(c);
    assert Distance(scaled, degrees * 100.0) <= Distance(c as real, degrees * 100.0);
  }

  /** On the grid of its neighbours a scaled value off by less than two steps is
      off by one at most. */
  lemma OneStepOff(c: int, scaled: real)
    requires Distance(c as real, 0.0) > 4_194_304.0 && IsDouble(scaled)
    requires Distance(scaled, c as real) < 2.0 / 1_073_741_824.0
    ensures Distance(scaled, c as real) <= 1.0 / 1_073_741_824.0
  {
    hide Power, IsDouble;
    Powers();
    var j := OnGrid(scaled, 22);
    NearbyStep(c, j, scaled);
  }

  lemma NearbyStep(c: int, j: int, scaled: real)
    requires scaled == j as real * (1.0 / 1_073_741_824.0) && Distance(scaled, c as real) < 2.0 / 1_073_741_824.0
    ensures Distance(scaled, c as real) <= 1.0 / 1_073_741_824.0
  {
    var steps := j - c * 1_073_741_824;
    assert scaled - c as real == steps as real / 1_073_741_824.0;
    assert -2 < steps < 2;
  }

  /** Every hundredth of a degree up to 131072 degrees is accepted as itself,
      although both the handler's value and its product with 100 are rounded. */
  lemma HundredthsSurvive(c: int, degrees: real, scaled: real)
    requires -13_107_200 <= c <= 13_107_200
    requires Nearest(degrees, c as real / 100.0) && Nearest(scaled, degrees * 100.0)
    ensures Hundredths(scaled) == Some(TemperatureValue(c))
  {
    hide Power, Nearest, IsDouble;
    Powers();
    if -4_194_304 <= c <= 4_194_304 {
      HalfAStep(degrees, c as real / 100.0, -37);
      ProductIsClose(c, degrees, scaled, 0.5 / 137_438_953_472.0);
    } else {
      HalfAStep(degrees, c as real / 100.0, -36);
      ProductIsClose(c, degrees, scaled, 0.5 / 68_719_476_736.0);
      NearestIsDouble(scaled, degrees * 100.0);
      OneStepOff(c, scaled);
    }
    CloseIsItself(c, scaled);
  }

  lemma NearestIsDouble(x: real, exact: real)
    requires Nearest(x, exact)
    ensures IsDouble(x)
  {
  }

  lemma FloorIs(x: real, c: int)
    requires c as real <= x < c as real + 1.0
    ensures x.Floor == c
  {
  }

  lemma RoundsTo(c: int, x: real)
    requires Distance(x, c as real) <= 0.25
    ensures RoundHalfAway(x) == c
  {
    if x >= 0.0 { FloorIs(x + 0.5, c); } else { FloorIs(0.5 - x, -c); }
  }

  lemma CloseIsItself(c: int, scaled: real)
    requires I32_MIN <= c <= I32_MAX && Distance(scaled, c as real) <= 0.000000001
    ensures Hundredths(scaled) == Some(TemperatureValue(c))
  {
    hide RoundHalfAway;
    RoundsTo(c, scaled);
  }

  lemma StepsApart(i: int, j: int, step: real)
    requires step > 0.0 && i != j
    ensures Distance(i as real * step, j as real * step) >= step
  {
    var apart := i as real - j as real;
    ScaleUp(step, 1.0, if i > j then apart else -apart);
    assert step * apart == step * i as real - step * j as real;
    assert step * -apart == -(step * apart);
  }

  /** A double next to `exact` on the grid above `2^k` is the nearest one. */
  lemma NearestOnGrid(x: real, j: int, exact: real, k: int)
    requires WrittenAs(x, j, k - 52) && Power(k) + Power(k - 52) / 2.0 <= exact
    requires Distance(x, exact) <= Power(k - 52) / 2.0
    ensures Nearest(x, exact)
  {
    DoubleIs(x, j, k - 52);
    forall y | IsDouble(y) ensures Distance(x, exact) <= Distance(y, exact) {
      NoDoubleNearer(x, j, exact, k, y);
    }
  }

  lemma NoDoubleNearer(x: real, j: int, exact: real, k: int, y: real)
    requires WrittenAs(x, j, k - 52) && Power(k) + Power(k - 52) / 2.0 <= exact
    requires Distance(x, exact) <= Power(k - 52) / 2.0 && IsDouble(y)
    ensures Distance(x, exact) <= Distance(y, exact)
  {
    hide IsDouble, Power;
    if y > Power(k) {
      var i := OnGrid(y, k);
      GridNeighbours(x, j, y, i, exact, Power(k - 52));
    }
  }

  lemma GridNeighbours(x: real, j: int, y: real, i: int, exact: real, step: real)
    requires step > 0.0 && x == j as real * step && y == i as real * step && Distance(x, exact) <= step / 2.0
    ensures Distance(x, exact) <= Distance(y, exact)
  {
    if i != j {
      StepsApart(i, j, step);
      FartherThan(x, y, exact, step);
    }
  }

  lemma FartherThan(x: real, y: real, exact: real, step: real)
    requires Distance(y, x) >= step && Distance(x, exact) <= step / 2.0
    ensures Distance(x, exact) <= Distance(y, exact)
  {
  }

  /** Past that bound the noise of the product can exceed the tolerance:
      131072.02 degrees are refused, although 13107202 hundredths are in range. */
  lemma SomeHundredthIsRefused()
    ensures var degrees, scaled := 4_503_600_314_565_263.0 / 34_359_738_368.0, 7_036_875_491_508_223.0 / 536_870_912.0;
            && Nearest(degrees, 13_107_202.0 / 100.0) && Nearest(scaled, degrees * 100.0)
            && Hundredths(scaled).None? && I32_MIN <= 13_107_202 <= I32_MAX
  {
    hide Power;
    Powers();
    var degrees, scaled := 4_503_600_314_565_263.0 / 34_359_738_368.0, 7_036_875_491_508_223.0 / 536_870_912.0;
    assert degrees == 4_503_600_314_565_263 as real * Power(-35) && scaled == 7_036_875_491_508_223 as real * Power(-29);
    NearestOnGrid(degrees, 4_503_600_314_565_263, 13_107_202.0 / 100.0, 17);
    NearestOnGrid(scaled, 7_036_875_491_508_223, degrees * 100.0, 23);
  }
}
