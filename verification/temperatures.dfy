/** Which hundredths of a degree a handler can hand over in double precision. */
module Temperatures {
  import opened Values
  import opened LuaConversion
  import opened Doubles

  // ----- rounding to nearest, ties to even ----------------------------------------------------

  /** The 53-bit significand of `x` is odd. */
  ghost predicate OddSignificand(x: real) {
    exists m: int, e: int :: WrittenAs(x, m, e) && m % 2 != 0 && (m >= TwoTo(52) || -m >= TwoTo(52))
  }

  /** A nearest double and, of two equally near, the even one. */
  ghost predicate Rounds(x: real, exact: real) {
    Nearest(x, exact) && forall y :: IsDouble(y) && y != x && Distance(y, exact) == Distance(x, exact) ==> !OddSignificand(x)
  }

  // ----- the condition ------------------------------------------------------------------------

  /** The exponent of the binade that `n` hundredths fall into: degrees from
      `2^k` to below `2^(k + 1)`. */
  function Binade(n: nat): nat { if n < 200 then 0 else Binade(n / 2) + 1 }

  lemma {:induction false} InItsBinade(n: nat)
    requires n >= 100
    ensures 100 * TwoTo(Binade(n)) <= n < 200 * TwoTo(Binade(n))
  {
    if n >= 200 { InItsBinade(n / 2); }
  }

  lemma {:induction false} TwoToGrows(a: nat, b: nat)
    requires a <= b
    ensures TwoTo(a) <= TwoTo(b)
    decreases b
  {
    if a < b { TwoToGrows(a, b - 1); }
  }

  lemma BinadesInOrder(n: nat, a: nat, b: nat)
    requires 100 * TwoTo(a) <= n < 200 * TwoTo(b)
    ensures a <= b
  {
    if b < a { TwoToGrows(b + 1, a); }
  }

  lemma OneBinade(n: nat, k: nat)
    requires 100 * TwoTo(k) <= n < 200 * TwoTo(k)
    ensures Binade(n) == k
  {
    InItsBinade(n);
    BinadesInOrder(n, k, Binade(n));
    BinadesInOrder(n, Binade(n), k);
  }

  function Size(c: int): nat { if c >= 0 then c else -c }

  /** Up to 131072 degrees every hundredth survives. Above, those in the upper
      part of their binade do, and of the others those whose value in units of
      the last place of the degrees is close enough to a multiple of 100. */
  predicate Survives(c: int) {
    var n, k := Size(c), Binade(Size(c));
    n <= 13_107_200 || k > 52 || n >= 128 * TwoTo(k) || n * TwoTo(52 - k) % 100 <= 32 || n * TwoTo(52 - k) % 100 >= 68
  }

  // ----- points of a grid ---------------------------------------------------------------------

  /** `a` steps of `unit` from zero. */
  function Point(a: int, unit: real): real { a as real * unit }

  function Apart(a: int, b: int): nat { if a >= b then a - b else b - a }

  lemma PointDistance(a: int, b: int, unit: real)
    requires unit > 0.0
    ensures Distance(Point(a, unit), Point(b, unit)) == Point(Apart(a, b), unit)
  {
    Expands(a as real, b as real, unit);
    Expands(b as real, a as real, unit);
    PointOrder(a, b, unit);
  }

  lemma PointOrder(a: int, b: int, unit: real)
    requires unit > 0.0
    ensures Point(a, unit) <= Point(b, unit) <==> a <= b
  {
    CancelUnit(a as real, b as real, unit);
  }

  lemma CancelUnit(a: real, b: real, unit: real)
    requires unit > 0.0
    ensures a * unit <= b * unit <==> a <= b
  {
    Expands(a, b, unit);
    if a > b { Positive(a - b, unit); }
    if a <= b { ScaleUp(unit, a, b); }
  }

  /** Distances between points compare as their steps do. */
  lemma Nearer(a: int, b: int, c: int, unit: real)
    requires unit > 0.0
    ensures Distance(Point(a, unit), Point(c, unit)) <= Distance(Point(b, unit), Point(c, unit)) <==> Apart(a, c) <= Apart(b, c)
  {
    hide Point, Distance, Apart;
    PointDistance(a, c, unit);
    PointDistance(b, c, unit);
    PointOrder(Apart(a, c), Apart(b, c), unit);
  }

  lemma PointGrid(j: int, e: int, f: int)
    requires f <= e
    ensures j as real * Power(e) == Point(TwoTo(e - f) * j, Power(f))
  {
    hide Power, TwoTo;
    PowerDivides(e, f);
    Regroup(j, TwoTo(e - f), Power(f));
  }

  lemma PointIsDouble(m: int, e: int, f: int)
    requires f <= e && -SIGNIFICAND <= m <= SIGNIFICAND
    ensures IsDouble(Point(TwoTo(e - f) * m, Power(f)))
  {
    hide Power, TwoTo;
    PointGrid(m, e, f);
    DoubleIs(Point(TwoTo(e - f) * m, Power(f)), m, e);
  }

  /** Rounding never crosses a double. */
  lemma NotBelow(x: real, exact: real, b: real)
    requires Nearest(x, exact) && IsDouble(b) && b <= exact
    ensures b <= x
  {
  }

  /** Doubles from `2^e` on are points of its grid. */
  lemma PointFrom(x: real, e: int, f: int) returns (j: int)
    requires IsDouble(x) && x >= Power(e) && f <= e - 52
    ensures x == Point(TwoTo(e - 52 - f) * j, Power(f))
  {
    hide Power, TwoTo, IsDouble;
    if x == Power(e) {
      j := TwoTo(52);
      PowerDivides(e, e - 52);
    } else {
      j := OnGrid(x, e);
    }
    PointGrid(j, e - 52, f);
  }

  /** A nearest double to a point from `2^e` on is a point of the grid there. */
  lemma NearestPoint(x: real, a: int, e: int, f: int) returns (j: int)
    requires f <= e - 52 && Nearest(x, Point(a, Power(f))) && TwoTo(e - f) <= a
    ensures x == Point(TwoTo(e - 52 - f) * j, Power(f))
  {
    hide Power, TwoTo, IsDouble, Nearest, Point;
    PointIsDouble(1, e, f);
    PointGrid(1, e, f);
    PointOrder(TwoTo(e - f), a, Power(f));
    NotBelow(x, Point(a, Power(f)), Point(TwoTo(e - f) * 1, Power(f)));
    NearestIsDouble(x, Point(a, Power(f)));
    j := PointFrom(x, e, f);
  }

  /** `n` hundredths in units of the last place of the degrees. */
  function Units(n: nat, k: nat): nat
    requires k <= 52
  {
    n * TwoTo(52 - k)
  }

  /** `n` hundredths in steps of 64 units. */
  function Steps(n: nat, k: nat): nat
    requires k <= 46
  {
    n * TwoTo(46 - k)
  }

  /** The significand of the rounded degrees. */
  function DegreeUnits(n: nat, k: nat): nat
    requires k <= 52
  {
    (Units(n, k) + 50) / 100
  }

  /** The value falls into binade `k`. */
  ghost predicate Falls(n: nat, k: nat) { 17 <= k <= 24 && 100 * TwoTo(k) <= n < 200 * TwoTo(k) }

  /** Bounds of the units, and that they are multiples of what the grid of the
      product needs. */
  lemma UnitsWithin(n: nat, k: nat)
    requires Falls(n, k)
    ensures 100 * TwoTo(52) <= Units(n, k) < 200 * TwoTo(52)
    ensures TwoTo(52) * 2 == SIGNIFICAND && TwoTo(52) % 128 == 0
    ensures Units(n, k) == 64 * Steps(n, k) && Steps(n, k) % 2 == 0
    ensures n >= 128 * TwoTo(k) <==> Units(n, k) >= 128 * TwoTo(52)
    ensures n > 128 * TwoTo(k) ==> Units(n, k) >= 128 * TwoTo(52) + 128
    ensures n == 128 * TwoTo(k) ==> Units(n, k) == 128 * TwoTo(52)
  {
    hide TwoTo;
    TwoToAdds(k, 52 - k);
    Significand();
    HalfSignificand();
    var unit, high := TwoTo(52 - k), TwoTo(k);
    UnitsInSteps(n, k);
    InOrder(100 * high, n, unit);
    InOrder(n + 1, 200 * high, unit);
    InOrder(128 * high, n, unit);
    InOrder(n + 1, 128 * high, unit);
    InOrder(128 * high + 1, n, unit);
    ProductsOf(high, unit);
    assert (n + 1) * unit == n * unit + unit;
    TwoToAdds(45 - k, 7);
  }

  lemma UnitsInSteps(n: nat, k: nat)
    requires k <= 45
    ensures Units(n, k) == 64 * Steps(n, k) && Steps(n, k) % 2 == 0
  {
    hide TwoTo;
    HalfSignificand();
    TwoToAdds(46 - k, 6);
    Times(n, TwoTo(46 - k), 64);
    TwoToAdds(45 - k, 1);
    Times(n, TwoTo(45 - k), 2);
  }

  lemma HalfSignificand()
    ensures TwoTo(52) == 4_503_599_627_370_496 && TwoTo(7) == 128 && TwoTo(6) == 64 && TwoTo(1) == 2
  {
    Significand();
    assert TwoTo(53) == 2 * TwoTo(52);
  }

  lemma Times(a: nat, b: nat, c: nat)
    ensures a * (b * c) == c * (a * b)
  {
  }

  lemma InOrder(a: nat, b: nat, unit: nat)
    requires unit > 0
    ensures a <= b <==> a * unit <= b * unit
  {
    if a <= b { assert (b - a) * unit >= 0; } else { assert (a - b) * unit > 0; }
  }

  lemma ProductsOf(a: nat, b: nat)
    ensures (100 * a) * b == 100 * (a * b) && (200 * a) * b == 200 * (a * b) && (128 * a) * b == 128 * (a * b)
    ensures (128 * a + 1) * b == 128 * (a * b) + b
  {
  }

  // ----- the degrees --------------------------------------------------------------------------

  lemma WholePoint(n: nat, k: nat)
    requires k <= 52
    ensures n as real == Point(Units(n, k), Power(k - 52))
  {
    hide Power, TwoTo, Point;
    PointGrid(n, 0, k - 52);
    PowerOfNothing();
    assert TwoTo(52 - k) * n == Units(n, k);
  }

  lemma PowerOfNothing()
    ensures Power(0) == 1.0
  {
  }

  /** A point in steps a hundred times finer. */
  lemma FinerPoint(a: int, unit: real)
    ensures Point(a, unit) == Point(100 * a, unit / 100.0) && Point(a, unit) / 100.0 == Point(a, unit / 100.0)
    ensures Point(a, unit) * 100.0 == Point(100 * a, unit)
  {
    Hundredfold(a as real, unit);
  }

  lemma Hundredfold(a: real, b: real)
    ensures (100.0 * a) * (b / 100.0) == a * b && a * b / 100.0 == a * (b / 100.0) && a * b * 100.0 == (100.0 * a) * b
  {
  }

  /** The degrees are the nearest point of their grid; no tie can occur. */
  lemma DegreesRound(n: nat, k: nat, degrees: real)
    requires Falls(n, k) && Nearest(degrees, n as real / 100.0)
    ensures degrees == Point(DegreeUnits(n, k), Power(k - 52))
  {
    hide Power, TwoTo, IsDouble, Point, Units, Nearest, Distance, Apart, DegreeUnits;
    DegreeUnitsWithin(n, k);
    var m, unit, exact := DegreeUnits(n, k), Power(k - 52), n as real / 100.0;
    var i := DegreesOnGrid(n, k, degrees);
    TwoToNothing();
    PointIsDouble(m, k - 52, k - 52);
    WholePoint(n, k);
    FinerPoint(Units(n, k), unit);
    FinerPoint(i, unit);
    FinerPoint(m, unit);
    NoFarther(degrees, Point(m, unit), exact);
    Nearer(100 * i, 100 * m, Units(n, k), unit / 100.0);
    NearestDegrees(n, k, i);
  }

  lemma DegreeUnitsWithin(n: nat, k: nat)
    requires Falls(n, k)
    ensures DegreeUnits(n, k) <= SIGNIFICAND
  {
    hide TwoTo, Units, Steps;
    UnitsWithin(n, k);
  }

  lemma NearestDegrees(n: nat, k: nat, i: int)
    requires Falls(n, k) && Apart(100 * i, Units(n, k)) <= Apart(100 * DegreeUnits(n, k), Units(n, k))
    ensures i == DegreeUnits(n, k)
  {
    hide TwoTo, Units, Apart;
    UnitsInFours(n, k);
    NearestMultiple(Units(n, k), i);
  }

  lemma TwoToNothing()
    ensures TwoTo(0) == 1
  {
  }

  lemma NoFarther(x: real, y: real, exact: real)
    requires Nearest(x, exact) && IsDouble(y)
    ensures Distance(x, exact) <= Distance(y, exact)
  {
  }

  lemma DegreesOnGrid(n: nat, k: nat, degrees: real) returns (i: int)
    requires Falls(n, k) && Nearest(degrees, n as real / 100.0)
    ensures degrees == Point(i, Power(k - 52))
  {
    hide Power, TwoTo, IsDouble, Nearest, Point;
    WholePower(k);
    DoubleIs(Power(k), 1, k);
    NotBelow(degrees, n as real / 100.0, Power(k));
    NearestIsDouble(degrees, n as real / 100.0);
    i := PointFrom(degrees, k, k - 52);
    TwoToNothing();
  }

  lemma WholePower(k: nat)
    ensures Power(k) == TwoTo(k) as real
  {
    hide TwoTo, Power;
    PowerDivides(k, 0);
    PowerOfNothing();
  }

  /** A multiple of 4 is never halfway between two multiples of 100. */
  lemma NearestMultiple(units: nat, i: int)
    requires units % 4 == 0 && Apart(100 * i, units) <= Apart(100 * ((units + 50) / 100), units)
    ensures i == (units + 50) / 100
  {
    var m := (units + 50) / 100;
    assert -50 <= 100 * m - units <= 50;
    assert 100 * m - units != 50 && 100 * m - units != -50;
  }

  // ----- the product -------------------------------------------------------------------------------

  /** How far the product is from the hundredths, in units. */
  function Excess(units: nat): int { 100 * ((units + 50) / 100) - units }

  lemma ExcessIs(units: nat)
    requires units % 4 == 0
    ensures -48 <= Excess(units) <= 48 && (-32 <= Excess(units) <= 32 <==> units % 100 <= 32 || units % 100 >= 68)
  {
    var q := units % 100;
    assert units == 100 * (units / 100) + q;
    assert (units + 50) / 100 == units / 100 + if q >= 50 then 1 else 0;
  }

  /** At the start of its upper part the excess of a binade is 12. */
  lemma ExcessAtTheStart()
    ensures Excess(128 * TwoTo(52)) == 12
  {
    HalfSignificand();
  }

  /** The product is a grid point: in the upper part of its binade of steps of
      128 units, below of 64. */
  lemma ProductOnGrid(n: nat, k: nat, scaled: real) returns (i: int)
    requires Falls(n, k) && Nearest(scaled, Point(Units(n, k) + Excess(Units(n, k)), Power(k - 52)))
    ensures scaled == Point(64 * i, Power(k - 52)) && (n >= 128 * TwoTo(k) ==> i % 2 == 0)
  {
    hide Power, TwoTo, IsDouble, Nearest, Point, Units, Excess;
    HalfSignificand();
    ProductFrom(n, k);
    var product := Units(n, k) + Excess(Units(n, k));
    if n >= 128 * TwoTo(k) {
      var j := NearestPoint(scaled, product, k + 7, k - 52);
      i := 2 * j;
    } else {
      i := NearestPoint(scaled, product, k + 6, k - 52);
    }
  }

  /** Where the product lies, in units. */
  lemma ProductFrom(n: nat, k: nat)
    requires Falls(n, k)
    ensures TwoTo(58) <= Units(n, k) + Excess(Units(n, k))
    ensures n >= 128 * TwoTo(k) ==> TwoTo(59) <= Units(n, k) + Excess(Units(n, k))
  {
    UnitsInFours(n, k);
    hide TwoTo, Units, Steps, Excess, Falls;
    ExcessIs(Units(n, k));
    UnitsWithin(n, k);
    HalfSignificand();
    LargeTwoTos();
    if n == 128 * TwoTo(k) { ExcessAtTheStart(); }
  }

  lemma LargeTwoTos()
    ensures TwoTo(58) == 64 * TwoTo(52) && TwoTo(59) == 128 * TwoTo(52)
  {
    assert TwoTo(55) == 8 * TwoTo(52);
    assert TwoTo(58) == 8 * TwoTo(55);
  }

  /** Below the upper part of a binade the hundredths have an even significand on
      the grid of the product, and the grid points beside them odd ones. */
  lemma BesideIsDouble(n: nat, k: nat, off: int)
    requires Falls(n, k) && n < 128 * TwoTo(k) && -1 <= off <= 1
    ensures var x := Point(Units(n, k) + 64 * off, Power(k - 52)); IsDouble(x) && (off != 0 ==> OddSignificand(x))
  {
    hide Power, TwoTo, Units, Steps, Point, IsDouble, OddSignificand;
    UnitsWithin(n, k);
    HalfSignificand();
    var m := Steps(n, k) + off;
    assert Units(n, k) + 64 * off == TwoTo(6) * m;
    PointIsDouble(m, k - 46, k - 52);
    PointGrid(m, k - 46, k - 52);
    var x := Point(Units(n, k) + 64 * off, Power(k - 52));
    assert x == m as real * Power(k - 46);
    if off != 0 { OddPoint(x, m, k - 46); }
  }

  lemma OddPoint(x: real, m: int, e: int)
    requires x == m as real * Power(e) && m % 2 != 0 && TwoTo(52) <= m <= SIGNIFICAND
    ensures OddSignificand(x)
  {
    assert WrittenAs(x, m, e);
  }

  lemma StepsFromExcess(units: int, r: int, off: int)
    requires -48 <= r <= 48 && Apart(units + 64 * off, units + r) <= Apart(units, units + r)
    ensures -1 <= off <= 1 && (off != 0 ==> r <= -32 || r >= 32)
  {
  }

  /** Where the grid point beside is nearer, the product does not land on the
      hundredths. */
  lemma Beaten(n: nat, k: nat, scaled: real)
    requires Falls(n, k) && n < 128 * TwoTo(k) && scaled == Point(Units(n, k), Power(k - 52))
    requires Nearest(scaled, Point(Units(n, k) + Excess(Units(n, k)), Power(k - 52)))
    ensures -32 <= Excess(Units(n, k)) <= 32
  {
    hide Power, TwoTo, IsDouble, Nearest, Units, Distance, Point, Excess, OddSignificand;
    var units, unit, r := Units(n, k), Power(k - 52), Excess(Units(n, k));
    var off := if r > 0 then 1 else -1;
    BesideIsDouble(n, k, off);
    NoFarther(scaled, Point(units + 64 * off, unit), Point(units + r, unit));
    Nearer(units, units + 64 * off, units + r, unit);
  }

  /** Of two equally near grid points the product takes the hundredths. */
  lemma TieIsEven(n: nat, k: nat, scaled: real, off: int)
    requires Falls(n, k) && n < 128 * TwoTo(k) && off != 0 && -1 <= off <= 1
    requires scaled == Point(Units(n, k) + 64 * off, Power(k - 52)) && Rounds(scaled, Point(Units(n, k) + Excess(Units(n, k)), Power(k - 52)))
    ensures !(-32 <= Excess(Units(n, k)) <= 32)
  {
    hide Power, TwoTo, IsDouble, Nearest, Units, Distance, Point, Excess, OddSignificand;
    var units, unit, r := Units(n, k), Power(k - 52), Excess(Units(n, k));
    var whole, exact := Point(units, unit), Point(units + r, unit);
    BesideIsDouble(n, k, 0);
    BesideIsDouble(n, k, off);
    NoFarther(scaled, whole, exact);
    Nearer(units + 64 * off, units, units + r, unit);
    Nearer(units, units + 64 * off, units + r, unit);
    PointOrder(units, units + 64 * off, unit);
    PointOrder(units + 64 * off, units, unit);
  }

  lemma SmallEnough(n: nat, k: nat)
    requires Falls(n, k)
    ensures n <= SIGNIFICAND
  {
    TwoToGrows(k, 29);
    SomeTwoTos();
  }

  lemma UnitsInFours(n: nat, k: nat)
    requires Falls(n, k)
    ensures Units(n, k) % 4 == 0
  {
    hide Units, Steps, TwoTo;
    UnitsInSteps(n, k);
  }

  /** How many grid points of 64 units the product is off. */
  lemma ProductOff(n: nat, k: nat, scaled: real) returns (off: int)
    requires Falls(n, k) && Nearest(scaled, Point(Units(n, k) + Excess(Units(n, k)), Power(k - 52)))
    ensures scaled == Point(Units(n, k) + 64 * off, Power(k - 52)) && (n >= 128 * TwoTo(k) ==> off % 2 == 0)
  {
    hide Power, TwoTo, Nearest, Units, Steps, Point, Excess;
    UnitsInSteps(n, k);
    var i := ProductOnGrid(n, k, scaled);
    off := i - Steps(n, k);
    assert 64 * i == Units(n, k) + 64 * off;
  }

  /** The product lands on the hundredths again, or on the grid point beside
      them. */
  lemma ProductLands(n: nat, k: nat, scaled: real) returns (off: int)
    requires Falls(n, k) && Rounds(scaled, Point(Units(n, k) + Excess(Units(n, k)), Power(k - 52)))
    ensures -1 <= off <= 1 && scaled == Point(Units(n, k) + 64 * off, Power(k - 52))
    ensures off == 0 <==> n >= 128 * TwoTo(k) || -32 <= Excess(Units(n, k)) <= 32
  {
    hide Power, TwoTo, IsDouble, OddSignificand, Nearest, Units, Distance, Point, Excess, Apart;
    var units, unit, r := Units(n, k), Power(k - 52), Excess(Units(n, k));
    UnitsInFours(n, k);
    ExcessIs(units);
    off := ProductOff(n, k, scaled);
    WholePoint(n, k);
    SmallEnough(n, k);
    WholeIsDouble(n);
    NoFarther(scaled, Point(units, unit), Point(units + r, unit));
    Nearer(units + 64 * off, units, units + r, unit);
    StepsFromExcess(units, r, off);
    if n < 128 * TwoTo(k) {
      if off == 0 { Beaten(n, k, scaled); } else { TieIsEven(n, k, scaled, off); }
    }
  }

  // ----- which hundredths survive -------------------------------------------------------------------

  lemma BinadesUsed(n: nat)
    requires 13_107_200 < n <= 0x8000_0000
    ensures Falls(n, Binade(n))
  {
    InItsBinade(n);
    SomeTwoTos();
    TwoToAdds(22, 2);
    TwoToAdds(22, 3);
    assert TwoTo(2) == 4 && TwoTo(3) == 8;
    hide TwoTo;
    BinadesInOrder(n, 17, Binade(n));
    if Binade(n) > 24 { TwoToGrows(25, Binade(n)); }
  }

  /** A step beside is far outside the tolerance, and far within a half. */
  lemma StepSize(k: nat)
    requires 17 <= k <= 24
    ensures 1.0 / 536_870_912.0 <= Point(64, Power(k - 52)) <= 0.25
  {
    hide Power, TwoTo, Point;
    HalfSignificand();
    TwoToNothing();
    PointGrid(1, k - 46, k - 52);
    PowersInOrder(-29, k - 46);
    PowersInOrder(k - 46, -22);
    Powers();
    SomeTwoTos();
    PowerDivides(0, -22);
  }

  lemma {:induction false} PowersInOrder(a: int, b: int)
    requires a <= b
    ensures Power(a) <= Power(b)
    decreases b - a
  {
    if a < b {
      PowersInOrder(a, b - 1);
      PowerDoubles(b - 1);
    }
  }

  /** Above 131072 degrees the scaled value is the hundredths again exactly if
      they survive, and otherwise misses them by more than the tolerance. */
  lemma ScaledLands(n: nat, degrees: real, scaled: real)
    requires 13_107_200 < n <= 0x8000_0000 && Rounds(degrees, n as real / 100.0) && Rounds(scaled, degrees * 100.0)
    ensures Survives(n) ==> scaled == n as real
    ensures !Survives(n) ==> 1.0 / 536_870_912.0 <= Distance(scaled, n as real) <= 0.25
  {
    hide Power, TwoTo, Units, Point, Binade, Excess, Nearest, IsDouble, OddSignificand;
    var k := Binade(n);
    BinadesUsed(n);
    UnitsInFours(n, k);
    var units := Units(n, k);
    var unit := Power(k as int - 52);
    ExcessIs(units);
    DegreesRound(n, k, degrees);
    FinerPoint(DegreeUnits(n, k), unit);
    ExcessOfDegrees(n, k);
    var off := ProductLands(n, k, scaled);
    WholePoint(n, k);
    PointDistance(units + 64 * off, units, unit);
    StepSize(k);
    SurvivesInUnits(n, k);
  }

  lemma ExcessOfDegrees(n: nat, k: nat)
    requires k <= 52
    ensures 100 * DegreeUnits(n, k) == Units(n, k) + Excess(Units(n, k))
  {
    hide Units;
  }

  lemma SurvivesInUnits(n: nat, k: nat)
    requires k == Binade(n) <= 52 && n > 13_107_200
    ensures Survives(n) <==> n >= 128 * TwoTo(k) || Units(n, k) % 100 <= 32 || Units(n, k) % 100 >= 68
  {
    hide TwoTo, Binade;
  }

  // ----- negative temperatures -------------------------------------------------------------------------

  lemma MirroredDouble(x: real)
    requires IsDouble(x)
    ensures IsDouble(-x)
  {
    var m, e :| WrittenAs(x, m, e);
    Negated(m as real, Power(e));
    DoubleIs(-x, -m, e);
  }

  lemma MirroredOdd(x: real)
    requires OddSignificand(-x)
    ensures OddSignificand(x)
  {
    var m, e :| WrittenAs(-x, m, e) && m % 2 != 0 && (m >= TwoTo(52) || -m >= TwoTo(52));
    hide Power, TwoTo;
    Negated(m as real, Power(e));
    assert WrittenAs(x, -m, e);
  }

  /** Rounding is symmetric about zero. */
  lemma MirroredRounding(x: real, exact: real)
    requires Rounds(x, exact)
    ensures Rounds(-x, -exact)
  {
    hide IsDouble, OddSignificand;
    MirroredDouble(x);
    forall y | IsDouble(y)
      ensures Distance(-x, -exact) <= Distance(y, -exact)
      ensures y != -x && Distance(y, -exact) == Distance(-x, -exact) ==> !OddSignificand(-x)
    {
      MirroredDouble(y);
      assert Distance(-y, exact) == Distance(y, -exact) && Distance(x, exact) == Distance(-x, -exact);
      if OddSignificand(-x) { MirroredOdd(x); }
    }
  }

  /** For every temperature in range, and correctly rounded degrees and product:
      it is accepted as itself exactly if it survives, and refused otherwise. */
  lemma HundredthSurvivesExactly(c: int, degrees: real, scaled: real)
    requires I32_MIN <= c <= I32_MAX && Rounds(degrees, c as real / 100.0) && Rounds(scaled, degrees * 100.0)
    ensures Hundredths(scaled) == if Survives(c) then Some(TemperatureValue(c)) else None
  {
    hide Rounds, Survives, Hundredths;
    if Size(c) <= 13_107_200 {
      RoundsToNearest(degrees, c as real / 100.0);
      RoundsToNearest(scaled, degrees * 100.0);
      HundredthsSurvive(c, degrees, scaled);
      SmallSurvives(c);
    } else if c >= 0 {
      ScaledLands(c, degrees, scaled);
      Decided(c, scaled);
    } else {
      MirroredRounding(degrees, c as real / 100.0);
      MirroredRounding(scaled, degrees * 100.0);
      ScaledLands(-c, -degrees, -scaled);
      SizeDecides(c);
      Decided(c, scaled);
    }
  }

  lemma RoundsToNearest(x: real, exact: real)
    requires Rounds(x, exact)
    ensures Nearest(x, exact)
  {
  }

  lemma SmallSurvives(c: int)
    requires Size(c) <= 13_107_200
    ensures Survives(c)
  {
  }

  lemma SizeDecides(c: int)
    ensures Survives(-c) == Survives(c)
  {
  }

  lemma Decided(c: int, scaled: real)
    requires I32_MIN <= c <= I32_MAX
    requires if Survives(c) then scaled == c as real else 1.0 / 536_870_912.0 <= Distance(scaled, c as real) <= 0.25
    ensures Hundredths(scaled) == if Survives(c) then Some(TemperatureValue(c)) else None
  {
    hide RoundHalfAway, Survives;
    RoundsTo(c, scaled);
  }

  /** Every temperature of at most `n` hundredths survives exactly up to 131072.01
      degrees. */
  lemma AllSurviveExactlyUpTo(n: nat)
    ensures (forall c :: Size(c) <= n ==> Survives(c)) <==> n <= 13_107_201
  {
    hide Survives;
    FirstAboveTheBound();
    forall c | Size(c) <= 13_107_201
      ensures Survives(c)
    {
      SizeDecides(c);
      if Size(c) <= 13_107_200 { SmallSurvives(c); }
    }
  }

  lemma FirstAboveTheBound()
    ensures Survives(13_107_201) && !Survives(13_107_202)
  {
    SomeTwoTos();
    hide TwoTo;
    OneBinade(13_107_201, 17);
    OneBinade(13_107_202, 17);
    assert 13_107_201 * TwoTo(35) % 100 == 68;
    assert 13_107_202 * TwoTo(35) % 100 == 36;
  }
}
