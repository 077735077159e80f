/** Rounding a whole number to a binary floating-point significand, round to nearest with ties
    to even, as section 4.3.1 of IEEE 754-2008 defines it. The width is the number of
    significands below the leading power of two: 2^24 for single and 2^53 for double precision.
    Dividing by a power of two does not change a significand, so the same function describes
    the single-precision quotient of a byte count by one megabyte. */
module SinglePrecision {

  function Pow2(e: nat): (p: nat)
    ensures p >= 1
  {
    if e == 0 then 1 else 2 * Pow2(e - 1)
  }

  /** The exponent of the spacing of representable numbers around `m`: the least one at which
      the significand fits. */
  function GrainFrom(m: nat, width: nat, e: nat): (g: nat)
    requires width >= 2
    ensures g >= e && m < width * Pow2(g)
    ensures g > e ==> width * Pow2(g - 1) <= m
    decreases m - Pow2(e)
  {
    if m < width * Pow2(e) then e
    else
      assert Pow2(e + 1) == 2 * Pow2(e) <= width * Pow2(e) by { Times(2, width, Pow2(e)); }
      GrainFrom(m, width, e + 1)
  }

  function Grain(m: nat, width: nat): (g: nat)
    requires width >= 2
    ensures m < width * Pow2(g)
    ensures g > 0 ==> width * Pow2(g - 1) <= m
  {
    GrainFrom(m, width, 0)
  }

  /** The whole number of units in `m`. */
  function Units(m: nat, unit: nat): (q: nat)
    requires unit >= 1
    ensures q * unit <= m < q * unit + unit
  {
    if m < unit then 0
    else
      var q := 1 + Units(m - unit, unit);
      assert q * unit == Units(m - unit, unit) * unit + unit;
      q
  }

  /** `m` rounded to the nearest multiple of `unit`, to the even multiple when halfway. */
  function NearestMultiple(m: nat, unit: nat): nat
    requires unit >= 1
  {
    var low := Units(m, unit);
    var rest := m - low * unit;
    if 2 * rest < unit || (2 * rest == unit && low % 2 == 0) then low * unit else low * unit + unit
  }

  function RoundToWidth(m: nat, width: nat): nat
    requires width >= 2
  {
    NearestMultiple(m, Pow2(Grain(m, width)))
  }

  lemma Times(a: nat, b: nat, x: nat)
    requires a <= b
    ensures a * x <= b * x
  {
  }

  lemma {:induction false} Pow2Adds(a: nat, b: nat)
    ensures Pow2(a + b) == Pow2(a) * Pow2(b)
  {
    if a > 0 {
      Pow2Adds(a - 1, b);
      assert Pow2(a + b) == 2 * Pow2(a - 1 + b);
      assert 2 * (Pow2(a - 1) * Pow2(b)) == 2 * Pow2(a - 1) * Pow2(b);
    }
  }

  lemma {:induction false} Pow2Grows(a: nat, b: nat)
    requires a <= b
    ensures Pow2(a) <= Pow2(b)
  {
    if a < b {
      Pow2Grows(a, b - 1);
    }
  }

  /** The grain is the least exponent that fits, and grows with the number. */
  lemma GrainIsLeast(m: nat, width: nat, e: nat)
    requires width >= 2 && m < width * Pow2(e)
    ensures Grain(m, width) <= e
  {
    var g := Grain(m, width);
    if g > e {
      Pow2Grows(e, g - 1);
      Times(Pow2(e), Pow2(g - 1), width);
    }
  }

  lemma GrainMonotone(m: nat, n: nat, width: nat)
    requires width >= 2 && m <= n
    ensures Grain(m, width) <= Grain(n, width)
  {
    GrainIsLeast(m, width, Grain(n, width));
  }

  lemma UnitsAtLeast(m: nat, unit: nat, k: nat)
    requires unit >= 1 && k * unit <= m
    ensures Units(m, unit) >= k
  {
    var q := Units(m, unit);
    if q < k {
      Times(q + 1, k, unit);
    }
  }

  lemma UnitsAtMost(m: nat, unit: nat, k: nat)
    requires unit >= 1 && m < k * unit
    ensures Units(m, unit) < k
  {
    var q := Units(m, unit);
    if q >= k {
      Times(k, q, unit);
    }
  }

  /** Multiples of a power of two are multiples of every smaller one. */
  lemma CoarserMultiple(c: nat, e: nat, g: nat) returns (k: nat)
    requires g <= e
    ensures c * Pow2(e) == k * Pow2(g)
  {
    Pow2Adds(e - g, g);
    k := c * Pow2(e - g);
    Associate(c, Pow2(e - g), Pow2(g));
  }

  lemma Associate(a: nat, b: nat, c: nat)
    ensures a * (b * c) == (a * b) * c
  {
  }

  lemma ExactUnits(unit: nat, k: nat)
    requires unit >= 1
    ensures Units(k * unit, unit) == k
  {
    UnitsAtLeast(k * unit, unit, k);
    Times(k, k + 1, unit);
    assert (k + 1) * unit == k * unit + unit;
    UnitsAtMost(k * unit, unit, k + 1);
  }

  lemma HalfTwice(width: nat, half: nat)
    requires width % 2 == 0
    ensures (width / 2) * (2 * half) == width * half
  {
    var w := width / 2;
    assert width == 2 * w;
    Associate(w, 2, half);
  }

  /** Where the significand field is full, the lower neighbour of `m` is at least the power of
      two that starts this spacing. */
  lemma LowNeighbour(m: nat, width: nat)
    requires width >= 2 && width % 2 == 0 && Grain(m, width) > 0
    ensures var unit := Pow2(Grain(m, width));
            Units(m, unit) * unit >= width * Pow2(Grain(m, width) - 1)
  {
    var half := Pow2(Grain(m, width) - 1);
    HalfTwice(width, half);
    UnitsAtLeast(m, 2 * half, width / 2);
    Times(width / 2, Units(m, 2 * half), 2 * half);
  }

  lemma NearestBounds(m: nat, unit: nat)
    requires unit >= 1
    ensures var low := Units(m, unit) * unit;
            && low <= m < low + unit
            && NearestMultiple(m, unit) in {low, low + unit}
    ensures Distance(NearestMultiple(m, unit), m) <= m - Units(m, unit) * unit
    ensures Distance(NearestMultiple(m, unit), m) <= Units(m, unit) * unit + unit - m
  {
  }

  lemma NearestMonotone(m: nat, n: nat, unit: nat)
    requires unit >= 1 && m <= n
    ensures NearestMultiple(m, unit) <= NearestMultiple(n, unit)
  {
    UnitsAtLeast(n, unit, Units(m, unit));
    if Units(m, unit) < Units(n, unit) {
      Times(Units(m, unit) + 1, Units(n, unit), unit);
      NearestBounds(m, unit);
      NearestBounds(n, unit);
    }
  }

  lemma OneMoreUnit(q: nat, width: nat, unit: nat)
    requires q < width
    ensures q * unit + unit <= width * unit
  {
    Times(q + 1, width, unit);
  }

  /** A number rounds to at most the power of two that ends its spacing. */
  lemma RoundAtMost(m: nat, width: nat)
    requires width >= 2
    ensures RoundToWidth(m, width) <= width * Pow2(Grain(m, width))
  {
    var unit := Pow2(Grain(m, width));
    UnitsAtMost(m, unit, width);
    NearestAtMost(m, unit, width);
  }

  lemma NearestAtMost(m: nat, unit: nat, width: nat)
    requires unit >= 1 && Units(m, unit) < width
    ensures NearestMultiple(m, unit) <= width * unit
  {
    NearestBounds(m, unit);
    OneMoreUnit(Units(m, unit), width, unit);
  }

  /** ... and to at least the one that starts it. */
  lemma RoundAtLeast(m: nat, width: nat)
    requires width >= 2 && width % 2 == 0 && Grain(m, width) > 0
    ensures RoundToWidth(m, width) >= width * Pow2(Grain(m, width) - 1)
  {
    LowNeighbour(m, width);
    NearestBounds(m, Pow2(Grain(m, width)));
  }

  lemma ScaleGrows(width: nat, g: nat, h: nat)
    requires g <= h
    ensures width * Pow2(g) <= width * Pow2(h)
  {
    Pow2Grows(g, h);
    TimesRight(width, Pow2(g), Pow2(h));
  }

  lemma TimesRight(x: nat, a: nat, b: nat)
    requires a <= b
    ensures x * a <= x * b
  {
  }

  /** Rounding keeps the order. */
  lemma RoundMonotone(m: nat, n: nat, width: nat)
    requires width >= 2 && width % 2 == 0 && m <= n
    ensures RoundToWidth(m, width) <= RoundToWidth(n, width)
  {
    GrainMonotone(m, n, width);
    var g, h := Grain(m, width), Grain(n, width);
    if g == h {
      NearestMonotone(m, n, Pow2(g));
    } else {
      calc {
        RoundToWidth(m, width);
      <= { RoundAtMost(m, width); }
        width * Pow2(g);
      <= { ScaleGrows(width, g, h - 1); }
        width * Pow2(h - 1);
      <= { RoundAtLeast(n, width); }
        RoundToWidth(n, width);
      }
    }
  }

  lemma ExactMultiple(m: nat, width: nat, k: nat)
    requires width >= 2 && m == k * Pow2(Grain(m, width))
    ensures RoundToWidth(m, width) == m
  {
    ExactUnits(Pow2(Grain(m, width)), k);
  }

  lemma NextMultiple(c: nat, width: nat, x: nat)
    requires c < width && x >= 1
    ensures c * x < width * x
  {
  }

  lemma RoundFixesBelow(m: nat, c: nat, width: nat, e: nat)
    requires width >= 2 && c < width && m == c * Pow2(e)
    ensures RoundToWidth(m, width) == m
  {
    NextMultiple(c, width, Pow2(e));
    GrainIsLeast(m, width, e);
    var k := CoarserMultiple(c, e, Grain(m, width));
    ExactMultiple(m, width, k);
  }

  lemma FullScale(width: nat, half: nat, e: nat)
    requires width == 2 * half
    ensures width * Pow2(e) == half * Pow2(e + 1)
  {
    Associate(half, 2, Pow2(e));
  }

  /** Rounding leaves every representable number alone. */
  lemma RoundFixes(m: nat, c: nat, width: nat, half: nat, e: nat)
    requires half >= 1 && width == 2 * half && c <= width && m == c * Pow2(e)
    ensures RoundToWidth(m, width) == m
  {
    if c < width {
      RoundFixesBelow(m, c, width, e);
    } else {
      FullScale(width, half, e);
      RoundFixesBelow(m, half, width, e + 1);
    }
  }

  function Distance(a: int, b: int): nat {
    if a <= b then b - a else a - b
  }

  lemma NoMultipleBetween(a: nat, k: nat, unit: nat)
    ensures k * unit <= a * unit || k * unit >= a * unit + unit
  {
    if k <= a {
      Times(k, a, unit);
    } else {
      Times(a + 1, k, unit);
    }
  }

  lemma NearestBeatsMultiples(m: nat, unit: nat, k: nat)
    requires unit >= 1
    ensures Distance(NearestMultiple(m, unit), m) <= Distance(k * unit, m)
  {
    NearestBounds(m, unit);
    NoMultipleBetween(Units(m, unit), k, unit);
    var x, low := k * unit, Units(m, unit) * unit;
    assert x <= low || x >= low + unit;
  }

  /** Rounding is to nearest: no number with a significand of this width is closer. */
  lemma RoundIsNearest(m: nat, width: nat, c: nat, e: nat)
    requires width >= 2 && width % 2 == 0 && c <= width
    ensures Distance(RoundToWidth(m, width), m) <= Distance(c * Pow2(e), m)
  {
    var g := Grain(m, width);
    if e >= g {
      var k := CoarserMultiple(c, e, g);
      NearestBeatsMultiples(m, Pow2(g), k);
    } else {
      var low := Units(m, Pow2(g)) * Pow2(g);
      assert c * Pow2(e) <= low by {
        Times(c, width, Pow2(e));
        ScaleGrows(width, e, g - 1);
        LowNeighbour(m, width);
      }
      assert Distance(RoundToWidth(m, width), m) <= m - low by {
        NearestBounds(m, Pow2(g));
      }
      assert low <= m;
    }
  }
}
