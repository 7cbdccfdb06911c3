/**
 Both roundings of the chunk count are those of IEEE 754: of all doubles none is nearer than the one taken, and of two
 equally near the taken one has the even significand. A double is an integer of at most 53 bits times or over a power
 of two.
 */
module DoubleRounding {
  import opened Doubles
  import opened Slots

  function Distance(x: int, y: int): nat { if x < y then y - x else x - y }

  /** No multiple of `b` is nearer to `a`, and an equally near one leaves the even quotient. */
  lemma NearestIsNearest(a: nat, b: nat, y: nat)
    requires b > 0
    ensures Distance(Nearest(a, b) * b, a) <= Distance(y * b, a)
    ensures y != Nearest(a, b) && Distance(Nearest(a, b) * b, a) == Distance(y * b, a) ==> Nearest(a, b) % 2 == 0
  {
    var f, rem := a / b, a % b;
    assert a == f * b + rem;
    assert (f + 1) * b == f * b + b;
    if y < f {
      StrictlyMore(y, f, b);
    } else if y > f + 1 {
      StrictlyMore(f + 1, y, b);
    }
  }

  // ---- The size as a double ----------------------------------------------------------------------------

  /** The spacing of the doubles around a number of at least 2^53. */
  function Unit(total: nat): (u: nat)
    requires total >= TWO53
    ensures u > 0
  {
    Pow2(if Log2(total) > 52 then Log2(total) - 52 else 0)
  }

  lemma LargeLog(total: nat)
    requires total >= TWO53
    ensures Log2(total) >= 53
  {
    Pow2Of53();
    hide Log2, Pow2;
    if Log2(total) < 53 {
      Pow2Order(Log2(total), 53);
    }
  }

  /** A double at least as fine as the unit lies on the grid of the unit. */
  lemma OnTheGrid(x: nat, e: nat, u: nat)
    requires u <= e
    ensures x * Pow2(e) == (x * Pow2(e - u)) * Pow2(u)
  {
    Pow2Adds(e - u, u);
    hide Pow2;
    assert x * (Pow2(e - u) * Pow2(u)) == (x * Pow2(e - u)) * Pow2(u);
  }

  /** A finer double stays at or below the power of two below the number. */
  lemma FinerIsLower(x: nat, e: nat, l: nat)
    requires x <= TWO53 && e + 53 <= l
    ensures x * Pow2(e) <= Pow2(l)
  {
    Pow2Of53();
    Pow2Adds(53, e);
    LogMonotone(53 + e, l);
    hide Pow2;
    Monotone(x, TWO53, Pow2(e));
  }

  lemma TopOfUnit(l: nat)
    requires l >= 53
    ensures Pow2(52) * Pow2(l - 52) == Pow2(l)
  {
    Pow2Adds(52, l - 52);
  }

  lemma CastLarge(total: nat)
    requires total >= TWO53
    ensures Cast(total) == Nearest(total, Unit(total)) * Unit(total)
  {
    hide Log2, Pow2, Nearest;
    MulCommutes(Unit(total), Nearest(total, Unit(total)));
  }

  lemma UnitIs(total: nat)
    requires total >= TWO53
    ensures Log2(total) >= 53 && Unit(total) == Pow2(Log2(total) - 52) && Pow2(Log2(total)) <= total
  {
    LargeLog(total);
  }

  lemma LargeIsNearest(total: nat, x: nat, e: nat)
    requires total >= TWO53 && x <= TWO53
    ensures var unit, n := Unit(total), Nearest(total, Unit(total));
            && Distance(n * unit, total) <= Distance(x * Pow2(e), total)
            && (x * Pow2(e) != n * unit && Distance(n * unit, total) == Distance(x * Pow2(e), total) ==> n % 2 == 0)
  {
    hide Log2, Pow2, Unit, Nearest;
    UnitIs(total);
    var l := Log2(total);
    if e >= l - 52 {
      OnTheGrid(x, e, l - 52);
      NearestIsNearest(total, Unit(total), x * Pow2(e - (l - 52)));
    } else {
      FinerIsLower(x, e, l);
      TopOfUnit(l);
      NearestIsNearest(total, Unit(total), Pow2(52));
    }
  }

  /** The size is cast to the nearest double, and of two nearest ones to the one with the even significand. */
  lemma CastIsNearest(total: nat, x: nat, e: nat)
    requires x <= 0x20_0000_0000_0000
    ensures Distance(Cast(total), total) <= Distance(x * Pow2(e), total)
    ensures x * Pow2(e) != Cast(total) && Distance(Cast(total), total) == Distance(x * Pow2(e), total) ==>
              total >= 0x20_0000_0000_0000 && Cast(total) % (2 * Unit(total)) == 0
  {
    hide Log2, Pow2, Nearest, Cast, Unit;
    if total < TWO53 {
      CastSmall(total);
    } else {
      CastLarge(total);
      LargeIsNearest(total, x, e);
      if Nearest(total, Unit(total)) % 2 == 0 {
        EvenMultiple(Nearest(total, Unit(total)), Unit(total));
      }
    }
  }

  lemma EvenMultiple(n: nat, unit: nat)
    requires unit > 0 && n % 2 == 0
    ensures 2 * unit > 0 && (n * unit) % (2 * unit) == 0
  {
    var h := n / 2;
    assert n * unit == h * (2 * unit) by { assert 2 * h * unit == h * (2 * unit) by { Swap(2, h, unit); MulCommutes(h, 2 * unit); } }
    DivOf(n * unit, 2 * unit, h, 0);
  }

  lemma NearestAtMost(a: nat, b: nat, y: nat)
    requires b > 0 && a < y * b
    ensures Nearest(a, b) <= y
  {
    QuotientBelow(a, b, y);
  }

  /** What the size is cast to is a double. */
  lemma CastIsADouble(total: nat) returns (x: nat, e: nat)
    ensures x <= 0x20_0000_0000_0000 && Cast(total) == x * Pow2(e)
  {
    if total < TWO53 {
      x, e := total, 0;
    } else {
      var l := Log2(total);
      LargeLog(total);
      CastLarge(total);
      TopOfUnit(l + 1);
      Pow2Adds(53, l - 52);
      Pow2Of53();
      x, e := Nearest(total, Unit(total)), l - 52;
      NearestAtMost(total, Unit(total), TWO53);
    }
  }

  // ---- The quotient as a double ------------------------------------------------------------------------

  lemma DistanceScales(x: int, y: int, c: nat)
    ensures Distance(x * c, y * c) == Distance(x, y) * c
  {
    if x < y {
      assert (y - x) * c == y * c - x * c;
      Monotone(x, y, c);
    } else {
      assert (x - y) * c == x * c - y * c;
      Monotone(y, x, c);
    }
  }

  lemma Regroup(size: nat, fine: nat, p: nat)
    ensures size * (fine * p) == (size * p) * fine
  {
    MulCommutes(fine, p);
    Associate(size, p, fine);
  }

  lemma Associate(x: int, y: int, z: int)
    ensures x * (y * z) == (x * y) * z
  {
  }

  /** A double with at most as many binary places as the grid lies on it. */
  lemma CoarserQuotient(size: nat, chunk: nat, n: nat, x: nat, fine: nat, p: nat)
    requires Distance(n * chunk, size * (fine * p)) <= Distance((x * fine) * chunk, size * (fine * p))
    ensures Distance(n * chunk, size * (fine * p)) * p <= Distance(x * chunk, size * p) * (fine * p)
  {
    hide Distance;
    var near, far := Distance(n * chunk, size * (fine * p)), Distance(x * chunk, size * p);
    Swap(x, fine, chunk);
    Regroup(size, fine, p);
    DistanceScales(x * chunk, size * p, fine);
    assert near <= far * fine;
    Monotone(near, far * fine, p);
    Associate(far, fine, p);
  }

  /** A finer double lies at or below the power of two below the quotient, which is on the grid. */
  lemma FinerQuotient(size: nat, chunk: nat, n: nat, x: nat, top: nat, g: nat, p: nat)
    requires top * chunk <= size * g && x * g <= top * p
    requires Distance(n * chunk, size * g) <= Distance(top * chunk, size * g)
    ensures Distance(n * chunk, size * g) * p <= Distance(x * chunk, size * p) * g
  {
    var near := Distance(n * chunk, size * g);
    Monotone(near, size * g - top * chunk, p);
    Monotone(x * g, top * p, chunk);
    assert (size * g - top * chunk) * p == (size * g) * p - (top * chunk) * p;
    assert (top * chunk) * p == (top * p) * chunk by { Swap(top, chunk, p); }
    assert (size * g) * p == (size * p) * g by { Swap(size, g, p); }
    assert (x * g) * chunk == (x * chunk) * g by { Swap(x, g, chunk); }
    DistanceScales(x * chunk, size * p, g);
  }

  lemma GridIs(q: nat)
    requires 0 < q < TWO53
    ensures Log2(q) <= 52 && Grid(q) == Pow2(52 - Log2(q)) && Pow2(Log2(q)) <= q
  {
    Pow2Of53();
    hide Pow2;
    if Log2(q) >= 53 {
      LogMonotone(53, Log2(q));
    }
  }

  lemma ScaledUp(t: nat, chunk: nat, size: nat, g: nat)
    requires t * chunk <= size
    ensures (t * g) * chunk <= size * g
  {
    Monotone(t * chunk, size, g);
    Swap(t, chunk, g);
  }

  lemma BelowQuotient(t: nat, chunk: nat, size: nat)
    requires chunk > 0 && t <= size / chunk
    ensures t * chunk <= size
  {
    assert size == (size / chunk) * chunk + size % chunk;
    Monotone(t, size / chunk, chunk);
  }

  /** The power of two below the quotient, on the grid. */
  lemma TopOfGrid(size: nat, chunk: nat, l: nat)
    requires chunk > 0 && l <= 52 && Pow2(l) <= size / chunk
    ensures Pow2(52) * chunk <= size * Pow2(52 - l)
  {
    Pow2Adds(l, 52 - l);
    hide Pow2;
    BelowQuotient(Pow2(l), chunk, size);
    ScaledUp(Pow2(l), chunk, size, Pow2(52 - l));
  }

  lemma FinerPlaces(x: nat, l: nat, e: nat)
    requires x <= TWO53 && l <= 52 && e > 52 - l
    ensures x * Pow2(52 - l) <= Pow2(52) * Pow2(e)
  {
    Pow2Of53();
    Pow2Adds(53, 52 - l);
    Pow2Adds(52, e);
    LogMonotone(105 - l, 52 + e);
    hide Pow2;
    Monotone(x, TWO53, Pow2(52 - l));
  }

  /** No double is nearer to size / chunk than the quotient taken, n / g in steps of the grid; both sides are scaled to integers. */
  lemma QuotientIsNearest(size: nat, chunk: nat, x: nat, e: nat)
    requires 0 < chunk <= size && size / chunk < 0x20_0000_0000_0000 && x <= 0x20_0000_0000_0000
    ensures size / chunk > 0
    ensures var g := Grid(size / chunk);
            Distance(Nearest(size * g, chunk) * chunk, size * g) * Pow2(e) <= Distance(x * chunk, size * Pow2(e)) * g
  {
    hide Log2, Pow2, Grid, Nearest;
    QuotientPositive(size, chunk);
    var q := size / chunk;
    GridIs(q);
    var l, g := Log2(q), Grid(q);
    var n := Nearest(size * g, chunk);
    if e <= 52 - l {
      Pow2Adds(52 - l - e, e);
      var fine := Pow2(52 - l - e);
      NearestIsNearest(size * g, chunk, x * fine);
      CoarserQuotient(size, chunk, n, x, fine, Pow2(e));
    } else {
      TopOfGrid(size, chunk, l);
      FinerPlaces(x, l, e);
      NearestIsNearest(size * g, chunk, Pow2(52));
      FinerQuotient(size, chunk, n, x, Pow2(52), g, Pow2(e));
    }
  }
}
