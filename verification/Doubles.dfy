/**
 The chunk count as the server computes it, in double-precision arithmetic: the size is rounded to 53 significant bits,
 the quotient is rounded to 53 significant bits, both to nearest with ties to even, the ceiling is taken, and the cast
 to int saturates.
 */
module Doubles {
  import opened Slots

  const TWO53: nat := 0x20_0000_0000_0000
  const MAX_INT: nat := 0x7FFF_FFFF

  function Pow2(n: nat): (p: nat)
    ensures p > 0
  {
    if n == 0 then 1 else 2 * Pow2(n - 1)
  }

  /** The place of the highest bit. */
  function Log2(k: nat): (l: nat)
    requires k > 0
    ensures Pow2(l) <= k < 2 * Pow2(l)
  {
    if k == 1 then 0 else 1 + Log2(k / 2)
  }

  /** The integer nearest to a / b, the even one of two. */
  function Nearest(a: nat, b: nat): nat
    requires b > 0
  {
    var f, rem := a / b, a % b;
    if 2 * rem < b || (2 * rem == b && f % 2 == 0) then f else f + 1
  }

  /** A long as a double. */
  function Cast(total: nat): nat {
    if total < TWO53 then total
    else
      var unit := Pow2(if Log2(total) > 52 then Log2(total) - 52 else 0);
      Times(unit, Nearest(total, unit))
  }

  function Times(x: nat, y: nat): nat { x * y }

  /** How many steps of the double grid make one at a quotient of this integer part. */
  function Grid(q: nat): nat
    requires q > 0
  {
    Pow2(if Log2(q) < 52 then 52 - Log2(q) else 0)
  }

  /** Math.Ceiling((double)total / chunk); a quotient of at most one rounds to at most one, and above zero. */
  function ServerCount(total: nat, chunk: nat): nat
    requires chunk > 0
  {
    var size := Cast(total);
    if size <= chunk then 1
    else Rounded(size, chunk)
  }

  lemma QuotientPositive(size: nat, chunk: nat)
    requires 0 < chunk <= size
    ensures size / chunk > 0
  {
  }

  /** The count as the session stores it: a 32-bit integer, saturated. */
  function IntCount(total: nat, chunk: nat): (n: nat)
    requires chunk > 0
  {
    if ServerCount(total, chunk) > MAX_INT then MAX_INT else ServerCount(total, chunk)
  }

  /** Full chunks before the last byte of the rounded size, and the bytes after them. */
  function Whole(size: nat, chunk: nat): nat
    requires size > 0 && chunk > 0
  {
    (size - 1) / chunk
  }

  function Rest(size: nat, chunk: nat): int
    requires size > 0 && chunk > 0
  {
    size - Whole(size, chunk) * chunk
  }

  /** The rest is large enough to survive the rounding of the quotient. */
  predicate RestSurvives(size: nat, chunk: nat)
    requires size > 0 && chunk > 0
  {
    Whole(size, chunk) == 0 || 2 * Rest(size, chunk) * Grid(Whole(size, chunk)) > chunk
  }

  // ---- Arithmetic --------------------------------------------------------------------------------------

  lemma RestBounds(size: nat, chunk: nat)
    requires size > 0 && chunk > 0
    ensures 0 < Rest(size, chunk) <= chunk
    ensures Whole(size, chunk) == 0 <==> size <= chunk
  {
    var k := Whole(size, chunk);
    assert size - 1 == k * chunk + (size - 1) % chunk;
    assert size <= chunk ==> k == 0;
  }

  lemma {:induction false} LogMonotone(n: nat, m: nat)
    requires n <= m
    ensures Pow2(n) <= Pow2(m)
    decreases m
  {
    if n < m {
      LogMonotone(n, m - 1);
    }
  }

  lemma SmallLog(k: nat)
    requires 0 < k < 0x8000_0000
    ensures Log2(k) <= 30 && Grid(k) % 2 == 0
  {
    Pow2Of31();
    Pow2Order(30, Log2(k));
    assert Pow2(31) == 2 * Pow2(30);
    hide Log2;
    assert Log2(k) <= 30;
    assert Grid(k) == 2 * Pow2(51 - Log2(k));
  }

  lemma Pow2Of31()
    ensures Pow2(31) == 0x8000_0000
  {
    assert Pow2(8) == 256;
    assert Pow2(16) == 0x1_0000;
    assert Pow2(24) == 0x100_0000;
  }

  lemma WholeFits(size: nat, chunk: nat)
    requires chunk > 0 && 0 < size <= chunk * 0x8000_0000
    ensures Whole(size, chunk) < 0x8000_0000
  {
    var k := Whole(size, chunk);
    RestBounds(size, chunk);
    if k >= 0x8000_0000 {
      Monotone(0x8000_0000, k, chunk);
    }
  }

  lemma MulCommutes(x: int, y: int)
    ensures x * y == y * x
  {
  }

  lemma Spread(k: nat, chunk: nat, r: nat, g: nat)
    ensures (k * chunk + r) * g == (k * g) * chunk + r * g
  {
    assert (k * chunk + r) * g == k * chunk * g + r * g;
    assert k * chunk * g == (k * g) * chunk by { Swap(k, chunk, g); }
  }

  lemma Swap(x: int, y: int, z: int)
    ensures x * y * z == (x * z) * y
  {
    assert x * y * z == x * (y * z);
    assert x * (z * y) == (x * z) * y;
    MulCommutes(y, z);
  }

  lemma NearestIs(a: nat, b: nat, f: nat, rem: nat)
    requires b > 0 && a == f * b + rem && rem < b
    ensures Nearest(a, b) == if 2 * rem < b || (2 * rem == b && f % 2 == 0) then f else f + 1
  {
    DivOf(a, b, f, rem);
  }

  lemma NearestStep(base: nat, chunk: nat, p: nat)
    requires chunk > 0 && base % 2 == 0
    ensures var m := Nearest(base * chunk + p, chunk);
            base <= m <= base + p / chunk + 1 && (m == base <==> 2 * p <= chunk)
  {
    hide Nearest;
    var h, rem := p / chunk, p % chunk;
    assert p == h * chunk + rem;
    assert (base + h) * chunk == base * chunk + h * chunk;
    NearestIs(base * chunk + p, chunk, base + h, rem);
    if h > 0 {
      Monotone(1, h, chunk);
    }
  }

  lemma QuotientBelow(p: nat, chunk: nat, g: nat)
    requires chunk > 0 && p < g * chunk
    ensures p / chunk < g
  {
    assert p == (p / chunk) * chunk + p % chunk;
    if p / chunk >= g {
      Monotone(g, p / chunk, chunk);
    }
  }

  /** Scaled by an even grid, a quotient k + r / chunk rounds to the step of k exactly when r is too small. */
  lemma ScaledNearest(k: nat, chunk: nat, r: nat, g: nat)
    requires chunk > 0 && 0 < r < chunk && g > 0 && g % 2 == 0
    ensures var m := Nearest((k * chunk + r) * g, chunk);
            k * g <= m <= k * g + g && (m == k * g <==> 2 * r * g <= chunk)
  {
    hide Nearest;
    Spread(k, chunk, r, g);
    EvenProduct(k, g);
    NearestStep(k * g, chunk, r * g);
    StrictlyMore(r, chunk, g);
    MulCommutes(chunk, g);
    QuotientBelow(r * g, chunk, g);
    assert 2 * r * g == 2 * (r * g);
  }

  lemma StrictlyMore(x: nat, y: nat, c: nat)
    requires x < y && c > 0
    ensures x * c < y * c
  {
    assert (x + 1) * c == x * c + c;
    Monotone(x + 1, y, c);
  }

  lemma EvenProduct(k: nat, g: nat)
    requires g % 2 == 0
    ensures (k * g) % 2 == 0
  {
    assert g == 2 * (g / 2);
    assert k * g == 2 * (k * (g / 2)) by { Swap(k, 2, g / 2); MulCommutes(k, 2); }
  }

  lemma CeilingOf(m: nat, k: nat, g: nat)
    requires g > 0 && k * g <= m <= k * g + g
    ensures (m + g - 1) / g == if m == k * g then k else k + 1
  {
    if m == k * g {
      DivOf(m + g - 1, g, k, g - 1);
    } else {
      assert (k + 1) * g == k * g + g;
      DivOf(m + g - 1, g, k + 1, m - k * g - 1);
    }
  }

  /** A quotient without rest is not rounded. */
  lemma WholeNearest(q: nat, chunk: nat, g: nat)
    requires chunk > 0
    ensures Nearest((q * chunk) * g, chunk) == q * g
  {
    Swap(q, chunk, g);
    DivOf((q * chunk) * g, chunk, q * g, 0);
  }

  // ---- The count ---------------------------------------------------------------------------------------

  /** The count in integers: the chunks that the rounded size needs, or one less when the quotient's rounding eats the rest. */
  lemma ServerCountIs(total: nat, chunk: nat)
    requires total > 0 && chunk > 0 && Cast(total) <= chunk * 0x8000_0000
    ensures Cast(total) > 0
    ensures var size := Cast(total);
            ServerCount(total, chunk) == Whole(size, chunk) + if RestSurvives(size, chunk) then 1 else 0
  {
    CastIsPositive(total);
    hide Cast, Nearest, Log2, Pow2, Grid;
    var size := Cast(total);
    RestBounds(size, chunk);
    WholeFits(size, chunk);
    if Whole(size, chunk) > 0 {
      if Rest(size, chunk) < chunk {
        CountWithRest(size, chunk);
      } else {
        CountWithoutRest(size, chunk);
      }
    }
  }

  lemma CastIsPositive(total: nat)
    requires total > 0
    ensures Cast(total) > 0
  {
    if total >= TWO53 {
      var unit := Pow2(if Log2(total) > 52 then Log2(total) - 52 else 0);
      LogMonotone(if Log2(total) > 52 then Log2(total) - 52 else 0, Log2(total));
      QuotientPositive(total, unit);
      hide Pow2, Log2;
      assert Nearest(total, unit) > 0;
      Monotone(1, Nearest(total, unit), unit);
      MulCommutes(unit, Nearest(total, unit));
    }
  }

  /** Rounding never takes a quotient below its integer part. */
  lemma RoundedAtLeast(size: nat, chunk: nat)
    requires 0 < chunk <= size
    ensures Rounded(size, chunk) >= size / chunk
  {
    hide Nearest, Grid, Log2, Pow2;
    var q, r := size / chunk, size % chunk;
    QuotientPositive(size, chunk);
    GridPositive(q);
    var g := Grid(q);
    assert size == q * chunk + r;
    Spread(q, chunk, r, g);
    NearestAtLeast(q * g, chunk, r * g);
    DivAtLeast(Nearest(size * g, chunk) + g - 1, q, g);
  }

  lemma NearestAtLeast(base: nat, chunk: nat, p: nat)
    requires chunk > 0
    ensures Nearest(base * chunk + p, chunk) >= base
  {
    var h, rem := p / chunk, p % chunk;
    assert p == h * chunk + rem;
    assert (base + h) * chunk == base * chunk + h * chunk;
    NearestIs(base * chunk + p, chunk, base + h, rem);
  }

  /** Beyond 2^31 chunks the count saturates. */
  lemma ManyChunksSaturate(total: nat, chunk: nat)
    requires chunk > 0 && Cast(total) > chunk * 0x8000_0000
    ensures IntCount(total, chunk) == MAX_INT
  {
    hide Cast, Rounded;
    var size := Cast(total);
    Monotone(1, 0x8000_0000, chunk);
    DivAtLeast(size, 0x8000_0000, chunk);
    RoundedAtLeast(size, chunk);
  }

  /** The ceiling of the rounded quotient. */
  function Rounded(size: nat, chunk: nat): nat
    requires 0 < chunk <= size
  {
    QuotientPositive(size, chunk);
    var grid := Grid(size / chunk);
    (Nearest(size * grid, chunk) + grid - 1) / grid
  }

  lemma CountWithRest(size: nat, chunk: nat)
    requires 0 < chunk < size && 0 < Whole(size, chunk) < 0x8000_0000 && 0 < Rest(size, chunk) < chunk
    ensures Rounded(size, chunk) == Whole(size, chunk) + if RestSurvives(size, chunk) then 1 else 0
  {
    hide Nearest, Log2, Pow2, Grid;
    var k, r := Whole(size, chunk), Rest(size, chunk);
    SmallLog(k);
    GridPositive(k);
    DivOf(size, chunk, k, r);
    ScaledNearest(k, chunk, r, Grid(k));
    CeilingOf(Nearest(size * Grid(k), chunk), k, Grid(k));
  }

  lemma CountWithoutRest(size: nat, chunk: nat)
    requires 0 < chunk < size && 0 < Whole(size, chunk) < 0x8000_0000 && Rest(size, chunk) == chunk
    ensures Rounded(size, chunk) == Whole(size, chunk) + 1 && RestSurvives(size, chunk)
  {
    hide Nearest, Log2, Pow2, Grid;
    var k := Whole(size, chunk);
    assert (k + 1) * chunk == k * chunk + chunk;
    DivOf(size, chunk, k + 1, 0);
    var g := Grid(k + 1);
    GridPositive(k + 1);
    GridPositive(k);
    WholeNearest(k + 1, chunk, g);
    assert (k + 1) * g == k * g + g;
    CeilingOf((k + 1) * g, k, g);
    RestIsAChunk(chunk, Grid(k));
  }

  lemma GridPositive(k: nat)
    requires k > 0
    ensures Grid(k) > 0
  {
  }

  lemma RestIsAChunk(chunk: nat, g: nat)
    requires chunk > 0 && g > 0
    ensures 2 * chunk * g > chunk
  {
    Monotone(1, g, 2 * chunk);
    MulCommutes(g, 2 * chunk);
  }

  /** The count that the rounded size leads to, by integer arithmetic on that size alone. */
  function CountOfRounded(size: nat, chunk: nat): nat
    requires size > 0 && chunk > 0
  {
    var n := Whole(size, chunk) + if RestSurvives(size, chunk) then 1 else 0;
    if size > chunk * 0x8000_0000 || n > MAX_INT then MAX_INT else n
  }

  /** The stored count in integers, for every size and chunk size. */
  lemma IntCountIs(total: nat, chunk: nat)
    requires total > 0 && chunk > 0
    ensures Cast(total) > 0 && IntCount(total, chunk) == CountOfRounded(Cast(total), chunk)
  {
    hide Cast, ServerCount, Grid;
    CastIsPositive(total);
    if Cast(total) <= chunk * 0x8000_0000 {
      ServerCountIs(total, chunk);
    } else {
      ManyChunksSaturate(total, chunk);
    }
  }

  lemma IntCountIsPositive(total: nat, chunk: nat)
    requires total > 0 && chunk > 0
    ensures IntCount(total, chunk) > 0
  {
    hide Cast, IntCount;
    IntCountIs(total, chunk);
  }

  /** The stored count fits the size exactly when the size lies in the last of the chunks that the rounded size leads to. */
  lemma CountIsRightExactlyWhen(total: nat, chunk: nat)
    requires total > 0 && chunk > 0
    ensures Cast(total) > 0
    ensures var n := CountOfRounded(Cast(total), chunk);
            Geometry(total, chunk, IntCount(total, chunk)) <==> n > 0 && (n - 1) * chunk < total <= n * chunk
  {
    hide Cast, IntCount, CountOfRounded;
    IntCountIs(total, chunk);
  }

  /** Below 2^53 bytes neither rounding shows: the count is the exact ceiling, and fits exactly when it is an int. */
  lemma CountBelowTwo53(total: nat, chunk: nat)
    requires 0 < total < 0x20_0000_0000_0000 && chunk > 0
    ensures TotalChunks(total, chunk) > 0
    ensures IntCount(total, chunk) == if TotalChunks(total, chunk) > 0x7FFF_FFFF then 0x7FFF_FFFF else TotalChunks(total, chunk)
    ensures Geometry(total, chunk, IntCount(total, chunk)) <==> total <= 0x7FFF_FFFF * chunk
  {
    hide Grid, TotalChunks, Cast, IntCount;
    var k := Whole(total, chunk);
    assert Cast(total) == total by { CastSmall(total); }
    IntCountIs(total, chunk);
    RestBounds(total, chunk);
    assert (k + 1) * chunk == k * chunk + chunk;
    TotalChunksIsTheGeometry(total, chunk, k + 1);
    if total <= chunk * 0x8000_0000 {
      WholeFits(total, chunk);
      RestSurvivesBelowTwo53(total, chunk);
    } else {
      WholeIsLarge(total, chunk);
    }
    if k + 1 > MAX_INT {
      Monotone(MAX_INT, k, chunk);
    } else {
      Monotone(k + 1, MAX_INT, chunk);
    }
    TotalChunksIsTheGeometry(total, chunk, MAX_INT);
  }

  lemma CastSmall(total: nat)
    requires total < TWO53
    ensures Cast(total) == total
  {
  }

  lemma WholeIsLarge(total: nat, chunk: nat)
    requires chunk > 0 && total > chunk * 0x8000_0000
    ensures Whole(total, chunk) >= 0x8000_0000
  {
    MulCommutes(chunk, 0x8000_0000);
    DivAtLeast(total - 1, 0x8000_0000, chunk);
  }

  lemma RestSurvivesBelowTwo53(total: nat, chunk: nat)
    requires 0 < total < TWO53 && chunk > 0 && Whole(total, chunk) < 0x8000_0000
    ensures RestSurvives(total, chunk)
  {
    hide Grid;
    var k, r := Whole(total, chunk), Rest(total, chunk);
    RestBounds(total, chunk);
    if k > 0 {
      GridCoversChunk(k, chunk);
      Monotone(1, r, 2 * Grid(k));
      assert 2 * r * Grid(k) == r * (2 * Grid(k)) by { Swap(2, r, Grid(k)); MulCommutes(2 * Grid(k), r); }
    }
  }

  lemma {:induction false} Pow2Adds(a: nat, b: nat)
    ensures Pow2(a) * Pow2(b) == Pow2(a + b)
    decreases a
  {
    if a > 0 {
      Pow2Adds(a - 1, b);
      assert Pow2(a) * Pow2(b) == 2 * (Pow2(a - 1) * Pow2(b)) by { Swap(2, Pow2(a - 1), Pow2(b)); MulCommutes(2 * Pow2(b), Pow2(a - 1)); Swap(Pow2(a - 1), 2, Pow2(b)); }
    }
  }

  lemma Pow2Of53()
    ensures Pow2(53) == TWO53
  {
    Pow2Of31();
    assert Pow2(8) == 256;
    assert Pow2(16) == 0x1_0000;
    assert Pow2(22) == 0x40_0000;
    Pow2Adds(31, 22);
  }

  /** While the product is below 2^53, two steps of the grid at k are more than a chunk. */
  lemma GridCoversChunk(k: nat, chunk: nat)
    requires 0 < k < 0x8000_0000 && k * chunk < TWO53
    ensures 2 * Grid(k) > chunk
  {
    SmallLog(k);
    var l := Log2(k);
    Pow2Of53();
    Pow2Adds(l, 53 - l);
    assert Pow2(53 - l) == 2 * Grid(k);
    hide Pow2, Log2, Grid;
    if 2 * Grid(k) <= chunk {
      Monotone(Pow2(l), k, chunk);
      Monotone(2 * Grid(k), chunk, Pow2(l));
      MulCommutes(2 * Grid(k), Pow2(l));
      MulCommutes(chunk, Pow2(l));
    }
  }

  /** The smallest size that is cast wrong, in chunks of 2^23 bytes, is given one chunk too few. */
  lemma FirstMiscount()
    ensures IntCount(0x20_0000_0000_0001, 0x80_0000) == 0x4000_0000 && !Geometry(0x20_0000_0000_0001, 0x80_0000, 0x4000_0000)
  {
    var total, chunk := TWO53 + 1, 0x80_0000;
    Pow2Of53();
    LogIs(total, 53);
    assert Pow2(1) == 2;
    hide Pow2, Log2, Grid;
    assert Nearest(total, 2) == TWO53 / 2;
    assert Cast(total) == TWO53;
    ServerCountIs(total, chunk);
    assert Whole(TWO53, chunk) == 0x3FFF_FFFF && Rest(TWO53, chunk) == chunk;
    GridPositive(0x3FFF_FFFF);
    RestIsAChunk(chunk, Grid(0x3FFF_FFFF));
  }

  lemma LogIs(k: nat, l: nat)
    requires k > 0 && Pow2(l) <= k < 2 * Pow2(l)
    ensures Log2(k) == l
  {
    Pow2Order(Log2(k), l);
    Pow2Order(l, Log2(k));
  }

  lemma Pow2Order(n: nat, m: nat)
    ensures n < m ==> 2 * Pow2(n) <= Pow2(m)
  {
    if n < m {
      LogMonotone(n + 1, m);
    }
  }
}
