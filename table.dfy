/** The calibration-table engine of src/ecu/table.cpp: a linear bracket
    search over an axis, row-major addressing of 2-axis and 3-axis grids,
    and bilinear / trilinear interpolation between the grid cells that
    bracket a query.

    The lookups do not clamp: the caller must have checked that every query
    lies inside its axis (first breakpoint included, last excluded), which
    is the only way the bracket search terminates inside the array. */
module CalibrationTable {

  /* ---------------------------------------------------------------------
     Axes and the bracket search (findIndex)
     --------------------------------------------------------------------- */

  predicate StrictlyIncreasing(s: seq<real>)
  {
    forall i, j :: 0 <= i < j < |s| ==> s[i] < s[j]
  }

  /** The first index at or after `i` whose breakpoint lies above `x`. */
  function FirstAbove(s: seq<real>, x: real, i: nat): (k: nat)
    requires i < |s| && x < s[|s| - 1]
    ensures i <= k < |s| && x < s[k]
    ensures forall j :: i <= j < k ==> s[j] <= x
    decreases |s| - i
  {
    if x < s[i] then i else FirstAbove(s, x, i + 1)
  }

  /** What findIndex returns: one less than the first breakpoint above `x`,
      so -1 when `x` lies below the whole axis.  The breakpoints at and below
      the result all lie at or below `x`, so the result brackets `x` even on
      an axis that is not sorted. */
  function BracketIndex(s: seq<real>, x: real): (r: int)
    requires |s| >= 1 && x < s[|s| - 1]
    ensures -1 <= r < |s| - 1 && x < s[r + 1]
    ensures forall j :: 0 <= j <= r ==> s[j] <= x
    ensures r == -1 <==> x < s[0]
  {
    FirstAbove(s, x, 0) - 1
  }

  /** The bracket is the only index with both properties of BracketIndex. */
  lemma BracketUnique(s: seq<real>, x: real, r: int)
    requires |s| >= 1 && x < s[|s| - 1]
    requires -1 <= r < |s| - 1 && x < s[r + 1]
    requires forall j :: 0 <= j <= r ==> s[j] <= x
    ensures r == BracketIndex(s, x)
  {
    var b := BracketIndex(s, x);
    assert x < s[r + 1] && x < s[b + 1];
  }

  /** On a strictly increasing axis a query exactly at an inner breakpoint
      is bracketed by that breakpoint. */
  lemma BracketAtBreakpoint(s: seq<real>, i: nat)
    requires StrictlyIncreasing(s) && i < |s| - 1
    ensures BracketIndex(s, s[i]) == i
  {
    var r := BracketIndex(s, s[i]);
    assert s[r + 1] > s[i];
    if r >= 0 {
      assert s[r] <= s[i];
    }
  }

  /** findIndex: scan up the axis until the first breakpoint above `x`.  The
      scan stops inside the array only because the last breakpoint lies
      above `x`. */
  method FindIndex(vals: array<real>, x: real) returns (r: int)
    requires vals.Length >= 1 && x < vals[vals.Length - 1]
    ensures -1 <= r < vals.Length - 1 && x < vals[r + 1]
    ensures forall k :: 0 <= k <= r ==> vals[k] <= x
    ensures r == BracketIndex(vals[..], x)
  {
    var i := 0;
    while x >= vals[i]
      invariant 0 <= i < vals.Length
      invariant forall k :: 0 <= k < i ==> vals[k] <= x
      decreases vals.Length - i
    {
      i := i + 1;
    }
    r := i - 1;
    BracketUnique(vals[..], x, r);
  }

  /* ---------------------------------------------------------------------
     Weighted sums: both lookups are a weighted sum of grid corners
     --------------------------------------------------------------------- */

  function Sum(ws: seq<real>): real
  {
    if ws == [] then 0.0 else ws[0] + Sum(ws[1..])
  }

  function Dot(cs: seq<real>, ws: seq<real>): real
    requires |cs| == |ws|
  {
    if cs == [] then 0.0 else cs[0] * ws[0] + Dot(cs[1..], ws[1..])
  }

  function MinOf(s: seq<real>): (m: real)
    requires |s| > 0
    ensures forall i :: 0 <= i < |s| ==> m <= s[i]
    ensures exists i :: 0 <= i < |s| && m == s[i]
  {
    if |s| == 1 then s[0]
    else
      var rest := MinOf(s[1..]);
      assert forall i :: 1 <= i < |s| ==> s[1..][i - 1] == s[i];
      if s[0] <= rest then s[0] else rest
  }

  function MaxOf(s: seq<real>): (m: real)
    requires |s| > 0
    ensures forall i :: 0 <= i < |s| ==> s[i] <= m
    ensures exists i :: 0 <= i < |s| && m == s[i]
  {
    if |s| == 1 then s[0]
    else
      var rest := MaxOf(s[1..]);
      assert forall i :: 1 <= i < |s| ==> s[1..][i - 1] == s[i];
      if rest <= s[0] then s[0] else rest
  }

  lemma MulPos(a: real, b: real)
    requires 0.0 < a && 0.0 < b
    ensures 0.0 < a * b
  {
  }

  lemma MulLe(a: real, b: real, w: real)
    requires a <= b && 0.0 <= w
    ensures a * w <= b * w
  {
  }

  lemma ScaleZero(k: real, t: real)
    requires t == 0.0
    ensures k * t == 0.0
  {
  }

  lemma Distribute(k: real, a: real, b: real)
    ensures k * (a + b) == k * a + k * b
  {
  }

  /** k times every weight, added up. */
  function Scaled(k: real, ws: seq<real>): real
  {
    if ws == [] then 0.0 else k * ws[0] + Scaled(k, ws[1..])
  }

  lemma {:induction false} ScaledIsProduct(k: real, ws: seq<real>)
    ensures Scaled(k, ws) == k * Sum(ws)
  {
    if ws == [] {
      ScaleZero(k, Sum(ws));
    } else {
      ScaledIsProduct(k, ws[1..]);
      Distribute(k, ws[0], Sum(ws[1..]));
    }
  }

  /** A weighted sum with non-negative weights of values in [lo, hi] lies
      between lo and hi times the total weight. */
  lemma {:induction false} DotBounds(cs: seq<real>, ws: seq<real>, lo: real, hi: real)
    requires |cs| == |ws|
    requires forall i :: 0 <= i < |ws| ==> 0.0 <= ws[i] && lo <= cs[i] <= hi
    ensures lo * Sum(ws) <= Dot(cs, ws) <= hi * Sum(ws)
  {
    ScaledIsProduct(lo, ws);
    ScaledIsProduct(hi, ws);
    ScaledBounds(cs, ws, lo, hi);
  }

  lemma {:induction false} ScaledBounds(cs: seq<real>, ws: seq<real>, lo: real, hi: real)
    requires |cs| == |ws|
    requires forall i :: 0 <= i < |ws| ==> 0.0 <= ws[i] && lo <= cs[i] <= hi
    ensures Scaled(lo, ws) <= Dot(cs, ws) <= Scaled(hi, ws)
  {
    if cs != [] {
      var cs', ws' := cs[1..], ws[1..];
      assert Scaled(lo, ws') <= Dot(cs', ws') <= Scaled(hi, ws') by {
        assert forall i :: 0 <= i < |ws'| ==> ws'[i] == ws[i + 1] && cs'[i] == cs[i + 1];
        ScaledBounds(cs', ws', lo, hi);
      }
      TermBetween(cs[0], ws[0], lo, hi, Scaled(lo, ws'), Dot(cs', ws'), Scaled(hi, ws'));
      assert Dot(cs, ws) == cs[0] * ws[0] + Dot(cs', ws');
      assert Scaled(lo, ws) == lo * ws[0] + Scaled(lo, ws');
      assert Scaled(hi, ws) == hi * ws[0] + Scaled(hi, ws');
    }
  }

  /** The step of ScaledBounds: one more non-negative weight keeps the
      bounds. */
  lemma TermBetween(c: real, w: real, lo: real, hi: real, restLo: real, rest: real, restHi: real)
    requires 0.0 <= w && lo <= c <= hi && restLo <= rest <= restHi
    ensures lo * w + restLo <= c * w + rest <= hi * w + restHi
  {
    MulLe(lo, c, w);
    MulLe(c, hi, w);
  }

  /** Concatenation splits both sums. */
  lemma {:induction false} DotAppend(a: seq<real>, b: seq<real>, u: seq<real>, v: seq<real>)
    requires |a| == |u| && |b| == |v|
    ensures Dot(a + b, u + v) == Dot(a, u) + Dot(b, v)
    ensures Sum(u + v) == Sum(u) + Sum(v)
  {
    if a == [] {
      assert a + b == b && u + v == v;
    } else {
      assert (a + b)[1..] == a[1..] + b && (u + v)[1..] == u[1..] + v;
      DotAppend(a[1..], b, u[1..], v);
    }
  }

  lemma Dot4(c0: real, c1: real, c2: real, c3: real, w0: real, w1: real, w2: real, w3: real)
    ensures Dot([c0, c1, c2, c3], [w0, w1, w2, w3]) == c0 * w0 + c1 * w1 + c2 * w2 + c3 * w3
    ensures Sum([w0, w1, w2, w3]) == w0 + w1 + w2 + w3
  {
    assert [c0, c1, c2, c3][1..] == [c1, c2, c3];
    assert [w0, w1, w2, w3][1..] == [w1, w2, w3];
    assert [c1, c2, c3][1..] == [c2, c3];
    assert [w1, w2, w3][1..] == [w2, w3];
    assert [c2, c3][1..] == [c3];
    assert [w2, w3][1..] == [w3];
    assert [c3][1..] == [] && [w3][1..] == [];
    assert Dot([c3], [w3]) == c3 * w3;
    assert Dot([c2, c3], [w2, w3]) == c2 * w2 + c3 * w3;
    assert Dot([c1, c2, c3], [w1, w2, w3]) == c1 * w1 + c2 * w2 + c3 * w3;
    assert Sum([w3]) == w3;
    assert Sum([w2, w3]) == w2 + w3;
    assert Sum([w1, w2, w3]) == w1 + w2 + w3;
  }

  /** A weighted sum over a positive total weight, divided by that total,
      is a convex combination: it lies between the least and the largest
      value, and is that value when all values agree. */
  lemma NormalizedDotBounds(cs: seq<real>, ws: seq<real>, total: real, lo: real, hi: real)
    requires |cs| == |ws|
    requires forall i :: 0 <= i < |ws| ==> 0.0 <= ws[i] && lo <= cs[i] <= hi
    requires Sum(ws) == total && total > 0.0
    ensures lo <= Normalized(cs, ws, total) <= hi
  {
    DotBounds(cs, ws, lo, hi);
    ScaleBounds(lo, hi, Dot(cs, ws), total);
  }

  /** The weighted sum divided by the total weight, as both lookups write it. */
  function Normalized(cs: seq<real>, ws: seq<real>, total: real): real
    requires |cs| == |ws| && total != 0.0
  {
    1.0 / total * Dot(cs, ws)
  }

  /** Dividing lo*t <= d <= hi*t by a positive t. */
  lemma ScaleBounds(lo: real, hi: real, d: real, t: real)
    requires t > 0.0 && lo * t <= d <= hi * t
    ensures lo <= (1.0 / t) * d <= hi
  {
    var inv := 1.0 / t;
    assert inv > 0.0;
    assert inv * t == 1.0;
    MulLe(lo * t, d, inv);
    MulLe(d, hi * t, inv);
    assert (lo * t) * inv == lo * (t * inv);
    assert (hi * t) * inv == hi * (t * inv);
  }

  /* ---------------------------------------------------------------------
     Row-major addressing
     --------------------------------------------------------------------- */

  /** Offset of cell (x, y) in a grid whose rows are `width` cells wide. */
  function Offset2D(width: int, x: int, y: int): int
  {
    y * width + x
  }

  /** Offset of cell (x, y, z): `z` selects a plane of width * length cells. */
  function Offset3D(width: int, length: int, x: int, y: int, z: int): int
  {
    z * (length * width) + y * width + x
  }

  lemma MulLeInt(a: int, b: int, c: int)
    requires a <= b && 0 <= c
    ensures a * c <= b * c
  {
  }

  /** A cell inside a width-by-height grid has an offset inside the grid. */
  lemma Offset2DInRange(width: int, height: int, x: int, y: int)
    requires 0 <= x < width && 0 <= y < height
    ensures 0 <= Offset2D(width, x, y) < width * height
  {
    MulLeInt(0, y, width);
    MulLeInt(y + 1, height, width);
  }

  /** Two cells whose column lies inside the row width share an offset
      only when they are the same cell. */
  lemma Offset2DInjective(width: int, x: int, y: int, x': int, y': int)
    requires 0 <= x < width && 0 <= x' < width
    ensures Offset2D(width, x, y) == Offset2D(width, x', y') <==> x == x' && y == y'
  {
    if y < y' {
      MulLeInt(y + 1, y', width);
    } else if y' < y {
      MulLeInt(y' + 1, y, width);
    }
  }

  /** The 3-axis offset is a 2-axis offset whose rows are whole planes. */
  lemma Offset3DNested(width: int, length: int, x: int, y: int, z: int)
    ensures Offset3D(width, length, x, y, z) == Offset2D(length * width, Offset2D(width, x, y), z)
  {
  }

  lemma Offset3DInRange(width: int, length: int, depth: int, x: int, y: int, z: int)
    requires 0 <= x < width && 0 <= y < length && 0 <= z < depth
    ensures 0 <= Offset3D(width, length, x, y, z) < width * length * depth
  {
    Offset2DInRange(width, length, x, y);
    Offset2DInRange(length * width, depth, Offset2D(width, x, y), z);
    Offset3DNested(width, length, x, y, z);
  }

  lemma Offset3DInjective(width: int, length: int, x: int, y: int, z: int, x': int, y': int, z': int)
    requires 0 <= x < width && 0 <= x' < width && 0 <= y < length && 0 <= y' < length
    ensures Offset3D(width, length, x, y, z) == Offset3D(width, length, x', y', z')
            <==> x == x' && y == y' && z == z'
  {
    Offset2DInRange(width, length, x, y);
    Offset2DInRange(width, length, x', y');
    Offset3DNested(width, length, x, y, z);
    Offset3DNested(width, length, x', y', z');
    Offset2DInjective(length * width, Offset2D(width, x, y), z, Offset2D(width, x', y'), z');
    Offset2DInjective(width, x, y, x', y');
  }

  /** Writing one cell of a row-major grid leaves every other cell as it was. */
  lemma {:induction false} Update2DOthers(d: seq<real>, width: int, x: int, y: int, i: int, j: int, v: real)
    requires 0 <= x < width && 0 <= i < width && (i != x || j != y)
    requires 0 <= Offset2D(width, x, y) < |d| && 0 <= Offset2D(width, i, j) < |d|
    ensures d[Offset2D(width, x, y) := v][Offset2D(width, i, j)] == d[Offset2D(width, i, j)]
  {
    Offset2DInjective(width, x, y, i, j);
  }

  lemma {:induction false} Update3DOthers(d: seq<real>, width: int, length: int, x: int, y: int, z: int,
                                          i: int, j: int, k: int, v: real)
    requires 0 <= x < width && 0 <= i < width && 0 <= y < length && 0 <= j < length
    requires i != x || j != y || k != z
    requires 0 <= Offset3D(width, length, x, y, z) < |d| && 0 <= Offset3D(width, length, i, j, k) < |d|
    ensures d[Offset3D(width, length, x, y, z) := v][Offset3D(width, length, i, j, k)]
            == d[Offset3D(width, length, i, j, k)]
  {
    Offset3DInjective(width, length, x, y, z, i, j, k);
  }

  /* ---------------------------------------------------------------------
     2-axis tables
     --------------------------------------------------------------------- */

  /** The precondition of table2DLookup: a grid of |xs| * |ys| cells whose
      rows are |xs| wide, and a query inside both axes. */
  predicate Query2D(xs: seq<real>, ys: seq<real>, d: seq<real>, width: int, x: real, y: real)
  {
    && |xs| >= 2 && xs[0] <= x < xs[|xs| - 1]
    && |ys| >= 2 && ys[0] <= y < ys[|ys| - 1]
    && width == |xs| && |d| == |xs| * |ys|
  }

  function Cell2D(d: seq<real>, width: int, x: int, y: int): real
    requires 0 <= Offset2D(width, x, y) < |d|
  {
    d[Offset2D(width, x, y)]
  }

  /** The four cells around the bracket of (x, y), in the order of the
      terms of the source's interpolation. */
  function Corners2D(xs: seq<real>, ys: seq<real>, d: seq<real>, width: int, x: real, y: real): (cs: seq<real>)
    requires Query2D(xs, ys, d, width, x, y)
    ensures |cs| == 4
  {
    var i, j := BracketIndex(xs, x), BracketIndex(ys, y);
    Offset2DInRange(width, |ys|, i, j);
    Offset2DInRange(width, |ys|, i + 1, j);
    Offset2DInRange(width, |ys|, i, j + 1);
    Offset2DInRange(width, |ys|, i + 1, j + 1);
    [Cell2D(d, width, i, j), Cell2D(d, width, i + 1, j),
     Cell2D(d, width, i, j + 1), Cell2D(d, width, i + 1, j + 1)]
  }

  /** The weight of each corner: the area of the opposite sub-rectangle. */
  function Weights2D(x1: real, x2: real, y1: real, y2: real, x: real, y: real): (ws: seq<real>)
    ensures |ws| == 4
  {
    [(x2 - x) * (y2 - y), (x - x1) * (y2 - y), (x2 - x) * (y - y1), (x - x1) * (y - y1)]
  }

  /** The area of the cell between two breakpoint pairs. */
  function Area(x1: real, x2: real, y1: real, y2: real): (a: real)
    requires x1 < x2 && y1 < y2
    ensures a > 0.0
  {
    MulPos(x2 - x1, y2 - y1);
    (x2 - x1) * (y2 - y1)
  }

  /** table2DLookup's value. */
  function Bilinear(xs: seq<real>, ys: seq<real>, d: seq<real>, width: int, x: real, y: real): real
    requires Query2D(xs, ys, d, width, x, y)
  {
    var i, j := BracketIndex(xs, x), BracketIndex(ys, y);
    var x1, x2, y1, y2 := xs[i], xs[i + 1], ys[j], ys[j + 1];
    Normalized(Corners2D(xs, ys, d, width, x, y), Weights2D(x1, x2, y1, y2, x, y), Area(x1, x2, y1, y2))
  }

  lemma Expand(a: real, b: real, c: real, e: real)
    ensures a * c + b * c + a * e + b * e == (a + b) * (c + e)
  {
  }

  /** Inside the bracket every weight is non-negative and the four weights
      add up to the area of the cell. */
  lemma Weights2DConvex(x1: real, x2: real, y1: real, y2: real, x: real, y: real)
    requires x1 <= x <= x2 && y1 <= y <= y2 && x1 < x2 && y1 < y2
    ensures forall k :: 0 <= k < 4 ==> 0.0 <= Weights2D(x1, x2, y1, y2, x, y)[k]
    ensures Sum(Weights2D(x1, x2, y1, y2, x, y)) == Area(x1, x2, y1, y2)
  {
    ProductsNonNeg(x2 - x, x - x1, y2 - y, y - y1);
    Dot4(0.0, 0.0, 0.0, 0.0, (x2 - x) * (y2 - y), (x - x1) * (y2 - y), (x2 - x) * (y - y1), (x - x1) * (y - y1));
    assert Area(x1, x2, y1, y2) == ((x2 - x) + (x - x1)) * ((y2 - y) + (y - y1)) by {
      assert (x2 - x) + (x - x1) == x2 - x1 && (y2 - y) + (y - y1) == y2 - y1;
    }
  }

  /** The four products of two split extents are non-negative and add up
      to the product of the extents. */
  lemma ProductsNonNeg(a: real, b: real, c: real, e: real)
    requires 0.0 <= a && 0.0 <= b && 0.0 <= c && 0.0 <= e
    ensures 0.0 <= a * c && 0.0 <= b * c && 0.0 <= a * e && 0.0 <= b * e
    ensures a * c + b * c + a * e + b * e == (a + b) * (c + e)
  {
    MulLe(0.0, a, c);
    MulLe(0.0, b, c);
    MulLe(0.0, a, e);
    MulLe(0.0, b, e);
    Expand(a, b, c, e);
  }

  /** Bilinear unfolded at the bracket of (x, y). */
  lemma BilinearUnfold(xs: seq<real>, ys: seq<real>, d: seq<real>, width: int, x: real, y: real)
    requires Query2D(xs, ys, d, width, x, y)
    ensures var i, j := BracketIndex(xs, x), BracketIndex(ys, y);
            Bilinear(xs, ys, d, width, x, y)
            == Normalized(Corners2D(xs, ys, d, width, x, y),
                          Weights2D(xs[i], xs[i + 1], ys[j], ys[j + 1], x, y),
                          Area(xs[i], xs[i + 1], ys[j], ys[j + 1]))
  {
  }

  /** The bilinear value lies between the least and the largest of the four
      corners of its cell. */
  lemma BilinearBetweenCorners(xs: seq<real>, ys: seq<real>, d: seq<real>, width: int, x: real, y: real)
    requires Query2D(xs, ys, d, width, x, y)
    ensures MinOf(Corners2D(xs, ys, d, width, x, y)) <= Bilinear(xs, ys, d, width, x, y)
                                                     <= MaxOf(Corners2D(xs, ys, d, width, x, y))
  {
    var i, j := BracketIndex(xs, x), BracketIndex(ys, y);
    var x1, x2, y1, y2 := xs[i], xs[i + 1], ys[j], ys[j + 1];
    var cs, ws := Corners2D(xs, ys, d, width, x, y), Weights2D(x1, x2, y1, y2, x, y);
    var area := Area(x1, x2, y1, y2);
    BilinearUnfold(xs, ys, d, width, x, y);
    Weights2DConvex(x1, x2, y1, y2, x, y);
    var lo, hi := MinOf(cs), MaxOf(cs);
    assert forall k :: 0 <= k < |ws| ==> 0.0 <= ws[k] && lo <= cs[k] <= hi;
    NormalizedDotBounds(cs, ws, area, lo, hi);
  }

  /** Four equal corners interpolate to their common value. */
  lemma BilinearConstant(xs: seq<real>, ys: seq<real>, d: seq<real>, width: int, x: real, y: real, c: real)
    requires Query2D(xs, ys, d, width, x, y)
    requires forall k :: 0 <= k < 4 ==> Corners2D(xs, ys, d, width, x, y)[k] == c
    ensures Bilinear(xs, ys, d, width, x, y) == c
  {
    BilinearBetweenCorners(xs, ys, d, width, x, y);
    var cs := Corners2D(xs, ys, d, width, x, y);
    assert MinOf(cs) == c && MaxOf(cs) == c;
  }

  /** At the lower corner of a cell only that corner has weight. */
  lemma WeightsAtCorner(x1: real, x2: real, y1: real, y2: real)
    requires x1 < x2 && y1 < y2
    ensures Weights2D(x1, x2, y1, y2, x1, y1) == [Area(x1, x2, y1, y2), 0.0, 0.0, 0.0]
  {
    var a, c := x2 - x1, y2 - y1;
    assert 0.0 * c == 0.0 && a * 0.0 == 0.0 && 0.0 * 0.0 == 0.0;
  }

  /** A query exactly at an inner breakpoint pair returns the grid value. */
  lemma BilinearAtBreakpoint(xs: seq<real>, ys: seq<real>, d: seq<real>, width: int, i: nat, j: nat)
    requires StrictlyIncreasing(xs) && StrictlyIncreasing(ys)
    requires i < |xs| - 1 && j < |ys| - 1
    requires width == |xs| && |d| == |xs| * |ys|
    ensures Query2D(xs, ys, d, width, xs[i], ys[j])
    ensures 0 <= Offset2D(width, i, j) < |d|
    ensures Bilinear(xs, ys, d, width, xs[i], ys[j]) == Cell2D(d, width, i, j)
  {
    assert xs[0] <= xs[i] < xs[|xs| - 1] && ys[0] <= ys[j] < ys[|ys| - 1];
    BracketAtBreakpoint(xs, i);
    BracketAtBreakpoint(ys, j);
    Offset2DInRange(width, |ys|, i, j);
    var x1, x2, y1, y2 := xs[i], xs[i + 1], ys[j], ys[j + 1];
    var cs := Corners2D(xs, ys, d, width, x1, y1);
    var area := Area(x1, x2, y1, y2);
    BilinearUnfold(xs, ys, d, width, x1, y1);
    WeightsAtCorner(x1, x2, y1, y2);
    Dot4(cs[0], cs[1], cs[2], cs[3], area, 0.0, 0.0, 0.0);
    assert cs == [cs[0], cs[1], cs[2], cs[3]];
    var dot := cs[0] * area + cs[1] * 0.0 + cs[2] * 0.0 + cs[3] * 0.0;
    assert dot == cs[0] * area;
    assert 1.0 / area * (cs[0] * area) == cs[0];
  }

  /** The source's closed-form bilinear expression is the normalized
      weighted sum of the four corners. */
  lemma Interpolate2DFormula(c00: real, c10: real, c01: real, c11: real,
                             x1: real, x2: real, y1: real, y2: real, x: real, y: real)
    requires x1 < x2 && y1 < y2
    ensures (x2 - x1) * (y2 - y1) != 0.0
    ensures 1.0 / ((x2 - x1) * (y2 - y1)) * (
              c00 * (x2 - x) * (y2 - y) + c10 * (x - x1) * (y2 - y) +
              c01 * (x2 - x) * (y - y1) + c11 * (x - x1) * (y - y1))
            == Normalized([c00, c10, c01, c11], Weights2D(x1, x2, y1, y2, x, y), Area(x1, x2, y1, y2))
  {
    var w0, w1 := (x2 - x) * (y2 - y), (x - x1) * (y2 - y);
    var w2, w3 := (x2 - x) * (y - y1), (x - x1) * (y - y1);
    assert c00 * (x2 - x) * (y2 - y) == c00 * w0;
    assert c10 * (x - x1) * (y2 - y) == c10 * w1;
    assert c01 * (x2 - x) * (y - y1) == c01 * w2;
    assert c11 * (x - x1) * (y - y1) == c11 * w3;
    Dot4(c00, c10, c01, c11, w0, w1, w2, w3);
  }

  /** A 2-axis table as the firmware holds it (table2D_t): two axes, a
      row-major grid of cells, and the row width. */
  class Table2D {
    const xVals: array<real>
    const yVals: array<real>
    const data: array<real>
    const xAxisWidth: int

    /** The layout the lookups rely on: rows as wide as the x axis, one row
        per y breakpoint, and a grid that is not one of the axes. */
    predicate Valid()
    {
      && xAxisWidth == xVals.Length
      && data.Length == xVals.Length * yVals.Length
      && data != xVals && data != yVals
    }

    constructor (xs: array<real>, ys: array<real>, cells: array<real>, width: int)
      ensures xVals == xs && yVals == ys && data == cells && xAxisWidth == width
    {
      xVals, yVals, data, xAxisWidth := xs, ys, cells, width;
    }

    /** get2DData: the cell at column x of row y. */
    function Get2DData(x: int, y: int): real
      reads data
      requires 0 <= Offset2D(xAxisWidth, x, y) < data.Length
    {
      data[Offset2D(xAxisWidth, x, y)]
    }

    /** set2DData: overwrite the cell at column x of row y. */
    method Set2DData(x: int, y: int, value: real)
      requires 0 <= Offset2D(xAxisWidth, x, y) < data.Length
      modifies data
      ensures data[..] == old(data[..])[Offset2D(xAxisWidth, x, y) := value]
      ensures Get2DData(x, y) == value
      ensures 0 <= x < xAxisWidth ==>
        forall i, j {:trigger Offset2D(xAxisWidth, i, j)} ::
          0 <= i < xAxisWidth && 0 <= Offset2D(xAxisWidth, i, j) < data.Length && (i != x || j != y)
          ==> Get2DData(i, j) == old(Get2DData(i, j))
    {
      data[Offset2D(xAxisWidth, x, y)] := value;
      if 0 <= x < xAxisWidth {
        forall i, j | 0 <= i < xAxisWidth && 0 <= Offset2D(xAxisWidth, i, j) < data.Length && (i != x || j != y)
          ensures data[Offset2D(xAxisWidth, i, j)] == old(data[Offset2D(xAxisWidth, i, j)])
        {
          Update2DOthers(old(data[..]), xAxisWidth, x, y, i, j, value);
        }
      }
    }

    /** table2DLookup. */
    method Table2DLookup(x: real, y: real) returns (r: real)
      requires Valid()
      requires Query2D(xVals[..], yVals[..], data[..], xAxisWidth, x, y)
      ensures r == Bilinear(xVals[..], yVals[..], data[..], xAxisWidth, x, y)
    {
      var xIndex := FindIndex(xVals, x);
      var yIndex := FindIndex(yVals, y);

      var x_1 := xVals[xIndex];
      var y_1 := yVals[yIndex];
      var x_2 := xVals[xIndex + 1];
      var y_2 := yVals[yIndex + 1];

      Offset2DInRange(xAxisWidth, yVals.Length, xIndex, yIndex);
      Offset2DInRange(xAxisWidth, yVals.Length, xIndex + 1, yIndex);
      Offset2DInRange(xAxisWidth, yVals.Length, xIndex, yIndex + 1);
      Offset2DInRange(xAxisWidth, yVals.Length, xIndex + 1, yIndex + 1);
      var c00, c10 := Get2DData(xIndex, yIndex), Get2DData(xIndex + 1, yIndex);
      var c01, c11 := Get2DData(xIndex, yIndex + 1), Get2DData(xIndex + 1, yIndex + 1);

      Interpolate2DFormula(c00, c10, c01, c11, x_1, x_2, y_1, y_2, x, y);
      r := 1.0 / ((x_2 - x_1) * (y_2 - y_1)) * (
             c00 * (x_2 - x) * (y_2 - y) +
             c10 * (x - x_1) * (y_2 - y) +
             c01 * (x_2 - x) * (y - y_1) +
             c11 * (x - x_1) * (y - y_1));

      assert Corners2D(xVals[..], yVals[..], data[..], xAxisWidth, x, y) == [c00, c10, c01, c11];
      BilinearUnfold(xVals[..], yVals[..], data[..], xAxisWidth, x, y);
    }
  }

  /* ---------------------------------------------------------------------
     3-axis tables
     --------------------------------------------------------------------- */

  /** The precondition of table3DLookup: a grid of |xs| * |ys| * |zs| cells
      laid out plane by plane, each plane |ys| rows of |xs| cells, and a
      query inside all three axes. */
  predicate Query3D(xs: seq<real>, ys: seq<real>, zs: seq<real>, d: seq<real>,
                    width: int, length: int, x: real, y: real, z: real)
  {
    && |xs| >= 2 && xs[0] <= x < xs[|xs| - 1]
    && |ys| >= 2 && ys[0] <= y < ys[|ys| - 1]
    && |zs| >= 2 && zs[0] <= z < zs[|zs| - 1]
    && width == |xs| && length == |ys| && |d| == |xs| * |ys| * |zs|
  }

  function Cell3D(d: seq<real>, width: int, length: int, x: int, y: int, z: int): real
    requires 0 <= Offset3D(width, length, x, y, z) < |d|
  {
    d[Offset3D(width, length, x, y, z)]
  }

  /** The eight cells around the bracket of (x, y, z), in the order of the
      terms of the source's interpolation: x slowest, z fastest. */
  function Corners3D(xs: seq<real>, ys: seq<real>, zs: seq<real>, d: seq<real>,
                     width: int, length: int, x: real, y: real, z: real): (cs: seq<real>)
    requires Query3D(xs, ys, zs, d, width, length, x, y, z)
    ensures |cs| == 8
  {
    var i, j, k := BracketIndex(xs, x), BracketIndex(ys, y), BracketIndex(zs, z);
    Offset3DInRange(width, length, |zs|, i, j, k);
    Offset3DInRange(width, length, |zs|, i, j, k + 1);
    Offset3DInRange(width, length, |zs|, i, j + 1, k);
    Offset3DInRange(width, length, |zs|, i, j + 1, k + 1);
    Offset3DInRange(width, length, |zs|, i + 1, j, k);
    Offset3DInRange(width, length, |zs|, i + 1, j, k + 1);
    Offset3DInRange(width, length, |zs|, i + 1, j + 1, k);
    Offset3DInRange(width, length, |zs|, i + 1, j + 1, k + 1);
    [Cell3D(d, width, length, i, j, k), Cell3D(d, width, length, i, j, k + 1),
     Cell3D(d, width, length, i, j + 1, k), Cell3D(d, width, length, i, j + 1, k + 1),
     Cell3D(d, width, length, i + 1, j, k), Cell3D(d, width, length, i + 1, j, k + 1),
     Cell3D(d, width, length, i + 1, j + 1, k), Cell3D(d, width, length, i + 1, j + 1, k + 1)]
  }

  /** The eight products of one distance along each axis, x slowest: `a`,
      `c`, `f` are the distances up to the upper breakpoints, `b`, `e`, `g`
      down to the lower ones. */
  function Products3D(a: real, b: real, c: real, e: real, f: real, g: real): (ps: seq<real>)
    ensures |ps| == 8
  {
    [a * c * f, a * c * g, a * e * f, a * e * g, b * c * f, b * c * g, b * e * f, b * e * g]
  }

  /** The eight corners of the cell whose lower corner is (i, j, k) lie inside
      the grid, and Corners3D lists them. */
  lemma Corners3DAt(xs: seq<real>, ys: seq<real>, zs: seq<real>, d: seq<real>,
                    width: int, length: int, x: real, y: real, z: real, i: int, j: int, k: int)
    requires Query3D(xs, ys, zs, d, width, length, x, y, z)
    requires i == BracketIndex(xs, x) && j == BracketIndex(ys, y) && k == BracketIndex(zs, z)
    ensures forall p, q, r {:trigger Offset3D(width, length, p, q, r)} ::
              i <= p <= i + 1 && j <= q <= j + 1 && k <= r <= k + 1
              ==> 0 <= Offset3D(width, length, p, q, r) < |d|
    ensures Corners3D(xs, ys, zs, d, width, length, x, y, z)
            == [Cell3D(d, width, length, i, j, k), Cell3D(d, width, length, i, j, k + 1),
                Cell3D(d, width, length, i, j + 1, k), Cell3D(d, width, length, i, j + 1, k + 1),
                Cell3D(d, width, length, i + 1, j, k), Cell3D(d, width, length, i + 1, j, k + 1),
                Cell3D(d, width, length, i + 1, j + 1, k), Cell3D(d, width, length, i + 1, j + 1, k + 1)]
  {
    forall p, q, r | i <= p <= i + 1 && j <= q <= j + 1 && k <= r <= k + 1
      ensures 0 <= Offset3D(width, length, p, q, r) < |d|
    {
      Offset3DInRange(width, length, |zs|, p, q, r);
    }
  }

  /** The weight of each corner: the volume of the opposite sub-box. */
  function Weights3D(x0: real, x1: real, y0: real, y1: real, z0: real, z1: real,
                     x: real, y: real, z: real): (ws: seq<real>)
    ensures |ws| == 8
  {
    Products3D(x1 - x, x - x0, y1 - y, y - y0, z1 - z, z - z0)
  }

  /** The volume of the cell between three breakpoint pairs. */
  function Volume(x0: real, x1: real, y0: real, y1: real, z0: real, z1: real): (v: real)
    requires x0 < x1 && y0 < y1 && z0 < z1
    ensures v > 0.0
  {
    MulPos(x1 - x0, y1 - y0);
    MulPos((x1 - x0) * (y1 - y0), z1 - z0);
    (x1 - x0) * (y1 - y0) * (z1 - z0)
  }

  /** table3DLookup's value. */
  function Trilinear(xs: seq<real>, ys: seq<real>, zs: seq<real>, d: seq<real>,
                     width: int, length: int, x: real, y: real, z: real): real
    requires Query3D(xs, ys, zs, d, width, length, x, y, z)
  {
    var i, j, k := BracketIndex(xs, x), BracketIndex(ys, y), BracketIndex(zs, z);
    Normalized(Corners3D(xs, ys, zs, d, width, length, x, y, z),
               Weights3D(xs[i], xs[i + 1], ys[j], ys[j + 1], zs[k], zs[k + 1], x, y, z),
               Volume(xs[i], xs[i + 1], ys[j], ys[j + 1], zs[k], zs[k + 1]))
  }

  lemma TrilinearUnfold(xs: seq<real>, ys: seq<real>, zs: seq<real>, d: seq<real>,
                        width: int, length: int, x: real, y: real, z: real)
    requires Query3D(xs, ys, zs, d, width, length, x, y, z)
    ensures var i, j, k := BracketIndex(xs, x), BracketIndex(ys, y), BracketIndex(zs, z);
            Trilinear(xs, ys, zs, d, width, length, x, y, z)
            == Normalized(Corners3D(xs, ys, zs, d, width, length, x, y, z),
                          Weights3D(xs[i], xs[i + 1], ys[j], ys[j + 1], zs[k], zs[k + 1], x, y, z),
                          Volume(xs[i], xs[i + 1], ys[j], ys[j + 1], zs[k], zs[k + 1]))
  {
  }

  /** The sum of an eight-term weighted sum, split into two halves. */
  lemma Dot8(cs: seq<real>, ws: seq<real>)
    requires |cs| == 8 && |ws| == 8
    ensures Dot(cs, ws) == cs[0] * ws[0] + cs[1] * ws[1] + cs[2] * ws[2] + cs[3] * ws[3]
                         + cs[4] * ws[4] + cs[5] * ws[5] + cs[6] * ws[6] + cs[7] * ws[7]
    ensures Sum(ws) == ws[0] + ws[1] + ws[2] + ws[3] + ws[4] + ws[5] + ws[6] + ws[7]
  {
    var a, b := [cs[0], cs[1], cs[2], cs[3]], [cs[4], cs[5], cs[6], cs[7]];
    var u, v := [ws[0], ws[1], ws[2], ws[3]], [ws[4], ws[5], ws[6], ws[7]];
    assert Dot(cs, ws) == Dot(a, u) + Dot(b, v) && Sum(ws) == Sum(u) + Sum(v) by {
      assert cs == a + b && ws == u + v;
      DotAppend(a, b, u, v);
    }
    Dot4(cs[0], cs[1], cs[2], cs[3], ws[0], ws[1], ws[2], ws[3]);
    Dot4(cs[4], cs[5], cs[6], cs[7], ws[4], ws[5], ws[6], ws[7]);
  }

  /** With all the weight on the first corner, the weighted sum is that
      corner times the weight. */
  lemma DotFirstOnly(cs: seq<real>, w: real)
    requires |cs| == 8
    ensures Dot(cs, [w, 0.0, 0.0, 0.0, 0.0, 0.0, 0.0, 0.0]) == cs[0] * w
  {
    Dot8(cs, [w, 0.0, 0.0, 0.0, 0.0, 0.0, 0.0, 0.0]);
    assert cs[1] * 0.0 == 0.0 && cs[2] * 0.0 == 0.0 && cs[3] * 0.0 == 0.0 && cs[4] * 0.0 == 0.0;
    assert cs[5] * 0.0 == 0.0 && cs[6] * 0.0 == 0.0 && cs[7] * 0.0 == 0.0;
  }

  lemma Unscale(c: real, v: real)
    requires v != 0.0
    ensures 1.0 / v * (c * v) == c
  {
  }

  lemma MulNonNeg3(a: real, b: real, c: real)
    requires 0.0 <= a && 0.0 <= b && 0.0 <= c
    ensures 0.0 <= a * b * c
  {
    MulLe(0.0, a, b);
    MulLe(0.0, a * b, c);
  }

  lemma Expand3(a: real, b: real, c: real, e: real, f: real, g: real)
    ensures a * c * f + a * c * g + a * e * f + a * e * g + b * c * f + b * c * g + b * e * f + b * e * g
            == (a + b) * (c + e) * (f + g)
  {
    Expand(a, b, c, e);
    var p, q := a * c, a * e;
    var r, t := b * c, b * e;
    assert p * f + p * g + q * f + q * g + r * f + r * g + t * f + t * g == (p + q + r + t) * (f + g);
  }

  lemma Products3DNonNeg(a: real, b: real, c: real, e: real, f: real, g: real)
    requires 0.0 <= a && 0.0 <= b && 0.0 <= c && 0.0 <= e && 0.0 <= f && 0.0 <= g
    ensures forall n :: 0 <= n < 8 ==> 0.0 <= Products3D(a, b, c, e, f, g)[n]
  {
    MulNonNeg3(a, c, f);
    MulNonNeg3(a, c, g);
    MulNonNeg3(a, e, f);
    MulNonNeg3(a, e, g);
    MulNonNeg3(b, c, f);
    MulNonNeg3(b, c, g);
    MulNonNeg3(b, e, f);
    MulNonNeg3(b, e, g);
  }

  lemma Products3DSum(a: real, b: real, c: real, e: real, f: real, g: real)
    ensures Sum(Products3D(a, b, c, e, f, g)) == (a + b) * (c + e) * (f + g)
  {
    var ps := Products3D(a, b, c, e, f, g);
    Dot8(ps, ps);
    Expand3(a, b, c, e, f, g);
  }

  /** Inside the bracket every weight is non-negative and the eight weights
      add up to the volume of the cell. */
  lemma Weights3DConvex(x0: real, x1: real, y0: real, y1: real, z0: real, z1: real,
                        x: real, y: real, z: real)
    requires x0 <= x <= x1 && y0 <= y <= y1 && z0 <= z <= z1 && x0 < x1 && y0 < y1 && z0 < z1
    ensures forall n :: 0 <= n < 8 ==> 0.0 <= Weights3D(x0, x1, y0, y1, z0, z1, x, y, z)[n]
    ensures Sum(Weights3D(x0, x1, y0, y1, z0, z1, x, y, z)) == Volume(x0, x1, y0, y1, z0, z1)
  {
    Products3DNonNeg(x1 - x, x - x0, y1 - y, y - y0, z1 - z, z - z0);
    Products3DSum(x1 - x, x - x0, y1 - y, y - y0, z1 - z, z - z0);
    assert Volume(x0, x1, y0, y1, z0, z1) == (x1 - x0) * (y1 - y0) * (z1 - z0);
  }

  /** The trilinear value lies between the least and the largest of the
      eight corners of its cell. */
  lemma TrilinearBetweenCorners(xs: seq<real>, ys: seq<real>, zs: seq<real>, d: seq<real>,
                                width: int, length: int, x: real, y: real, z: real)
    requires Query3D(xs, ys, zs, d, width, length, x, y, z)
    ensures MinOf(Corners3D(xs, ys, zs, d, width, length, x, y, z))
            <= Trilinear(xs, ys, zs, d, width, length, x, y, z)
            <= MaxOf(Corners3D(xs, ys, zs, d, width, length, x, y, z))
  {
    var i, j, k := BracketIndex(xs, x), BracketIndex(ys, y), BracketIndex(zs, z);
    var x0, x1, y0, y1, z0, z1 := xs[i], xs[i + 1], ys[j], ys[j + 1], zs[k], zs[k + 1];
    var cs := Corners3D(xs, ys, zs, d, width, length, x, y, z);
    var ws := Weights3D(x0, x1, y0, y1, z0, z1, x, y, z);
    TrilinearUnfold(xs, ys, zs, d, width, length, x, y, z);
    Weights3DConvex(x0, x1, y0, y1, z0, z1, x, y, z);
    var lo, hi := MinOf(cs), MaxOf(cs);
    assert forall n :: 0 <= n < |ws| ==> 0.0 <= ws[n] && lo <= cs[n] <= hi;
    NormalizedDotBounds(cs, ws, Volume(x0, x1, y0, y1, z0, z1), lo, hi);
  }

  /** Eight equal corners interpolate to their common value. */
  lemma TrilinearConstant(xs: seq<real>, ys: seq<real>, zs: seq<real>, d: seq<real>,
                          width: int, length: int, x: real, y: real, z: real, c: real)
    requires Query3D(xs, ys, zs, d, width, length, x, y, z)
    requires forall n :: 0 <= n < 8 ==> Corners3D(xs, ys, zs, d, width, length, x, y, z)[n] == c
    ensures Trilinear(xs, ys, zs, d, width, length, x, y, z) == c
  {
    TrilinearBetweenCorners(xs, ys, zs, d, width, length, x, y, z);
    var cs := Corners3D(xs, ys, zs, d, width, length, x, y, z);
    assert MinOf(cs) == c && MaxOf(cs) == c;
  }

  /** At the lower corner of a cell only that corner has weight. */
  lemma Weights3DAtCorner(x0: real, x1: real, y0: real, y1: real, z0: real, z1: real)
    requires x0 < x1 && y0 < y1 && z0 < z1
    ensures Weights3D(x0, x1, y0, y1, z0, z1, x0, y0, z0)
            == [Volume(x0, x1, y0, y1, z0, z1), 0.0, 0.0, 0.0, 0.0, 0.0, 0.0, 0.0]
  {
    var a, c, f := x1 - x0, y1 - y0, z1 - z0;
    ScaleZero(a * c, 0.0);
    ScaleZero(a * 0.0, 0.0);
    ScaleZero(0.0 * c, 0.0);
    ScaleZero(0.0 * 0.0, 0.0);
    assert a * 0.0 == 0.0 && 0.0 * c == 0.0 && 0.0 * 0.0 == 0.0;
    assert 0.0 * c * f == 0.0 && a * 0.0 * f == 0.0 && 0.0 * 0.0 * f == 0.0;
  }

  /** A query exactly at an inner breakpoint triple returns the grid value. */
  lemma TrilinearAtBreakpoint(xs: seq<real>, ys: seq<real>, zs: seq<real>, d: seq<real>,
                              width: int, length: int, i: nat, j: nat, k: nat)
    requires StrictlyIncreasing(xs) && StrictlyIncreasing(ys) && StrictlyIncreasing(zs)
    requires i < |xs| - 1 && j < |ys| - 1 && k < |zs| - 1
    requires width == |xs| && length == |ys| && |d| == |xs| * |ys| * |zs|
    ensures Query3D(xs, ys, zs, d, width, length, xs[i], ys[j], zs[k])
    ensures 0 <= Offset3D(width, length, i, j, k) < |d|
    ensures Trilinear(xs, ys, zs, d, width, length, xs[i], ys[j], zs[k]) == Cell3D(d, width, length, i, j, k)
  {
    assert xs[0] <= xs[i] < xs[|xs| - 1] && ys[0] <= ys[j] < ys[|ys| - 1] && zs[0] <= zs[k] < zs[|zs| - 1];
    BracketAtBreakpoint(xs, i);
    BracketAtBreakpoint(ys, j);
    BracketAtBreakpoint(zs, k);
    Offset3DInRange(width, length, |zs|, i, j, k);
    var x0, x1, y0, y1, z0, z1 := xs[i], xs[i + 1], ys[j], ys[j + 1], zs[k], zs[k + 1];
    var cs := Corners3D(xs, ys, zs, d, width, length, x0, y0, z0);
    var vol := Volume(x0, x1, y0, y1, z0, z1);
    TrilinearUnfold(xs, ys, zs, d, width, length, x0, y0, z0);
    Weights3DAtCorner(x0, x1, y0, y1, z0, z1);
    NormalizedFirstOnly(cs, vol);
    Corners3DAt(xs, ys, zs, d, width, length, x0, y0, z0, i, j, k);
  }

  /** With all the weight on the first of eight corners, the normalized sum
      is that corner. */
  lemma NormalizedFirstOnly(cs: seq<real>, v: real)
    requires |cs| == 8 && v != 0.0
    ensures Normalized(cs, [v, 0.0, 0.0, 0.0, 0.0, 0.0, 0.0, 0.0], v) == cs[0]
  {
    DotFirstOnly(cs, v);
    Unscale(cs[0], v);
  }

  /** The source's closed-form trilinear expression is the normalized
      weighted sum of the eight corners. */
  lemma Interpolate3DFormula(c000: real, c001: real, c010: real, c011: real,
                             c100: real, c101: real, c110: real, c111: real,
                             x0: real, x1: real, y0: real, y1: real, z0: real, z1: real,
                             x: real, y: real, z: real)
    requires x0 < x1 && y0 < y1 && z0 < z1
    ensures (x1 - x0) * (y1 - y0) * (z1 - z0) != 0.0
    ensures 1.0 / ((x1 - x0) * (y1 - y0) * (z1 - z0)) * (
              c000 * (x1 - x) * (y1 - y) * (z1 - z) + c001 * (x1 - x) * (y1 - y) * (z - z0) +
              c010 * (x1 - x) * (y - y0) * (z1 - z) + c011 * (x1 - x) * (y - y0) * (z - z0) +
              c100 * (x - x0) * (y1 - y) * (z1 - z) + c101 * (x - x0) * (y1 - y) * (z - z0) +
              c110 * (x - x0) * (y - y0) * (z1 - z) + c111 * (x - x0) * (y - y0) * (z - z0))
            == Normalized([c000, c001, c010, c011, c100, c101, c110, c111],
                          Weights3D(x0, x1, y0, y1, z0, z1, x, y, z), Volume(x0, x1, y0, y1, z0, z1))
  {
    var cs := [c000, c001, c010, c011, c100, c101, c110, c111];
    var ws := Weights3D(x0, x1, y0, y1, z0, z1, x, y, z);
    var vol := Volume(x0, x1, y0, y1, z0, z1);
    assert vol == (x1 - x0) * (y1 - y0) * (z1 - z0);
    var a, b, c, e, f, g := x1 - x, x - x0, y1 - y, y - y0, z1 - z, z - z0;
    Assoc4(c000, a, c, f);
    Assoc4(c001, a, c, g);
    Assoc4(c010, a, e, f);
    Assoc4(c011, a, e, g);
    Assoc4(c100, b, c, f);
    Assoc4(c101, b, c, g);
    Assoc4(c110, b, e, f);
    Assoc4(c111, b, e, g);
    Dot8(cs, ws);
  }

  lemma Assoc4(k: real, a: real, b: real, c: real)
    ensures k * a * b * c == k * (a * b * c)
  {
  }

  /** A 3-axis table as the firmware holds it (table3D_t): three axes, a
      grid stored plane by plane, the row width and the rows per plane. */
  class Table3D {
    const xVals: array<real>
    const yVals: array<real>
    const zVals: array<real>
    const data: array<real>
    const xAxisWidth: int
    const yAxisLength: int

    predicate Valid()
    {
      && xAxisWidth == xVals.Length && yAxisLength == yVals.Length
      && data.Length == xVals.Length * yVals.Length * zVals.Length
      && data != xVals && data != yVals && data != zVals
    }

    constructor (xs: array<real>, ys: array<real>, zs: array<real>, cells: array<real>, width: int, length: int)
      ensures xVals == xs && yVals == ys && zVals == zs && data == cells
      ensures xAxisWidth == width && yAxisLength == length
    {
      xVals, yVals, zVals, data := xs, ys, zs, cells;
      xAxisWidth, yAxisLength := width, length;
    }

    /** get3DData: the cell at column x of row y of plane z. */
    function Get3DData(x: int, y: int, z: int): real
      reads data
      requires 0 <= Offset3D(xAxisWidth, yAxisLength, x, y, z) < data.Length
    {
      data[Offset3D(xAxisWidth, yAxisLength, x, y, z)]
    }

    /** set3DData: overwrite the cell at column x of row y of plane z. */
    method Set3DData(x: int, y: int, z: int, value: real)
      requires 0 <= Offset3D(xAxisWidth, yAxisLength, x, y, z) < data.Length
      modifies data
      ensures data[..] == old(data[..])[Offset3D(xAxisWidth, yAxisLength, x, y, z) := value]
      ensures Get3DData(x, y, z) == value
      ensures 0 <= x < xAxisWidth && 0 <= y < yAxisLength ==>
        forall i, j, k {:trigger Offset3D(xAxisWidth, yAxisLength, i, j, k)} ::
          0 <= i < xAxisWidth && 0 <= j < yAxisLength
          && 0 <= Offset3D(xAxisWidth, yAxisLength, i, j, k) < data.Length && (i != x || j != y || k != z)
          ==> Get3DData(i, j, k) == old(Get3DData(i, j, k))
    {
      data[Offset3D(xAxisWidth, yAxisLength, x, y, z)] := value;
      if 0 <= x < xAxisWidth && 0 <= y < yAxisLength {
        forall i, j, k | 0 <= i < xAxisWidth && 0 <= j < yAxisLength
                         && 0 <= Offset3D(xAxisWidth, yAxisLength, i, j, k) < data.Length
                         && (i != x || j != y || k != z)
          ensures data[Offset3D(xAxisWidth, yAxisLength, i, j, k)]
                  == old(data[Offset3D(xAxisWidth, yAxisLength, i, j, k)])
        {
          Update3DOthers(old(data[..]), xAxisWidth, yAxisLength, x, y, z, i, j, k, value);
        }
      }
    }

    /** table3DLookup. */
    method Table3DLookup(x: real, y: real, z: real) returns (r: real)
      requires Valid()
      requires Query3D(xVals[..], yVals[..], zVals[..], data[..], xAxisWidth, yAxisLength, x, y, z)
      ensures r == Trilinear(xVals[..], yVals[..], zVals[..], data[..], xAxisWidth, yAxisLength, x, y, z)
    {
      var xIndex := FindIndex(xVals, x);
      var yIndex := FindIndex(yVals, y);
      var zIndex := FindIndex(zVals, z);

      var x_0 := xVals[xIndex];
      var y_0 := yVals[yIndex];
      var z_0 := zVals[zIndex];
      var x_1 := xVals[xIndex + 1];
      var y_1 := yVals[yIndex + 1];
      var z_1 := zVals[zIndex + 1];

      Corners3DAt(xVals[..], yVals[..], zVals[..], data[..], xAxisWidth, yAxisLength, x, y, z,
                  xIndex, yIndex, zIndex);
      var c000 := Get3DData(xIndex, yIndex, zIndex);
      var c001 := Get3DData(xIndex, yIndex, zIndex + 1);
      var c010 := Get3DData(xIndex, yIndex + 1, zIndex);
      var c011 := Get3DData(xIndex, yIndex + 1, zIndex + 1);
      var c100 := Get3DData(xIndex + 1, yIndex, zIndex);
      var c101 := Get3DData(xIndex + 1, yIndex, zIndex + 1);
      var c110 := Get3DData(xIndex + 1, yIndex + 1, zIndex);
      var c111 := Get3DData(xIndex + 1, yIndex + 1, zIndex + 1);

      Interpolate3DFormula(c000, c001, c010, c011, c100, c101, c110, c111,
                           x_0, x_1, y_0, y_1, z_0, z_1, x, y, z);
      r := 1.0 / ((x_1 - x_0) * (y_1 - y_0) * (z_1 - z_0)) * (
             c000 * (x_1 - x) * (y_1 - y) * (z_1 - z) +
             c001 * (x_1 - x) * (y_1 - y) * (z - z_0) +
             c010 * (x_1 - x) * (y - y_0) * (z_1 - z) +
             c011 * (x_1 - x) * (y - y_0) * (z - z_0) +
             c100 * (x - x_0) * (y_1 - y) * (z_1 - z) +
             c101 * (x - x_0) * (y_1 - y) * (z - z_0) +
             c110 * (x - x_0) * (y - y_0) * (z_1 - z) +
             c111 * (x - x_0) * (y - y_0) * (z - z_0));
      TrilinearUnfold(xVals[..], yVals[..], zVals[..], data[..], xAxisWidth, yAxisLength, x, y, z);
    }
  }
}
