/**
 * Where the watermark's tiles go. The draw passes walk `i` from 0 to
 * ceil(width / xGap) + 1 and, inside, `k` from 0 to ceil(height / yGap) + 1,
 * both bounds inclusive, and anchor tile (i, k) at (i * xGap, k * yGap).
 */
module TileGrid {

  /** A tile anchor, in canvas pixels. */
  datatype Point = Point(x: nat, y: nat)

  /** `Math.ceil(n / d)` for a positive divisor: the least q with q * d >= n. */
  function CeilDiv(n: nat, d: nat): (q: nat)
    requires d > 0
    ensures q * d >= n
    ensures q == 0 || (q - 1) * d < n
    decreases n
  {
    if n == 0 then 0 else 1 + CeilDiv(if n >= d then n - d else 0, d)
  }

  /** How many indices a draw loop visits along an axis of length n: 0 .. ceil(n / gap) + 1. */
  function TileCount(n: nat, gap: nat): nat
    requires gap > 0
  {
    CeilDiv(n, gap) + 2
  }

  /** The anchors the inner loop visits for column i, k = 0 .. rows - 1. */
  function Column(i: nat, rows: nat, xGap: nat, yGap: nat): seq<Point>
  {
    seq(rows, k requires 0 <= k < rows => Point(i * xGap, k * yGap))
  }

  /** The anchors of the first `cols` columns, column after column. */
  function Grid(cols: nat, rows: nat, xGap: nat, yGap: nat): seq<Point>
  {
    if cols == 0 then [] else Grid(cols - 1, rows, xGap, yGap) + Column(cols - 1, rows, xGap, yGap)
  }

  /** Every anchor of a draw pass over a width-by-height surface, in drawing order. */
  function Anchors(width: nat, height: nat, xGap: nat, yGap: nat): seq<Point>
    requires xGap > 0 && yGap > 0
  {
    Grid(TileCount(width, xGap), TileCount(height, yGap), xGap, yGap)
  }

  lemma MulSucc(a: nat, c: nat)
    ensures (a + 1) * c == a * c + c
  {
  }

  lemma MulLess(a: nat, b: nat, c: nat)
    requires a < b
    ensures a * c + c <= b * c
    decreases b - a
  {
    MulSucc(a, c);
    if a + 1 < b {
      MulLess(a + 1, b, c);
    }
  }

  /** A grid of `cols` columns of `rows` anchors has cols * rows anchors. */
  lemma {:induction false} GridLength(cols: nat, rows: nat, xGap: nat, yGap: nat)
    ensures |Grid(cols, rows, xGap, yGap)| == cols * rows
  {
    if cols > 0 {
      GridLength(cols - 1, rows, xGap, yGap);
      MulSucc(cols - 1, rows);
    }
  }

  /**
   * Anchor (i, k) is the (i * rows + k)-th tile drawn, and it sits at
   * (i * xGap, k * yGap): i is the outer index, k the inner one.
   */
  lemma {:induction false} GridAt(cols: nat, rows: nat, xGap: nat, yGap: nat, i: nat, k: nat)
    requires i < cols && k < rows
    ensures i * rows + k < |Grid(cols, rows, xGap, yGap)|
    ensures Grid(cols, rows, xGap, yGap)[i * rows + k] == Point(i * xGap, k * yGap)
  {
    GridLength(cols - 1, rows, xGap, yGap);
    var g := Grid(cols - 1, rows, xGap, yGap);
    var col := Column(cols - 1, rows, xGap, yGap);
    assert Grid(cols, rows, xGap, yGap) == g + col;
    if i < cols - 1 {
      GridAt(cols - 1, rows, xGap, yGap, i, k);
    } else {
      assert i * rows + k == |g| + k;
      assert (g + col)[|g| + k] == col[k];
    }
    MulLess(i, cols, rows);
    GridLength(cols, rows, xGap, yGap);
  }

  /** The last index a draw loop visits along an axis, ceil(n / gap) + 1, lands one to two gaps past n. */
  lemma LastIndexBeyond(n: nat, gap: nat)
    requires gap > 0
    ensures n + gap <= (CeilDiv(n, gap) + 1) * gap < n + 2 * gap
  {
    var q := CeilDiv(n, gap);
    MulSucc(q, gap);
    if q > 0 {
      MulSucc(q - 1, gap);
    }
  }

  /**
   * A pass draws (ceil(W/xGap) + 2) * (ceil(H/yGap) + 2) tiles; the first at
   * the origin, the last one full gap beyond the far edge in each axis and
   * less than two gaps beyond it.
   */
  lemma AnchorsCover(width: nat, height: nat, xGap: nat, yGap: nat)
    requires xGap > 0 && yGap > 0
    ensures var a := Anchors(width, height, xGap, yGap);
      && |a| == (CeilDiv(width, xGap) + 2) * (CeilDiv(height, yGap) + 2)
      && a[0] == Point(0, 0)
      && a[|a| - 1] == Point((CeilDiv(width, xGap) + 1) * xGap, (CeilDiv(height, yGap) + 1) * yGap)
      && width + xGap <= a[|a| - 1].x < width + 2 * xGap
      && height + yGap <= a[|a| - 1].y < height + 2 * yGap
  {
    var cols, rows := TileCount(width, xGap), TileCount(height, yGap);
    var a := Anchors(width, height, xGap, yGap);
    assert a == Grid(cols, rows, xGap, yGap);
    GridLength(cols, rows, xGap, yGap);
    GridAt(cols, rows, xGap, yGap, 0, 0);
    GridAt(cols, rows, xGap, yGap, cols - 1, rows - 1);
    MulSucc(cols - 1, rows);
    assert |a| - 1 == (cols - 1) * rows + (rows - 1);
    assert a[|a| - 1] == Point((cols - 1) * xGap, (rows - 1) * yGap);
    LastIndexBeyond(width, xGap);
    LastIndexBeyond(height, yGap);
  }

  /** A 200 x 100 surface with 50-pixel gaps: 6 x 4 = 24 tiles, from (0, 0) to (250, 150). */
  lemma AnchorsExample()
    ensures var a := Anchors(200, 100, 50, 50);
      |a| == 24 && a[0] == Point(0, 0) && a[23] == Point(250, 150)
  {
    AnchorsCover(200, 100, 50, 50);
    var qx, qy := CeilDiv(200, 50), CeilDiv(100, 50);
    assert qx == 4 by {
      assert qx * 50 >= 200 && (qx == 0 || (qx - 1) * 50 < 200);
    }
    assert qy == 2 by {
      assert qy * 50 >= 100 && (qy == 0 || (qy - 1) * 50 < 100);
    }
  }
}
