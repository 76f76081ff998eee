/**
 * Rasters as the tile server delivers them and the pixel difference that
 * MapTileGrid.cornersIdentical sums (PIL's ImageChops.difference followed by
 * a sum over every channel of every pixel).
 */
module Imagery {

  const TileSize: nat := 256
  /** cornersIdentical accepts two sets of corners whose summed difference is below 256^2. */
  const CornerThreshold: nat := 256 * 256

  type Byte = x: int | 0 <= x < 256

  datatype Rgb = Rgb(r: Byte, g: Byte, b: Byte)

  const Black: Rgb := Rgb(0, 0, 0)

  /** A decoded image: PIL mode, size and rows of pixels (row y holds the pixels (x, y)). */
  datatype RawPicture = RawPicture(mode: string, width: nat, height: nat, rows: seq<seq<Rgb>>)

  predicate Shaped(p: RawPicture)
  {
    |p.rows| == p.height && forall y :: 0 <= y < |p.rows| ==> |p.rows[y]| == p.width
  }

  /** A decoded image always has as many pixels as its size says. */
  type Picture = p: RawPicture | Shaped(p) witness RawPicture("RGB", 0, 0, [])

  /** What MapTile.download asserts about a decoded tile: mode RGB, size 256 x 256. */
  predicate IsTileImage(p: Picture)
  {
    p.mode == "RGB" && p.width == TileSize && p.height == TileSize
  }

  function Dist(a: Byte, b: Byte): nat
  {
    if a >= b then a - b else b - a
  }

  /** The sum of the three channels of the absolute difference of two pixels. */
  function PixelDifference(p: Rgb, q: Rgb): (d: nat)
    ensures d <= 3 * 255
    ensures d == 0 <==> p == q
  {
    Dist(p.r, q.r) + Dist(p.g, q.g) + Dist(p.b, q.b)
  }

  function RowDifference(a: seq<Rgb>, b: seq<Rgb>): (d: nat)
    requires |a| == |b|
    ensures d == 0 <==> a == b
  {
    if a == [] then 0
    else
      assert a == [a[0]] + a[1..] && b == [b[0]] + b[1..];
      PixelDifference(a[0], b[0]) + RowDifference(a[1..], b[1..])
  }

  predicate SameShape(a: seq<seq<Rgb>>, b: seq<seq<Rgb>>)
  {
    |a| == |b| && forall y :: 0 <= y < |a| ==> |a[y]| == |b[y]|
  }

  function RowsDifference(a: seq<seq<Rgb>>, b: seq<seq<Rgb>>): (d: nat)
    requires SameShape(a, b)
    ensures d == 0 <==> a == b
  {
    if a == [] then 0
    else
      assert a == [a[0]] + a[1..] && b == [b[0]] + b[1..];
      RowDifference(a[0], b[0]) + RowsDifference(a[1..], b[1..])
  }

  /** The channel sum of ImageChops.difference(p, q) for two images of one size. */
  function PictureDifference(p: Picture, q: Picture): (d: nat)
    requires p.width == q.width && p.height == q.height
    ensures d == 0 <==> p.rows == q.rows
  {
    RowsDifference(p.rows, q.rows)
  }

  predicate PairwiseComparable(mine: seq<Picture>, theirs: seq<Picture>)
  {
    |mine| == |theirs|
    && forall k :: 0 <= k < |mine| ==> mine[k].width == theirs[k].width && mine[k].height == theirs[k].height
  }

  /** The variable `diffs` of cornersIdentical: the differences of paired corners, summed. */
  function CornerDifference(mine: seq<Picture>, theirs: seq<Picture>): nat
    requires PairwiseComparable(mine, theirs)
  {
    if mine == [] then 0
    else CornerDifference(mine[..|mine| - 1], theirs[..|theirs| - 1])
         + PictureDifference(mine[|mine| - 1], theirs[|theirs| - 1])
  }

  /** The verdict of cornersIdentical. */
  predicate CornersAlike(mine: seq<Picture>, theirs: seq<Picture>)
    requires PairwiseComparable(mine, theirs)
  {
    CornerDifference(mine, theirs) < CornerThreshold
  }

  /** The summed difference is 0 exactly when every pair of corners has the same pixels. */
  lemma {:induction false} CornerDifferenceZero(mine: seq<Picture>, theirs: seq<Picture>)
    requires PairwiseComparable(mine, theirs)
    ensures CornerDifference(mine, theirs) == 0 <==> forall k :: 0 <= k < |mine| ==> mine[k].rows == theirs[k].rows
  {
    if mine != [] {
      var n := |mine| - 1;
      CornerDifferenceZero(mine[..n], theirs[..n]);
      assert forall k :: 0 <= k < n ==> mine[..n][k] == mine[k] && theirs[..n][k] == theirs[k];
    }
  }

  /** Corners whose pairs have the same pixels are always judged identical. */
  lemma IdenticalCornersAlike(mine: seq<Picture>, theirs: seq<Picture>)
    requires PairwiseComparable(mine, theirs)
    requires forall k :: 0 <= k < |mine| ==> mine[k].rows == theirs[k].rows
    ensures CornersAlike(mine, theirs)
  {
    CornerDifferenceZero(mine, theirs);
  }

  /** Comparing a set of corners with itself gives a difference of 0, so the verdict is reflexive. */
  lemma CornersAlikeReflexive(corners: seq<Picture>)
    ensures PairwiseComparable(corners, corners)
    ensures CornerDifference(corners, corners) == 0
    ensures CornersAlike(corners, corners)
  {
    CornerDifferenceZero(corners, corners);
  }

  lemma {:induction false} RowDifferenceSymmetric(a: seq<Rgb>, b: seq<Rgb>)
    requires |a| == |b|
    ensures RowDifference(a, b) == RowDifference(b, a)
  {
    if a != [] {
      RowDifferenceSymmetric(a[1..], b[1..]);
    }
  }

  lemma {:induction false} RowsDifferenceSymmetric(a: seq<seq<Rgb>>, b: seq<seq<Rgb>>)
    requires SameShape(a, b)
    ensures SameShape(b, a) && RowsDifference(a, b) == RowsDifference(b, a)
  {
    if a != [] {
      RowDifferenceSymmetric(a[0], b[0]);
      RowsDifferenceSymmetric(a[1..], b[1..]);
    }
  }

  /** The verdict does not depend on which grid is the receiver. */
  lemma {:induction false} CornerDifferenceSymmetric(mine: seq<Picture>, theirs: seq<Picture>)
    requires PairwiseComparable(mine, theirs)
    ensures PairwiseComparable(theirs, mine)
    ensures CornerDifference(mine, theirs) == CornerDifference(theirs, mine)
  {
    if mine != [] {
      var n := |mine| - 1;
      CornerDifferenceSymmetric(mine[..n], theirs[..n]);
      RowsDifferenceSymmetric(mine[n].rows, theirs[n].rows);
    }
  }

  /** `p` with the pixel (x, y) replaced by `c`. */
  function Repaint(p: Picture, x: nat, y: nat, c: Rgb): (q: Picture)
    requires x < p.width && y < p.height
    ensures q.mode == p.mode && q.width == p.width && q.height == p.height
    ensures q.rows[y][x] == c
    ensures forall j, i :: 0 <= j < p.height && 0 <= i < p.width && (j, i) != (y, x) ==> q.rows[j][i] == p.rows[j][i]
  {
    p.(rows := p.rows[y := p.rows[y][x := c]])
  }

  lemma {:induction false} RowDifferenceOnePixel(a: seq<Rgb>, x: nat, c: Rgb)
    requires x < |a|
    ensures RowDifference(a, a[x := c]) == PixelDifference(a[x], c)
  {
    if x == 0 {
      assert a[x := c][1..] == a[1..];
    } else {
      assert a[x := c][1..] == a[1..][x - 1 := c];
      RowDifferenceOnePixel(a[1..], x - 1, c);
    }
  }

  lemma {:induction false} RowsDifferenceOnePixel(a: seq<seq<Rgb>>, x: nat, y: nat, c: Rgb)
    requires y < |a| && x < |a[y]|
    ensures SameShape(a, a[y := a[y][x := c]])
    ensures RowsDifference(a, a[y := a[y][x := c]]) == PixelDifference(a[y][x], c)
  {
    var b := a[y := a[y][x := c]];
    if y == 0 {
      assert b[1..] == a[1..];
      RowDifferenceOnePixel(a[0], x, c);
    } else {
      assert b[1..] == a[1..][y - 1 := a[1..][y - 1][x := c]];
      RowsDifferenceOnePixel(a[1..], x, y - 1, c);
    }
  }

  lemma PixelDifferenceBound(p: Rgb, q: Rgb)
    ensures PixelDifference(p, q) <= 3 * 255
  {
  }

  /**
   * The verdict is a threshold, not exact equality: repainting any single
   * pixel of any one corner, however much its channels change, leaves a
   * set of corners alike to the original.
   */
  lemma OnePixelChangeKeepsCornersAlike(corners: seq<Picture>, k: nat, x: nat, y: nat, c: Rgb)
    requires k < |corners| && x < corners[k].width && y < corners[k].height
    ensures PairwiseComparable(corners, corners[k := Repaint(corners[k], x, y, c)])
    ensures CornerDifference(corners, corners[k := Repaint(corners[k], x, y, c)]) == PixelDifference(corners[k].rows[y][x], c)
    ensures CornersAlike(corners, corners[k := Repaint(corners[k], x, y, c)])
  {
    OnePixelCornerDifference(corners, k, x, y, c);
    PixelDifferenceBound(corners[k].rows[y][x], c);
  }

  lemma {:induction false} OnePixelCornerDifference(corners: seq<Picture>, k: nat, x: nat, y: nat, c: Rgb)
    requires k < |corners| && x < corners[k].width && y < corners[k].height
    ensures PairwiseComparable(corners, corners[k := Repaint(corners[k], x, y, c)])
    ensures CornerDifference(corners, corners[k := Repaint(corners[k], x, y, c)]) == PixelDifference(corners[k].rows[y][x], c)
  {
    var n := |corners| - 1;
    if k == n {
      OnePixelLastCorner(corners, n, x, y, c);
    } else {
      var changed := corners[k := Repaint(corners[k], x, y, c)];
      assert changed[..n] == corners[..n][k := Repaint(corners[k], x, y, c)];
      OnePixelCornerDifference(corners[..n], k, x, y, c);
      assert changed[n] == corners[n];
    }
  }

  /** OnePixelCornerDifference when the repainted corner is the last one. */
  lemma OnePixelLastCorner(corners: seq<Picture>, n: nat, x: nat, y: nat, c: Rgb)
    requires n == |corners| - 1 && x < corners[n].width && y < corners[n].height
    ensures PairwiseComparable(corners, corners[n := Repaint(corners[n], x, y, c)])
    ensures CornerDifference(corners, corners[n := Repaint(corners[n], x, y, c)]) == PixelDifference(corners[n].rows[y][x], c)
  {
    var changed := corners[n := Repaint(corners[n], x, y, c)];
    assert corners[n].rows[y := corners[n].rows[y][x := c]] == changed[n].rows;
    assert changed[..n] == corners[..n];
    CornersAlikeReflexive(corners[..n]);
    RowsDifferenceOnePixel(corners[n].rows, x, y, c);
  }
}
