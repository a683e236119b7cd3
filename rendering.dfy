/** One frame of drawing (`Renderer.renderScene`): clear the canvas, record every entity's screen
    position, and draw a square splat for each entity whose depth lies strictly inside (-1, 1),
    all centroids before all points. The view-projection matrix is a parameter (its construction
    belongs to a library), and the canvas is seen through the sequence of calls made on it. */
module Rendering {
  import opened JavaInt
  import opened Wrappers
  import opened Entities

  /** A call made on the canvas. */
  datatype CanvasCall = Clear | SetPixel(x: Int32, y: Int32, color: Int32, depth: real) | Repaint

  /** The pixel buffer, seen through its size and the calls made on it. */
  class Canvas {
    var width: int
    var height: int
    var calls: seq<CanvasCall>

    constructor (width: int, height: int)
      ensures this.width == width && this.height == height && calls == []
    {
      this.width, this.height := width, height;
      calls := [];
    }

    method Clear()
      modifies this`calls
      ensures calls == old(calls) + [CanvasCall.Clear]
    {
      calls := calls + [CanvasCall.Clear];
    }

    method SetPixel(x: Int32, y: Int32, color: Int32, depth: real)
      modifies this`calls
      ensures calls == old(calls) + [CanvasCall.SetPixel(x, y, color, depth)]
    {
      calls := calls + [CanvasCall.SetPixel(x, y, color, depth)];
    }

    method Repaint()
      modifies this`calls
      ensures calls == old(calls) + [CanvasCall.Repaint]
    {
      calls := calls + [CanvasCall.Repaint];
    }
  }

  /** A transformed position after the perspective divide: screen column and row before
      truncation, and normalised device depth. */
  datatype Projected = Projected(sx: real, sy: real, depth: real)

  /** A fraction of a non-negative extent lies within that extent. */
  lemma ScaleWithin(u: real, extent: real)
    requires 0.0 <= u <= 1.0 && extent >= 0.0
    ensures 0.0 <= u * extent <= extent
  {
    assert extent - u * extent == (1.0 - u) * extent;
  }

  /** Normalised device x to screen column: the left edge is column 0, the right edge `width`. */
  function Column(ndcX: real, width: int): (col: real)
    ensures ndcX == -1.0 ==> col == 0.0
    ensures ndcX == 1.0 ==> col == width as real
    ensures ndcX == 0.0 ==> col == width as real / 2.0
  {
    ((ndcX + 1.0) / 2.0) * width as real
  }

  /** Normalised device y to screen row, flipped: the top edge is row 0, the bottom edge `height`. */
  function Row(ndcY: real, height: int): (row: real)
    ensures ndcY == 1.0 ==> row == 0.0
    ensures ndcY == -1.0 ==> row == height as real
    ensures ndcY == 0.0 ==> row == height as real / 2.0
  {
    ((-ndcY + 1.0) / 2.0) * height as real
  }

  /** A product of two positive reals is positive. */
  lemma PositiveProduct(a: real, b: real)
    requires a > 0.0 && b > 0.0
    ensures a * b > 0.0
  {
  }

  /** Further right in device space is further right on screen. */
  lemma ColumnIncreasing(a: real, b: real, width: int)
    requires a < b && width > 0
    ensures Column(a, width) < Column(b, width)
  {
    var wr := width as real;
    var u, v := (a + 1.0) / 2.0, (b + 1.0) / 2.0;
    PositiveProduct(v - u, wr);
    assert v * wr - u * wr == (v - u) * wr;
  }

  /** Higher in device space is a smaller row on screen. */
  lemma RowDecreasing(a: real, b: real, height: int)
    requires a < b && height > 0
    ensures Row(a, height) > Row(b, height)
  {
    var hr := height as real;
    var u, v := (-a + 1.0) / 2.0, (-b + 1.0) / 2.0;
    PositiveProduct(u - v, hr);
    assert u * hr - v * hr == (u - v) * hr;
  }

  /** The perspective divide of a clip-space position and the mapping to the screen. */
  function Project(t: Vec4, width: int, height: int): Projected
    requires t.w != 0.0
  {
    Projected(Column(t.x / t.w, width), Row(t.y / t.w, height), t.z / t.w)
  }

  /** A device x inside [-1, 1] lands on a column of the canvas. */
  lemma ColumnOnCanvas(ndcX: real, width: int)
    requires -1.0 <= ndcX <= 1.0 && width >= 0
    ensures 0.0 <= Column(ndcX, width) <= width as real
  {
    var u := (ndcX + 1.0) / 2.0;
    assert 0.0 <= u <= 1.0;
    ScaleWithin(u, width as real);
    assert Column(ndcX, width) == u * width as real;
  }

  /** A device y inside [-1, 1] lands on a row of the canvas. */
  lemma RowOnCanvas(ndcY: real, height: int)
    requires -1.0 <= ndcY <= 1.0 && height >= 0
    ensures 0.0 <= Row(ndcY, height) <= height as real
  {
    var v := (-ndcY + 1.0) / 2.0;
    assert 0.0 <= v <= 1.0;
    ScaleWithin(v, height as real);
    assert Row(ndcY, height) == v * height as real;
  }

  /** Whatever lies inside the view volume's x and y range lands on the canvas. */
  lemma ProjectOnCanvas(t: Vec4, width: int, height: int)
    requires t.w != 0.0
    ensures -1.0 <= t.x / t.w <= 1.0 && width >= 0 ==> 0.0 <= Project(t, width, height).sx <= width as real
    ensures -1.0 <= t.y / t.w <= 1.0 && height >= 0 ==> 0.0 <= Project(t, width, height).sy <= height as real
  {
    if -1.0 <= t.x / t.w <= 1.0 && width >= 0 {
      ColumnOnCanvas(t.x / t.w, width);
    }
    if -1.0 <= t.y / t.w <= 1.0 && height >= 0 {
      RowOnCanvas(t.y / t.w, height);
    }
  }

  /** The screen position stored for an entity: each coordinate cast to `int`, so a position
      on the canvas is stored as the pixel it falls in. */
  function ScreenOf(p: Projected): (s: Screen)
    ensures 0.0 <= p.sx < MAX as real ==> s.x as real <= p.sx < s.x as real + 1.0
    ensures 0.0 <= p.sy < MAX as real ==> s.y as real <= p.sy < s.y as real + 1.0
  {
    Screen(FromReal(p.sx), FromReal(p.sy))
  }

  /** The depth cull: an entity is drawn only when its depth lies strictly inside (-1, 1). */
  predicate Visible(p: Projected)
  {
    -1.0 < p.depth < 1.0
  }

  /** Half the side of a centroid's square (9 by 9) and of a point's (3 by 3). */
  const CentroidHalf: nat := 4
  const PointHalf: nat := 1

  /** `c + d` in Java `int` arithmetic. */
  function Offset(c: Int32, d: int): Int32
  {
    Wrap(c as int + d)
  }

  /** The writes of `n` steps of the inner loop: column `x`, rows `sy - h` onwards. */
  function Strip(x: Int32, sy: Int32, h: nat, color: Int32, depth: real, n: nat): seq<CanvasCall>
  {
    if n == 0 then []
    else Strip(x, sy, h, color, depth, n - 1) + [SetPixel(x, Offset(sy, n - 1 - h), color, depth)]
  }

  /** The writes of `m` steps of the outer loop: columns `s.x - h` onwards, each a full strip. */
  function Block(s: Screen, h: nat, color: Int32, depth: real, m: nat): seq<CanvasCall>
  {
    if m == 0 then []
    else Block(s, h, color, depth, m - 1) + Strip(Offset(s.x, m - 1 - h), s.y, h, color, depth, 2 * h + 1)
  }

  /** The square of side 2h+1 centred on `s`, column by column. */
  function Splat(s: Screen, h: nat, color: Int32, depth: real): seq<CanvasCall>
  {
    Block(s, h, color, depth, 2 * h + 1)
  }

  /** (m - 1) * n + n == m * n, kept apart from the sequence reasoning. */
  lemma MulStep(m: int, n: int)
    ensures (m - 1) * n + n == m * n
  {
  }

  lemma {:induction false} StripLength(x: Int32, sy: Int32, h: nat, color: Int32, depth: real, n: nat)
    ensures |Strip(x, sy, h, color, depth, n)| == n
  {
    if n > 0 {
      StripLength(x, sy, h, color, depth, n - 1);
    }
  }

  /** Step t of the inner loop writes row offset t - h. */
  lemma {:induction false} StripAt(x: Int32, sy: Int32, h: nat, color: Int32, depth: real, n: nat, t: nat)
    requires t < n
    ensures t < |Strip(x, sy, h, color, depth, n)|
    ensures Strip(x, sy, h, color, depth, n)[t] == SetPixel(x, Offset(sy, t - h), color, depth)
  {
    StripLength(x, sy, h, color, depth, n);
    StripLength(x, sy, h, color, depth, n - 1);
    if t < n - 1 {
      StripAt(x, sy, h, color, depth, n - 1, t);
    }
  }

  /** Every write of a strip is in column `x`, on a row offset in [-h, h], in the strip's colour. */
  lemma {:induction false} StripOnly(x: Int32, sy: Int32, h: nat, color: Int32, depth: real, n: nat)
    requires n <= 2 * h + 1
    ensures forall e :: e in Strip(x, sy, h, color, depth, n) ==>
      (exists j :: -(h as int) <= j <= h && e == SetPixel(x, Offset(sy, j), color, depth))
  {
    if n > 0 {
      StripOnly(x, sy, h, color, depth, n - 1);
      var j := n - 1 - h;
      StripAt(x, sy, h, color, depth, n, n - 1);
      assert Strip(x, sy, h, color, depth, n)[n - 1] == SetPixel(x, Offset(sy, j), color, depth);
    }
  }

  lemma {:induction false} BlockLength(s: Screen, h: nat, color: Int32, depth: real, m: nat)
    ensures |Block(s, h, color, depth, m)| == m * (2 * h + 1)
  {
    if m > 0 {
      var n := 2 * h + 1;
      BlockLength(s, h, color, depth, m - 1);
      StripLength(Offset(s.x, m - 1 - h), s.y, h, color, depth, n);
      assert |Block(s, h, color, depth, m)| == (m - 1) * n + n;
      MulStep(m, n);
    }
  }

  /** Step (a, t) of the nested loops, which comes after the a full strips written before it,
      writes column offset a - h and row offset t - h. */
  lemma {:induction false} BlockAt(s: Screen, h: nat, color: Int32, depth: real, m: nat, a: nat, t: nat)
    requires a < m && t < 2 * h + 1
    ensures |Block(s, h, color, depth, a)| + t < |Block(s, h, color, depth, m)|
    ensures Block(s, h, color, depth, m)[|Block(s, h, color, depth, a)| + t] ==
      SetPixel(Offset(s.x, a - h), Offset(s.y, t - h), color, depth)
  {
    var n := 2 * h + 1;
    var prev := Block(s, h, color, depth, m - 1);
    var strip := Strip(Offset(s.x, m - 1 - h), s.y, h, color, depth, n);
    assert Block(s, h, color, depth, m) == prev + strip;
    StripLength(Offset(s.x, m - 1 - h), s.y, h, color, depth, n);
    var k := |Block(s, h, color, depth, a)| + t;
    if a == m - 1 {
      StripAt(Offset(s.x, m - 1 - h), s.y, h, color, depth, n, t);
      assert (prev + strip)[k] == strip[t];
    } else {
      BlockAt(s, h, color, depth, m - 1, a, t);
      assert (prev + strip)[k] == prev[k];
    }
  }

  /** Every write of the first `m` columns is at a column offset and row offset in [-h, h]. */
  lemma {:induction false} BlockOnly(s: Screen, h: nat, color: Int32, depth: real, m: nat)
    requires m <= 2 * h + 1
    ensures forall e :: e in Block(s, h, color, depth, m) ==>
      (exists i, j :: -(h as int) <= i <= h && -(h as int) <= j <= h &&
        e == SetPixel(Offset(s.x, i), Offset(s.y, j), color, depth))
  {
    if m > 0 {
      BlockOnly(s, h, color, depth, m - 1);
      var i := m - 1 - h;
      var strip := Strip(Offset(s.x, i), s.y, h, color, depth, 2 * h + 1);
      StripOnly(Offset(s.x, i), s.y, h, color, depth, 2 * h + 1);
      forall e | e in strip
        ensures exists i, j :: (-(h as int) <= i <= h && -(h as int) <= j <= h &&
          e == SetPixel(Offset(s.x, i), Offset(s.y, j), color, depth))
      {
        var j :| -(h as int) <= j <= h && e == SetPixel(Offset(s.x, i), Offset(s.y, j), color, depth);
      }
    }
  }

  /** A splat has (2h+1)^2 writes: 81 for a centroid, 9 for a point. */
  lemma SplatLength(s: Screen, h: nat, color: Int32, depth: real)
    ensures |Splat(s, h, color, depth)| == (2 * h + 1) * (2 * h + 1)
  {
    BlockLength(s, h, color, depth, 2 * h + 1);
  }

  /** Every offset pair (i, j) in [-h, h]^2 from the centre is written, in the splat's colour and
      depth: it is step (i + h, j + h) of the nested loops. */
  lemma SplatCovers(s: Screen, h: nat, color: Int32, depth: real, i: int, j: int)
    requires -(h as int) <= i <= h && -(h as int) <= j <= h
    ensures SetPixel(Offset(s.x, i), Offset(s.y, j), color, depth) in Splat(s, h, color, depth)
  {
    var a: nat, t: nat := i + h, j + h;
    var b := Block(s, h, color, depth, 2 * h + 1);
    assert Splat(s, h, color, depth) == b;
    BlockAt(s, h, color, depth, 2 * h + 1, a, t);
    var k := |Block(s, h, color, depth, a)| + t;
    assert b[k] == SetPixel(Offset(s.x, i), Offset(s.y, j), color, depth);
  }

  /** Nothing but those offset pairs is written: every write of a splat is a pixel at offsets in
      [-h, h]^2 from the centre, in the splat's colour and depth. */
  lemma SplatOnly(s: Screen, h: nat, color: Int32, depth: real)
    ensures forall e :: e in Splat(s, h, color, depth) ==>
      (exists i, j :: -(h as int) <= i <= h && -(h as int) <= j <= h &&
        e == SetPixel(Offset(s.x, i), Offset(s.y, j), color, depth))
  {
    BlockOnly(s, h, color, depth, 2 * h + 1);
  }

  /** Away from the ends of the `int` range the offsets are plain sums: a centroid's splat holds
      the pixels (x + i, y + j) for i, j in [-4, 4], a point's those for i, j in [-1, 1]. */
  lemma SplatCoordinates(s: Screen, h: nat, color: Int32, depth: real, i: int, j: int)
    requires -(h as int) <= i <= h && -(h as int) <= j <= h
    requires MIN + h <= s.x as int <= MAX - h && MIN + h <= s.y as int <= MAX - h
    ensures SetPixel((s.x as int + i) as Int32, (s.y as int + j) as Int32, color, depth) in Splat(s, h, color, depth)
  {
    SplatCovers(s, h, color, depth, i, j);
    assert Offset(s.x, i) as int == s.x as int + i;
    assert Offset(s.y, j) as int == s.y as int + j;
  }

  /** What one entity writes: its splat when it passes the depth cull, nothing otherwise. */
  function EntityWrites(p: Projected, h: nat, color: Int32): seq<CanvasCall>
  {
    if Visible(p) then Splat(ScreenOf(p), h, color, p.depth) else []
  }

  /** An entity writes pixels if and only if its depth lies strictly inside (-1, 1), and every
      write it makes is a pixel in its own colour at its own depth. */
  lemma EntityWritesCulled(p: Projected, h: nat, color: Int32)
    ensures EntityWrites(p, h, color) == [] <==> !Visible(p)
    ensures forall e :: e in EntityWrites(p, h, color) ==> e.SetPixel? && e.color == color && e.depth == p.depth
  {
    if Visible(p) {
      SplatOnly(ScreenOf(p), h, color, p.depth);
      SplatCovers(ScreenOf(p), h, color, p.depth, 0, 0);
      assert SetPixel(Offset(ScreenOf(p).x, 0), Offset(ScreenOf(p).y, 0), color, p.depth) in EntityWrites(p, h, color);
    }
  }

  /** The screen position an entity at `position` gets this frame. */
  function ScreenFor(position: Vec4, viewProjection: Vec4 -> Vec4, width: int, height: int): Screen
    requires viewProjection(position).w != 0.0
  {
    ScreenOf(Project(viewProjection(position), width, height))
  }

  /** Whether the entity at `position` passes the depth cull this frame. */
  predicate Drawn(position: Vec4, viewProjection: Vec4 -> Vec4, width: int, height: int)
    requires viewProjection(position).w != 0.0
  {
    Visible(Project(viewProjection(position), width, height))
  }

  /** Every centroid's transform has a non-zero w, so the divide the renderer performs is defined. */
  predicate CentroidsDivisible(cs: seq<Centroid>, viewProjection: Vec4 -> Vec4)
  {
    forall k :: 0 <= k < |cs| ==> viewProjection(cs[k].position).w != 0.0
  }

  /** Every point's transform has a non-zero w. */
  predicate PointsDivisible(ps: seq<Point>, viewProjection: Vec4 -> Vec4)
  {
    forall k :: 0 <= k < |ps| ==> viewProjection(ps[k].position).w != 0.0
  }

  /** A centroid once the frame has recorded its screen position. */
  function CentroidAfter(c: Centroid, viewProjection: Vec4 -> Vec4, width: int, height: int): Centroid
    requires viewProjection(c.position).w != 0.0
  {
    c.(screen := ScreenFor(c.position, viewProjection, width, height))
  }

  /** A point once the frame has recorded its screen position. */
  function PointAfter(p: Point, viewProjection: Vec4 -> Vec4, width: int, height: int): Point
    requires viewProjection(p.position).w != 0.0
  {
    p.(screen := ScreenFor(p.position, viewProjection, width, height))
  }

  /** The centroid list once the frame has recorded every screen position. */
  function CentroidsAfter(cs: seq<Centroid>, viewProjection: Vec4 -> Vec4, width: int, height: int): seq<Centroid>
    requires CentroidsDivisible(cs, viewProjection)
  {
    if cs == [] then []
    else
      CentroidsAfter(cs[..|cs| - 1], viewProjection, width, height) +
      [CentroidAfter(cs[|cs| - 1], viewProjection, width, height)]
  }

  /** The point list once the frame has recorded every screen position. */
  function PointsAfter(ps: seq<Point>, viewProjection: Vec4 -> Vec4, width: int, height: int): seq<Point>
    requires PointsDivisible(ps, viewProjection)
  {
    if ps == [] then []
    else
      PointsAfter(ps[..|ps| - 1], viewProjection, width, height) +
      [PointAfter(ps[|ps| - 1], viewProjection, width, height)]
  }

  /** Recording the screen positions changes each centroid's screen position and nothing else:
      same length, same order, same colour and position. */
  lemma {:induction false} CentroidsAfterAt(cs: seq<Centroid>, viewProjection: Vec4 -> Vec4, width: int, height: int)
    requires CentroidsDivisible(cs, viewProjection)
    ensures |CentroidsAfter(cs, viewProjection, width, height)| == |cs|
    ensures forall k :: 0 <= k < |cs| ==>
      CentroidsAfter(cs, viewProjection, width, height)[k] == CentroidAfter(cs[k], viewProjection, width, height)
  {
    if cs != [] {
      var last := |cs| - 1;
      CentroidsAfterAt(cs[..last], viewProjection, width, height);
      forall k | 0 <= k < last
        ensures CentroidsAfter(cs, viewProjection, width, height)[k] == CentroidAfter(cs[k], viewProjection, width, height)
      {
        assert cs[..last][k] == cs[k];
      }
    }
  }

  /** Recording the screen positions changes each point's screen position and nothing else. */
  lemma {:induction false} PointsAfterAt(ps: seq<Point>, viewProjection: Vec4 -> Vec4, width: int, height: int)
    requires PointsDivisible(ps, viewProjection)
    ensures |PointsAfter(ps, viewProjection, width, height)| == |ps|
    ensures forall k :: 0 <= k < |ps| ==>
      PointsAfter(ps, viewProjection, width, height)[k] == PointAfter(ps[k], viewProjection, width, height)
  {
    if ps != [] {
      var last := |ps| - 1;
      PointsAfterAt(ps[..last], viewProjection, width, height);
      forall k | 0 <= k < last
        ensures PointsAfter(ps, viewProjection, width, height)[k] == PointAfter(ps[k], viewProjection, width, height)
      {
        assert ps[..last][k] == ps[k];
      }
    }
  }

  /** Part-way through the point loop, or after it, every point keeps its position and its
      centroid reference. */
  lemma PointsAfterKeeps(p0: seq<Point>, f: nat, n: nat, viewProjection: Vec4 -> Vec4, width: int, height: int)
    requires PointsDivisible(p0, viewProjection) && f <= |p0|
    ensures PointsDivisible(p0[..f], viewProjection)
    ensures var ps := PointsAfter(p0[..f], viewProjection, width, height) + p0[f..];
      |ps| == |p0| &&
      (forall i :: 0 <= i < |p0| ==> ps[i].position == p0[i].position && ps[i].centroid == p0[i].centroid) &&
      PointsDivisible(ps, viewProjection) && (RefsWithin(p0, n) ==> RefsWithin(ps, n))
  {
    assert PointsDivisible(p0[..f], viewProjection);
    PointsAfterAt(p0[..f], viewProjection, width, height);
    var ps := PointsAfter(p0[..f], viewProjection, width, height) + p0[f..];
    forall i | 0 <= i < |p0|
      ensures ps[i].position == p0[i].position && ps[i].centroid == p0[i].centroid
    {
      if i < f {
        assert p0[..f][i] == p0[i];
      } else {
        assert ps[i] == p0[f..][i - f];
      }
    }
  }

  /** Step k of the centroid loop: the list is the first k centroids recorded followed by the
      rest untouched; recording centroid k extends the recorded part by one. */
  lemma CentroidsAfterStep(cs: seq<Centroid>, viewProjection: Vec4 -> Vec4, width: int, height: int, k: nat)
    requires CentroidsDivisible(cs, viewProjection) && k < |cs|
    ensures CentroidsDivisible(cs[..k], viewProjection) && CentroidsDivisible(cs[..k + 1], viewProjection)
    ensures |CentroidsAfter(cs[..k], viewProjection, width, height)| == k
    ensures (CentroidsAfter(cs[..k], viewProjection, width, height) + cs[k..])[k] == cs[k]
    ensures (CentroidsAfter(cs[..k], viewProjection, width, height) + cs[k..])[k := CentroidAfter(cs[k], viewProjection, width, height)] ==
      CentroidsAfter(cs[..k + 1], viewProjection, width, height) + cs[k + 1..]
  {
    CentroidsAfterAt(cs[..k], viewProjection, width, height);
    assert cs[..k + 1][..k] == cs[..k];
    var a := CentroidsAfter(cs[..k], viewProjection, width, height);
    var x := CentroidAfter(cs[k], viewProjection, width, height);
    assert (a + cs[k..])[k := x] == a + [x] + cs[k + 1..];
  }

  /** Step k of the point loop, as for centroids. */
  lemma PointsAfterStep(ps: seq<Point>, viewProjection: Vec4 -> Vec4, width: int, height: int, k: nat)
    requires PointsDivisible(ps, viewProjection) && k < |ps|
    ensures PointsDivisible(ps[..k], viewProjection) && PointsDivisible(ps[..k + 1], viewProjection)
    ensures |PointsAfter(ps[..k], viewProjection, width, height)| == k
    ensures (PointsAfter(ps[..k], viewProjection, width, height) + ps[k..])[k] == ps[k]
    ensures (PointsAfter(ps[..k], viewProjection, width, height) + ps[k..])[k := PointAfter(ps[k], viewProjection, width, height)] ==
      PointsAfter(ps[..k + 1], viewProjection, width, height) + ps[k + 1..]
  {
    PointsAfterAt(ps[..k], viewProjection, width, height);
    assert ps[..k + 1][..k] == ps[..k];
    var a := PointsAfter(ps[..k], viewProjection, width, height);
    var x := PointAfter(ps[k], viewProjection, width, height);
    assert (a + ps[k..])[k := x] == a + [x] + ps[k + 1..];
  }

  /** How many centroids pass the depth cull. */
  function CentroidsDrawn(cs: seq<Centroid>, viewProjection: Vec4 -> Vec4, width: int, height: int): nat
    requires CentroidsDivisible(cs, viewProjection)
  {
    if cs == [] then 0
    else
      CentroidsDrawn(cs[..|cs| - 1], viewProjection, width, height) +
      if Drawn(cs[|cs| - 1].position, viewProjection, width, height) then 1 else 0
  }

  /** The writes of the centroid loop, centroid by centroid in list order: a 9 by 9 square for
      every centroid that passes the depth cull, and nothing for the others. */
  function CentroidWrites(cs: seq<Centroid>, viewProjection: Vec4 -> Vec4, width: int, height: int): (ws: seq<CanvasCall>)
    requires CentroidsDivisible(cs, viewProjection)
    ensures |ws| == 81 * CentroidsDrawn(cs, viewProjection, width, height)
  {
    if cs == [] then []
    else
      var c := cs[|cs| - 1];
      var pr := Project(viewProjection(c.position), width, height);
      SplatLength(ScreenOf(pr), CentroidHalf, c.color, pr.depth);
      CentroidWrites(cs[..|cs| - 1], viewProjection, width, height) +
      EntityWrites(pr, CentroidHalf, c.color)
  }

  /** The centroid loop's writes grow by one entity's writes per step. */
  lemma CentroidWritesSnoc(cs: seq<Centroid>, viewProjection: Vec4 -> Vec4, width: int, height: int, k: nat)
    requires CentroidsDivisible(cs, viewProjection) && k < |cs|
    ensures CentroidsDivisible(cs[..k], viewProjection) && CentroidsDivisible(cs[..k + 1], viewProjection)
    ensures CentroidWrites(cs[..k + 1], viewProjection, width, height) ==
      CentroidWrites(cs[..k], viewProjection, width, height) +
      EntityWrites(Project(viewProjection(cs[k].position), width, height), CentroidHalf, cs[k].color)
  {
    assert cs[..k + 1][..k] == cs[..k];
  }

  /** A drawn point without a centroid: reading its centroid's colour throws. */
  predicate Faults(p: Point, viewProjection: Vec4 -> Vec4, width: int, height: int)
    requires viewProjection(p.position).w != 0.0
  {
    p.centroid.None? && Drawn(p.position, viewProjection, width, height)
  }

  /** Every point's transform is defined, every centroid reference is in `cs`, and no point faults. */
  predicate Drawable(ps: seq<Point>, cs: seq<Centroid>, viewProjection: Vec4 -> Vec4, width: int, height: int)
  {
    PointsDivisible(ps, viewProjection) &&
    (forall k :: 0 <= k < |ps| && ps[k].centroid.Some? ==> ps[k].centroid.value < |cs|) &&
    (forall k :: 0 <= k < |ps| ==> !Faults(ps[k], viewProjection, width, height))
  }

  /** How many points pass the depth cull. */
  function PointsDrawn(ps: seq<Point>, viewProjection: Vec4 -> Vec4, width: int, height: int): nat
    requires PointsDivisible(ps, viewProjection)
  {
    if ps == [] then 0
    else
      PointsDrawn(ps[..|ps| - 1], viewProjection, width, height) +
      if Drawn(ps[|ps| - 1].position, viewProjection, width, height) then 1 else 0
  }

  /** The writes of the point loop, point by point in list order, each in its centroid's colour:
      a 3 by 3 square for every point that passes the depth cull, and nothing for the others. */
  function PointWrites(ps: seq<Point>, cs: seq<Centroid>, viewProjection: Vec4 -> Vec4, width: int, height: int): (ws: seq<CanvasCall>)
    requires Drawable(ps, cs, viewProjection, width, height)
    ensures |ws| == 9 * PointsDrawn(ps, viewProjection, width, height)
  {
    if ps == [] then []
    else
      var p := ps[|ps| - 1];
      var pr := Project(viewProjection(p.position), width, height);
      assert !Faults(p, viewProjection, width, height);
      assert Drawable(ps[..|ps| - 1], cs, viewProjection, width, height);
      PointWrites(ps[..|ps| - 1], cs, viewProjection, width, height) +
      if Visible(pr) then
        SplatLength(ScreenOf(pr), PointHalf, cs[p.centroid.value].color, pr.depth);
        EntityWrites(pr, PointHalf, cs[p.centroid.value].color)
      else []
  }

  /** The point loop's writes grow by one point's writes per step; a point that does not
      fault keeps the prefix drawable. */
  lemma PointWritesSnoc(ps: seq<Point>, cs: seq<Centroid>, viewProjection: Vec4 -> Vec4, width: int, height: int, k: nat)
    requires PointsDivisible(ps, viewProjection) && k < |ps|
    requires Drawable(ps[..k], cs, viewProjection, width, height)
    requires ps[k].centroid.Some? ==> ps[k].centroid.value < |cs|
    requires !Faults(ps[k], viewProjection, width, height)
    ensures Drawable(ps[..k + 1], cs, viewProjection, width, height)
    ensures var pr := Project(viewProjection(ps[k].position), width, height);
      PointWrites(ps[..k + 1], cs, viewProjection, width, height) ==
      PointWrites(ps[..k], cs, viewProjection, width, height) +
      if Visible(pr) then EntityWrites(pr, PointHalf, cs[ps[k].centroid.value].color) else []
  {
    assert ps[..k + 1][..k] == ps[..k];
    assert ps[..k + 1][k] == ps[k];
  }

  /** The renderer draws into one canvas. */
  class Renderer {
    const canvas: Canvas

    constructor (canvas: Canvas)
      ensures this.canvas == canvas
    {
      this.canvas := canvas;
    }

    /** The nested loops that draw one splat: columns -h..h outer, rows -h..h inner. */
    method DrawSplat(s: Screen, h: nat, color: Int32, depth: real)
      modifies canvas`calls
      ensures canvas.calls == old(canvas.calls) + Splat(s, h, color, depth)
    {
      for i: int := -(h as int) to h + 1
        invariant canvas.calls == old(canvas.calls) + Block(s, h, color, depth, i + h)
      {
        ghost var before := canvas.calls;
        for j: int := -(h as int) to h + 1
          invariant canvas.calls == before + Strip(Offset(s.x, i), s.y, h, color, depth, j + h)
        {
          canvas.SetPixel(Offset(s.x, i), Offset(s.y, j), color, depth);
        }
      }
    }

    /** The centroid loop of a frame: record every centroid's screen position and draw the
        splat of each one that passes the depth cull, in list order. */
    method DrawCentroids(scene: Scene, viewProjection: Vec4 -> Vec4, width: int, height: int)
      requires CentroidsDivisible(scene.centroids, viewProjection)
      modifies canvas`calls, scene`centroids
      ensures scene.centroids == CentroidsAfter(old(scene.centroids), viewProjection, width, height)
      ensures canvas.calls == old(canvas.calls) + CentroidWrites(old(scene.centroids), viewProjection, width, height)
    {
      var c0 := scene.centroids;
      for k := 0 to |c0|
        invariant CentroidsDivisible(c0[..k], viewProjection)
        invariant scene.centroids == CentroidsAfter(c0[..k], viewProjection, width, height) + c0[k..]
        invariant canvas.calls == old(canvas.calls) + CentroidWrites(c0[..k], viewProjection, width, height)
      {
        CentroidsAfterStep(c0, viewProjection, width, height, k);
        CentroidWritesSnoc(c0, viewProjection, width, height, k);
        ghost var before := canvas.calls;
        var centroid := scene.centroids[k];
        var projected := Project(viewProjection(centroid.position), width, height);
        var screen := ScreenOf(projected);
        scene.centroids := scene.centroids[k := centroid.(screen := screen)];
        if Visible(projected) {
          DrawSplat(screen, CentroidHalf, centroid.color, projected.depth);
        } else {
          assert before + [] == before;
        }
        AppendAssoc(old(canvas.calls), CentroidWrites(c0[..k], viewProjection, width, height),
          EntityWrites(projected, CentroidHalf, centroid.color));
      }
      assert c0[..|c0|] == c0 && c0[|c0|..] == [];
    }

    /** The point loop of a frame: record every point's screen position and draw the splat of
        each one that passes the depth cull, in its centroid's colour. A drawn point without a
        centroid stops the loop right after its screen position is recorded. */
    method DrawPoints(scene: Scene, viewProjection: Vec4 -> Vec4, width: int, height: int) returns (fault: Option<nat>)
      requires scene.Valid()
      requires PointsDivisible(scene.points, viewProjection)
      modifies canvas`calls, scene`points
      ensures scene.Valid() && PointsDivisible(scene.points, viewProjection)
      ensures var p0, cs := old(scene.points), scene.centroids;
        fault.None? ==>
          Drawable(p0, cs, viewProjection, width, height) &&
          scene.points == PointsAfter(p0, viewProjection, width, height) &&
          canvas.calls == old(canvas.calls) + PointWrites(p0, cs, viewProjection, width, height)
      ensures var p0, cs := old(scene.points), scene.centroids;
        fault.Some? ==>
          var f := fault.value;
          f < |p0| && Faults(p0[f], viewProjection, width, height) &&
          Drawable(p0[..f], cs, viewProjection, width, height) &&
          PointsDivisible(p0[..f + 1], viewProjection) &&
          scene.points == PointsAfter(p0[..f + 1], viewProjection, width, height) + p0[f + 1..] &&
          canvas.calls == old(canvas.calls) + PointWrites(p0[..f], cs, viewProjection, width, height)
    {
      var p0, cs := scene.points, scene.centroids;
      for k := 0 to |p0|
        invariant PointsDivisible(p0[..k], viewProjection)
        invariant scene.points == PointsAfter(p0[..k], viewProjection, width, height) + p0[k..]
        invariant Drawable(p0[..k], cs, viewProjection, width, height)
        invariant canvas.calls == old(canvas.calls) + PointWrites(p0[..k], cs, viewProjection, width, height)
      {
        PointsAfterStep(p0, viewProjection, width, height, k);
        var point := scene.points[k];
        var projected := Project(viewProjection(point.position), width, height);
        var screen := ScreenOf(projected);
        scene.points := scene.points[k := point.(screen := screen)];
        ghost var before := canvas.calls;
        if Visible(projected) {
          if point.centroid.None? {
            PointsAfterKeeps(p0, k + 1, |cs|, viewProjection, width, height);
            fault := Some(k);
            return;
          }
          PointWritesSnoc(p0, cs, viewProjection, width, height, k);
          DrawSplat(screen, PointHalf, cs[point.centroid.value].color, projected.depth);
          AppendAssoc(old(canvas.calls), PointWrites(p0[..k], cs, viewProjection, width, height),
            EntityWrites(projected, PointHalf, cs[point.centroid.value].color));
        } else {
          PointWritesSnoc(p0, cs, viewProjection, width, height, k);
          assert PointWrites(p0[..k], cs, viewProjection, width, height) + [] == PointWrites(p0[..k], cs, viewProjection, width, height);
        }
      }
      assert p0[..|p0|] == p0 && p0[|p0|..] == [];
      PointsAfterKeeps(p0, |p0|, |cs|, viewProjection, width, height);
      fault := None;
    }

    /** One frame (`renderScene`). The canvas is cleared; every centroid, then every point, gets
        its screen position recorded and, when it passes the depth cull, its splat drawn; then
        the canvas is repainted. Nothing but the entities' screen positions changes. A drawn
        point with no centroid makes reading its colour throw: the frame stops there, after that
        point's screen position is recorded and before the repaint, and `fault` names the point. */
    method RenderScene(scene: Scene, viewProjection: Vec4 -> Vec4) returns (fault: Option<nat>)
      requires scene.Valid()
      requires CentroidsDivisible(scene.centroids, viewProjection)
      requires PointsDivisible(scene.points, viewProjection)
      modifies canvas`calls, scene`centroids, scene`points
      ensures scene.Valid()
      ensures CentroidsDivisible(scene.centroids, viewProjection) && PointsDivisible(scene.points, viewProjection)
      ensures scene.centroids == CentroidsAfter(old(scene.centroids), viewProjection, canvas.width, canvas.height)
      ensures var c0, p0, width, height := old(scene.centroids), old(scene.points), canvas.width, canvas.height;
        fault.None? ==>
          Drawable(p0, c0, viewProjection, width, height) &&
          scene.points == PointsAfter(p0, viewProjection, width, height) &&
          canvas.calls == old(canvas.calls) + [CanvasCall.Clear] + CentroidWrites(c0, viewProjection, width, height)
            + PointWrites(p0, c0, viewProjection, width, height) + [CanvasCall.Repaint]
      ensures var c0, p0, width, height := old(scene.centroids), old(scene.points), canvas.width, canvas.height;
        fault.Some? ==>
          var f := fault.value;
          f < |p0| && Faults(p0[f], viewProjection, width, height) &&
          Drawable(p0[..f], c0, viewProjection, width, height) &&
          PointsDivisible(p0[..f + 1], viewProjection) &&
          scene.points == PointsAfter(p0[..f + 1], viewProjection, width, height) + p0[f + 1..] &&
          canvas.calls == old(canvas.calls) + [CanvasCall.Clear] + CentroidWrites(c0, viewProjection, width, height)
            + PointWrites(p0[..f], c0, viewProjection, width, height)
    {
      canvas.Clear();
      var width, height := canvas.width, canvas.height;
      ghost var c0, p0 := scene.centroids, scene.points;
      DrawCentroids(scene, viewProjection, width, height);
      CentroidsAfterAt(c0, viewProjection, width, height);
      assert scene.Valid();
      fault := DrawPoints(scene, viewProjection, width, height);
      if fault.None? {
        SameColoursSameWrites(p0, scene.centroids, c0, viewProjection, width, height);
        canvas.Repaint();
      } else {
        SameColoursSameWrites(p0[..fault.value], scene.centroids, c0, viewProjection, width, height);
      }
    }
  }

  /** Point writes depend on the centroids only through their colours. */
  lemma {:induction false} SameColoursSameWrites(ps: seq<Point>, cs: seq<Centroid>, cs': seq<Centroid>, viewProjection: Vec4 -> Vec4, width: int, height: int)
    requires Drawable(ps, cs, viewProjection, width, height)
    requires |cs'| == |cs| && forall k :: 0 <= k < |cs| ==> cs'[k].color == cs[k].color
    ensures Drawable(ps, cs', viewProjection, width, height)
    ensures PointWrites(ps, cs, viewProjection, width, height) == PointWrites(ps, cs', viewProjection, width, height)
  {
    if ps != [] {
      var last := |ps| - 1;
      assert Drawable(ps[..last], cs, viewProjection, width, height);
      SameColoursSameWrites(ps[..last], cs, cs', viewProjection, width, height);
      var p := ps[last];
      var pr := Project(viewProjection(p.position), width, height);
      assert !Faults(p, viewProjection, width, height);
      if Visible(pr) {
        assert cs'[p.centroid.value].color == cs[p.centroid.value].color;
      }
    }
  }

  /** Every centroid write is in the colour of some centroid of the list. */
  lemma {:induction false} CentroidWritesColours(cs: seq<Centroid>, viewProjection: Vec4 -> Vec4, width: int, height: int)
    requires CentroidsDivisible(cs, viewProjection)
    ensures forall e :: e in CentroidWrites(cs, viewProjection, width, height) ==>
      e.SetPixel? && exists k :: 0 <= k < |cs| && e.color == cs[k].color
  {
    if cs != [] {
      var last := |cs| - 1;
      CentroidWritesColours(cs[..last], viewProjection, width, height);
      EntityWritesCulled(Project(viewProjection(cs[last].position), width, height), CentroidHalf, cs[last].color);
      forall e | e in CentroidWrites(cs, viewProjection, width, height)
        ensures e.SetPixel? && exists k :: 0 <= k < |cs| && e.color == cs[k].color
      {
        if e in CentroidWrites(cs[..last], viewProjection, width, height) {
          var k :| 0 <= k < last && e.color == cs[..last][k].color;
          assert cs[..last][k] == cs[k];
        } else {
          assert e.color == cs[last].color;
        }
      }
    }
  }

  /** Every point write is in the colour of the centroid some point of the list refers to. */
  lemma {:induction false} PointWritesColours(ps: seq<Point>, cs: seq<Centroid>, viewProjection: Vec4 -> Vec4, width: int, height: int)
    requires Drawable(ps, cs, viewProjection, width, height)
    ensures forall e :: e in PointWrites(ps, cs, viewProjection, width, height) ==>
      e.SetPixel? && exists k :: 0 <= k < |ps| && ps[k].centroid.Some? && e.color == cs[ps[k].centroid.value].color
  {
    if ps != [] {
      var last := |ps| - 1;
      var p := ps[last];
      assert Drawable(ps[..last], cs, viewProjection, width, height);
      PointWritesColours(ps[..last], cs, viewProjection, width, height);
      var pr := Project(viewProjection(p.position), width, height);
      forall e | e in PointWrites(ps, cs, viewProjection, width, height)
        ensures e.SetPixel? && exists k :: 0 <= k < |ps| && ps[k].centroid.Some? && e.color == cs[ps[k].centroid.value].color
      {
        if e in PointWrites(ps[..last], cs, viewProjection, width, height) {
          var k :| 0 <= k < last && ps[..last][k].centroid.Some? && e.color == cs[ps[..last][k].centroid.value].color;
          assert ps[..last][k] == ps[k];
        } else {
          assert Visible(pr);
          EntityWritesCulled(pr, PointHalf, cs[p.centroid.value].color);
          assert e.color == cs[ps[last].centroid.value].color;
        }
      }
    }
  }

  /** The calls of a completed frame: the clear comes first, before any pixel is written, the
      repaint comes last, and everything in between is a pixel write. */
  lemma FrameShape(cs: seq<Centroid>, ps: seq<Point>, viewProjection: Vec4 -> Vec4, width: int, height: int)
    requires CentroidsDivisible(cs, viewProjection)
    requires Drawable(ps, cs, viewProjection, width, height)
    ensures var frame := [CanvasCall.Clear] + CentroidWrites(cs, viewProjection, width, height)
      + PointWrites(ps, cs, viewProjection, width, height) + [CanvasCall.Repaint];
      frame[0] == CanvasCall.Clear && frame[|frame| - 1] == CanvasCall.Repaint &&
      forall k :: 0 < k < |frame| - 1 ==> frame[k].SetPixel?
  {
    var cw := CentroidWrites(cs, viewProjection, width, height);
    var pw := PointWrites(ps, cs, viewProjection, width, height);
    CentroidWritesColours(cs, viewProjection, width, height);
    PointWritesColours(ps, cs, viewProjection, width, height);
    var frame := [CanvasCall.Clear] + cw + pw + [CanvasCall.Repaint];
    forall k | 0 < k < |frame| - 1 ensures frame[k].SetPixel? {
      if k <= |cw| {
        assert frame[k] == cw[k - 1];
      } else {
        assert frame[k] == pw[k - 1 - |cw|];
      }
    }
  }

  /** When every point refers to a centroid of the list, no point faults and the frame completes. */
  lemma AssignedPointsDrawable(ps: seq<Point>, cs: seq<Centroid>, viewProjection: Vec4 -> Vec4, width: int, height: int)
    requires PointsDivisible(ps, viewProjection)
    requires forall k :: 0 <= k < |ps| ==> ps[k].centroid.Some? && ps[k].centroid.value < |cs|
    ensures Drawable(ps, cs, viewProjection, width, height)
  {
  }
}
