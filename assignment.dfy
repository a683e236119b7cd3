/** Loading the scene (`Main.readData`): centroids first, then points, each point labelled
    with the nearest centroid. File dialogs, reading lines and parsing floats are not part
    of this model; a file arrives as its sequence of lines, already split into numbers. */
module Assignment {
  import opened JavaInt
  import opened Wrappers
  import opened Entities

  /** JOML's `Vector4f.distanceSquared(x, y, z, w)`: the squared Euclidean distance in four dimensions. */
  function DistanceSquared(a: Vec4, x: real, y: real, z: real, w: real): (d: real)
    ensures d >= 0.0
  {
    var dx, dy, dz, dw := a.x - x, a.y - y, a.z - z, a.w - w;
    SquareNonNegative(dx);
    SquareNonNegative(dy);
    SquareNonNegative(dz);
    SquareNonNegative(dw);
    dx * dx + dy * dy + dz * dz + dw * dw
  }

  lemma SquareNonNegative(r: real)
    ensures r * r >= 0.0
  {
    if r < 0.0 {
      assert r * r == (-r) * (-r);
    }
  }

  /** The distance the loader compares: the centroid, stored with w = 1, against the query
      coordinates passed with w = 0. */
  function LoaderDistance(c: Centroid, q: Coords): (d: real)
    ensures d >= 0.0
    ensures c.position.w == 1.0 ==> d == EuclideanDistance(c, q) + 1.0
  {
    var dw := c.position.w - 0.0;
    assert c.position.w == 1.0 ==> dw * dw == 1.0;
    DistanceSquared(c.position, q.x, q.y, q.z, 0.0)
  }

  /** The plain squared Euclidean distance in three dimensions. */
  function EuclideanDistance(c: Centroid, q: Coords): real
  {
    var dx, dy, dz := c.position.x - q.x, c.position.y - q.y, c.position.z - q.z;
    dx * dx + dy * dy + dz * dz
  }

  /** The loader's distance from `q` to every centroid, in list order. */
  function Distances(cs: seq<Centroid>, q: Coords): seq<real>
  {
    seq(|cs|, k requires 0 <= k < |cs| => LoaderDistance(cs[k], q))
  }

  /** The true distance from `q` to every centroid, in list order. */
  function EuclideanDistances(cs: seq<Centroid>, q: Coords): seq<real>
  {
    seq(|cs|, k requires 0 <= k < |cs| => EuclideanDistance(cs[k], q))
  }

  /** `k` is where a left-to-right scan keeping the strictly smaller value stops:
      nothing is smaller than `ds[k]`, and everything before `k` is larger. */
  predicate IsFirstMin(ds: seq<real>, k: nat): (b: bool)
    ensures b ==> k < |ds| && forall j :: 0 <= j < |ds| && ds[j] == ds[k] ==> k <= j
  {
    k < |ds| &&
    (forall j :: 0 <= j < |ds| ==> ds[k] <= ds[j]) &&
    (forall j :: 0 <= j < k ==> ds[k] < ds[j])
  }

  /** `ds` with `c` added to every element. */
  function Shift(ds: seq<real>, c: real): (r: seq<real>)
  {
    seq(|ds|, k requires 0 <= k < |ds| => ds[k] + c)
  }

  /** The running minimum of the loop, which starts at `Float.POSITIVE_INFINITY`. */
  datatype Bound = Infinity | Finite(value: real)

  /** `d < bound` as Java compares a finite float with a possibly infinite one. */
  predicate Below(d: real, bound: Bound)
  {
    bound.Infinity? || d < bound.value
  }

  /** The nearest-centroid loop: a scan that replaces the candidate only on a strictly
      smaller distance, so the first of several equally near centroids wins. */
  method NearestCentroid(cs: seq<Centroid>, q: Coords) returns (closest: Option<nat>)
    ensures closest.None? <==> |cs| == 0
    ensures closest.Some? ==> IsFirstMin(Distances(cs, q), closest.value)
  {
    ghost var ds := Distances(cs, q);
    var minDist := Infinity;
    closest := None;
    for k := 0 to |cs|
      invariant closest.None? <==> k == 0
      invariant closest.None? ==> minDist == Infinity
      invariant closest.Some? ==> closest.value < k && minDist == Finite(ds[closest.value])
      invariant closest.Some? ==> forall j :: 0 <= j < k ==> ds[closest.value] <= ds[j]
      invariant closest.Some? ==> forall j :: 0 <= j < closest.value ==> ds[closest.value] < ds[j]
    {
      var dist := LoaderDistance(cs[k], q);
      if Below(dist, minDist) {
        minDist := Finite(dist);
        closest := Some(k);
      }
    }
  }

  /** Determinism: the scan's answer is the only index with its property. */
  lemma FirstMinUnique(ds: seq<real>, a: nat, b: nat)
    requires IsFirstMin(ds, a) && IsFirstMin(ds, b)
    ensures a == b
  {
    assert ds[a] <= ds[b] && ds[b] <= ds[a];
  }

  /** Adding one constant to every candidate's distance does not change the winner. */
  lemma ShiftKeepsFirstMin(ds: seq<real>, c: real, k: nat)
    ensures IsFirstMin(Shift(ds, c), k) <==> IsFirstMin(ds, k)
  {
    var s := Shift(ds, c);
    if IsFirstMin(ds, k) {
      forall j | 0 <= j < |s| ensures s[k] <= s[j] {
        assert ds[k] <= ds[j];
      }
      forall j | 0 <= j < k ensures s[k] < s[j] {
        assert ds[k] < ds[j];
      }
    }
    if IsFirstMin(s, k) {
      forall j | 0 <= j < |ds| ensures ds[k] <= ds[j] {
        assert s[k] <= s[j];
      }
      forall j | 0 <= j < k ensures ds[k] < ds[j] {
        assert s[k] < s[j];
      }
    }
  }

  /** With every centroid at w = 1 and the query at w = 0, the loader's distance is the true
      distance plus one for every centroid, so it picks the truly nearest centroid (first on ties). */
  lemma WOffsetHarmless(cs: seq<Centroid>, q: Coords, k: nat)
    requires forall j :: 0 <= j < |cs| ==> cs[j].position.w == 1.0
    ensures Distances(cs, q) == Shift(EuclideanDistances(cs, q), 1.0)
    ensures IsFirstMin(Distances(cs, q), k) <==> IsFirstMin(EuclideanDistances(cs, q), k)
  {
    var e := EuclideanDistances(cs, q);
    forall j | 0 <= j < |cs| ensures Distances(cs, q)[j] == Shift(e, 1.0)[j] {
      assert Distances(cs, q)[j] == LoaderDistance(cs[j], q);
    }
    assert Distances(cs, q) == Shift(e, 1.0);
    ShiftKeepsFirstMin(e, 1.0, k);
  }

  /** One line of an input file: empty, or three numbers. */
  datatype Line = Blank | Triple(coords: Coords)

  /** The coordinates of the non-empty lines, in file order. */
  function NonBlank(lines: seq<Line>): (r: seq<Coords>)
    ensures |r| <= |lines|
  {
    if lines == [] then []
    else
      NonBlank(lines[..|lines| - 1]) +
      match lines[|lines| - 1]
      case Blank => []
      case Triple(c) => [c]
  }

  /** Reading a file in two pieces reads the lines of each piece in turn: an empty line adds
      nothing and every other line adds exactly its own coordinates, in order. */
  lemma {:induction false} NonBlankAppend(a: seq<Line>, b: seq<Line>)
    ensures NonBlank(a + b) == NonBlank(a) + NonBlank(b)
    decreases |b|
  {
    if b == [] {
      assert a + b == a;
    } else {
      var b' := b[..|b| - 1];
      assert (a + b)[..|a + b| - 1] == a + b';
      assert (a + b)[|a + b| - 1] == b[|b| - 1];
      NonBlankAppend(a, b');
    }
  }

  /** The position a loaded entity is stored with: the coordinates at w = 1. */
  function Lift(c: Coords): (v: Vec4)
    ensures v.w == 1.0
  {
    Vec4(c.x, c.y, c.z, 1.0)
  }

  /** What the loader stores for a point read at `q`, given the full centroid list. */
  predicate IsLoadedPoint(p: Point, q: Coords, cs: seq<Centroid>)
  {
    p.position == Lift(q) && p.screen == Origin &&
    (p.centroid.None? <==> |cs| == 0) &&
    (p.centroid.Some? ==> IsFirstMin(Distances(cs, q), p.centroid.value))
  }

  /** `Main.readData` after the files are read: every non-empty centroid line appends a centroid
      coloured by the next random draw (`draws(k)` is the k-th `nextInt()`), then every
      non-empty point line appends a point labelled with its nearest centroid. */
  method ReadData(scene: Scene, centroidLines: seq<Line>, pointLines: seq<Line>, draws: nat -> Int32)
    requires scene.Valid()
    modifies scene`centroids, scene`points
    ensures scene.Valid()
    ensures |scene.centroids| == |old(scene.centroids)| + |NonBlank(centroidLines)|
    ensures scene.centroids[..|old(scene.centroids)|] == old(scene.centroids)
    ensures forall k :: 0 <= k < |NonBlank(centroidLines)| ==>
      scene.centroids[|old(scene.centroids)| + k] == Centroid(draws(k), Lift(NonBlank(centroidLines)[k]), Origin)
    ensures |scene.points| == |old(scene.points)| + |NonBlank(pointLines)|
    ensures scene.points[..|old(scene.points)|] == old(scene.points)
    ensures forall k :: 0 <= k < |NonBlank(pointLines)| ==>
      IsLoadedPoint(scene.points[|old(scene.points)| + k], NonBlank(pointLines)[k], scene.centroids)
  {
    var c0, p0 := scene.centroids, scene.points;
    var drawn := 0;
    for i := 0 to |centroidLines|
      invariant drawn == |NonBlank(centroidLines[..i])|
      invariant |scene.centroids| == |c0| + drawn
      invariant scene.centroids[..|c0|] == c0
      invariant forall k :: 0 <= k < drawn ==>
        scene.centroids[|c0| + k] == Centroid(draws(k), Lift(NonBlank(centroidLines[..i])[k]), Origin)
      invariant scene.points == p0
    {
      assert centroidLines[..i + 1][..i] == centroidLines[..i];
      match centroidLines[i]
      case Blank =>
      case Triple(c) =>
        scene.centroids := scene.centroids + [Centroid(draws(drawn), Lift(c), Origin)];
        drawn := drawn + 1;
    }
    assert centroidLines[..|centroidLines|] == centroidLines;
    var cs := scene.centroids;
    var added := 0;
    for i := 0 to |pointLines|
      invariant added == |NonBlank(pointLines[..i])|
      invariant |scene.points| == |p0| + added
      invariant scene.points[..|p0|] == p0
      invariant forall k :: 0 <= k < added ==>
        IsLoadedPoint(scene.points[|p0| + k], NonBlank(pointLines[..i])[k], cs)
      invariant scene.centroids == cs
    {
      assert pointLines[..i + 1][..i] == pointLines[..i];
      match pointLines[i]
      case Blank =>
      case Triple(q) =>
        var closest := NearestCentroid(cs, q);
        scene.points := scene.points + [Point(Lift(q), closest, Origin)];
        added := added + 1;
    }
    assert pointLines[..|pointLines|] == pointLines;
    forall k | 0 <= k < |scene.points| && scene.points[k].centroid.Some?
      ensures scene.points[k].centroid.value < |scene.centroids|
    {
      if k >= |p0| {
        assert IsLoadedPoint(scene.points[|p0| + (k - |p0|)], NonBlank(pointLines)[k - |p0|], cs);
      } else {
        assert scene.points[k] == p0[k];
      }
    }
  }

  /** Every point the loader labels refers to a centroid of the scene (a worked consequence
      of `ReadData`'s contract: the nearest-centroid result is an index into the list). */
  lemma LoadedPointReferencesScene(p: Point, q: Coords, cs: seq<Centroid>)
    requires IsLoadedPoint(p, q, cs)
    requires |cs| > 0
    ensures p.centroid.Some? && p.centroid.value < |cs|
  {
  }

  /** Two centroids at (0,0,0) and (10,10,10): the point (1,1,1) goes to the first, and the
      point (5,5,5), equally far from both, also goes to the first. */
  lemma TieGoesToFirst(a: Int32, b: Int32)
    ensures var cs := [Centroid(a, Vec4(0.0, 0.0, 0.0, 1.0), Origin), Centroid(b, Vec4(10.0, 10.0, 10.0, 1.0), Origin)];
      IsFirstMin(Distances(cs, Coords(1.0, 1.0, 1.0)), 0) &&
      IsFirstMin(Distances(cs, Coords(5.0, 5.0, 5.0)), 0) &&
      !IsFirstMin(Distances(cs, Coords(5.0, 5.0, 5.0)), 1)
  {
    var cs := [Centroid(a, Vec4(0.0, 0.0, 0.0, 1.0), Origin), Centroid(b, Vec4(10.0, 10.0, 10.0, 1.0), Origin)];
    assert Distances(cs, Coords(1.0, 1.0, 1.0)) == [4.0, 244.0];
    assert Distances(cs, Coords(5.0, 5.0, 5.0)) == [76.0, 76.0];
  }
}
