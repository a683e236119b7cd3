/** The scene the visualiser draws: centroids, the points assigned to them, and the camera. */
module Entities {
  import opened JavaInt
  import opened Wrappers

  /** A homogeneous position (a JOML `Vector4f`); reals stand in for `float`. */
  datatype Vec4 = Vec4(x: real, y: real, z: real, w: real)

  /** The three coordinates read from one line of an input file. */
  datatype Coords = Coords(x: real, y: real, z: real)

  /** An integer screen position (a JOML `Vector2i`). */
  datatype Screen = Screen(x: Int32, y: Int32)

  /** What `new Vector2i()` holds. */
  const Origin: Screen := Screen(0, 0)

  /** A cluster centre: the colour every point assigned to it is drawn in, its position,
      and the screen position the last frame computed for it. */
  datatype Centroid = Centroid(color: Int32, position: Vec4, screen: Screen)

  /** A data point. The reference to its centroid is an index into the scene's centroid
      list; `None` is the `null` the loader leaves when there are no centroids. */
  datatype Point = Point(position: Vec4, centroid: Option<nat>, screen: Screen)

  /** A call made on the camera; its geometry belongs to a library and is not modelled. */
  datatype CameraOp = MoveBy(dx: real, dy: real, dz: real) | RotateBy(dx: real, dy: real, dz: real)

  /** The camera, seen through the calls made on it. */
  class Camera {
    var log: seq<CameraOp>

    constructor ()
      ensures log == []
    {
      log := [];
    }

    method Move(dx: real, dy: real, dz: real)
      modifies this
      ensures log == old(log) + [MoveBy(dx, dy, dz)]
    {
      log := log + [MoveBy(dx, dy, dz)];
    }

    method Rotate(dx: real, dy: real, dz: real)
      modifies this
      ensures log == old(log) + [RotateBy(dx, dy, dz)]
    {
      log := log + [RotateBy(dx, dy, dz)];
    }
  }

  /** Appending to a call log in two steps is appending once. */
  lemma AppendAssoc<T>(a: seq<T>, b: seq<T>, c: seq<T>)
    ensures a + b + c == a + (b + c)
  {
  }

  /** Every centroid reference among `ps` is an index below `n`. */
  predicate RefsWithin(ps: seq<Point>, n: nat)
  {
    forall k :: 0 <= k < |ps| && ps[k].centroid.Some? ==> ps[k].centroid.value < n
  }

  /** The two lists and the camera. */
  class Scene {
    var points: seq<Point>
    var centroids: seq<Centroid>
    var camera: Camera

    constructor (camera: Camera)
      ensures points == [] && centroids == [] && this.camera == camera
    {
      points := [];
      centroids := [];
      this.camera := camera;
    }

    /** No point refers to a centroid outside this scene's list. */
    predicate Valid()
      reads this
    {
      RefsWithin(points, |centroids|)
    }
  }
}
