/**
 * The library-independent geometry helpers of the VR-scale demo scenes:
 * `vec`, the linear interpolation used by `lineGeometry`, `lineGeometry`
 * itself and `makeLine`.
 *
 * Coordinates are exact reals. JavaScript's doubles are abstracted, so
 * equalities proved here (the last vertex of a line IS its end point) hold
 * in the exact model only; with doubles they hold up to rounding.
 */
module Vectors {
  import opened Wrappers

  /** A THREE.Vector3 as a value. */
  datatype Vec3 = Vec3(x: real, y: real, z: real)

  /**
   * `vec(x, y, z)`. An argument left undefined is `None`: a missing x is 0,
   * a missing y copies x and a missing z copies y.
   */
  function Vec(x: Option<real>, y: Option<real>, z: Option<real>): (v: Vec3)
    // the four ways the demos call it
    ensures x.None? && y.None? && z.None? ==> v == Vec3(0.0, 0.0, 0.0)
    ensures x.Some? && y.None? && z.None? ==> v == Vec3(x.value, x.value, x.value)
    ensures x.Some? && y.Some? && z.None? ==> v == Vec3(x.value, y.value, y.value)
    ensures x.Some? && y.Some? && z.Some? ==> v == Vec3(x.value, y.value, z.value)
    // and the rule in general: a given argument is kept, a missing one copies its predecessor
    ensures x.Some? ==> v.x == x.value
    ensures x.None? ==> v.x == 0.0
    ensures y.Some? ==> v.y == y.value
    ensures z.Some? ==> v.z == z.value
    ensures y.None? ==> v.y == v.x
    ensures z.None? ==> v.z == v.y
  {
    var vx := x.GetOr(0.0);
    var vy := y.GetOr(vx);
    var vz := z.GetOr(vy);
    Vec3(vx, vy, vz)
  }

  /** `a.clone().lerp(b, alpha)`: each coordinate moves from a toward b by the fraction alpha. */
  function Lerp(a: Vec3, b: Vec3, alpha: real): (p: Vec3)
    ensures alpha == 0.0 ==> p == a
    ensures alpha == 1.0 ==> p == b
  {
    Vec3(a.x + (b.x - a.x) * alpha, a.y + (b.y - a.y) * alpha, a.z + (b.z - a.z) * alpha)
  }

  /** m lies on the closed segment between a and b, whichever of the two is larger. */
  predicate Between(a: real, m: real, b: real) {
    (a <= m <= b) || (b <= m <= a)
  }

  /** One coordinate moved from a toward b by a fraction in [0, 1] stays between a and b. */
  lemma CoordinateBetween(a: real, b: real, alpha: real)
    requires 0.0 <= alpha <= 1.0
    ensures Between(a, a + (b - a) * alpha, b)
  {
  }

  /** With alpha in [0, 1], every interpolated point lies inside the box spanned by a and b. */
  lemma LerpBetween(a: Vec3, b: Vec3, alpha: real)
    requires 0.0 <= alpha <= 1.0
    ensures var p := Lerp(a, b, alpha);
      Between(a.x, p.x, b.x) && Between(a.y, p.y, b.y) && Between(a.z, p.z, b.z)
  {
    CoordinateBetween(a.x, b.x, alpha);
    CoordinateBetween(a.y, b.y, alpha);
    CoordinateBetween(a.z, b.z, alpha);
  }

  /**
   * `lineGeometry(start, end, segments)`: pushes segments + 1 vertices, the
   * i-th being start interpolated toward end at i / segments. A zero segment
   * count divides by zero in the source (the single vertex is NaN), which
   * reals cannot express, so it is excluded.
   */
  method LineGeometry(start: Vec3, end: Vec3, segments: nat) returns (vertices: seq<Vec3>)
    requires segments > 0
    ensures |vertices| == segments + 1
    ensures forall i :: 0 <= i < |vertices| ==> vertices[i] == Lerp(start, end, i as real / segments as real)
    ensures vertices[0] == start && vertices[segments] == end
  {
    vertices := [];
    var i := 0;
    while i < segments + 1
      invariant 0 <= i <= segments + 1
      invariant |vertices| == i
      invariant forall k :: 0 <= k < i ==> vertices[k] == Lerp(start, end, k as real / segments as real)
    {
      var alpha := i as real / segments as real;
      vertices := vertices + [Lerp(start, end, alpha)];
      i := i + 1;
    }
    assert segments as real / segments as real == 1.0;
  }

  /** The two THREE line modes the demos use. */
  datatype LineMode = LinePieces | LineStrip

  /** A THREE.Line: its geometry's vertices and its mode (the material is library state). */
  datatype Line = Line(vertices: seq<Vec3>, mode: LineMode)

  /** `makeLine` always asks `lineGeometry` for this many segments. */
  const LineSegments: nat := 11

  /** `makeLine(start, end, type)`: an 11-segment line, in LinePieces mode unless a mode is given. */
  method MakeLine(start: Vec3, end: Vec3, mode: Option<LineMode>) returns (line: Line)
    ensures |line.vertices| == 12
    ensures line.vertices[0] == start && line.vertices[11] == end
    ensures forall i :: 0 <= i < 12 ==> line.vertices[i] == Lerp(start, end, i as real / 11.0)
    ensures line.mode == (if mode.Some? then mode.value else LinePieces)
  {
    var vertices := LineGeometry(start, end, LineSegments);
    line := Line(vertices, mode.GetOr(LinePieces));
  }
}
