/**
 * Mesh measurement (src/lib/geometry.ts): the volume of a triangle soup as the
 * absolute value of the sum of signed tetrahedron volumes, and the size of the
 * axis-aligned bounding box.
 *
 * A three.js BufferGeometry is modelled by its optional position attribute (one
 * Vec3 per vertex, in millimetres) and its optional index buffer.
 */
module Geometry {
  import opened Wrappers

  datatype Vec3 = Vec3(x: real, y: real, z: real)

  datatype Axis = X | Y | Z

  function Coord(v: Vec3, axis: Axis): real {
    match axis
    case X => v.x
    case Y => v.y
    case Z => v.z
  }

  function Dot(a: Vec3, b: Vec3): real {
    a.x * b.x + a.y * b.y + a.z * b.z
  }

  function Cross(a: Vec3, b: Vec3): Vec3 {
    Vec3(a.y * b.z - a.z * b.y, a.z * b.x - a.x * b.z, a.x * b.y - a.y * b.x)
  }

  function ScaleVec(v: Vec3, s: real): Vec3 {
    Vec3(s * v.x, s * v.y, s * v.z)
  }

  function AddVec(v: Vec3, t: Vec3): Vec3 {
    Vec3(v.x + t.x, v.y + t.y, v.z + t.z)
  }

  function Abs(x: real): (r: real)
    ensures r >= 0.0 && (r == x || r == -x)
  {
    if x < 0.0 then -x else x
  }

  /** Signed volume of the tetrahedron (origin, a, b, c): a . (b x c) / 6. */
  function SignedVolumeOfTriangle(a: Vec3, b: Vec3, c: Vec3): real {
    Dot(a, Cross(b, c)) / 6.0
  }

  // ---------------------------------------------------------------------------
  // Triangle soups

  datatype Triangle = Triangle(a: Vec3, b: Vec3, c: Vec3)

  /** A triangle soup: it need not be indexed, closed or manifold. */
  type Mesh = seq<Triangle>

  function SignedVolume(t: Triangle): real {
    SignedVolumeOfTriangle(t.a, t.b, t.c)
  }

  /** Sum of the signed volumes, accumulated from the first triangle to the last. */
  function SignedSum(mesh: Mesh): real
    decreases |mesh|
  {
    if |mesh| == 0 then 0.0 else SignedSum(mesh[..|mesh| - 1]) + SignedVolume(mesh[|mesh| - 1])
  }

  /** The volume of a mesh: the absolute value of the signed sum. */
  function MeshVolume(mesh: Mesh): (r: real)
    ensures r >= 0.0
    ensures r == SignedSum(mesh) || r == -SignedSum(mesh)
  {
    Abs(SignedSum(mesh))
  }

  /** Groups consecutive vertices (3k, 3k+1, 3k+2) into triangles, as the volume loop reads them. */
  function Triangles(pos: seq<Vec3>): Mesh
    requires |pos| % 3 == 0
  {
    seq(|pos| / 3, k requires 0 <= k < |pos| / 3 => Triangle(pos[3 * k], pos[3 * k + 1], pos[3 * k + 2]))
  }

  // ---------------------------------------------------------------------------
  // Buffer geometries

  datatype BufferGeometry = BufferGeometry(position: Option<seq<Vec3>>, index: Option<seq<nat>>)

  predicate IndicesInRange(vertices: seq<Vec3>, index: seq<nat>) {
    forall i :: 0 <= i < |index| ==> index[i] < |vertices|
  }

  /** `toNonIndexed`: vertex `index[i]` becomes vertex i of a fresh position list. */
  function ToNonIndexed(vertices: seq<Vec3>, index: seq<nat>): seq<Vec3>
    requires IndicesInRange(vertices, index)
  {
    seq(|index|, i requires 0 <= i < |index| => vertices[index[i]])
  }

  /**
   * The position list the volume loop iterates over: that of `toNonIndexed()`
   * for an indexed geometry, that of a clone otherwise; None without a
   * position attribute.
   */
  function WorkingPositions(g: BufferGeometry): Option<seq<Vec3>>
    requires g.position.Some? && g.index.Some? ==> IndicesInRange(g.position.value, g.index.value)
  {
    match g.position
    case None => None
    case Some(pos) => if g.index.Some? then Some(ToNonIndexed(pos, g.index.value)) else Some(pos)
  }

  /**
   * What the volume loop needs: every index names a vertex, and the vertices it
   * reads form whole triangles (otherwise three.js reads past the attribute and
   * the result is NaN).
   */
  predicate Readable(g: BufferGeometry) {
    && (g.position.Some? && g.index.Some? ==> IndicesInRange(g.position.value, g.index.value))
    && (WorkingPositions(g).Some? ==> |WorkingPositions(g).value| % 3 == 0)
  }

  /** The volume `computeGeometryVolumeMM3` returns, in mm^3. */
  function GeometryVolume(g: BufferGeometry): (r: real)
    requires Readable(g)
    ensures r >= 0.0
    ensures g.position.None? ==> r == 0.0
    ensures WorkingPositions(g) == Some([]) ==> r == 0.0
  {
    match WorkingPositions(g)
    case None => 0.0
    case Some(pos) => MeshVolume(Triangles(pos))
  }

  /** The loop of `computeGeometryVolumeMM3`, stepping over the vertices three at a time. */
  method ComputeGeometryVolumeMM3(geometry: BufferGeometry) returns (volume: real)
    requires Readable(geometry)
    ensures volume == GeometryVolume(geometry)
    ensures volume >= 0.0
  {
    var geom := WorkingPositions(geometry);
    if geom.None? {
      return 0.0;
    }
    var pos := geom.value;
    ghost var mesh := Triangles(pos);
    var sum := 0.0;
    var i := 0;
    while i < |pos|
      invariant 0 <= i <= |pos| && i % 3 == 0
      invariant sum == SignedSum(mesh[..i / 3])
    {
      var vA := pos[i];
      var vB := pos[i + 1];
      var vC := pos[i + 2];
      assert mesh[..i / 3 + 1][..i / 3] == mesh[..i / 3];
      sum := sum + SignedVolumeOfTriangle(vA, vB, vC);
      i := i + 3;
    }
    assert mesh[..i / 3] == mesh;
    volume := Abs(sum);
  }

  // ---------------------------------------------------------------------------
  // Indexed meshes

  /**
   * Independent reference for an indexed mesh: the signed volume summed directly
   * over the first n index triples, without building the expanded vertex list.
   */
  function IndexedSignedSum(vertices: seq<Vec3>, index: seq<nat>, n: nat): real
    requires IndicesInRange(vertices, index) && 3 * n <= |index|
  {
    if n == 0 then 0.0
    else
      IndexedSignedSum(vertices, index, n - 1)
      + SignedVolumeOfTriangle(vertices[index[3 * n - 3]], vertices[index[3 * n - 2]], vertices[index[3 * n - 1]])
  }

  lemma {:induction false} IndexedPrefixSum(vertices: seq<Vec3>, index: seq<nat>, n: nat)
    requires IndicesInRange(vertices, index) && |index| % 3 == 0 && n <= |index| / 3
    ensures IndexedSignedSum(vertices, index, n) == SignedSum(Triangles(ToNonIndexed(vertices, index))[..n])
  {
    var mesh := Triangles(ToNonIndexed(vertices, index));
    if n > 0 {
      IndexedPrefixSum(vertices, index, n - 1);
      assert mesh[..n][..n - 1] == mesh[..n - 1];
    }
  }

  /** An indexed geometry has the volume of the triangle list its index buffer expands to. */
  lemma IndexedVolumeMatchesExpanded(vertices: seq<Vec3>, index: seq<nat>)
    requires IndicesInRange(vertices, index) && |index| % 3 == 0
    ensures GeometryVolume(BufferGeometry(Some(vertices), Some(index)))
         == Abs(IndexedSignedSum(vertices, index, |index| / 3))
  {
    var mesh := Triangles(ToNonIndexed(vertices, index));
    IndexedPrefixSum(vertices, index, |index| / 3);
    assert mesh[..|index| / 3] == mesh;
  }

  // ---------------------------------------------------------------------------
  // Winding and scaling

  function FlipWinding(mesh: Mesh): (r: Mesh)
    ensures |r| == |mesh|
  {
    seq(|mesh|, i requires 0 <= i < |mesh| => Triangle(mesh[i].a, mesh[i].c, mesh[i].b))
  }

  function ScaleTriangle(t: Triangle, s: real): Triangle {
    Triangle(ScaleVec(t.a, s), ScaleVec(t.b, s), ScaleVec(t.c, s))
  }

  function ScaleMesh(mesh: Mesh, s: real): (r: Mesh)
    ensures |r| == |mesh|
  {
    seq(|mesh|, i requires 0 <= i < |mesh| => ScaleTriangle(mesh[i], s))
  }

  lemma {:induction false} FlipNegatesSignedSum(mesh: Mesh)
    ensures SignedSum(FlipWinding(mesh)) == -SignedSum(mesh)
    decreases |mesh|
  {
    if |mesh| > 0 {
      var n := |mesh| - 1;
      assert FlipWinding(mesh)[..n] == FlipWinding(mesh[..n]);
      FlipNegatesSignedSum(mesh[..n]);
      FlipTriangle(mesh[n]);
      assert FlipWinding(mesh)[n] == Triangle(mesh[n].a, mesh[n].c, mesh[n].b);
    }
  }

  /** Swapping two vertices of a triangle negates its signed volume. */
  lemma FlipTriangle(t: Triangle)
    ensures SignedVolume(Triangle(t.a, t.c, t.b)) == -SignedVolume(t)
  {
    var w := Cross(t.b, t.c);
    assert Cross(t.c, t.b) == Vec3(-w.x, -w.y, -w.z);
    assert Dot(t.a, Vec3(-w.x, -w.y, -w.z)) == -Dot(t.a, w);
  }

  /** Reversing the winding of every triangle leaves the volume unchanged. */
  lemma WindingInvariance(mesh: Mesh)
    ensures MeshVolume(FlipWinding(mesh)) == MeshVolume(mesh)
  {
    FlipNegatesSignedSum(mesh);
  }

  lemma MulSwap(s: real, t: real, p: real, q: real)
    ensures (s * p) * (t * q) == (s * t) * (p * q)
  {
  }

  lemma DotScales(a: Vec3, w: Vec3, s: real, t: real)
    ensures Dot(ScaleVec(a, s), ScaleVec(w, t)) == (s * t) * Dot(a, w)
  {
    MulSwap(s, t, a.x, w.x);
    MulSwap(s, t, a.y, w.y);
    MulSwap(s, t, a.z, w.z);
    var k := s * t;
    assert k * (a.x * w.x) + k * (a.y * w.y) + k * (a.z * w.z) == k * (a.x * w.x + a.y * w.y + a.z * w.z);
  }

  lemma CrossScales(b: Vec3, c: Vec3, s: real)
    ensures Cross(ScaleVec(b, s), ScaleVec(c, s)) == ScaleVec(Cross(b, c), s * s)
  {
    CrossScalesX(b, c, s);
    CrossScalesY(b, c, s);
    CrossScalesZ(b, c, s);
  }

  lemma CrossScalesX(b: Vec3, c: Vec3, s: real)
    ensures Cross(ScaleVec(b, s), ScaleVec(c, s)).x == (s * s) * Cross(b, c).x
  {
    ProductOfScaled(s, b.y, c.z);
    ProductOfScaled(s, b.z, c.y);
    TimesSubtracts(s * s, b.y * c.z, b.z * c.y);
  }

  lemma CrossScalesY(b: Vec3, c: Vec3, s: real)
    ensures Cross(ScaleVec(b, s), ScaleVec(c, s)).y == (s * s) * Cross(b, c).y
  {
    ProductOfScaled(s, b.z, c.x);
    ProductOfScaled(s, b.x, c.z);
    TimesSubtracts(s * s, b.z * c.x, b.x * c.z);
  }

  lemma CrossScalesZ(b: Vec3, c: Vec3, s: real)
    ensures Cross(ScaleVec(b, s), ScaleVec(c, s)).z == (s * s) * Cross(b, c).z
  {
    ProductOfScaled(s, b.x, c.y);
    ProductOfScaled(s, b.y, c.x);
    TimesSubtracts(s * s, b.x * c.y, b.y * c.x);
  }

  /** The product of two scaled coordinates, as `Times` terms the solver can match. */
  lemma ProductOfScaled(s: real, p: real, q: real)
    ensures Times(Times(s, p), Times(s, q)) == Times(s * s, p * q)
  {
    assert (s * p) * (s * q) == (s * s) * (p * q);
  }

  lemma ScaledTriple(a: Vec3, w: Vec3, s: real)
    ensures Dot(ScaleVec(a, s), ScaleVec(w, s * s)) / 6.0 == s * s * s * (Dot(a, w) / 6.0)
  {
    DotScales(a, w, s, s * s);
    var d := Dot(a, w);
    assert (s * (s * s)) * d / 6.0 == s * s * s * (d / 6.0);
  }

  /**
   * `k * x` as a function: equal arguments give equal products by congruence,
   * which keeps the scaling proofs below linear for the solver.
   */
  function Times(k: real, x: real): real {
    k * x
  }

  function Cube(s: real): real {
    s * s * s
  }

  lemma TimesDistributes(k: real, a: real, b: real)
    ensures Times(k, a) + Times(k, b) == Times(k, a + b)
  {
  }

  lemma TimesSubtracts(k: real, a: real, b: real)
    ensures Times(k, a) - Times(k, b) == Times(k, a - b)
  {
  }

  lemma TriangleScales(t: Triangle, s: real)
    ensures SignedVolume(ScaleTriangle(t, s)) == Times(Cube(s), SignedVolume(t))
  {
    var sa, sb, sc := ScaleVec(t.a, s), ScaleVec(t.b, s), ScaleVec(t.c, s);
    var w := Cross(t.b, t.c);
    CrossScales(t.b, t.c, s);
    ScaledTriple(t.a, w, s);
    calc {
      SignedVolume(ScaleTriangle(t, s));
      Dot(sa, Cross(sb, sc)) / 6.0;
      Dot(sa, ScaleVec(w, s * s)) / 6.0;
      s * s * s * (Dot(t.a, w) / 6.0);
      s * s * s * SignedVolume(t);
    }
  }

  /** Scaling every vertex by s multiplies the signed sum by s^3. */
  lemma {:induction false} ScaledSignedSum(mesh: Mesh, s: real)
    ensures SignedSum(ScaleMesh(mesh, s)) == Times(Cube(s), SignedSum(mesh))
    decreases |mesh|
  {
    if |mesh| > 0 {
      var n := |mesh| - 1;
      var scaled := ScaleMesh(mesh, s);
      assert scaled[..n] == ScaleMesh(mesh[..n], s);
      ScaledSignedSum(mesh[..n], s);
      TriangleScales(mesh[n], s);
      TimesDistributes(Cube(s), SignedSum(mesh[..n]), SignedVolume(mesh[n]));
    }
  }

  lemma AbsOfTimes(k: real, v: real)
    ensures Abs(Times(k, v)) == Times(Abs(k), Abs(v))
  {
    if k >= 0.0 && v >= 0.0 {
      assert k * v >= 0.0;
    } else if k >= 0.0 {
      assert k * v == -(k * -v);
      assert k * -v >= 0.0;
    } else if v >= 0.0 {
      assert k * v == -(-k * v);
      assert -k * v >= 0.0;
    } else {
      assert k * v == -k * -v;
      assert -k * -v >= 0.0;
    }
  }

  lemma AbsOfCube(s: real)
    ensures Abs(Cube(s)) == Cube(Abs(s))
  {
    AbsOfTimes(s * s, s);
    AbsOfTimes(s, s);
  }

  /**
   * Multiplying every coordinate by s multiplies the volume by |s|^3: this is
   * why the price estimate may scale the unscaled volume by the cube of the
   * scale factor instead of rescaling the mesh.
   */
  lemma VolumeScalesCubically(mesh: Mesh, s: real)
    ensures MeshVolume(ScaleMesh(mesh, s)) == Times(Cube(Abs(s)), MeshVolume(mesh))
  {
    ScaledSignedSum(mesh, s);
    AbsOfTimes(Cube(s), SignedSum(mesh));
    AbsOfCube(s);
  }

  // ---------------------------------------------------------------------------
  // Bounding size

  function MaxCoord(pos: seq<Vec3>, axis: Axis): (r: real)
    requires |pos| > 0
    ensures forall i :: 0 <= i < |pos| ==> Coord(pos[i], axis) <= r
    ensures exists i :: 0 <= i < |pos| && Coord(pos[i], axis) == r
  {
    if |pos| == 1 then Coord(pos[0], axis)
    else
      var m := MaxCoord(pos[1..], axis);
      assert forall i :: 1 <= i < |pos| ==> pos[i] == pos[1..][i - 1];
      if Coord(pos[0], axis) >= m then Coord(pos[0], axis) else m
  }

  function MinCoord(pos: seq<Vec3>, axis: Axis): (r: real)
    requires |pos| > 0
    ensures forall i :: 0 <= i < |pos| ==> r <= Coord(pos[i], axis)
    ensures exists i :: 0 <= i < |pos| && Coord(pos[i], axis) == r
  {
    if |pos| == 1 then Coord(pos[0], axis)
    else
      var m := MinCoord(pos[1..], axis);
      assert forall i :: 1 <= i < |pos| ==> pos[i] == pos[1..][i - 1];
      if Coord(pos[0], axis) <= m then Coord(pos[0], axis) else m
  }

  /** Extent of the vertices along one axis; an empty box (no vertices) has size 0. */
  function AxisExtent(pos: seq<Vec3>, axis: Axis): (r: real)
    ensures r >= 0.0
  {
    if |pos| == 0 then 0.0 else MaxCoord(pos, axis) - MinCoord(pos, axis)
  }

  /**
   * `computeGeometrySizeMM`: the bounding box of a clone is computed over every
   * vertex of the position attribute (indexed or not); a geometry without
   * positions has an empty box, whose size three.js reports as (0, 0, 0).
   */
  function ComputeGeometrySizeMM(geometry: BufferGeometry): (size: Vec3)
    ensures size.x >= 0.0 && size.y >= 0.0 && size.z >= 0.0
  {
    match geometry.position
    case None => Vec3(0.0, 0.0, 0.0)
    case Some(pos) => Vec3(AxisExtent(pos, X), AxisExtent(pos, Y), AxisExtent(pos, Z))
  }

  /**
   * The size is a tight box: every vertex lies within [lo, lo + size] on the
   * axis, where lo is the smallest coordinate, and some vertex sits on the far face.
   */
  lemma SizeIsTightBox(pos: seq<Vec3>, axis: Axis)
    requires |pos| > 0
    ensures var size := Coord(ComputeGeometrySizeMM(BufferGeometry(Some(pos), None)), axis);
      && (forall i :: 0 <= i < |pos| ==> MinCoord(pos, axis) <= Coord(pos[i], axis) <= MinCoord(pos, axis) + size)
      && (exists j :: 0 <= j < |pos| && Coord(pos[j], axis) == MinCoord(pos, axis) + size)
  {
    var size := Coord(ComputeGeometrySizeMM(BufferGeometry(Some(pos), None)), axis);
    assert size == AxisExtent(pos, axis) by {
      match axis
      case X =>
      case Y =>
      case Z =>
    }
  }

  function Translate(pos: seq<Vec3>, t: Vec3): (r: seq<Vec3>)
    ensures |r| == |pos|
  {
    seq(|pos|, i requires 0 <= i < |pos| => AddVec(pos[i], t))
  }

  function ScalePositions(pos: seq<Vec3>, s: real): (r: seq<Vec3>)
    ensures |r| == |pos|
  {
    seq(|pos|, i requires 0 <= i < |pos| => ScaleVec(pos[i], s))
  }

  lemma {:induction false} MaxIsUnique(pos: seq<Vec3>, axis: Axis, m: real)
    requires |pos| > 0
    requires forall i :: 0 <= i < |pos| ==> Coord(pos[i], axis) <= m
    requires exists i :: 0 <= i < |pos| && Coord(pos[i], axis) == m
    ensures MaxCoord(pos, axis) == m
  {
  }

  lemma {:induction false} MinIsUnique(pos: seq<Vec3>, axis: Axis, m: real)
    requires |pos| > 0
    requires forall i :: 0 <= i < |pos| ==> m <= Coord(pos[i], axis)
    requires exists i :: 0 <= i < |pos| && Coord(pos[i], axis) == m
    ensures MinCoord(pos, axis) == m
  {
  }

  /** The bounding size does not depend on where the mesh sits. */
  lemma {:induction false} SizeIsTranslationInvariant(pos: seq<Vec3>, t: Vec3, axis: Axis)
    ensures AxisExtent(Translate(pos, t), axis) == AxisExtent(pos, axis)
  {
    var q := Translate(pos, t);
    forall i | 0 <= i < |q|
      ensures Coord(q[i], axis) == Coord(pos[i], axis) + Coord(t, axis)
    {
      match axis
      case X =>
      case Y =>
      case Z =>
    }
    if |pos| > 0 {
      ShiftedBounds(pos, q, Coord(t, axis), axis);
      ExtentIsMaxMinusMin(pos, axis);
      ExtentIsMaxMinusMin(q, axis);
    }
  }

  /** The extremes of a vertex list whose coordinates are those of another plus d. */
  lemma {:induction false} ShiftedBounds(pos: seq<Vec3>, q: seq<Vec3>, d: real, axis: Axis)
    requires |pos| > 0 && |q| == |pos|
    requires forall i :: 0 <= i < |q| ==> Coord(q[i], axis) == Coord(pos[i], axis) + d
    ensures MaxCoord(q, axis) == MaxCoord(pos, axis) + d
    ensures MinCoord(q, axis) == MinCoord(pos, axis) + d
  {
    var i :| 0 <= i < |pos| && Coord(pos[i], axis) == MaxCoord(pos, axis);
    MaxIsUnique(q, axis, MaxCoord(pos, axis) + d);
    var j :| 0 <= j < |pos| && Coord(pos[j], axis) == MinCoord(pos, axis);
    MinIsUnique(q, axis, MinCoord(pos, axis) + d);
  }

  lemma {:induction false} ScaledCoord(pos: seq<Vec3>, s: real, axis: Axis, i: int)
    requires 0 <= i < |pos|
    ensures Coord(ScalePositions(pos, s)[i], axis) == Times(s, Coord(pos[i], axis))
  {
    match axis
    case X =>
    case Y =>
    case Z =>
  }

  /** Scaling the vertices by s >= 0 scales the bounding size by s. */
  lemma {:induction false} SizeScalesLinearly(pos: seq<Vec3>, s: real, axis: Axis)
    requires s >= 0.0
    ensures AxisExtent(ScalePositions(pos, s), axis) == Times(s, AxisExtent(pos, axis))
  {
    var q := ScalePositions(pos, s);
    forall i | 0 <= i < |q|
      ensures Coord(q[i], axis) == Times(s, Coord(pos[i], axis))
    {
      ScaledCoord(pos, s, axis, i);
    }
    ExtentOfScaled(pos, q, s, axis);
  }

  /** The extent of any vertex list whose coordinates are s times those of another. */
  lemma {:induction false} ExtentOfScaled(pos: seq<Vec3>, q: seq<Vec3>, s: real, axis: Axis)
    requires s >= 0.0 && |q| == |pos|
    requires forall i :: 0 <= i < |q| ==> Coord(q[i], axis) == Times(s, Coord(pos[i], axis))
    ensures AxisExtent(q, axis) == Times(s, AxisExtent(pos, axis))
  {
    if |pos| > 0 {
      ScaledMax(pos, q, s, axis);
      ScaledMin(pos, q, s, axis);
      ExtentFromBounds(pos, q, s, axis);
    }
  }

  lemma {:induction false} ExtentFromBounds(pos: seq<Vec3>, q: seq<Vec3>, s: real, axis: Axis)
    requires |pos| > 0 && |q| > 0
    requires MaxCoord(q, axis) == Times(s, MaxCoord(pos, axis))
    requires MinCoord(q, axis) == Times(s, MinCoord(pos, axis))
    ensures AxisExtent(q, axis) == Times(s, AxisExtent(pos, axis))
  {
    ExtentIsMaxMinusMin(pos, axis);
    ExtentIsMaxMinusMin(q, axis);
    ScaledDifference(s, MaxCoord(pos, axis), MinCoord(pos, axis), MaxCoord(q, axis), MinCoord(q, axis));
  }

  lemma ScaledDifference(s: real, hi: real, lo: real, hq: real, lq: real)
    requires hq == Times(s, hi) && lq == Times(s, lo)
    ensures hq - lq == Times(s, hi - lo)
  {
    TimesSubtracts(s, hi, lo);
  }

  lemma {:induction false} ExtentIsMaxMinusMin(pos: seq<Vec3>, axis: Axis)
    requires |pos| > 0
    ensures AxisExtent(pos, axis) == MaxCoord(pos, axis) - MinCoord(pos, axis)
  {
  }

  lemma {:induction false} ScaledMax(pos: seq<Vec3>, q: seq<Vec3>, s: real, axis: Axis)
    requires s >= 0.0 && |pos| > 0 && |q| == |pos|
    requires forall i :: 0 <= i < |q| ==> Coord(q[i], axis) == Times(s, Coord(pos[i], axis))
    ensures MaxCoord(q, axis) == Times(s, MaxCoord(pos, axis))
  {
    var hi := MaxCoord(pos, axis);
    forall i | 0 <= i < |q|
      ensures Coord(q[i], axis) <= Times(s, hi)
    {
      TimesMonotone(s, Coord(pos[i], axis), hi);
    }
    var i :| 0 <= i < |pos| && Coord(pos[i], axis) == hi;
    MaxIsUnique(q, axis, Times(s, hi));
  }

  lemma {:induction false} ScaledMin(pos: seq<Vec3>, q: seq<Vec3>, s: real, axis: Axis)
    requires s >= 0.0 && |pos| > 0 && |q| == |pos|
    requires forall i :: 0 <= i < |q| ==> Coord(q[i], axis) == Times(s, Coord(pos[i], axis))
    ensures MinCoord(q, axis) == Times(s, MinCoord(pos, axis))
  {
    var lo := MinCoord(pos, axis);
    forall i | 0 <= i < |q|
      ensures Times(s, lo) <= Coord(q[i], axis)
    {
      TimesMonotone(s, lo, Coord(pos[i], axis));
    }
    var j :| 0 <= j < |pos| && Coord(pos[j], axis) == lo;
    MinIsUnique(q, axis, Times(s, lo));
  }

  lemma TimesMonotone(s: real, a: real, b: real)
    requires s >= 0.0 && a <= b
    ensures Times(s, a) <= Times(s, b)
  {
    assert s * b - s * a == s * (b - a);
  }
}
