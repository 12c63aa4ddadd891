/** A rectangle shape: a two-triangle quad centred on its own origin, a physics
    state that places it, and the placed triangles it hands to composite shapes. */
module RectangleShape {
  import opened Algebra
  import opened Gfx
  import opened Render
  import opened Phys

  function TopLeft(w: real, h: real): Vec3 { Vec3(-w / 2.0, h / 2.0, 0.0) }
  function TopRight(w: real, h: real): Vec3 { Vec3(w / 2.0, h / 2.0, 0.0) }
  function BottomRight(w: real, h: real): Vec3 { Vec3(w / 2.0, -h / 2.0, 0.0) }
  function BottomLeft(w: real, h: real): Vec3 { Vec3(-w / 2.0, -h / 2.0, 0.0) }

  /** The quad of width w and height h: (top left, top right, bottom right) and
      (top left, bottom left, bottom right). */
  function QuadMesh(w: real, h: real): (m: Mesh)
    ensures |m| == 2
    ensures forall i, j :: 0 <= i < |m| && 0 <= j < 3 ==>
      var p := Points(m[i])[j];
      p.z == 0.0 && (p.x == -w / 2.0 || p.x == w / 2.0) && (p.y == -h / 2.0 || p.y == h / 2.0)
  {
    [Triangle(TopLeft(w, h), TopRight(w, h), BottomRight(w, h)),
     Triangle(TopLeft(w, h), BottomLeft(w, h), BottomRight(w, h))]
  }

  /** Both triangles run from the top-left to the bottom-right corner, and
      between them they use all four corners. */
  lemma QuadSharesDiagonal(w: real, h: real)
    ensures var m := QuadMesh(w, h);
      m[0].a == m[1].a == TopLeft(w, h) && m[0].c == m[1].c == BottomRight(w, h) &&
      {m[0].a, m[0].b, m[0].c, m[1].a, m[1].b, m[1].c} ==
      {TopLeft(w, h), TopRight(w, h), BottomRight(w, h), BottomLeft(w, h)}
  {
  }

  // ---------------------------------------------------------------------------
  // translate_mesh

  /** One point through a 4x4 matrix: to homogeneous, multiply, back from
      homogeneous. There is no point back when the product has w = 0, where
      the source's unwrap panics. */
  function TransformPoint(mat: Mat4, p: Vec3): Option<Vec3> {
    PointFromHomogeneous(Apply4(mat, PointToHomogeneous(p)))
  }

  /** The triangle of the three transformed points, in the same order; none
      when any of them has no point back. */
  function TransformTriangle(mat: Mat4, t: Triangle): (r: Option<Triangle>)
    ensures r.Some? <==> forall j :: 0 <= j < 3 ==> TransformPoint(mat, Points(t)[j]).Some?
    ensures r.Some? ==> forall j :: 0 <= j < 3 ==> TransformPoint(mat, Points(t)[j]) == Some(Points(r.value)[j])
  {
    var a, b, c := TransformPoint(mat, t.a), TransformPoint(mat, t.b), TransformPoint(mat, t.c);
    assert Points(t) == [t.a, t.b, t.c];
    if a.Some? && b.Some? && c.Some? then Some(Triangle(a.value, b.value, c.value)) else None
  }

  /** translate_mesh: a loop that pushes the three transformed points in order;
      None stands for the panic of unwrapping a point with w = 0. */
  method TranslateMesh(mat: Mat4, t: Triangle) returns (r: Option<Triangle>)
    ensures r == TransformTriangle(mat, t)
  {
    var ps := Points(t);
    var points: seq<Vec3> := [];
    for j := 0 to 3
      invariant |points| == j
      invariant forall k :: 0 <= k < j ==> TransformPoint(mat, ps[k]) == Some(points[k])
    {
      var h := Apply4(mat, PointToHomogeneous(ps[j]));
      var q := PointFromHomogeneous(h);
      if q.None? {
        return None;
      }
      points := points + [q.value];
    }
    r := Some(Triangle(points[0], points[1], points[2]));
  }

  /** The triangle placed by rotation r and then translation pos. */
  function Placed(rot: Mat3, pos: Vec3, t: Triangle): Triangle {
    Triangle(Add(Apply3(rot, t.a), pos), Add(Apply3(rot, t.b), pos), Add(Apply3(rot, t.c), pos))
  }

  lemma TransformPointAffine(rot: Mat3, pos: Vec3, p: Vec3)
    ensures TransformPoint(AffineMatrix(rot, pos), p) == Some(Add(Apply3(rot, p), pos))
  {
    ApplyAffine(rot, pos, p);
    HomogeneousRoundTrip(Add(Apply3(rot, p), pos));
  }

  /** An affine matrix never hits w = 0 and maps each corner to rot p + pos. */
  lemma TransformTriangleAffine(rot: Mat3, pos: Vec3, t: Triangle)
    ensures TransformTriangle(AffineMatrix(rot, pos), t) == Some(Placed(rot, pos, t))
  {
    TransformPointAffine(rot, pos, t.a);
    TransformPointAffine(rot, pos, t.b);
    TransformPointAffine(rot, pos, t.c);
  }

  /** The source's unwrap can fail: a matrix with a zero bottom row sends every
      point to w = 0. */
  lemma TransformTriangleCanFail(t: Triangle)
    ensures TransformTriangle(Mat4(Vec4(1.0, 0.0, 0.0, 0.0), Vec4(0.0, 1.0, 0.0, 0.0),
                                   Vec4(0.0, 0.0, 1.0, 0.0), Vec4(0.0, 0.0, 0.0, 0.0)), t) == None
  {
  }

  // ---------------------------------------------------------------------------
  // Rectangle::vertices

  /** Every triangle transformed, in reverse mesh order (map, then rev); none
      when any triangle fails. */
  function TransformMesh(mat: Mat4, mesh: Mesh): (r: Option<Mesh>)
    ensures r.Some? <==> forall i :: 0 <= i < |mesh| ==> TransformTriangle(mat, mesh[i]).Some?
    ensures r.Some? ==>
      |r.value| == |mesh| &&
      forall i :: 0 <= i < |mesh| ==> TransformTriangle(mat, mesh[|mesh| - 1 - i]) == Some(r.value[i])
  {
    if forall i :: 0 <= i < |mesh| ==> TransformTriangle(mat, mesh[i]).Some? then
      var placed := seq(|mesh|, i requires 0 <= i < |mesh| => TransformTriangle(mat, mesh[|mesh| - 1 - i]).value);
      assert forall i :: 0 <= i < |mesh| ==> TransformTriangle(mat, mesh[|mesh| - 1 - i]) == Some(placed[i]);
      Some(placed)
    else None
  }

  /** Under an affine matrix the result is always there: the placed triangles,
      as many as the mesh has, in reverse order. */
  lemma TransformMeshAffine(rot: Mat3, pos: Vec3, mesh: Mesh)
    ensures var m := TransformMesh(AffineMatrix(rot, pos), mesh);
      m.Some? && |m.value| == |mesh| &&
      forall i :: 0 <= i < |mesh| ==> m.value[i] == Placed(rot, pos, mesh[|mesh| - 1 - i])
  {
    forall i | 0 <= i < |mesh|
      ensures TransformTriangle(AffineMatrix(rot, pos), mesh[i]) == Some(Placed(rot, pos, mesh[i]))
    {
      TransformTriangleAffine(rot, pos, mesh[i]);
    }
  }

  /** A rectangle: its physics state and its renderer. */
  datatype Rectangle = Rectangle(phys: Physics, gfx: Renderer) {

    /** vertices(): the mesh moved by the model matrix of the physics state, in
        reverse order. That matrix is AffineMatrix(rot, pos) (Physics.MatModel
        and VerticesUseModelMatrix), so no point is lost. */
    function Vertices(): (m: Mesh)
      reads phys
      ensures |m| == |gfx.mesh|
      ensures forall i :: 0 <= i < |m| ==> m[i] == Placed(phys.rot, phys.pos, gfx.mesh[|m| - 1 - i])
    {
      TransformMeshAffine(phys.rot, phys.pos, gfx.mesh);
      TransformMesh(AffineMatrix(phys.rot, phys.pos), gfx.mesh).value
    }
  }

  /** vertices() is the mesh transformed by mat_model, reversed. */
  lemma VerticesUseModelMatrix(r: Rectangle)
    ensures TransformMesh(r.phys.MatModel(), r.gfx.mesh) == Some(r.Vertices())
  {
    VerticesAreAffineImage(r, r.phys.MatModel());
  }

  /** vertices() is the mesh transformed by any matrix equal to the affine one. */
  lemma VerticesAreAffineImage(r: Rectangle, mat: Mat4)
    requires mat == AffineMatrix(r.phys.rot, r.phys.pos)
    ensures TransformMesh(mat, r.gfx.mesh) == Some(r.Vertices())
  {
    TransformMeshAffine(r.phys.rot, r.phys.pos, r.gfx.mesh);
  }

  /** Without rotation, vertices() shifts every corner by the position. */
  lemma PlacedWithoutRotation(pos: Vec3, t: Triangle)
    ensures Placed(Identity3, pos, t) == Triangle(Add(t.a, pos), Add(t.b, pos), Add(t.c, pos))
  {
    ApplyIdentity3(t.a);
    ApplyIdentity3(t.b);
    ApplyIdentity3(t.c);
  }

  lemma UnrotatedVerticesShift(r: Rectangle, i: nat)
    requires r.phys.rot == Identity3
    requires i < |r.gfx.mesh|
    ensures var t := r.gfx.mesh[|r.gfx.mesh| - 1 - i];
      r.Vertices()[i] == Triangle(Add(t.a, r.phys.pos), Add(t.b, r.phys.pos), Add(t.c, r.phys.pos))
  {
    var m := r.Vertices();
    var t := r.gfx.mesh[|r.gfx.mesh| - 1 - i];
    assert m[i] == Placed(Identity3, r.phys.pos, t);
    PlacedWithoutRotation(r.phys.pos, t);
  }

  /** rectangle::new: physics at (x, y, z), scale 1, the quad mesh and the given
      colour function. */
  method New(x: real, y: real, z: real, w: real, h: real, color: ColorFn) returns (r: Rectangle)
    ensures fresh(r.phys)
    ensures r.phys.pos == Vec3(x, y, z) && r.phys.vel == Zero3 && r.phys.rot == Identity3 && r.phys.ang == Zero3
    ensures r.gfx == Renderer(1.0, QuadMesh(w, h), color)
  {
    var phys := new Physics(x, y, z);
    r := Rectangle(phys, Renderer(1.0, QuadMesh(w, h), color));
  }

  /** The triangles vertices() returns for a fw by fh quad rotated by rot and
      moved to pos: the two placed triangles, in reverse order. */
  function PlacedQuad(rot: Mat3, pos: Vec3, fw: real, fh: real): (m: Mesh)
    ensures |m| == 2
  {
    var q := QuadMesh(fw, fh);
    [Placed(rot, pos, q[1]), Placed(rot, pos, q[0])]
  }

  /** A placed quad's corners are the quad's corners, rotated, then moved. */
  lemma PlacedQuadPoint(rot: Mat3, pos: Vec3, fw: real, fh: real, i: nat, j: nat)
    requires i < 2 && j < 3
    ensures var q := Points(QuadMesh(fw, fh)[1 - i])[j];
      Points(PlacedQuad(rot, pos, fw, fh)[i])[j] == Add(Apply3(rot, q), pos) &&
      q.z == 0.0 && (q.x == -fw / 2.0 || q.x == fw / 2.0) && (q.y == -fh / 2.0 || q.y == fh / 2.0)
  {
  }

  /** The vertices of a rectangle built on a fw by fh quad are that quad,
      placed by the rectangle's rotation and position. */
  lemma VerticesArePlacedQuad(r: Rectangle, fw: real, fh: real)
    requires r.gfx.mesh == QuadMesh(fw, fh)
    ensures r.Vertices() == PlacedQuad(r.phys.rot, r.phys.pos, fw, fh)
  {
    var m := r.Vertices();
    assert m[0] == Placed(r.phys.rot, r.phys.pos, r.gfx.mesh[1]);
    assert m[1] == Placed(r.phys.rot, r.phys.pos, r.gfx.mesh[0]);
  }

  /** rectangle::new at (x, y, z) followed by vertices(), as the composite
      shapes build their parts. */
  method NewVertices(x: real, y: real, z: real, fw: real, fh: real, color: ColorFn) returns (m: Mesh)
    ensures m == PlacedQuad(Identity3, Vec3(x, y, z), fw, fh)
  {
    var face := New(x, y, z, fw, fh, color);
    VerticesArePlacedQuad(face, fw, fh);
    m := face.Vertices();
  }

  /** The same for a rectangle whose rotation is set before its vertices are
      taken. */
  method NewTurnedVertices(x: real, y: real, z: real, fw: real, fh: real, color: ColorFn, rot: Mat3)
    returns (m: Mesh)
    requires IsOrthonormal(rot)
    ensures m == PlacedQuad(rot, Vec3(x, y, z), fw, fh)
  {
    var face := New(x, y, z, fw, fh, color);
    face.phys.rot := rot;
    VerticesArePlacedQuad(face, fw, fh);
    m := face.Vertices();
  }
}
