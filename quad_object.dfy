/** The older quad builder: a flat rectangle in the z = 0 plane wrapped in an
    Object record with a position, a velocity, a rotation vector, a scale and
    one byte colour. */
module QuadObject {
  import opened Algebra
  import opened Gfx
  import RectangleShape

  datatype Object = Object(pos: Vec3, vel: Vec3, rot: Vec3, scale: real, mesh: Mesh, color: Color)

  /** The quad this builder writes out corner by corner: (top left, top right,
      bottom right) and (top left, bottom left, bottom right). */
  function ObjectMesh(w: real, h: real): (m: Mesh)
    ensures |m| == 2
    ensures forall i, j :: 0 <= i < 2 && 0 <= j < 3 ==>
      var p := Points(m[i])[j];
      p.z == 0.0 && (p.x == -w / 2.0 || p.x == w / 2.0) && (p.y == -h / 2.0 || p.y == h / 2.0)
  {
    [Triangle(Vec3(-w / 2.0, h / 2.0, 0.0), Vec3(w / 2.0, h / 2.0, 0.0), Vec3(w / 2.0, -h / 2.0, 0.0)),
     Triangle(Vec3(-w / 2.0, h / 2.0, 0.0), Vec3(-w / 2.0, -h / 2.0, 0.0), Vec3(w / 2.0, -h / 2.0, 0.0))]
  }

  /** It is the same quad, corner for corner, as the shapes' rectangle, so it
      has two triangles, lies in z = 0 and has its corners at x = ±w/2 and
      y = ±h/2. */
  lemma ObjectMeshIsShapesQuad(w: real, h: real)
    ensures ObjectMesh(w, h) == RectangleShape.QuadMesh(w, h)
    ensures forall i, j :: 0 <= i < 2 && 0 <= j < 3 ==>
      var p := Points(ObjectMesh(w, h)[i])[j];
      p.z == 0.0 && (p.x == -w / 2.0 || p.x == w / 2.0) && (p.y == -h / 2.0 || p.y == h / 2.0)
  {
  }

  /** new: the quad placed at (x, y) in the z = 0 plane, at rest, unrotated,
      at scale 1, with the colour given. */
  function NewObject(x: real, y: real, w: real, h: real, color: Color): (o: Object)
    ensures o.pos == Vec3(x, y, 0.0) && o.pos.z == 0.0
    ensures o.vel == Zero3 && o.rot == Zero3 && o.scale == 1.0
    ensures o.mesh == RectangleShape.QuadMesh(w, h)
    ensures o.color == color
  {
    ObjectMeshIsShapesQuad(w, h);
    Object(Vec3(x, y, 0.0), Vec3(0.0, 0.0, 0.0), Vec3(0.0, 0.0, 0.0), 1.0, ObjectMesh(w, h), color)
  }
}
