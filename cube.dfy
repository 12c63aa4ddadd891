/** A cube built from six rectangles: each face is a quad placed by its own
    position and quarter-turn rotation, and the cube's mesh is the six faces'
    placed triangles one after another. */
module CubeShape {
  import opened Algebra
  import opened Gfx
  import opened Render
  import opened Phys
  import opened RectangleShape

  datatype Cube = Cube(id: int, phys: Physics, gfx: Renderer)

  function FrontFace(w: real, h: real, d: real): Mesh { PlacedQuad(Identity3, Vec3(0.0, 0.0, d / 2.0), w, h) }
  function BackFace(w: real, h: real, d: real): Mesh { PlacedQuad(Identity3, Vec3(0.0, 0.0, -d / 2.0), w, h) }
  function LeftFace(w: real, h: real, d: real): Mesh { PlacedQuad(QuarterTurnYPos, Vec3(-w / 2.0, 0.0, 0.0), d, h) }
  function RightFace(w: real, h: real, d: real): Mesh { PlacedQuad(QuarterTurnYNeg, Vec3(w / 2.0, 0.0, 0.0), d, h) }
  function TopFace(w: real, h: real, d: real): Mesh { PlacedQuad(QuarterTurnXPos, Vec3(0.0, h / 2.0, 0.0), w, d) }
  function BottomFace(w: real, h: real, d: real): Mesh { PlacedQuad(QuarterTurnXNeg, Vec3(0.0, -h / 2.0, 0.0), w, d) }

  /** The cube's mesh: front, back, left, right, top and bottom faces in turn. */
  function CubeMesh(w: real, h: real, d: real): (m: Mesh)
    ensures |m| == 12
  {
    FrontFace(w, h, d) + BackFace(w, h, d) + LeftFace(w, h, d) +
    RightFace(w, h, d) + TopFace(w, h, d) + BottomFace(w, h, d)
  }

  /** A corner of the w by h by d box centred on the origin. */
  predicate IsBoxCorner(p: Vec3, w: real, h: real, d: real) {
    (p.x == -w / 2.0 || p.x == w / 2.0) &&
    (p.y == -h / 2.0 || p.y == h / 2.0) &&
    (p.z == -d / 2.0 || p.z == d / 2.0)
  }

  lemma FrontAndBackFaces(w: real, h: real, d: real, i: nat, j: nat)
    requires i < 2 && j < 3
    ensures var p := Points(FrontFace(w, h, d)[i])[j]; p.z == d / 2.0 && IsBoxCorner(p, w, h, d)
    ensures var p := Points(BackFace(w, h, d)[i])[j]; p.z == -d / 2.0 && IsBoxCorner(p, w, h, d)
  {
    PlacedQuadPoint(Identity3, Vec3(0.0, 0.0, d / 2.0), w, h, i, j);
    PlacedQuadPoint(Identity3, Vec3(0.0, 0.0, -d / 2.0), w, h, i, j);
    ApplyIdentity3(Points(QuadMesh(w, h)[1 - i])[j]);
  }

  lemma LeftAndRightFaces(w: real, h: real, d: real, i: nat, j: nat)
    requires i < 2 && j < 3
    ensures var p := Points(LeftFace(w, h, d)[i])[j]; p.x == -w / 2.0 && IsBoxCorner(p, w, h, d)
    ensures var p := Points(RightFace(w, h, d)[i])[j]; p.x == w / 2.0 && IsBoxCorner(p, w, h, d)
  {
    PlacedQuadPoint(QuarterTurnYPos, Vec3(-w / 2.0, 0.0, 0.0), d, h, i, j);
    PlacedQuadPoint(QuarterTurnYNeg, Vec3(w / 2.0, 0.0, 0.0), d, h, i, j);
    ApplyQuarterTurns(Points(QuadMesh(d, h)[1 - i])[j]);
  }

  lemma TopAndBottomFaces(w: real, h: real, d: real, i: nat, j: nat)
    requires i < 2 && j < 3
    ensures var p := Points(TopFace(w, h, d)[i])[j]; p.y == h / 2.0 && IsBoxCorner(p, w, h, d)
    ensures var p := Points(BottomFace(w, h, d)[i])[j]; p.y == -h / 2.0 && IsBoxCorner(p, w, h, d)
  {
    PlacedQuadPoint(QuarterTurnXPos, Vec3(0.0, h / 2.0, 0.0), w, d, i, j);
    PlacedQuadPoint(QuarterTurnXNeg, Vec3(0.0, -h / 2.0, 0.0), w, d, i, j);
    ApplyQuarterTurns(Points(QuadMesh(w, d)[1 - i])[j]);
  }

  /** Every cube vertex is a corner of the w by h by d box, and triangles 2f and
      2f + 1 lie on face f's plane: z = d/2, z = -d/2, x = -w/2, x = w/2,
      y = h/2, y = -h/2. */
  lemma CubeVerticesOnFaces(w: real, h: real, d: real, i: nat, j: nat)
    requires i < 12 && j < 3
    ensures var p := Points(CubeMesh(w, h, d)[i])[j];
      IsBoxCorner(p, w, h, d) &&
      (i / 2 == 0 ==> p.z == d / 2.0) && (i / 2 == 1 ==> p.z == -d / 2.0) &&
      (i / 2 == 2 ==> p.x == -w / 2.0) && (i / 2 == 3 ==> p.x == w / 2.0) &&
      (i / 2 == 4 ==> p.y == h / 2.0) && (i / 2 == 5 ==> p.y == -h / 2.0)
  {
    var k := i % 2;
    CubeMeshFaces(w, h, d, i);
    if i / 2 < 2 {
      FrontAndBackFaces(w, h, d, k, j);
    } else if i / 2 < 4 {
      LeftAndRightFaces(w, h, d, k, j);
    } else {
      TopAndBottomFaces(w, h, d, k, j);
    }
  }

  /** Face f of the cube, in the order the mesh lists them. */
  function Face(f: nat, w: real, h: real, d: real): Mesh {
    if f == 0 then FrontFace(w, h, d) else if f == 1 then BackFace(w, h, d)
    else if f == 2 then LeftFace(w, h, d) else if f == 3 then RightFace(w, h, d)
    else if f == 4 then TopFace(w, h, d) else BottomFace(w, h, d)
  }

  /** Triangle i of the cube's mesh is triangle i % 2 of face i / 2. */
  lemma CubeMeshFaces(w: real, h: real, d: real, i: nat)
    requires i < 12
    ensures CubeMesh(w, h, d)[i] == Face(i / 2, w, h, d)[i % 2]
  {
  }

  /** With non-negative sides, every vertex lies in the box
      [-w/2, w/2] x [-h/2, h/2] x [-d/2, d/2]. */
  lemma CubeInsideBox(w: real, h: real, d: real, i: nat, j: nat)
    requires 0.0 <= w && 0.0 <= h && 0.0 <= d
    requires i < 12 && j < 3
    ensures var p := Points(CubeMesh(w, h, d)[i])[j];
      -w / 2.0 <= p.x <= w / 2.0 && -h / 2.0 <= p.y <= h / 2.0 && -d / 2.0 <= p.z <= d / 2.0
  {
    CubeVerticesOnFaces(w, h, d, i, j);
  }

  /** The front face, then the back face, each built as a rectangle. */
  method FrontAndBackVertices(w: real, h: real, d: real, color: ColorFn) returns (m: Mesh)
    ensures m == FrontFace(w, h, d) + BackFace(w, h, d)
  {
    var front := NewVertices(0.0, 0.0, d / 2.0, w, h, color);
    var back := NewVertices(0.0, 0.0, -d / 2.0, w, h, color);
    m := front + back;
  }

  /** Two fw by fh rectangles, at p turned by r and at q turned by s. */
  method TurnedPair(p: Vec3, r: Mat3, q: Vec3, s: Mat3, fw: real, fh: real, color: ColorFn) returns (m: Mesh)
    requires IsOrthonormal(r) && IsOrthonormal(s)
    ensures m == PlacedQuad(r, p, fw, fh) + PlacedQuad(s, q, fw, fh)
  {
    var first := NewTurnedVertices(p.x, p.y, p.z, fw, fh, color, r);
    var second := NewTurnedVertices(q.x, q.y, q.z, fw, fh, color, s);
    m := first + second;
  }

  /** The left face, then the right face, each a rectangle turned about y. */
  method LeftAndRightVertices(w: real, h: real, d: real, color: ColorFn) returns (m: Mesh)
    ensures m == LeftFace(w, h, d) + RightFace(w, h, d)
  {
    QuarterTurnYPosOrthonormal();
    QuarterTurnYNegOrthonormal();
    m := TurnedPair(Vec3(-w / 2.0, 0.0, 0.0), QuarterTurnYPos, Vec3(w / 2.0, 0.0, 0.0), QuarterTurnYNeg, d, h, color);
  }

  /** The top face, then the bottom face, each a rectangle turned about x. */
  method TopAndBottomVertices(w: real, h: real, d: real, color: ColorFn) returns (m: Mesh)
    ensures m == TopFace(w, h, d) + BottomFace(w, h, d)
  {
    QuarterTurnXPosOrthonormal();
    QuarterTurnXNegOrthonormal();
    m := TurnedPair(Vec3(0.0, h / 2.0, 0.0), QuarterTurnXPos, Vec3(0.0, -h / 2.0, 0.0), QuarterTurnXNeg, w, d, color);
  }

  /** The cube's mesh, grouped as its three pairs of opposite faces. */
  lemma CubeMeshInPairs(w: real, h: real, d: real)
    ensures CubeMesh(w, h, d) ==
      (FrontFace(w, h, d) + BackFace(w, h, d)) + (LeftFace(w, h, d) + RightFace(w, h, d)) +
      (TopFace(w, h, d) + BottomFace(w, h, d))
  {
  }

  /** The six faces' vertices, pair by pair, concatenated. */
  method CubeVertices(w: real, h: real, d: real, color: ColorFn) returns (m: Mesh)
    ensures m == CubeMesh(w, h, d)
  {
    var frontBack := FrontAndBackVertices(w, h, d, color);
    var leftRight := LeftAndRightVertices(w, h, d, color);
    var topBottom := TopAndBottomVertices(w, h, d, color);
    m := frontBack + leftRight + topBottom;
    CubeMeshInPairs(w, h, d);
  }

  /** cube::new: six rectangles placed on the faces of the box and turned to
      face outwards, their vertices concatenated; the cube itself sits at
      (x, y, z) with scale 1 and the given colour function. */
  method New(id: int, x: real, y: real, z: real, w: real, h: real, d: real, color: ColorFn)
    returns (c: Cube)
    ensures fresh(c.phys)
    ensures c.id == id
    ensures c.phys.pos == Vec3(x, y, z) && c.phys.vel == Zero3 && c.phys.rot == Identity3 && c.phys.ang == Zero3
    ensures c.gfx == Renderer(1.0, CubeMesh(w, h, d), color)
  {
    var mesh := CubeVertices(w, h, d, color);
    var phys := new Physics(x, y, z);
    c := Cube(id, phys, Renderer(1.0, mesh, color));
  }

  /** The fixed draw count of six covers one face of the cube's 36 vertices. */
  lemma CubeDrawsOneFace(w: real, h: real, d: real, color: ColorFn)
    ensures var r := Renderer(1.0, CubeMesh(w, h, d), color);
      BufferedVertexCount(r) == 36 && DrawnVertexCount(r) == 6
  {
  }
}
