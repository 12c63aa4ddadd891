/** The renderer of a shape: its interleaved vertex buffer, the attribute layout
    the shader reads it with, its scale matrix and its model matrix. */
module Render {
  import opened Algebra
  import opened Gfx

  /** A shape's renderer: a uniform scale, a mesh and a per-vertex colour function. */
  datatype Renderer = Renderer(scale: real, mesh: Mesh, color: ColorFn)

  /** Floats per vertex record, and the size of each of its two attributes. */
  const Stride: nat := 6
  const AttributeSize: nat := 3
  /** Where the position and the colour start inside a record. */
  const PositionOffset: nat := 0
  const ColorOffset: nat := 3

  /** One vertex record: the point's coordinates, then its colour. */
  function PointRecord(p: Vec3, c: Rgb): seq<real> {
    [p.x, p.y, p.z, c.r, c.g, c.b]
  }

  /** The records of the points `ps`, whose running indices start at `first`. */
  function PointRecords(ps: seq<Vec3>, first: int, color: ColorFn): seq<real>
    decreases |ps|
  {
    if |ps| == 0 then []
    else PointRecords(ps[..|ps| - 1], first, color) + PointRecord(ps[|ps| - 1], color(first + |ps| - 1))
  }

  /** The buffer `vertices()` fills: each triangle's points in mesh order, each
      followed by the colour of its running index. */
  function Interleaved(mesh: Mesh, color: ColorFn): seq<real>
    decreases |mesh|
  {
    if |mesh| == 0 then []
    else Interleaved(mesh[..|mesh| - 1], color) + PointRecords(Points(mesh[|mesh| - 1]), 3 * (|mesh| - 1), color)
  }

  /** Renderable::vertices: a nested loop over triangles and their points that
      appends six floats per point and counts the points it has seen. */
  method Vertices(r: Renderer) returns (v: seq<real>)
    ensures v == Interleaved(r.mesh, r.color)
  {
    v := [];
    var counter := 0;
    for i := 0 to |r.mesh|
      invariant counter == 3 * i
      invariant v == Interleaved(r.mesh[..i], r.color)
    {
      var ps := Points(r.mesh[i]);
      for j := 0 to 3
        invariant counter == 3 * i + j
        invariant v == Interleaved(r.mesh[..i], r.color) + PointRecords(ps[..j], 3 * i, r.color)
      {
        var p := ps[j];
        v := v + [p.x, p.y, p.z];
        var c := r.color(counter);
        v := v + [c.r, c.g, c.b];
        counter := counter + 1;
        assert ps[..j + 1][..j] == ps[..j];
      }
      assert ps[..3] == ps;
      assert r.mesh[..i + 1][..i] == r.mesh[..i];
    }
    assert r.mesh[..|r.mesh|] == r.mesh;
  }

  lemma {:induction false} PointRecordsLength(ps: seq<Vec3>, first: int, color: ColorFn)
    ensures |PointRecords(ps, first, color)| == Stride * |ps|
    decreases |ps|
  {
    if |ps| > 0 {
      PointRecordsLength(ps[..|ps| - 1], first, color);
    }
  }

  /** Six floats per point, three points per triangle; nothing for an empty mesh. */
  lemma {:induction false} InterleavedLength(mesh: Mesh, color: ColorFn)
    ensures |Interleaved(mesh, color)| == 3 * Stride * |mesh|
    ensures Interleaved(mesh, color) == [] <==> |mesh| == 0
    decreases |mesh|
  {
    if |mesh| > 0 {
      InterleavedLength(mesh[..|mesh| - 1], color);
      PointRecordsLength(Points(mesh[|mesh| - 1]), 3 * (|mesh| - 1), color);
    }
  }

  lemma PrefixSlice(a: seq<real>, b: seq<real>, i: nat, j: nat)
    requires i <= j <= |a|
    ensures (a + b)[i..j] == a[i..j]
  {
  }

  lemma SuffixSlice(a: seq<real>, b: seq<real>, i: nat, j: nat)
    requires |a| <= i <= j <= |a| + |b|
    ensures (a + b)[i..j] == b[i - |a|..j - |a|]
  {
  }

  lemma SliceOfSlice(a: seq<real>, i: nat, j: nat, k: nat, l: nat)
    requires i <= j <= |a| && k <= l <= j - i
    ensures a[i..j][k..l] == a[i + k..i + l]
  {
    assert forall n :: 0 <= n < l - k ==> a[i..j][k..l][n] == a[i + k..i + l][n];
  }

  /** Record k of the points' buffer is point k with the colour of index first + k. */
  lemma {:induction false} PointRecordsLayout(ps: seq<Vec3>, first: int, color: ColorFn, k: nat)
    requires k < |ps|
    ensures |PointRecords(ps, first, color)| == Stride * |ps|
    ensures PointRecords(ps, first, color)[Stride * k..Stride * k + Stride] == PointRecord(ps[k], color(first + k))
    decreases |ps|
  {
    var n := |ps| - 1;
    PointRecordsLength(ps, first, color);
    PointRecordsLength(ps[..n], first, color);
    if k == n {
      SuffixSlice(PointRecords(ps[..n], first, color), PointRecord(ps[n], color(first + n)), Stride * k, Stride * k + Stride);
    } else {
      PointRecordsLayout(ps[..n], first, color, k);
      PrefixSlice(PointRecords(ps[..n], first, color), PointRecord(ps[n], color(first + n)), Stride * k, Stride * k + Stride);
    }
  }

  /** Floats 6k..6k+5 of the buffer are point k of the mesh (triangle k / 3,
      corner k % 3) followed by the colour the colour function gives index k. */
  lemma {:induction false} InterleavedLayout(mesh: Mesh, color: ColorFn, k: nat)
    requires k < 3 * |mesh|
    ensures |Interleaved(mesh, color)| == 3 * Stride * |mesh|
    ensures Interleaved(mesh, color)[Stride * k..Stride * k + Stride] == PointRecord(PointAt(mesh, k), color(k))
    decreases |mesh|
  {
    var n := |mesh| - 1;
    var front, last := mesh[..n], Points(mesh[n]);
    InterleavedLength(mesh, color);
    InterleavedLength(front, color);
    PointRecordsLength(last, 3 * n, color);
    if k < 3 * n {
      InterleavedLayout(front, color, k);
      PrefixSlice(Interleaved(front, color), PointRecords(last, 3 * n, color), Stride * k, Stride * k + Stride);
      assert PointAt(front, k) == PointAt(mesh, k);
    } else {
      var j := k - 3 * n;
      assert k / 3 == n && k % 3 == j;
      PointRecordsLayout(last, 3 * n, color, j);
      SuffixSlice(Interleaved(front, color), PointRecords(last, 3 * n, color), Stride * k, Stride * k + Stride);
    }
  }

  lemma {:induction false} PointRecordsUseIndicesFrom(ps: seq<Vec3>, first: int, c1: ColorFn, c2: ColorFn)
    requires forall k :: first <= k < first + |ps| ==> c1(k) == c2(k)
    ensures PointRecords(ps, first, c1) == PointRecords(ps, first, c2)
    decreases |ps|
  {
    if |ps| > 0 {
      PointRecordsUseIndicesFrom(ps[..|ps| - 1], first, c1, c2);
    }
  }

  /** The colour function is only ever asked about indices 0 .. 3 * |mesh| - 1:
      two colour functions that agree there give the same buffer. */
  lemma {:induction false} InterleavedUsesIndicesBelow(mesh: Mesh, c1: ColorFn, c2: ColorFn)
    requires forall k :: 0 <= k < 3 * |mesh| ==> c1(k) == c2(k)
    ensures Interleaved(mesh, c1) == Interleaved(mesh, c2)
    decreases |mesh|
  {
    if |mesh| > 0 {
      var n := |mesh| - 1;
      InterleavedUsesIndicesBelow(mesh[..n], c1, c2);
      PointRecordsUseIndicesFrom(Points(mesh[n]), 3 * n, c1, c2);
    }
  }

  // ---------------------------------------------------------------------------
  // Attribute layout (the two VertexAttribPointer calls)

  /** The `AttributeSize` floats a shader attribute at `offset` reads for vertex k. */
  function Attribute(buffer: seq<real>, offset: nat, k: nat): seq<real>
    requires Stride * k + offset + AttributeSize <= |buffer|
  {
    buffer[Stride * k + offset..Stride * k + offset + AttributeSize]
  }

  /** The position attribute reads each vertex's coordinates and the colour
      attribute reads the colour of its index: the layout matches the buffer. */
  lemma AttributesReadVertices(r: Renderer, k: nat)
    requires k < 3 * |r.mesh|
    ensures var buffer, p, c := Interleaved(r.mesh, r.color), PointAt(r.mesh, k), r.color(k);
      Stride * k + ColorOffset + AttributeSize <= |buffer| &&
      Attribute(buffer, PositionOffset, k) == [p.x, p.y, p.z] &&
      Attribute(buffer, ColorOffset, k) == [c.r, c.g, c.b]
  {
    var buffer := Interleaved(r.mesh, r.color);
    InterleavedLayout(r.mesh, r.color, k);
    var at := Stride * k;
    var p, c := PointAt(r.mesh, k), r.color(k);
    var rec := buffer[at..at + Stride];
    assert rec == [p.x, p.y, p.z, c.r, c.g, c.b];
    SliceOfSlice(buffer, at, at + Stride, 0, 3);
    SliceOfSlice(buffer, at, at + Stride, 3, 6);
    assert rec[0..3] == [p.x, p.y, p.z];
    assert rec[3..6] == [c.r, c.g, c.b];
  }

  // ---------------------------------------------------------------------------
  // Matrices

  /** mat_scale: the column-major matrix with the scale on the first three
      diagonal entries and 1 in the last. */
  function MatScale(r: Renderer): Mat4 {
    var s := r.scale;
    FromColumnMajor([s, 0.0, 0.0, 0.0,
                     0.0, s, 0.0, 0.0,
                     0.0, 0.0, s, 0.0,
                     0.0, 0.0, 0.0, 1.0])
  }

  /** diag(s, s, s, 1), with every off-diagonal entry zero. */
  lemma MatScaleIsDiagonal(r: Renderer)
    ensures MatScale(r) == ScaleMatrix(r.scale)
    ensures forall i :: 0 <= i < 16 ==>
      Slice(MatScale(r))[i] == (if i == 0 || i == 5 || i == 10 then r.scale else if i == 15 then 1.0 else 0.0)
  {
  }

  /** mat_model: translation, then rotation, then scale, multiplied in that order. */
  function ModelMatrix(r: Renderer, translation: Mat4, rotation: Mat4): Mat4 {
    Mul4(Mul4(translation, rotation), MatScale(r))
  }

  /** For any translation and rotation matrices, the scale only multiplies
      the first three columns of their product and keeps the fourth, the
      translation column. */
  lemma ModelMatrixScalesColumns(r: Renderer, translation: Mat4, rotation: Mat4)
    ensures ModelMatrix(r, translation, rotation) == ScaleFirstColumns(Mul4(translation, rotation), r.scale)
  {
    MatScaleIsDiagonal(r);
    MulScaleMatrix(Mul4(translation, rotation), r.scale);
  }

  /** With the translation to `pos` and the rotation `rot`, the model matrix maps
      a point p to rot(s p) + pos: scale first, then rotate, then translate. */
  lemma ModelMatrixMapsPoints(r: Renderer, pos: Vec3, rot: Mat3, p: Vec3)
    ensures Apply4(ModelMatrix(r, AffineMatrix(Identity3, pos), Homogeneous(rot)), PointToHomogeneous(p))
         == PointToHomogeneous(Add(Apply3(rot, Scale(p, r.scale)), pos))
  {
    var s := r.scale;
    TranslateAfterRotate(rot, pos);
    MatScaleIsDiagonal(r);
    ScaleBeforeAffine(rot, pos, s);
    assert ModelMatrix(r, AffineMatrix(Identity3, pos), Homogeneous(rot)) == AffineMatrix(ScaleColumns(rot, s), pos);
    ApplyAffine(ScaleColumns(rot, s), pos, p);
    ApplyScaleColumns(rot, s, p);
  }

  /** Without rotation the model matrix maps p to s p + pos. */
  lemma ModelMatrixWithoutRotation(r: Renderer, pos: Vec3, p: Vec3)
    ensures Apply4(ModelMatrix(r, AffineMatrix(Identity3, pos), Homogeneous(Identity3)), PointToHomogeneous(p))
         == PointToHomogeneous(Add(Scale(p, r.scale), pos))
  {
    ModelMatrixMapsPoints(r, pos, Identity3, p);
    ApplyIdentity3(Scale(p, r.scale));
  }

  /** transformation: the model matrix's sixteen entries in column-major order. */
  function Transformation(r: Renderer, translation: Mat4, rotation: Mat4): (m: seq<real>)
    ensures |m| == 16 && FromColumnMajor(m) == ModelMatrix(r, translation, rotation)
  {
    Slice(ModelMatrix(r, translation, rotation))
  }

  // ---------------------------------------------------------------------------
  // The draw call

  /** The vertex count `render` passes to DrawArrays, as written: always 6. */
  function DrawnVertexCount(r: Renderer): (n: nat)
    ensures n * Stride <= |Interleaved(r.mesh, r.color)| <==> |r.mesh| >= 2
  {
    InterleavedLength(r.mesh, r.color);
    6
  }

  /** The number of vertices the buffer holds: one record per mesh point. */
  function BufferedVertexCount(r: Renderer): (n: nat)
    ensures n * Stride == |Interleaved(r.mesh, r.color)|
  {
    InterleavedLength(r.mesh, r.color);
    3 * |r.mesh|
  }

  /** The fixed count draws exactly the buffer only for two-triangle meshes. */
  lemma DrawCountMatchesOnlyQuads(r: Renderer)
    ensures DrawnVertexCount(r) == BufferedVertexCount(r) <==> |r.mesh| == 2
  {
  }
}
