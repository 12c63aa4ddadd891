/** The shared graphics types: a triangle is three points, a mesh is a sequence
    of triangles, and colours are either byte triples or the float triples that
    a per-vertex colour function returns. */
module Gfx {
  import opened Algebra

  datatype Triangle = Triangle(a: Vec3, b: Vec3, c: Vec3)

  /** The three corners in the order the triangle stores them. */
  function Points(t: Triangle): (ps: seq<Vec3>)
    ensures |ps| == 3 && ps[0] == t.a && ps[1] == t.b && ps[2] == t.c
  {
    [t.a, t.b, t.c]
  }

  type Mesh = seq<Triangle>

  type Byte = x: int | 0 <= x < 256

  /** A byte colour, `[u8; 3]`. */
  datatype Color = Color(r: Byte, g: Byte, b: Byte)

  /** A float colour, as the per-vertex colour functions return it. */
  datatype Rgb = Rgb(r: real, g: real, b: real)

  /** A per-vertex colour function, called with the running vertex index. */
  type ColorFn = int -> Rgb

  /** The k-th point of a mesh, counting three per triangle in mesh order. */
  function PointAt(mesh: Mesh, k: nat): Vec3
    requires k < 3 * |mesh|
  {
    Points(mesh[k / 3])[k % 3]
  }
}
