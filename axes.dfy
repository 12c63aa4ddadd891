/** The coordinate axes: three long thin rectangles through the origin, one
    along each axis, drawn red, green and blue by a colour function of the
    running vertex index. */
module AxesShape {
  import opened Algebra
  import opened Gfx
  import opened Render
  import opened Phys
  import opened RectangleShape

  datatype Axes = Axes(phys: Physics, gfx: Renderer)

  /** The long and the short side of every bar. */
  const BarLength := 1000.0
  const BarWidth := 0.2

  const Red := Rgb(1.0, 0.0, 0.0)
  const Green := Rgb(0.0, 1.0, 0.0)
  const Blue := Rgb(0.0, 0.0, 1.0)

  /** The colour of bar b: the x bar red, the y bar green, the z bar blue. */
  function BarColor(b: nat): Rgb {
    if b == 0 then Red else if b == 1 then Green else Blue
  }

  // ---------------------------------------------------------------------------
  // The bars

  /** The x bar: l along x, t along y, unrotated at the origin. */
  function XBar(l: real, t: real): Mesh { PlacedQuad(Identity3, Zero3, l, t) }

  /** The y bar: t along x, l along y, unrotated at the origin. */
  function YBar(l: real, t: real): Mesh { PlacedQuad(Identity3, Zero3, t, l) }

  /** The z bar: the y bar's quad turned a quarter about x, clockwise. */
  function ZBar(l: real, t: real): Mesh { PlacedQuad(QuarterTurnXNeg, Zero3, t, l) }

  /** The mesh axes::new builds from bars l long and t wide (BarLength and
      BarWidth): the x bar's vertices, then the y bar's, then the z bar's. */
  function AxesMesh(l: real, t: real): (m: Mesh)
    ensures |m| == 6
  {
    XBar(l, t) + YBar(l, t) + ZBar(l, t)
  }

  /** Point p lies on the bar along axis b (0 for x, 1 for y, 2 for z): at one
      end of that axis, at the edge of the thin side, and flat in the third. */
  predicate OnBar(p: Vec3, b: nat, l: real, t: real) {
    if b == 0 then (p.x == -l / 2.0 || p.x == l / 2.0) && (p.y == -t / 2.0 || p.y == t / 2.0) && p.z == 0.0
    else if b == 1 then (p.x == -t / 2.0 || p.x == t / 2.0) && (p.y == -l / 2.0 || p.y == l / 2.0) && p.z == 0.0
    else (p.x == -t / 2.0 || p.x == t / 2.0) && p.y == 0.0 && (p.z == -l / 2.0 || p.z == l / 2.0)
  }

  lemma XBarOnXAxis(l: real, t: real, i: nat, j: nat)
    requires i < 2 && j < 3
    ensures OnBar(Points(XBar(l, t)[i])[j], 0, l, t)
  {
    var q := Points(QuadMesh(l, t)[1 - i])[j];
    PlacedQuadPoint(Identity3, Zero3, l, t, i, j);
    ApplyIdentity3(q);
  }

  lemma YBarOnYAxis(l: real, t: real, i: nat, j: nat)
    requires i < 2 && j < 3
    ensures OnBar(Points(YBar(l, t)[i])[j], 1, l, t)
  {
    var q := Points(QuadMesh(t, l)[1 - i])[j];
    PlacedQuadPoint(Identity3, Zero3, t, l, i, j);
    ApplyIdentity3(q);
  }

  /** The clockwise quarter turn about x takes the y bar onto the z axis. */
  lemma ZBarOnZAxis(l: real, t: real, i: nat, j: nat)
    requires i < 2 && j < 3
    ensures OnBar(Points(ZBar(l, t)[i])[j], 2, l, t)
  {
    var q := Points(QuadMesh(t, l)[1 - i])[j];
    PlacedQuadPoint(QuarterTurnXNeg, Zero3, t, l, i, j);
    ApplyQuarterTurns(q);
  }

  /** Vertex k of the axes mesh (three per triangle, six per bar) lies on bar
      k / 6. */
  lemma AxesVertexOnBar(l: real, t: real, k: nat)
    requires k < 18
    ensures OnBar(PointAt(AxesMesh(l, t), k), k / 6, l, t)
  {
    var m := AxesMesh(l, t);
    var i, j := k / 3, k % 3;
    if i < 2 {
      assert m[i] == XBar(l, t)[i];
      XBarOnXAxis(l, t, i, j);
    } else if i < 4 {
      assert m[i] == YBar(l, t)[i - 2];
      YBarOnYAxis(l, t, i - 2, j);
    } else {
      assert m[i] == ZBar(l, t)[i - 4];
      ZBarOnZAxis(l, t, i - 4, j);
    }
  }

  // ---------------------------------------------------------------------------
  // The colour function

  /** i32 division, which truncates toward zero; d is positive here. */
  function TruncDiv(n: int, d: int): (q: int)
    requires d > 0
    ensures (if n >= 0 then n else -n) / d == (if q >= 0 then q else -q)
    ensures n >= 0 ==> q >= 0
    ensures n <= 0 ==> q <= 0
  {
    if n >= 0 then n / d else -((-n) / d)
  }

  /** The axes' colour function: red while i / 6 is 0, else green while i / 12
      is 0, else blue, with the source's truncating division. */
  function AxesColor(i: int): (c: Rgb)
    ensures c == Red || c == Green || c == Blue
  {
    if TruncDiv(i, 6) == 0 then Red
    else if TruncDiv(i, 12) == 0 then Green
    else Blue
  }

  /** The colour bands, negative indices included: truncation makes them
      symmetric about zero. */
  lemma AxesColorBands(i: int)
    ensures AxesColor(i) == Red <==> -6 < i < 6
    ensures AxesColor(i) == Green <==> (6 <= i < 12 || -12 < i <= -6)
    ensures AxesColor(i) == Blue <==> (i >= 12 || i <= -12)
  {
  }

  /** Every colour the function returns has one component 1 and the others 0. */
  lemma AxesColorOneHot(i: int)
    ensures var c := AxesColor(i);
      (c.r == 1.0 && c.g == 0.0 && c.b == 0.0) ||
      (c.r == 0.0 && c.g == 1.0 && c.b == 0.0) ||
      (c.r == 0.0 && c.g == 0.0 && c.b == 1.0)
  {
  }

  /** For the 18 vertices the renderer counts, vertex k gets the colour of the
      bar it belongs to. */
  lemma AxesColorFollowsBars(k: nat)
    requires k < 18
    ensures AxesColor(k) == BarColor(k / 6)
  {
    AxesColorBands(k);
  }

  /** The interleaved buffer of the axes: the record of vertex k is a point on
      bar k / 6 followed by that bar's colour. */
  lemma AxesBuffer(l: real, t: real, k: nat)
    requires k < 18
    ensures var v := Interleaved(AxesMesh(l, t), AxesColor);
      |v| == 18 * Stride &&
      v[Stride * k .. Stride * k + Stride] == PointRecord(PointAt(AxesMesh(l, t), k), BarColor(k / 6)) &&
      OnBar(PointAt(AxesMesh(l, t), k), k / 6, l, t)
  {
    InterleavedLength(AxesMesh(l, t), AxesColor);
    InterleavedLayout(AxesMesh(l, t), AxesColor, k);
    AxesColorFollowsBars(k);
    AxesVertexOnBar(l, t, k);
  }

  // ---------------------------------------------------------------------------
  // axes::new

  /** The three bar meshes as the source builds them, one after another, for
      bars l long and t wide. */
  method BarsVertices(l: real, t: real) returns (m: Mesh)
    ensures m == AxesMesh(l, t)
  {
    var x := NewVertices(0.0, 0.0, 0.0, l, t, i => Red);
    var y := NewVertices(0.0, 0.0, 0.0, t, l, i => Green);
    QuarterTurnXNegOrthonormal();
    var z := NewTurnedVertices(0.0, 0.0, 0.0, t, l, i => Blue, QuarterTurnXNeg);
    m := x + y + z;
  }

  /** axes::new: physics at the origin, scale 1, the three bars' vertices and
      the banded colour function. */
  method New() returns (a: Axes)
    ensures fresh(a.phys)
    ensures a.phys.pos == Zero3 && a.phys.vel == Zero3 && a.phys.rot == Identity3 && a.phys.ang == Zero3
    ensures a.gfx == Renderer(1.0, AxesMesh(BarLength, BarWidth), AxesColor)
  {
    var mesh := BarsVertices(BarLength, BarWidth);
    var phys := new Physics(0.0, 0.0, 0.0);
    a := Axes(phys, Renderer(1.0, mesh, AxesColor));
  }
}
