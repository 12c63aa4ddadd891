/** The bouncing-rectangles scene: every frame each rectangle moves by its
    velocity and is pushed back inside the margin box of the window, with the
    velocity component across a wall it touched reversed. */
module BounceScene {
  /** The window and its margin, in pixels (i16 constants cast to f32). */
  const Width: real := 800.0
  const Height: real := 600.0
  const Margin: real := 20.0

  datatype Vec2 = Vec2(x: real, y: real)

  type Byte = x: int | 0 <= x < 256

  /** An SDL pixel colour: red, green, blue and alpha bytes. */
  datatype PixelColor = PixelColor(r: Byte, g: Byte, b: Byte, a: Byte)

  /** A rectangle on screen: its top-left corner, size, colour and velocity. */
  datatype Rect = Rect(x: real, y: real, width: real, height: real, color: PixelColor, vec: Vec2)

  function Abs(a: real): real { if a < 0.0 then -a else a }

  /** One axis of the update: move p by v; if the far edge p + size reaches
      far, put it back on far and reverse v; then if p is at or before Margin,
      put it on Margin and reverse v again. Returns the new position and the
      new velocity. */
  function BounceAxis(p: real, v: real, size: real, far: real): (r: (real, real))
    ensures r.0 >= Margin && Abs(r.1) == Abs(v)
  {
    var q := p + v;
    var (q1, v1) := if q + size >= far then (far - size, -v) else (q, v);
    if q1 <= Margin then (Margin, -v1) else (q1, v1)
  }

  /** The new position is never before the margin; it keeps the far edge
      inside whenever the size fits between the margins; the speed is kept. */
  lemma BounceAxisBounds(p: real, v: real, size: real, far: real)
    ensures var (q, w) := BounceAxis(p, v, size, far);
      q >= Margin &&
      (size <= far - Margin ==> q + size <= far) &&
      Abs(w) == Abs(v)
  {
  }

  /** Away from both walls the rectangle just moves by its velocity. */
  lemma BounceAxisFree(p: real, v: real, size: real, far: real)
    requires p + v + size < far && p + v > Margin
    ensures BounceAxis(p, v, size, far) == (p + v, v)
  {
  }

  /** At the far wall, with room before the margin, the far edge is put on the
      wall and the velocity reversed. */
  lemma BounceAxisFarWall(p: real, v: real, size: real, far: real)
    requires p + v + size >= far && far - size > Margin
    ensures BounceAxis(p, v, size, far) == (far - size, -v)
  {
  }

  /** At the near wall, with the far edge clear, the position is put on the
      margin and the velocity reversed. */
  lemma BounceAxisNearWall(p: real, v: real, size: real, far: real)
    requires p + v <= Margin && p + v + size < far
    ensures BounceAxis(p, v, size, far) == (Margin, -v)
  {
  }

  /** The whole update of one rectangle: x against the window width, y
      against its height; size and colour stay. */
  function Bounced(r: Rect): (b: Rect)
    ensures b.width == r.width && b.height == r.height && b.color == r.color
    ensures b.x >= Margin && b.y >= Margin
  {
    var (x, vx) := BounceAxis(r.x, r.vec.x, r.width, Width - Margin);
    var (y, vy) := BounceAxis(r.y, r.vec.y, r.height, Height - Margin);
    r.(x := x, y := y, vec := Vec2(vx, vy))
  }

  /** After the update the rectangle is inside the margin box in every
      direction it fits, at its old size and colour, with its old speeds. */
  lemma BouncedInsideMargins(r: Rect)
    ensures var b := Bounced(r);
      b.width == r.width && b.height == r.height && b.color == r.color &&
      b.x >= Margin && b.y >= Margin &&
      (r.width <= Width - 2.0 * Margin ==> b.x + b.width <= Width - Margin) &&
      (r.height <= Height - 2.0 * Margin ==> b.y + b.height <= Height - Margin) &&
      Abs(b.vec.x) == Abs(r.vec.x) && Abs(b.vec.y) == Abs(r.vec.y)
  {
    BounceAxisBounds(r.x, r.vec.x, r.width, Width - Margin);
    BounceAxisBounds(r.y, r.vec.y, r.height, Height - Margin);
  }

  /** render_scene's update loop: each rectangle in turn is moved, clamped
      and written back in place through the locals for its new corner. The
      frame time delta and the drawing are not used by the update. */
  method RenderScene(rects: array<Rect>, delta: nat)
    modifies rects
    ensures forall i :: 0 <= i < rects.Length ==> rects[i] == Bounced(old(rects[i]))
  {
    for i := 0 to rects.Length
      invariant forall k :: 0 <= k < i ==> rects[k] == Bounced(old(rects[k]))
      invariant forall k :: i <= k < rects.Length ==> rects[k] == old(rects[k])
    {
      var rect := rects[i];
      var vx, vy := rect.vec.x, rect.vec.y;
      var x := rect.x + vx;
      var y := rect.y + vy;

      if x + rect.width >= Width - Margin {
        x := (Width - Margin) - rect.width;
        vx := -vx;
      }
      if x <= Margin {
        x := Margin;
        vx := -vx;
      }
      if y + rect.height >= Height - Margin {
        y := (Height - Margin) - rect.height;
        vy := -vy;
      }
      if y <= Margin {
        y := Margin;
        vy := -vy;
      }

      rects[i] := rect.(x := x, y := y, vec := Vec2(vx, vy));
    }
  }
}
