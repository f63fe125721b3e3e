/** Two-dimensional points and the conversion of pointer pixels into
    normalised device coordinates (NDC). Floats are modelled as reals. */
module Geometry {

  /** A position (in NDC) or a pan offset. */
  datatype Vec2 = Vec2(x: real, y: real)

  function Add(a: Vec2, b: Vec2): Vec2 { Vec2(a.x + b.x, a.y + b.y) }

  function Sub(a: Vec2, b: Vec2): Vec2 { Vec2(a.x - b.x, a.y - b.y) }

  function Scale(a: Vec2, k: real): Vec2 { Vec2(a.x * k, a.y * k) }

  /** Exact component-wise comparison, no tolerance: it is the equality of
      the two points. */
  function Eql(a: Vec2, b: Vec2): (r: bool)
    ensures r <==> a == b
  {
    a.x == b.x && a.y == b.y
  }

  /** The pixel a normalised X coordinate comes from. */
  function PixelX(x: real, w: nat): real { (x + 1.0) * (w as real) / 2.0 }

  /** The pixel a normalised Y coordinate comes from (Y is flipped). */
  function PixelY(y: real, h: nat): real { (1.0 - y) * (h as real) / 2.0 }

  /** The pointer at pixel (px, py) of a w-by-h window, in NDC: X grows to
      the right, Y grows upwards, and nothing is clamped, so a pointer outside
      the window lands outside [-1, 1]. */
  function Ndc(px: int, py: int, w: nat, h: nat): (r: Vec2)
    requires w > 0 && h > 0
    ensures (0 <= px <= w) <==> (-1.0 <= r.x <= 1.0)
    ensures (0 <= py <= h) <==> (-1.0 <= r.y <= 1.0)
    ensures PixelX(r.x, w) == px as real && PixelY(r.y, h) == py as real
  {
    Normalised(px as real, w as real);
    Normalised(py as real, h as real);
    Vec2((px as real) * 2.0 / (w as real) - 1.0, 1.0 - (py as real) * 2.0 / (h as real))
  }

  /** One axis of the mapping: p in [0, n] is scaled to p * 2 / n in
      [0, 2], and multiplying back by n / 2 recovers p. */
  lemma Normalised(p: real, n: real)
    requires n > 0.0
    ensures (0.0 <= p <= n) <==> (0.0 <= p * 2.0 / n <= 2.0)
    ensures (p * 2.0 / n) * n / 2.0 == p
  {
    var k := 2.0 / n;
    assert k * n == 2.0;
    assert p * 2.0 / n == p * k;
    assert (p * k) * n == p * (k * n);
    assert (p - n) * k == p * k - 2.0;
    SignOfProduct(p, k);
    SignOfProduct(p - n, k);
  }

  /** The left edge maps to -1, the right edge to 1, the top edge to 1 and
      the bottom edge to -1. */
  lemma NdcCorners(w: nat, h: nat)
    requires w > 0 && h > 0
    ensures Ndc(0, 0, w, h) == Vec2(-1.0, 1.0)
    ensures Ndc(w, h, w, h) == Vec2(1.0, -1.0)
  {
  }

  /** Moving the pointer right increases X; moving it down decreases Y. */
  lemma NdcMonotone(px1: int, py1: int, px2: int, py2: int, w: nat, h: nat)
    requires w > 0 && h > 0
    ensures px1 < px2 <==> Ndc(px1, py1, w, h).x < Ndc(px2, py2, w, h).x
    ensures py1 < py2 <==> Ndc(px1, py1, w, h).y > Ndc(px2, py2, w, h).y
  {
    var a, b := Ndc(px1, py1, w, h), Ndc(px2, py2, w, h);
    var kx, ky := 2.0 / (w as real), 2.0 / (h as real);
    assert (px1 as real) * 2.0 / (w as real) == (px1 as real) * kx;
    assert (px2 as real) * 2.0 / (w as real) == (px2 as real) * kx;
    assert (py1 as real) * 2.0 / (h as real) == (py1 as real) * ky;
    assert (py2 as real) * 2.0 / (h as real) == (py2 as real) * ky;
    assert a.x - b.x == ((px1 - px2) as real) * kx;
    assert a.y - b.y == ((py2 - py1) as real) * ky;
    SignOfProduct((px1 - px2) as real, kx);
    SignOfProduct((py2 - py1) as real, ky);
  }

  lemma SignOfProduct(d: real, k: real)
    requires k > 0.0
    ensures d < 0.0 <==> d * k < 0.0
    ensures d > 0.0 <==> d * k > 0.0
  {
  }

  /** Different pixels give different positions, so the exact comparison of
      two samples tells whether the pointer moved. */
  lemma NdcInjective(px1: int, py1: int, px2: int, py2: int, w: nat, h: nat)
    requires w > 0 && h > 0
    ensures Eql(Ndc(px1, py1, w, h), Ndc(px2, py2, w, h)) <==> px1 == px2 && py1 == py2
  {
    var a, b := Ndc(px1, py1, w, h), Ndc(px2, py2, w, h);
    assert PixelX(a.x, w) == px1 as real && PixelX(b.x, w) == px2 as real;
    assert PixelY(a.y, h) == py1 as real && PixelY(b.y, h) == py2 as real;
  }
}
