// Plane vectors and the fixed 2x2 rotation used by the path geometry and the
// guidance law (nalgebra's Vector2<f64> and Matrix2<f64>, over exact reals).

module Planar {

  datatype Vec2 = Vec2(x: real, y: real)

  /** Row-major 2x2 matrix [[m11, m12], [m21, m22]]. */
  datatype Mat2 = Mat2(m11: real, m12: real, m21: real, m22: real)

  /** The matrix S = [[0, -1], [1, 0]] both the waypoint builder and the controller use. */
  const Skew: Mat2 := Mat2(0.0, -1.0, 1.0, 0.0)

  function Add(a: Vec2, b: Vec2): Vec2 { Vec2(a.x + b.x, a.y + b.y) }

  function Sub(a: Vec2, b: Vec2): Vec2 { Vec2(a.x - b.x, a.y - b.y) }

  function Scale(s: real, a: Vec2): Vec2 { Vec2(s * a.x, s * a.y) }

  function Dot(a: Vec2, b: Vec2): real { a.x * b.x + a.y * b.y }

  function MatVec(m: Mat2, a: Vec2): Vec2 {
    Vec2(m.m11 * a.x + m.m12 * a.y, m.m21 * a.x + m.m22 * a.y)
  }

  /** S * a: the vector a turned a quarter turn counter-clockwise. */
  function Perp(a: Vec2): (r: Vec2)
    ensures Dot(r, a) == 0.0
    ensures Dot(r, r) == Dot(a, a)
  {
    MatVec(Skew, a)
  }

  /** The planar cross product (S * a) . b, positive for a left turn from a to b. */
  function Cross(a: Vec2, b: Vec2): real { Dot(Perp(a), b) }

  function Abs(x: real): real { if x < 0.0 then -x else x }

  /** The dot product is linear in its first argument. */
  lemma DotLinear(a: Vec2, s: real, b: Vec2, u: Vec2)
    ensures Dot(Add(a, Scale(s, b)), u) == Dot(a, u) + s * Dot(b, u)
    ensures Dot(Sub(a, Scale(s, b)), u) == Dot(a, u) - s * Dot(b, u)
    ensures Dot(Scale(s, b), u) == s * Dot(b, u)
  {
    assert (a.x + s * b.x) * u.x + (a.y + s * b.y) * u.y == a.x * u.x + a.y * u.y + s * (b.x * u.x + b.y * u.y);
    assert (a.x - s * b.x) * u.x + (a.y - s * b.y) * u.y == a.x * u.x + a.y * u.y - s * (b.x * u.x + b.y * u.y);
    assert (s * b.x) * u.x + (s * b.y) * u.y == s * (b.x * u.x + b.y * u.y);
  }

  /** Scaling by s scales the squared length by s * s. */
  lemma ScaleSquared(s: real, b: Vec2)
    ensures Dot(Scale(s, b), Scale(s, b)) == (s * s) * Dot(b, b)
  {
    assert (s * b.x) * (s * b.x) + (s * b.y) * (s * b.y) == (s * s) * (b.x * b.x + b.y * b.y);
  }

  // Sign facts for products, proved in isolation: the solver settles them
  // reliably only when nothing else is in scope.

  lemma ProductPositive(a: real, b: real)
    requires 0.0 < a && 0.0 < b
    ensures 0.0 < a * b
  {
  }

  lemma SquareMonotone(r: real, s: real)
    requires 0.0 <= r < s
    ensures r * r < s * s
  {
    ProductPositive(s - r, s + r);
    assert (s - r) * (s + r) == s * s - r * r;
  }

  lemma SquareInjective(r: real, s: real)
    requires 0.0 <= r && 0.0 <= s && r * r == s * s
    ensures r == s
  {
    if r < s {
      SquareMonotone(r, s);
    } else if s < r {
      SquareMonotone(s, r);
    }
  }
}
