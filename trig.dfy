// The transcendental functions the geometry calls (f64::sin, cos, atan2, sqrt)
// are not defined here: they are supplied as an oracle value, and each property
// that depends on them names the laws of the oracle it needs.

module Trig {
  import opened Planar

  /** The shortest decimal that rounds to the f64 constant core::f64::consts::PI. */
  const PI: real := 3.141592653589793

  datatype Oracle = Oracle(
    sin: real -> real,
    cos: real -> real,
    atan2: (real, real) -> real,   // atan2(y, x), as in y.atan2(x)
    sqrt: real -> real)

  /** sin^2 + cos^2 = 1. */
  ghost predicate Pythagorean(t: Oracle) {
    forall x :: t.sin(x) * t.sin(x) + t.cos(x) * t.cos(x) == 1.0
  }

  /** cos is even and sin is odd. */
  ghost predicate Parity(t: Oracle) {
    forall x, y :: x + y == 0.0 ==> t.cos(x) == t.cos(y) && t.sin(x) == -t.sin(y)
  }

  /** sqrt is the non-negative square root on non-negative arguments. */
  ghost predicate RootLaw(t: Oracle) {
    forall z :: 0.0 <= z ==> 0.0 <= t.sqrt(z) && t.sqrt(z) * t.sqrt(z) == z
  }

  /** atan2(y, x) is the polar angle of (x, y): (x, y) = |(x, y)| (cos a, sin a). */
  ghost predicate PolarLaw(t: Oracle) {
    forall y, x :: x != 0.0 || y != 0.0 ==>
      t.sqrt(x * x + y * y) * t.cos(t.atan2(y, x)) == x &&
      t.sqrt(x * x + y * y) * t.sin(t.atan2(y, x)) == y
  }

  /** Euclidean length, via the oracle's sqrt. */
  function Norm(t: Oracle, v: Vec2): real { t.sqrt(Dot(v, v)) }

  /** nalgebra's normalize: v / |v|. The zero vector (NaN in f64) is returned unchanged. */
  function Normalize(t: Oracle, v: Vec2): Vec2 {
    var n := Norm(t, v);
    if n == 0.0 then v else Scale(1.0 / n, v)
  }

  /** The square root of a square is the non-negative base. */
  lemma RootOfSquare(t: Oracle, s: real)
    requires RootLaw(t) && 0.0 <= s
    ensures t.sqrt(s * s) == s
  {
    assert 0.0 <= s * s by { if s > 0.0 { ProductPositive(s, s); } }
    SquareInjective(t.sqrt(s * s), s);
  }

  /** Normalising a vector that already has unit length changes nothing. */
  lemma NormalizeUnit(t: Oracle, v: Vec2)
    requires RootLaw(t) && Dot(v, v) == 1.0
    ensures Normalize(t, v) == v
  {
    RootOfSquare(t, 1.0);
  }

  /** A non-zero (x, y) is |(x, y)| times the unit vector at angle atan2(y, x), and |(x, y)| > 0. */
  lemma PolarCoordinates(t: Oracle, x: real, y: real)
    requires PolarLaw(t) && (x != 0.0 || y != 0.0)
    ensures var rho := t.sqrt(x * x + y * y);
      rho != 0.0 &&
      rho * t.cos(t.atan2(y, x)) == x && rho * t.sin(t.atan2(y, x)) == y
  {
  }

  /** (x, y) / rho is the unit vector (co, si) it was scaled from. */
  lemma UnitFromPolar(rho: real, co: real, si: real, x: real, y: real)
    requires rho != 0.0 && rho * co == x && rho * si == y
    ensures Scale(1.0 / rho, Vec2(x, y)) == Vec2(co, si)
  {
    assert (1.0 / rho) * (rho * co) == co;
    assert (1.0 / rho) * (rho * si) == si;
  }

  /** Projecting (x, y) = rho (co, si) on the unit vector (co, si) gives rho. */
  lemma ProjectionFromPolar(rho: real, co: real, si: real, x: real, y: real)
    requires rho * co == x && rho * si == y && si * si + co * co == 1.0
    ensures x * co + y * si == rho
  {
    assert x * co + y * si == rho * (si * si + co * co);
  }
}
