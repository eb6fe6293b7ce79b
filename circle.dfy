// A circular path segment (src/circle.rs): centre, radius and a direction sign q
// (+1 counter-clockwise, -1 clockwise); the path parameter theta is an angle.

module CirclePath {
  import opened Planar
  import opened Trig

  datatype Circle = Circle(radius: real, center: Vec2, q: real) {
    /** The direction sign is one of the two values the constructor produces. */
    predicate Valid() { q == 1.0 || q == -1.0 }
  }

  function New(radius: real, center: Vec2, clockwise: bool): (c: Circle)
    ensures c.Valid()
    ensures c.q == -1.0 <==> clockwise
    ensures c.radius == radius && c.center == center
  {
    Circle(radius, center, if clockwise then -1.0 else 1.0)
  }

  /** q times the polar angle of pos about the centre. */
  function CompTheta(t: Oracle, c: Circle, pos: Vec2): real {
    c.q * t.atan2(pos.y - c.center.y, pos.x - c.center.x)
  }

  /** centre + radius * (cos theta, sin (q theta)): only the sine term carries q. */
  function CompPos(t: Oracle, c: Circle, theta: real): Vec2 {
    Add(c.center, Scale(c.radius, Vec2(t.cos(theta), t.sin(c.q * theta))))
  }

  /** The tangent before normalisation, (-sin theta, q cos theta). */
  function RawTangent(t: Oracle, c: Circle, theta: real): Vec2 {
    Vec2(-t.sin(theta), c.q * t.cos(theta))
  }

  function CompTangent(t: Oracle, c: Circle, theta: real): Vec2 {
    Normalize(t, RawTangent(t, c, theta))
  }

  /** The two directions give opposite thetas for the same point. */
  lemma OppositeSenses(t: Oracle, radius: real, center: Vec2, pos: Vec2)
    ensures CompTheta(t, New(radius, center, true), pos) == -CompTheta(t, New(radius, center, false), pos)
  {
  }

  /** sin (q theta) = q sin theta, for both direction signs. */
  lemma SineOfSigned(t: Oracle, c: Circle, theta: real)
    requires c.Valid() && Parity(t)
    ensures t.sin(c.q * theta) == c.q * t.sin(theta)
  {
    if c.q == -1.0 {
      assert c.q * theta + theta == 0.0;
    }
  }

  /** cos (q theta) = cos theta, for both direction signs. */
  lemma CosineOfSigned(t: Oracle, c: Circle, theta: real)
    requires c.Valid() && Parity(t)
    ensures t.cos(c.q * theta) == t.cos(theta)
  {
    if c.q == -1.0 {
      assert c.q * theta + theta == 0.0;
    }
  }

  /** The point at any theta lies on the circle, whichever the direction. */
  lemma OnCircle(t: Oracle, c: Circle, theta: real)
    requires c.Valid() && Pythagorean(t) && Parity(t)
    ensures var d := Sub(CompPos(t, c, theta), c.center); Dot(d, d) == c.radius * c.radius
  {
    var co, si := t.cos(theta), t.sin(theta);
    SineOfSigned(t, c, theta);
    assert si * si + co * co == 1.0;
    assert (c.q * si) * (c.q * si) == (c.q * c.q) * (si * si);
    ScaledUnitLength(c.radius, co, c.q * si);
  }

  /** The raw tangent already has unit length, so normalising leaves it unchanged. */
  lemma TangentIsUnit(t: Oracle, c: Circle, theta: real)
    requires c.Valid() && Pythagorean(t) && RootLaw(t)
    ensures Dot(RawTangent(t, c, theta), RawTangent(t, c, theta)) == 1.0
    ensures CompTangent(t, c, theta) == RawTangent(t, c, theta)
    ensures Dot(CompTangent(t, c, theta), CompTangent(t, c, theta)) == 1.0
  {
    var co, si := t.cos(theta), t.sin(theta);
    assert si * si + co * co == 1.0;
    assert (c.q * co) * (c.q * co) == (c.q * c.q) * (co * co);
    NormalizeUnit(t, RawTangent(t, c, theta));
  }

  /** The tangent is perpendicular to the radius at the same theta, whichever the direction. */
  lemma TangentPerpendicular(t: Oracle, c: Circle, theta: real)
    requires c.Valid() && Pythagorean(t) && Parity(t) && RootLaw(t)
    ensures Dot(CompTangent(t, c, theta), Sub(CompPos(t, c, theta), c.center)) == 0.0
  {
    var co, si := t.cos(theta), t.sin(theta);
    TangentIsUnit(t, c, theta);
    SineOfSigned(t, c, theta);
    assert Sub(CompPos(t, c, theta), c.center) == Vec2(c.radius * co, c.radius * (c.q * si));
    assert (-si) * (c.radius * co) + (c.q * co) * (c.radius * (c.q * si))
        == c.radius * si * co * (c.q * c.q - 1.0);
  }

  /**
   * For a point other than the centre, the point at its theta lies on the ray from the
   * centre through it, at distance radius.
   */
  lemma OnRayThrough(t: Oracle, c: Circle, pos: Vec2)
    requires c.Valid() && Parity(t) && PolarLaw(t) && pos != c.center
    ensures var v := Sub(pos, c.center);
      Norm(t, v) != 0.0 &&
      Sub(CompPos(t, c, CompTheta(t, c, pos)), c.center) == Scale(c.radius / Norm(t, v), v)
  {
    var v := Sub(pos, c.center);
    var a := t.atan2(v.y, v.x);
    var rho := t.sqrt(v.x * v.x + v.y * v.y);
    PolarCoordinates(t, v.x, v.y);
    assert Dot(v, v) == v.x * v.x + v.y * v.y;
    assert Norm(t, v) == rho;
    var theta := CompTheta(t, c, pos);
    assert theta == c.q * a;
    CosineOfSigned(t, c, a);
    assert c.q * theta == a;
    ScaledPolar(c.radius, rho, t.cos(a), t.sin(a), v.x, v.y);
  }

  lemma ScaledUnitLength(r: real, a: real, b: real)
    requires a * a + b * b == 1.0
    ensures (r * a) * (r * a) + (r * b) * (r * b) == r * r
  {
    assert (r * a) * (r * a) + (r * b) * (r * b) == (r * r) * (a * a + b * b);
  }

  /** r (co, si) = (r / rho) (x, y) when (x, y) = rho (co, si). */
  lemma ScaledPolar(r: real, rho: real, co: real, si: real, x: real, y: real)
    requires rho != 0.0 && rho * co == x && rho * si == y
    ensures Scale(r, Vec2(co, si)) == Scale(r / rho, Vec2(x, y))
  {
    assert (r / rho) * (rho * co) == r * co;
    assert (r / rho) * (rho * si) == r * si;
  }
}
