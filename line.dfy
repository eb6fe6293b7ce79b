// A straight path segment (src/line.rs): a reference point and a heading angle;
// the path parameter theta is the signed arc length from the reference point.

module LinePath {
  import opened Planar
  import opened Trig

  datatype Line = Line(angle: real, pos0: Vec2)

  /** The line from pos0 towards pos1: its heading is the polar angle of pos1 - pos0. */
  function New(t: Oracle, pos0: Vec2, pos1: Vec2): (l: Line)
    ensures l.pos0 == pos0
  {
    Line(t.atan2(pos1.y - pos0.y, pos1.x - pos0.x), pos0)
  }

  /** The heading as a vector, (cos angle, sin angle). */
  function Direction(t: Oracle, l: Line): Vec2 {
    Vec2(t.cos(l.angle), t.sin(l.angle))
  }

  function CompTheta(t: Oracle, l: Line, pos: Vec2): (theta: real)
    ensures pos == l.pos0 ==> theta == 0.0
  {
    Dot(Sub(pos, l.pos0), Direction(t, l))
  }

  function CompPos(t: Oracle, l: Line, theta: real): (pos: Vec2)
    ensures theta == 0.0 ==> pos == l.pos0
  {
    Add(l.pos0, Scale(theta, Direction(t, l)))
  }

  function CompTangent(t: Oracle, l: Line, theta: real): Vec2 {
    Normalize(t, Direction(t, l))
  }

  lemma DirectionIsUnit(t: Oracle, l: Line)
    requires Pythagorean(t)
    ensures Dot(Direction(t, l), Direction(t, l)) == 1.0
  {
  }

  /** The tangent ignores theta: it is the unit heading fixed when the line was built. */
  lemma TangentIsDirection(t: Oracle, l: Line, theta: real)
    requires Pythagorean(t) && RootLaw(t)
    ensures CompTangent(t, l, theta) == Direction(t, l)
    ensures Dot(CompTangent(t, l, theta), CompTangent(t, l, theta)) == 1.0
  {
    DirectionIsUnit(t, l);
    NormalizeUnit(t, Direction(t, l));
  }

  /** theta is recovered from the point at theta. */
  lemma RoundTrip(t: Oracle, l: Line, theta: real)
    requires Pythagorean(t)
    ensures CompTheta(t, l, CompPos(t, l, theta)) == theta
  {
    var d := Direction(t, l);
    DirectionIsUnit(t, l);
    assert Sub(CompPos(t, l, theta), l.pos0) == Scale(theta, d);
    assert Dot(Scale(theta, d), d) == theta * Dot(d, d);
  }

  /** The point at CompTheta(pos) is the foot of the perpendicular from pos to the line. */
  lemma OrthogonalProjection(t: Oracle, l: Line, pos: Vec2)
    requires Pythagorean(t)
    ensures Dot(Sub(pos, CompPos(t, l, CompTheta(t, l, pos))), Direction(t, l)) == 0.0
  {
    var d := Direction(t, l);
    var theta := CompTheta(t, l, pos);
    DirectionIsUnit(t, l);
    assert Sub(pos, CompPos(t, l, theta)) == Sub(Sub(pos, l.pos0), Scale(theta, d));
    assert Dot(Sub(Sub(pos, l.pos0), Scale(theta, d)), d) == theta - theta * Dot(d, d);
  }

  /**
   * A line built from pos0 and pos1 heads from pos0 towards pos1, and pos1 lies at
   * theta = |pos1 - pos0| on it.
   */
  lemma NewHeadsTowardSecond(t: Oracle, pos0: Vec2, pos1: Vec2)
    requires Pythagorean(t) && PolarLaw(t) && pos0 != pos1
    ensures Direction(t, New(t, pos0, pos1)) == Normalize(t, Sub(pos1, pos0))
    ensures CompTheta(t, New(t, pos0, pos1), pos1) == Norm(t, Sub(pos1, pos0))
  {
    var v := Sub(pos1, pos0);
    var a := t.atan2(v.y, v.x);
    var rho := t.sqrt(v.x * v.x + v.y * v.y);
    PolarCoordinates(t, v.x, v.y);
    assert Dot(v, v) == v.x * v.x + v.y * v.y;
    assert Norm(t, v) == rho;
    UnitFromPolar(rho, t.cos(a), t.sin(a), v.x, v.y);
    ProjectionFromPolar(rho, t.cos(a), t.sin(a), v.x, v.y);
  }
}
