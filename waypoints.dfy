// The waypoint path (src/waypoints.rs): straight legs between consecutive waypoints,
// joined by circular fillets, and a tracker that remembers which segment the vehicle
// is on and moves to a neighbouring segment when the projected parameter crosses one
// of the thresholds fixed at construction.

module Waypoints {
  import opened Planar
  import opened Trig
  import LinePath
  import CirclePath

  datatype PathSegment = Line | Circle

  /** A threshold on a line's theta; the first line has no lower end, the last no upper end. */
  datatype Bound = NegInf | Fin(value: real) | PosInf

  /** theta > b, in the extended reals. */
  predicate Above(theta: real, b: Bound) {
    match b
    case NegInf => true
    case Fin(x) => theta > x
    case PosInf => false
  }

  /** theta < b, in the extended reals. */
  predicate Below(theta: real, b: Bound) {
    match b
    case NegInf => false
    case Fin(x) => theta < x
    case PosInf => true
  }

  /** The tracker's state: the active segment kind and the (1-based) current waypoint. */
  datatype Cursor = Cursor(segment: PathSegment, waypoint: nat)

  // What the constructor builds, index by index. Leg i runs from w[i] to w[i + 1];
  // the fillet at the interior waypoint w[i + 1] joins leg i to leg i + 1.

  function LineOf(t: Oracle, w: seq<Vec2>, i: int): LinePath.Line
    requires 0 <= i < |w| - 1
  {
    LinePath.New(t, w[i], w[i + 1])
  }

  /** The unit heading of leg i. */
  function Leg(t: Oracle, w: seq<Vec2>, i: int): Vec2
    requires 0 <= i < |w| - 1
  {
    Normalize(t, Sub(w[i + 1], w[i]))
  }

  /** w[i + 1] is an interior waypoint, and the path does not turn straight back there. */
  predicate Corner(t: Oracle, w: seq<Vec2>, i: int) {
    0 <= i < |w| - 2 && 1.0 + Dot(Leg(t, w, i), Leg(t, w, i + 1)) != 0.0
  }

  /** The turn at w[i + 1]: positive for a left turn, negative for a right turn. */
  function Turn(t: Oracle, w: seq<Vec2>, i: int): real
    requires 0 <= i < |w| - 2
  {
    Cross(Leg(t, w, i), Leg(t, w, i + 1))
  }

  /** f64::signum over the reals: -1 for negative arguments, +1 otherwise. */
  function Signum(x: real): (s: real)
    ensures s == -1.0 <==> x < 0.0
    ensures s == 1.0 || s == -1.0
  {
    if x < 0.0 then -1.0 else 1.0
  }

  /**
   * How far before and after the corner a fillet of radius r meets legs with unit
   * headings v and vNext: r tan(phi / 2) for a turn through phi.
   */
  function FilletOffset(r: real, v: Vec2, vNext: Vec2): real
    requires 1.0 + Dot(v, vNext) != 0.0
  {
    r * Abs(Cross(v, vNext)) / (1.0 + Dot(v, vNext))
  }

  /** How far before and after w[i + 1] the fillet of radius r meets the two legs. */
  function Offset(t: Oracle, w: seq<Vec2>, r: real, i: int): real
    requires Corner(t, w, i)
  {
    FilletOffset(r, Leg(t, w, i), Leg(t, w, i + 1))
  }

  /** Where the path leaves leg i for the fillet. */
  function Entry(t: Oracle, w: seq<Vec2>, r: real, i: int): Vec2
    requires Corner(t, w, i)
  {
    Sub(w[i + 1], Scale(Offset(t, w, r, i), Leg(t, w, i)))
  }

  /** Where the path leaves the fillet for leg i + 1. */
  function Exit(t: Oracle, w: seq<Vec2>, r: real, i: int): Vec2
    requires Corner(t, w, i)
  {
    Add(w[i + 1], Scale(Offset(t, w, r, i), Leg(t, w, i + 1)))
  }

  /**
   * The fillet at w[i + 1]: radius r, centred a quarter turn from the entry point on the
   * side of the turn, and clockwise exactly when the path turns right.
   */
  function Fillet(t: Oracle, w: seq<Vec2>, r: real, i: int): (c: CirclePath.Circle)
    requires Corner(t, w, i)
    ensures c.Valid() && c.radius == r
    ensures c.q == -1.0 <==> Turn(t, w, i) < 0.0
  {
    var q := Signum(Turn(t, w, i));
    CirclePath.New(r, Add(Entry(t, w, r, i), Scale(q * r, Perp(Leg(t, w, i)))), q < 0.0)
  }

  /** The upper threshold of leg i: its theta at the fillet's entry point. */
  function LineEnd(t: Oracle, w: seq<Vec2>, r: real, i: int): real
    requires Corner(t, w, i)
  {
    LinePath.CompTheta(t, LineOf(t, w, i), Entry(t, w, r, i))
  }

  /** The lower threshold of leg i + 1: its theta at the fillet's exit point. */
  function LineStart(t: Oracle, w: seq<Vec2>, r: real, i: int): real
    requires Corner(t, w, i)
  {
    LinePath.CompTheta(t, LineOf(t, w, i + 1), Exit(t, w, r, i))
  }

  /** The lower threshold of fillet i: its theta at the entry point. */
  function ArcStart(t: Oracle, w: seq<Vec2>, r: real, i: int): real
    requires Corner(t, w, i)
  {
    CirclePath.CompTheta(t, Fillet(t, w, r, i), Entry(t, w, r, i))
  }

  /** The upper threshold of fillet i: its theta at the exit point. */
  function ArcEnd(t: Oracle, w: seq<Vec2>, r: real, i: int): real
    requires Corner(t, w, i)
  {
    CirclePath.CompTheta(t, Fillet(t, w, r, i), Exit(t, w, r, i))
  }

  /** For distinct endpoints, the unit heading of leg i is the direction of line i. */
  lemma LegIsLineDirection(t: Oracle, w: seq<Vec2>, i: int)
    requires Pythagorean(t) && PolarLaw(t)
    requires 0 <= i < |w| - 1 && w[i] != w[i + 1]
    ensures Leg(t, w, i) == LinePath.Direction(t, LineOf(t, w, i))
    ensures Dot(Leg(t, w, i), Leg(t, w, i)) == 1.0
  {
    LinePath.NewHeadsTowardSecond(t, w[i], w[i + 1]);
    LinePath.DirectionIsUnit(t, LineOf(t, w, i));
  }

  /** Leg i is left Offset before its end waypoint: its upper threshold is |w[i+1] - w[i]| - Offset. */
  lemma LeavesLineBeforeCorner(t: Oracle, w: seq<Vec2>, r: real, i: int)
    requires Pythagorean(t) && PolarLaw(t)
    requires Corner(t, w, i) && w[i] != w[i + 1]
    ensures LineEnd(t, w, r, i) == Norm(t, Sub(w[i + 1], w[i])) - Offset(t, w, r, i)
  {
    var v := Leg(t, w, i);
    var d := Offset(t, w, r, i);
    LegIsLineDirection(t, w, i);
    LinePath.NewHeadsTowardSecond(t, w[i], w[i + 1]);
    assert Sub(Entry(t, w, r, i), w[i]) == Sub(Sub(w[i + 1], w[i]), Scale(d, v));
    DotLinear(Sub(w[i + 1], w[i]), d, v, v);
  }

  /** Leg i + 1 is joined Offset after its start waypoint: its lower threshold is Offset. */
  lemma JoinsLineAfterCorner(t: Oracle, w: seq<Vec2>, r: real, i: int)
    requires Pythagorean(t) && PolarLaw(t)
    requires Corner(t, w, i) && w[i + 1] != w[i + 2]
    ensures LineStart(t, w, r, i) == Offset(t, w, r, i)
  {
    var v := Leg(t, w, i + 1);
    var d := Offset(t, w, r, i);
    LegIsLineDirection(t, w, i + 1);
    assert Sub(Exit(t, w, r, i), w[i + 1]) == Scale(d, v);
    DotLinear(v, d, v, v);
  }

  /**
   * The fillet passes through its entry point, and its radius there is perpendicular to
   * the incoming leg: the circle meets leg i tangentially.
   */
  lemma FilletTouchesEntry(t: Oracle, w: seq<Vec2>, r: real, i: int)
    requires Pythagorean(t) && PolarLaw(t)
    requires Corner(t, w, i) && w[i] != w[i + 1]
    ensures var e := Sub(Entry(t, w, r, i), Fillet(t, w, r, i).center);
      Dot(e, e) == r * r && Dot(e, Leg(t, w, i)) == 0.0
  {
    var v := Leg(t, w, i);
    var q := Signum(Turn(t, w, i));
    var p := Perp(v);
    var e := Entry(t, w, r, i);
    LegIsLineDirection(t, w, i);
    assert Fillet(t, w, r, i).center == Add(e, Scale(q * r, p));
    assert Sub(e, Add(e, Scale(q * r, p))) == Scale(-(q * r), p);
    ScaleSquared(-(q * r), p);
    SignSquared(q, r);
    DotLinear(v, -(q * r), p, v);
  }

  lemma SignSquared(q: real, r: real)
    requires q == 1.0 || q == -1.0
    ensures (-(q * r)) * (-(q * r)) == r * r
  {
  }

  class WaypointPath {
    var currentWaypoint: nat
    var currentPathSegment: PathSegment
    const lines: seq<LinePath.Line>
    const circles: seq<CirclePath.Circle>
    const thetaCircMin: seq<real>
    const thetaCircMax: seq<real>
    const thetaLineMin: seq<Bound>
    const thetaLineMax: seq<Bound>
    /** The sin, cos, atan2 and sqrt the tables were built with, and every projection uses. */
    const trig: Oracle

    /** The shape the constructor leaves the (never again changed) segment tables in. */
    predicate Shaped() {
      && 1 <= |lines|
      && |circles| == |lines| - 1
      && |thetaCircMin| == |circles| && |thetaCircMax| == |circles|
      && |thetaLineMin| == |lines| && |thetaLineMax| == |lines|
      && thetaLineMin[0] == NegInf
      && thetaLineMax[|lines| - 1] == PosInf
      && forall k :: 0 <= k < |circles| ==> circles[k].Valid()
    }

    /** Every table access the cursor leads to is in bounds. */
    predicate Admissible(c: Cursor) {
      1 <= c.waypoint <= |lines| && (c.segment == Circle ==> c.waypoint <= |circles|)
    }

    function State(): Cursor
      reads this
    {
      Cursor(currentPathSegment, currentWaypoint)
    }

    predicate Valid()
      reads this
    {
      Shaped() && Admissible(State())
    }

    /** theta of pos on the segment the cursor points at. */
    function SegmentTheta(c: Cursor, pos: Vec2): real
      requires Shaped() && Admissible(c)
    {
      match c.segment
      case Line => LinePath.CompTheta(trig, lines[c.waypoint - 1], pos)
      case Circle => CirclePath.CompTheta(trig, circles[c.waypoint - 1], pos)
    }

    /**
     * The segment switch comp_theta makes for a theta measured on the cursor's segment.
     * The sentinels keep the cursor admissible, and a call moves it at most one segment:
     * back only when leaving a line, forward only when leaving a fillet.
     */
    function Switch(c: Cursor, theta: real): (next: Cursor)
      requires Shaped() && Admissible(c)
      ensures Admissible(next)
      ensures next == c || next.segment != c.segment
      ensures c.segment == Line ==> c.waypoint - 1 <= next.waypoint <= c.waypoint
      ensures c.segment == Circle ==> c.waypoint <= next.waypoint <= c.waypoint + 1
    {
      match c.segment
      case Line =>
        if Above(theta, thetaLineMax[c.waypoint - 1]) then Cursor(Circle, c.waypoint)
        else if Below(theta, thetaLineMin[c.waypoint - 1]) then Cursor(Circle, c.waypoint - 1)
        else c
      case Circle =>
        if theta > thetaCircMax[c.waypoint - 1] then Cursor(Line, c.waypoint + 1)
        else if theta < thetaCircMin[c.waypoint - 1] then Cursor(Line, c.waypoint)
        else c
    }

    /** The cursor after comp_theta has been called on each position of ps in turn. */
    function Track(c: Cursor, ps: seq<Vec2>): (last: Cursor)
      requires Shaped() && Admissible(c)
      ensures Admissible(last)
      ensures c.waypoint - |ps| <= last.waypoint <= c.waypoint + |ps|
      decreases |ps|
    {
      if ps == [] then c
      else Track(Switch(c, SegmentTheta(c, ps[0])), ps[1..])
    }

    /** With two waypoints there is one line and no fillet: the tracker never leaves it. */
    lemma SingleLegStays(ps: seq<Vec2>)
      requires Shaped() && |lines| == 1
      ensures Track(Cursor(Line, 1), ps) == Cursor(Line, 1)
    {
      var last := Track(Cursor(Line, 1), ps);
      assert last.waypoint == 1;
    }

    /** A line is left forward for its fillet exactly when theta passes the line's upper threshold. */
    lemma ForwardOntoFillet(c: Cursor, theta: real)
      requires Shaped() && Admissible(c) && c.segment == Line
      ensures Switch(c, theta) == Cursor(Circle, c.waypoint)
        <==> Above(theta, thetaLineMax[c.waypoint - 1])
    {
      if !Above(theta, thetaLineMax[c.waypoint - 1]) && Below(theta, thetaLineMin[c.waypoint - 1]) {
        assert Switch(c, theta).waypoint == c.waypoint - 1;
      }
    }

    /** A fillet is left for the next line exactly when theta passes the fillet's upper threshold. */
    lemma ForwardOntoLine(c: Cursor, theta: real)
      requires Shaped() && Admissible(c) && c.segment == Circle
      ensures Switch(c, theta) == Cursor(Line, c.waypoint + 1)
        <==> theta > thetaCircMax[c.waypoint - 1]
    {
    }

    /**
     * A line not left forward is left backward, for the previous fillet, exactly when theta
     * is below the line's lower threshold.
     */
    lemma BackOntoFillet(c: Cursor, theta: real)
      requires Shaped() && Admissible(c) && c.segment == Line
      requires !Above(theta, thetaLineMax[c.waypoint - 1])
      ensures Switch(c, theta) == Cursor(Circle, c.waypoint - 1)
        <==> Below(theta, thetaLineMin[c.waypoint - 1])
    {
    }

    /**
     * A fillet not left forward is left backward, for its incoming line, exactly when theta
     * is below the fillet's lower threshold.
     */
    lemma BackOntoLine(c: Cursor, theta: real)
      requires Shaped() && Admissible(c) && c.segment == Circle
      requires theta <= thetaCircMax[c.waypoint - 1]
      ensures Switch(c, theta) == Cursor(Line, c.waypoint)
        <==> theta < thetaCircMin[c.waypoint - 1]
    {
    }

    constructor (t: Oracle, waypoints: seq<Vec2>, circleRadius: real)
      requires |waypoints| >= 2
      requires forall i :: 0 <= i < |waypoints| - 2 ==> Corner(t, waypoints, i)
      ensures Valid() && State() == Cursor(Line, 1) && trig == t
      ensures |lines| == |waypoints| - 1 && |circles| == |waypoints| - 2
      ensures forall k :: 0 <= k < |lines| ==> lines[k] == LineOf(t, waypoints, k)
      ensures forall k :: 0 <= k < |circles| ==> circles[k] == Fillet(t, waypoints, circleRadius, k)
      ensures forall k :: 0 <= k < |circles| ==>
        thetaCircMin[k] == ArcStart(t, waypoints, circleRadius, k) &&
        thetaCircMax[k] == ArcEnd(t, waypoints, circleRadius, k)
      ensures thetaLineMin[0] == NegInf && thetaLineMax[|lines| - 1] == PosInf
      ensures forall k :: 0 <= k < |circles| ==>
        thetaLineMax[k] == Fin(LineEnd(t, waypoints, circleRadius, k)) &&
        thetaLineMin[k + 1] == Fin(LineStart(t, waypoints, circleRadius, k))
    {
      var w := waypoints;
      var ls: seq<LinePath.Line> := [];
      var cs: seq<CirclePath.Circle> := [];
      var circMin: seq<real> := [];
      var circMax: seq<real> := [];
      var lineMin: seq<Bound> := [NegInf];
      var lineMax: seq<Bound> := [];

      for i := 1 to |w|
        invariant |ls| == i - 1
        invariant forall k :: 0 <= k < |ls| ==> ls[k] == LineOf(t, w, k)
      {
        ls := ls + [LinePath.New(t, w[i - 1], w[i])];
      }
      var v := Normalize(t, Sub(w[1], w[0]));

      for i := 0 to |w| - 2
        invariant v == Leg(t, w, i)
        invariant |cs| == i && |circMin| == i && |circMax| == i
        invariant |lineMin| == i + 1 && |lineMax| == i
        invariant lineMin[0] == NegInf
        invariant forall k :: 0 <= k < i ==>
          cs[k] == Fillet(t, w, circleRadius, k) &&
          circMin[k] == ArcStart(t, w, circleRadius, k) &&
          circMax[k] == ArcEnd(t, w, circleRadius, k) &&
          lineMax[k] == Fin(LineEnd(t, w, circleRadius, k)) &&
          lineMin[k + 1] == Fin(LineStart(t, w, circleRadius, k))
      {
        assert Corner(t, w, i);
        var vNext := Normalize(t, Sub(w[i + 2], w[i + 1]));
        var d := FilletOffset(circleRadius, v, vNext);
        var q := Signum(Cross(v, vNext));
        var clockwise := q < 0.0;
        assert vNext == Leg(t, w, i + 1);
        assert d == Offset(t, w, circleRadius, i);
        assert q == Signum(Turn(t, w, i));
        assert Sub(w[i + 1], Scale(d, v)) == Entry(t, w, circleRadius, i);
        assert Add(w[i + 1], Scale(d, vNext)) == Exit(t, w, circleRadius, i);

        var thetaMaxLine := LinePath.CompTheta(t, ls[i], Sub(w[i + 1], Scale(d, v)));
        var thetaMinLine := LinePath.CompTheta(t, ls[i + 1], Add(w[i + 1], Scale(d, vNext)));
        lineMin := lineMin + [Fin(thetaMinLine)];
        lineMax := lineMax + [Fin(thetaMaxLine)];

        var posCircle := Add(Sub(w[i + 1], Scale(d, v)), Scale(q * circleRadius, MatVec(Skew, v)));
        cs := cs + [CirclePath.New(circleRadius, posCircle, clockwise)];
        assert cs[i] == Fillet(t, w, circleRadius, i);

        var thetaMinCirc := CirclePath.CompTheta(t, cs[i], Sub(w[i + 1], Scale(d, v)));
        var thetaMaxCirc := CirclePath.CompTheta(t, cs[i], Add(w[i + 1], Scale(d, vNext)));
        circMin := circMin + [thetaMinCirc];
        circMax := circMax + [thetaMaxCirc];

        v := vNext;
      }
      lineMax := lineMax + [PosInf];

      trig := t;
      lines := ls;
      circles := cs;
      thetaCircMin := circMin;
      thetaCircMax := circMax;
      thetaLineMin := lineMin;
      thetaLineMax := lineMax;
      currentWaypoint := 1;
      currentPathSegment := Line;
    }

    /**
     * Projects pos on the active segment, switches segment if that theta crossed a
     * threshold, and returns pos projected on the (possibly new) active segment.
     */
    method CompTheta(pos: Vec2) returns (theta: real)
      requires Valid()
      modifies this`currentWaypoint, this`currentPathSegment
      ensures Valid()
      ensures State() == Switch(old(State()), SegmentTheta(old(State()), pos))
      ensures theta == SegmentTheta(State(), pos)
    {
      match currentPathSegment {
        case Line =>
          var th := LinePath.CompTheta(trig, lines[currentWaypoint - 1], pos);
          if Above(th, thetaLineMax[currentWaypoint - 1]) {
            currentPathSegment := Circle;
          } else if Below(th, thetaLineMin[currentWaypoint - 1]) {
            currentWaypoint := currentWaypoint - 1;
            currentPathSegment := Circle;
          }
        case Circle =>
          var th := CirclePath.CompTheta(trig, circles[currentWaypoint - 1], pos);
          if th > thetaCircMax[currentWaypoint - 1] {
            currentWaypoint := currentWaypoint + 1;
            currentPathSegment := Line;
          } else if th < thetaCircMin[currentWaypoint - 1] {
            currentPathSegment := Line;
          }
      }
      theta := match currentPathSegment
        case Line => LinePath.CompTheta(trig, lines[currentWaypoint - 1], pos)
        case Circle => CirclePath.CompTheta(trig, circles[currentWaypoint - 1], pos);
    }

    function CompPos(theta: real): Vec2
      reads this
      requires Valid()
    {
      match currentPathSegment
      case Line => LinePath.CompPos(trig, lines[currentWaypoint - 1], theta)
      case Circle => CirclePath.CompPos(trig, circles[currentWaypoint - 1], theta)
    }

    function CompTangent(theta: real): Vec2
      reads this
      requires Valid()
    {
      match currentPathSegment
      case Line => LinePath.CompTangent(trig, lines[currentWaypoint - 1], theta)
      case Circle => CirclePath.CompTangent(trig, circles[currentWaypoint - 1], theta)
    }

    /** On a line, the active segment's theta of CompPos(theta) is theta again. */
    lemma PosRoundTripOnLine(theta: real)
      requires Valid() && Pythagorean(trig) && currentPathSegment == Line
      ensures SegmentTheta(State(), CompPos(theta)) == theta
    {
      LinePath.RoundTrip(trig, lines[currentWaypoint - 1], theta);
    }

    /** On a fillet, CompPos(theta) lies on the active circle. */
    lemma PosOnActiveFillet(theta: real)
      requires Valid() && Pythagorean(trig) && Parity(trig) && currentPathSegment == Circle
      ensures var c := circles[currentWaypoint - 1];
        var d := Sub(CompPos(theta), c.center);
        Dot(d, d) == c.radius * c.radius
    {
      CirclePath.OnCircle(trig, circles[currentWaypoint - 1], theta);
    }

    /** Whichever segment is active, the tangent has unit length. */
    lemma TangentIsUnit(theta: real)
      requires Valid() && Pythagorean(trig) && RootLaw(trig)
      ensures Dot(CompTangent(theta), CompTangent(theta)) == 1.0
    {
      match currentPathSegment
      case Line => LinePath.TangentIsDirection(trig, lines[currentWaypoint - 1], theta);
      case Circle => CirclePath.TangentIsUnit(trig, circles[currentWaypoint - 1], theta);
    }
  }
}
