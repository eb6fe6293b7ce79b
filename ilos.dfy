// The integral line-of-sight (ILOS) guidance law (src/ilos.rs): from the vehicle position,
// the path point and the path tangent it computes a desired yaw angle and yaw rate, and
// integrates the cross-track error into an internal state. Also the angle wrap ssa.

module Guidance {
  import opened Planar
  import opened Trig

  /** x is an integer. */
  predicate IsWhole(x: real) {
    x.Floor as real == x
  }

  /** Rounding toward zero. */
  function Trunc(x: real): int {
    if x >= 0.0 then x.Floor else -((-x).Floor)
  }

  /** Rust's % on f64 for a positive modulus: the truncated remainder, with the sign of m. */
  function Rem(m: real, n: real): (r: real)
    requires 0.0 < n
    ensures -n < r < n
    ensures 0.0 <= m ==> 0.0 <= r
    ensures m <= 0.0 ==> r <= 0.0
  {
    var k := Trunc(m / n);
    RemFacts(m, n, k);
    m - n * k as real
  }

  lemma RemFacts(m: real, n: real, k: int)
    requires 0.0 < n && k == Trunc(m / n)
    ensures var r := m - n * k as real;
      -n < r < n && (0.0 <= m ==> 0.0 <= r) && (m <= 0.0 ==> r <= 0.0) && IsWhole((m - r) / n)
  {
    var q := m / n;
    assert n * q == m;
    if 0.0 <= m {
      if q < 0.0 {
        ProductPositive(n, -q);
        assert false;
      }
      TruncatedPart(m, n, q, k, q - k as real);
    } else {
      if 0.0 <= q {
        if q > 0.0 { ProductPositive(n, q); }
        assert false;
      }
      TruncatedPart(m, n, q, k, k as real - q);
    }
    WholeMultiple(m - (m - n * k as real), n, k);
  }

  /** m - n k = +-(n f) for the fractional part f of m / n, which lies in [0, 1). */
  lemma TruncatedPart(m: real, n: real, q: real, k: int, f: real)
    requires 0.0 < n && n * q == m && 0.0 <= f < 1.0
    requires f == q - k as real || f == k as real - q
    ensures -n < m - n * k as real < n
    ensures f == q - k as real ==> 0.0 <= m - n * k as real
    ensures f == k as real - q ==> m - n * k as real <= 0.0
  {
    var r := m - n * k as real;
    ScaleFraction(n, f);
    var p := n * f;
    assert 0.0 <= p < n;
    if f == q - k as real {
      assert r == p;
    } else {
      assert r == -p;
    }
  }

  /** m % n differs from m by a whole multiple of n. */
  lemma RemTurns(m: real, n: real)
    requires 0.0 < n
    ensures IsWhole((m - Rem(m, n)) / n)
  {
    RemFacts(m, n, Trunc(m / n));
  }

  /** modulo from src/ilos.rs: (m % n + n) % n, which lies in [0, n). */
  function Modulo(m: real, n: real): (r: real)
    requires 0.0 < n
    ensures 0.0 <= r < n
  {
    Rem(Rem(m, n) + n, n)
  }

  /** modulo(m, n) differs from m by a whole multiple of n. */
  lemma ModuloTurns(m: real, n: real)
    requires 0.0 < n
    ensures IsWhole((m - Modulo(m, n)) / n)
  {
    var k1 := Trunc(m / n);
    var a := Rem(m, n);
    var k2 := Trunc((a + n) / n);
    var r := Rem(a + n, n);
    assert a == m - n * k1 as real;
    assert r == a + n - n * k2 as real;
    assert m - r == n * (k1 + k2 - 1) as real;
    WholeMultiple(m - r, n, k1 + k2 - 1);
  }

  /** ssa: the angle wrapped into [-PI, PI). */
  function Ssa(x: real): (r: real)
    ensures -PI <= r < PI
  {
    Modulo(x + PI, 2.0 * PI) - PI
  }

  /** ssa(x) differs from x by a whole number of turns. */
  lemma SsaTurns(x: real)
    ensures IsWhole((x - Ssa(x)) / (2.0 * PI))
  {
    ModuloTurns(x + PI, 2.0 * PI);
  }

  /** Two angles in [-PI, PI) a whole number of turns apart are equal. */
  lemma WrapUnique(a: real, b: real)
    requires -PI <= a < PI && -PI <= b < PI
    requires IsWhole((a - b) / (2.0 * PI))
    ensures a == b
  {
    var z := (a - b) / (2.0 * PI);
    assert -1.0 < z < 1.0;
  }

  /** Angles already in [-PI, PI) are left unchanged. */
  lemma SsaFixed(x: real)
    requires -PI <= x < PI
    ensures Ssa(x) == x
  {
    SsaTurns(x);
    WrapUnique(x, Ssa(x));
  }

  lemma SsaIdempotent(x: real)
    ensures Ssa(Ssa(x)) == Ssa(x)
  {
    SsaFixed(Ssa(x));
  }

  lemma SsaZero()
    ensures Ssa(0.0) == 0.0
  {
    SsaFixed(0.0);
  }

  /** The wrap is half-open: PI itself maps to -PI. */
  lemma SsaAtPi()
    ensures Ssa(PI) == -PI
  {
    var r := Ssa(PI);
    SsaTurns(PI);
    assert (r - -PI) / (2.0 * PI) == 1.0 - (PI - r) / (2.0 * PI);
    WrapUnique(r, -PI);
  }

  /** Adding a full turn does not change the wrapped angle. */
  lemma SsaPeriodic(x: real)
    ensures Ssa(x + 2.0 * PI) == Ssa(x)
  {
    var a := Ssa(x + 2.0 * PI);
    var b := Ssa(x);
    SsaTurns(x + 2.0 * PI);
    SsaTurns(x);
    var i := ((x + 2.0 * PI - a) / (2.0 * PI)).Floor;
    var j := ((x - b) / (2.0 * PI)).Floor;
    assert (a - b) / (2.0 * PI) == (j - i + 1) as real;
    WrapUnique(a, b);
  }

  /** The signed distance of pos from the path point posD, along the left normal S tau of the tangent. */
  function CrossTrackError(pos: Vec2, posD: Vec2, tau: Vec2): real {
    Dot(Sub(pos, posD), MatVec(Skew, tau))
  }

  /** For a unit tangent, pos - posD splits into an along-track part and the cross-track error times S tau. */
  lemma CrossTrackDecomposition(pos: Vec2, posD: Vec2, tau: Vec2)
    requires Dot(tau, tau) == 1.0
    ensures var d := Sub(pos, posD);
      d == Add(Scale(Dot(d, tau), tau), Scale(CrossTrackError(pos, posD, tau), Perp(tau)))
  {
    var d := Sub(pos, posD);
    var c, s := tau.x, tau.y;
    assert (d.x * c + d.y * s) * c + (d.x * (-s) + d.y * c) * (-s) == d.x * (c * c + s * s);
    assert (d.x * c + d.y * s) * s + (d.x * (-s) + d.y * c) * c == d.y * (c * c + s * s);
  }

  /** k e + c (integral state): the argument of the line-of-sight correction. */
  function Beta(k: real, c: real, e: real, integral: real): real {
    k * e + c * integral
  }

  /** sqrt(1 + beta^2), the normaliser of the guidance vector; never below 1. */
  function Denominator(t: Oracle, beta: real): (s: real)
    requires RootLaw(t)
    ensures 1.0 <= s && s * s == 1.0 + beta * beta
  {
    var s := t.sqrt(1.0 + beta * beta);
    DenominatorFacts(t, beta);
    s
  }

  lemma DenominatorFacts(t: Oracle, beta: real)
    requires RootLaw(t)
    ensures var s := t.sqrt(1.0 + beta * beta); 1.0 <= s && s * s == 1.0 + beta * beta
  {
    var s := t.sqrt(1.0 + beta * beta);
    if beta != 0.0 {
      if beta > 0.0 { ProductPositive(beta, beta); } else { ProductPositive(-beta, -beta); }
    }
    assert 0.0 <= beta * beta;
    if s < 1.0 {
      SquareMonotone(s, 1.0);
    }
  }

  /** The guidance vector mu = (tau - beta S tau) / sqrt(1 + beta^2). */
  function Mu(t: Oracle, tau: Vec2, beta: real): Vec2
    requires RootLaw(t)
  {
    Scale(1.0 / Denominator(t, beta), Sub(tau, Scale(beta, MatVec(Skew, tau))))
  }

  /** The desired yaw: the polar angle of mu, mu[1].atan2(mu[0]). */
  function Heading(t: Oracle, mu: Vec2): real {
    t.atan2(mu.y, mu.x)
  }

  /** The rate of the integral state, k e / sqrt(1 + beta^2). */
  function AlphaDot(t: Oracle, k: real, e: real, beta: real): real
    requires RootLaw(t)
  {
    k * e / Denominator(t, beta)
  }

  /** With no correction (beta = 0), the guidance vector is the path tangent itself. */
  lemma MuOnPath(t: Oracle, tau: Vec2)
    requires RootLaw(t)
    ensures Mu(t, tau, 0.0) == tau
  {
    RootOfSquare(t, 1.0);
    assert Denominator(t, 0.0) == 1.0;
  }

  /** For a unit tangent, the guidance vector has unit length for every beta. */
  lemma MuIsUnit(t: Oracle, tau: Vec2, beta: real)
    requires RootLaw(t) && Dot(tau, tau) == 1.0
    ensures Dot(Mu(t, tau, beta), Mu(t, tau, beta)) == 1.0
  {
    var s := Denominator(t, beta);
    var u := Sub(tau, Scale(beta, MatVec(Skew, tau)));
    assert u == Sub(tau, Scale(beta, Perp(tau)));
    PerpCombination(tau, beta);
    ScaleSquared(1.0 / s, u);
    assert (1.0 / s) * s == 1.0;
    assert (1.0 / s) * (1.0 / s) * (s * s) == 1.0;
  }

  /**
   * For a unit tangent, mu points forward along the path, and its component along the
   * left normal is -beta times its forward component: it steers against the error.
   */
  lemma MuSteersTowardPath(t: Oracle, tau: Vec2, beta: real)
    requires RootLaw(t) && Dot(tau, tau) == 1.0
    ensures var mu := Mu(t, tau, beta);
      0.0 < Dot(mu, tau) && Dot(mu, Perp(tau)) == -beta * Dot(mu, tau)
  {
    var s := Denominator(t, beta);
    var p := Perp(tau);
    var u := Sub(tau, Scale(beta, p));
    assert u == Sub(tau, Scale(beta, MatVec(Skew, tau)));
    assert Dot(p, tau) == 0.0 && Dot(p, p) == 1.0;
    DotLinear(tau, beta, p, tau);
    DotLinear(tau, beta, p, p);
    assert Dot(tau, p) == 0.0;
    DotLinear(Vec2(0.0, 0.0), 1.0 / s, u, tau);
    DotLinear(Vec2(0.0, 0.0), 1.0 / s, u, p);
    ProductPositive(s, 1.0 / s);
  }

  /** For a unit tangent, the desired yaw points along mu: (cos yaw, sin yaw) = mu. */
  lemma CommandedHeading(t: Oracle, tau: Vec2, beta: real)
    requires RootLaw(t) && PolarLaw(t) && Dot(tau, tau) == 1.0
    ensures var mu := Mu(t, tau, beta);
      t.cos(Heading(t, mu)) == mu.x && t.sin(Heading(t, mu)) == mu.y
  {
    var mu := Mu(t, tau, beta);
    MuIsUnit(t, tau, beta);
    assert mu.x * mu.x + mu.y * mu.y == 1.0;
    PolarCoordinates(t, mu.x, mu.y);
    RootOfSquare(t, 1.0);
  }

  /** The integral state moves in the direction of k e, and stands still exactly when k e = 0. */
  lemma AlphaDotSign(t: Oracle, k: real, e: real, beta: real)
    requires RootLaw(t)
    ensures 0.0 < AlphaDot(t, k, e, beta) <==> 0.0 < k * e
    ensures AlphaDot(t, k, e, beta) < 0.0 <==> k * e < 0.0
    ensures AlphaDot(t, k, e, beta) == 0.0 <==> k * e == 0.0
  {
    QuotientSign(k * e, Denominator(t, beta));
  }

  lemma PerpCombination(v: Vec2, b: real)
    ensures var u := Sub(v, Scale(b, Perp(v))); Dot(u, u) == (1.0 + b * b) * Dot(v, v)
  {
    var x, y := v.x, v.y;
    assert (x + b * y) * (x + b * y) + (y - b * x) * (y - b * x) == (1.0 + b * b) * (x * x + y * y);
  }

  lemma QuotientSign(x: real, s: real)
    requires 0.0 < s
    ensures 0.0 < x / s <==> 0.0 < x
    ensures x / s < 0.0 <==> x < 0.0
    ensures x / s == 0.0 <==> x == 0.0
  {
    var q := x / s;
    assert s * q == x;
    if 0.0 < q { ProductPositive(s, q); }
    if q < 0.0 { ProductPositive(s, -q); }
  }

  lemma ScaleFraction(n: real, f: real)
    requires 0.0 < n && 0.0 <= f < 1.0
    ensures 0.0 <= n * f < n
  {
    if 0.0 < f { ProductPositive(n, f); }
    ProductPositive(n, 1.0 - f);
    assert n * (1.0 - f) == n - n * f;
  }

  /** The yaw angle, yaw rate and integral state an update writes. */
  datatype References = References(yaw: real, rate: real, integral: real)

  /**
   * The update law: from the gains k and c, the previous yaw and integral state, and the
   * inputs, the new yaw is the heading of mu, the yaw rate the wrapped yaw change over dt,
   * and the integral state advances by alpha_dot dt, both computed with the old integral state.
   */
  function Step(t: Oracle, k: real, c: real, yaw: real, integral: real,
                pos: Vec2, posD: Vec2, tau: Vec2, dt: real): References
    requires RootLaw(t) && dt != 0.0
  {
    var e := CrossTrackError(pos, posD, tau);
    var beta := Beta(k, c, e, integral);
    var newYaw := Heading(t, Mu(t, tau, beta));
    References(newYaw, YawRate(newYaw, yaw, dt), Integrate(integral, AlphaDot(t, k, e, beta), dt))
  }

  /** One forward-Euler step of the integral state. */
  function Integrate(integral: real, rate: real, dt: real): real {
    integral + rate * dt
  }

  /** The wrapped yaw change over dt; the change it stands for, rate * dt, lies in [-PI, PI). */
  function YawRate(newYaw: real, prevYaw: real, dt: real): (rate: real)
    requires dt != 0.0
    ensures rate * dt == Ssa(Ssa(newYaw) - Ssa(prevYaw))
    ensures -PI <= rate * dt < PI
  {
    var change := Ssa(Ssa(newYaw) - Ssa(prevYaw));
    QuotientTimesDivisor(change / dt, change, dt);
    change / dt
  }

  /** With zero cross-track error the integral state does not move. */
  lemma StepHoldsIntegral(t: Oracle, k: real, c: real, yaw: real, integral: real,
                          pos: Vec2, posD: Vec2, tau: Vec2, dt: real)
    requires RootLaw(t) && dt != 0.0 && CrossTrackError(pos, posD, tau) == 0.0
    ensures Step(t, k, c, yaw, integral, pos, posD, tau, dt).integral == integral
  {
    var e := CrossTrackError(pos, posD, tau);
    AlphaDotSign(t, k, e, Beta(k, c, e, integral));
  }

  /** On the path with no accumulated integral, the desired yaw is the heading of the tangent. */
  lemma StepSteadyState(t: Oracle, k: real, c: real, yaw: real,
                        pos: Vec2, posD: Vec2, tau: Vec2, dt: real)
    requires RootLaw(t) && dt != 0.0 && CrossTrackError(pos, posD, tau) == 0.0
    ensures Step(t, k, c, yaw, 0.0, pos, posD, tau, dt).yaw == Heading(t, tau)
  {
    assert Beta(k, c, 0.0, 0.0) == 0.0;
    MuOnPath(t, tau);
  }

  /** For dt > 0 the integral state rises exactly when k e > 0 and falls exactly when k e < 0. */
  lemma StepIntegralDirection(t: Oracle, k: real, c: real, yaw: real, integral: real,
                              pos: Vec2, posD: Vec2, tau: Vec2, dt: real)
    requires RootLaw(t) && 0.0 < dt
    ensures var s := Step(t, k, c, yaw, integral, pos, posD, tau, dt);
      var ke := k * CrossTrackError(pos, posD, tau);
      (integral < s.integral <==> 0.0 < ke) && (s.integral < integral <==> ke < 0.0)
  {
    var e := CrossTrackError(pos, posD, tau);
    var a := AlphaDot(t, k, e, Beta(k, c, e, integral));
    AlphaDotSign(t, k, e, Beta(k, c, e, integral));
    ProductSign(a, dt);
  }

  lemma ProductSign(a: real, dt: real)
    requires 0.0 < dt
    ensures 0.0 < a * dt <==> 0.0 < a
    ensures a * dt < 0.0 <==> a < 0.0
  {
    if 0.0 < a { ProductPositive(a, dt); }
    if a < 0.0 { ProductPositive(-a, dt); }
    if a == 0.0 { assert a * dt == 0.0; }
  }

  lemma QuotientTimesDivisor(q: real, x: real, y: real)
    requires y != 0.0 && q == x / y
    ensures q * y == x
  {
  }

  lemma WholeMultiple(x: real, n: real, k: int)
    requires n != 0.0 && x == n * k as real
    ensures IsWhole(x / n)
  {
    assert x / n == k as real;
  }

  class Ilos {
    var yawAngle: real
    var yawRate: real
    var integralState: real
    const skew: Mat2 := Skew
    var k: real
    var c: real

    constructor (propGain: real, integralGain: real)
      ensures yawAngle == 0.0 && yawRate == 0.0 && integralState == 0.0
      ensures k == propGain && c == integralGain
    {
      yawAngle := 0.0;
      yawRate := 0.0;
      integralState := 0.0;
      k := propGain;
      c := integralGain;
    }

    /** The controller with unit gains. */
    static method Default() returns (ilos: Ilos)
      ensures fresh(ilos)
      ensures ilos.yawAngle == 0.0 && ilos.yawRate == 0.0 && ilos.integralState == 0.0
      ensures ilos.k == 1.0 && ilos.c == 1.0
    {
      ilos := new Ilos(1.0, 1.0);
    }

    /** The abstract state one update reads and writes. */
    function Refs(): References
      reads this
    {
      References(yawAngle, yawRate, integralState)
    }

    /**
     * One guidance step: only the yaw angle, the yaw rate and the integral state change,
     * to the values Step computes from their previous values.
     */
    method Update(t: Oracle, pos: Vec2, posD: Vec2, tau: Vec2, dt: real)
      requires RootLaw(t) && dt != 0.0
      modifies this`yawAngle, this`yawRate, this`integralState
      ensures Refs() == Step(t, k, c, old(yawAngle), old(integralState), pos, posD, tau, dt)
    {
      var k := this.k;
      var c := this.c;

      var crossTrackErr := Dot(Sub(pos, posD), MatVec(skew, tau));
      var beta := Beta(k, c, crossTrackErr, integralState);
      var mu := Mu(t, tau, beta);

      var yawAnglePrev := yawAngle;
      yawAngle := t.atan2(mu.y, mu.x);
      yawRate := YawRate(yawAngle, yawAnglePrev, dt);

      var alphaDot := AlphaDot(t, k, crossTrackErr, beta);
      integralState := Integrate(integralState, alphaDot, dt);
    }

    method GetReferences() returns (yaw: real, rate: real)
      ensures yaw == yawAngle && rate == yawRate
    {
      yaw := yawAngle;
      rate := yawRate;
    }
  }
}
