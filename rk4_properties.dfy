/**
 * What one step of `Simulator.rk4` is: the classic fourth-order Runge-Kutta
 * combination of four stages that all see the same held control, written out
 * component by component; and what it gives on three equations of motion
 * whose exact behaviour is known (a rest point, a linear system, a
 * state-independent vector field).
 */
module Rk4Properties {
  import opened Wrappers
  import opened Vectors
  import opened Dynamics
  import opened Simulation

  /**
   * The step spelled out per component: with the four stages evaluated at
   * `x`, `x + dt/2 k1`, `x + dt/2 k2` and `x + dt k3`, at `t`, `t + dt/2`,
   * `t + dt/2` and `t + dt` (the times only for a time-variant model), and
   * every stage given the same control `u`, component `j` of the next state
   * is `x[j] + dt/6 (k1[j] + 2 k2[j] + 2 k3[j] + k4[j])`; the auxiliary
   * values are stage 1's.
   */
  lemma Rk4Components(f: Eom, dt: real, x: seq<real>, u: seq<real>, t: real, tv: bool,
                      x2: seq<real>, x3: seq<real>, x4: seq<real>,
                      k1: seq<real>, k2: seq<real>, k3: seq<real>, k4: seq<real>)
    requires DerivShape(f, |x|, |u|)
    requires k1 == f(x, u, TimeArg(tv, t)).0
    requires |x2| == |x| && forall j :: 0 <= j < |x| ==> x2[j] == x[j] + dt / 2.0 * k1[j]
    requires k2 == f(x2, u, TimeArg(tv, t + dt / 2.0)).0
    requires |x3| == |x| && forall j :: 0 <= j < |x| ==> x3[j] == x[j] + dt / 2.0 * k2[j]
    requires k3 == f(x3, u, TimeArg(tv, t + dt / 2.0)).0
    requires |x4| == |x| && forall j :: 0 <= j < |x| ==> x4[j] == x[j] + dt * k3[j]
    requires k4 == f(x4, u, TimeArg(tv, t + dt)).0
    ensures var r := Simulator.Rk4(f, dt, x, u, t, tv);
      && |r.0| == |x|
      && (forall j :: 0 <= j < |x| ==> r.0[j] == x[j] + dt / 6.0 * (k1[j] + 2.0 * k2[j] + 2.0 * k3[j] + k4[j]))
      && r.1 == f(x, u, TimeArg(tv, t)).1
  {
    assert |k1| == |x|;
    assert x2 == Add(x, Scale(dt / 2.0, k1)) by { PointwiseStep(x, dt / 2.0, k1, x2); }
    assert |k2| == |x|;
    assert x3 == Add(x, Scale(dt / 2.0, k2)) by { PointwiseStep(x, dt / 2.0, k2, x3); }
    assert |k3| == |x|;
    assert x4 == Add(x, Scale(dt, k3)) by { PointwiseStep(x, dt, k3, x4); }
  }

  /** A vector equal component by component to `x + h k` is `x + h k`. */
  lemma PointwiseStep(x: seq<real>, h: real, k: seq<real>, y: seq<real>)
    requires |k| == |x| && |y| == |x|
    requires forall j :: 0 <= j < |x| ==> y[j] == x[j] + h * k[j]
    ensures y == Add(x, Scale(h, k))
  {
    var z := Add(x, Scale(h, k));
    assert forall j :: 0 <= j < |x| ==> y[j] == z[j];
  }

  /** A time-invariant model's step does not depend on the time it is taken at. */
  lemma Rk4TimeInvariant(f: Eom, dt: real, x: seq<real>, u: seq<real>, t: real, t': real)
    requires DerivShape(f, |x|, |u|)
    ensures Simulator.Rk4(f, dt, x, u, t, false) == Simulator.Rk4(f, dt, x, u, t', false)
  {
    assert TimeArg(false, t) == TimeArg(false, t + dt / 2.0) == TimeArg(false, t + dt) == None;
    assert TimeArg(false, t') == TimeArg(false, t' + dt / 2.0) == TimeArg(false, t' + dt) == None;
  }

  /** A rest point of the held-control system stays put over a step, at any step size. */
  lemma Rk4RestPoint(f: Eom, dt: real, x: seq<real>, u: seq<real>, t: real, tv: bool)
    requires DerivShape(f, |x|, |u|)
    requires forall s: Option<real> :: f(x, u, s).0 == Zeros(|x|)
    ensures Simulator.Rk4(f, dt, x, u, t, tv).0 == x
  {
    var z := Zeros(|x|);
    assert Add(x, Scale(dt / 2.0, z)) == x;
    assert Add(x, Scale(dt, z)) == x;
    var k1 := f(x, u, TimeArg(tv, t)).0;
    var k2 := f(x, u, TimeArg(tv, t + dt / 2.0)).0;
    var k4 := f(x, u, TimeArg(tv, t + dt)).0;
    assert k1 == z && k2 == z && k4 == z;
    Rk4Components(f, dt, x, u, t, tv, x, x, x, k1, k2, k2, k4);
  }

  /** The degree-four Taylor polynomial of `exp(z)`: RK4's amplification factor on a linear system. */
  function StabilityPolynomial(z: real): real {
    1.0 + z + z * z / 2.0 + z * z * z / 6.0 + z * z * z * z / 24.0
  }

  /**
   * The multipliers of a step of `y' = lam y`: with stage `i` equal to `c_i`
   * times the state, evaluated at `e_i` times it, the step multiplies the
   * state by the stability polynomial of `lam dt`.
   */
  lemma LinearMultiplier(lam: real, dt: real, c1: real, e2: real, c2: real, e3: real, c3: real,
                         e4: real, c4: real)
    requires c1 == lam
    requires e2 == 1.0 + dt / 2.0 * c1 && c2 == lam * e2
    requires e3 == 1.0 + dt / 2.0 * c2 && c3 == lam * e3
    requires e4 == 1.0 + dt * c3 && c4 == lam * e4
    ensures 1.0 + dt / 6.0 * (c1 + 2.0 * c2 + 2.0 * c3 + c4) == StabilityPolynomial(lam * dt)
  {
    var z := lam * dt;
    assert dt * c1 == z;
    assert dt * c2 == z + z * z / 2.0;
    assert dt * c3 == z + z * z / 2.0 + z * z * z / 4.0;
    assert dt * c4 == z + z * z + z * z * z / 2.0 + z * z * z * z / 4.0;
  }

  /** Scaling twice is scaling by the product. */
  lemma ScaleScale(c: real, d: real, p: real, x: seq<real>)
    requires p == c * d
    ensures Scale(c, Scale(d, x)) == Scale(p, x)
  {
    var l, r := Scale(c, Scale(d, x)), Scale(p, x);
    forall j | 0 <= j < |x|
      ensures l[j] == r[j]
    {
      assert c * (d * x[j]) == (c * d) * x[j];
    }
  }

  /** A vector plus a multiple of itself is a single multiple of it. */
  lemma AddMultiple(x: seq<real>, c: real, p: real)
    requires p == 1.0 + c
    ensures Add(x, Scale(c, x)) == Scale(p, x)
  {
    var l, r := Add(x, Scale(c, x)), Scale(p, x);
    forall j | 0 <= j < |x|
      ensures l[j] == r[j]
    {
      assert x[j] + c * x[j] == (1.0 + c) * x[j];
    }
  }

  /** The sum of two multiples of a vector is a multiple of it. */
  lemma AddMultiples(c: real, d: real, p: real, x: seq<real>)
    requires p == c + d
    ensures Add(Scale(c, x), Scale(d, x)) == Scale(p, x)
  {
    var l, r := Add(Scale(c, x), Scale(d, x)), Scale(p, x);
    forall j | 0 <= j < |x|
      ensures l[j] == r[j]
    {
      assert c * x[j] + d * x[j] == (c + d) * x[j];
    }
  }

  /**
   * One stage of a step of `y' = lam y` at the point `e x`: the stage is
   * `c x` with `c = lam e`, and the next point `x + h (c x)` is `d x`.
   */
  lemma LinearStage(lam: real, h: real, e: real, c: real, d: real, x: seq<real>)
    requires c == lam * e && d == 1.0 + h * c
    ensures Scale(lam, Scale(e, x)) == Scale(c, x)
    ensures Add(x, Scale(h, Scale(c, x))) == Scale(d, x)
  {
    ScaleScale(lam, e, c, x);
    var hc := h * c;
    ScaleScale(h, c, hc, x);
    AddMultiple(x, hc, d);
  }

  /**
   * On a linear system `x' = lam x`, one step multiplies the state by the
   * degree-four Taylor polynomial of `exp(lam dt)`, whatever the control and
   * time.
   */
  lemma Rk4Linear(f: Eom, lam: real, dt: real, x: seq<real>, u: seq<real>, t: real, tv: bool)
    requires DerivShape(f, |x|, |u|)
    requires forall y: seq<real>, s: Option<real> :: |y| == |x| ==> f(y, u, s).0 == Scale(lam, y)
    ensures Simulator.Rk4(f, dt, x, u, t, tv).0 == Scale(StabilityPolynomial(lam * dt), x)
  {
    // Stage i is `c_i x`, evaluated at the point `e_i x`.
    var half := dt / 2.0;
    var c1 := lam;
    var e2 := 1.0 + half * c1;
    var c2 := lam * e2;
    var e3 := 1.0 + half * c2;
    var c3 := lam * e3;
    var e4 := 1.0 + dt * c3;
    var c4 := lam * e4;
    LinearMultiplier(lam, dt, c1, e2, c2, e3, c3, e4, c4);

    var k1 := f(x, u, TimeArg(tv, t)).0;
    assert k1 == Scale(c1, x);
    var x2 := Add(x, Scale(half, k1));
    LinearStage(lam, half, 1.0, c1, e2, x);
    var k2 := f(x2, u, TimeArg(tv, t + half)).0;
    assert k2 == Scale(lam, Scale(e2, x));
    LinearStage(lam, half, e2, c2, e3, x);
    var x3 := Add(x, Scale(half, k2));
    var k3 := f(x3, u, TimeArg(tv, t + half)).0;
    assert k3 == Scale(lam, Scale(e3, x));
    LinearStage(lam, dt, e3, c3, e4, x);
    var x4 := Add(x, Scale(dt, k3));
    var k4 := f(x4, u, TimeArg(tv, t + dt)).0;
    assert k4 == Scale(lam, Scale(e4, x));
    LinearStage(lam, dt, e4, c4, 1.0 + dt * c4, x);

    var p := 1.0 + dt / 6.0 * (c1 + 2.0 * c2 + 2.0 * c3 + c4);
    LinearCombination(dt, x, c1, c2, c3, c4, p, k1, k2, k3, k4);
    Rk4Unfold(f, dt, x, u, t, tv, k1, k2, k3, k4);
  }

  /** The step in terms of its four stages. */
  lemma Rk4Unfold(f: Eom, dt: real, x: seq<real>, u: seq<real>, t: real, tv: bool,
                  k1: seq<real>, k2: seq<real>, k3: seq<real>, k4: seq<real>)
    requires DerivShape(f, |x|, |u|)
    requires k1 == f(x, u, TimeArg(tv, t)).0
    requires k2 == f(Add(x, Scale(dt / 2.0, k1)), u, TimeArg(tv, t + dt / 2.0)).0
    requires k3 == f(Add(x, Scale(dt / 2.0, k2)), u, TimeArg(tv, t + dt / 2.0)).0
    requires k4 == f(Add(x, Scale(dt, k3)), u, TimeArg(tv, t + dt)).0
    ensures Simulator.Rk4(f, dt, x, u, t, tv).0
            == Add(x, Scale(dt / 6.0, Add(Add(Add(k1, Scale(2.0, k2)), Scale(2.0, k3)), k4)))
  {
  }

  /** The final combination of a step whose four stages are multiples of the state. */
  lemma LinearCombination(dt: real, x: seq<real>, c1: real, c2: real, c3: real, c4: real, p: real,
                          k1: seq<real>, k2: seq<real>, k3: seq<real>, k4: seq<real>)
    requires k1 == Scale(c1, x) && k2 == Scale(c2, x) && k3 == Scale(c3, x) && k4 == Scale(c4, x)
    requires p == 1.0 + dt / 6.0 * (c1 + 2.0 * c2 + 2.0 * c3 + c4)
    ensures Add(x, Scale(dt / 6.0, Add(Add(Add(k1, Scale(2.0, k2)), Scale(2.0, k3)), k4))) == Scale(p, x)
  {
    var d2, d3 := 2.0 * c2, 2.0 * c3;
    ScaleScale(2.0, c2, d2, x);
    ScaleScale(2.0, c3, d3, x);
    var s2 := c1 + d2;
    AddMultiples(c1, d2, s2, x);
    var s3 := s2 + d3;
    AddMultiples(s2, d3, s3, x);
    var s4 := s3 + c4;
    AddMultiples(s3, c4, s4, x);
    var q := dt / 6.0 * s4;
    ScaleScale(dt / 6.0, s4, q, x);
    AddMultiple(x, q, p);
  }

  /**
   * When the time-variant vector field does not depend on the state, a step
   * is Simpson's rule over `[t, t + dt]`.
   */
  lemma Rk4Simpson(f: Eom, g: real -> seq<real>, dt: real, x: seq<real>, u: seq<real>, t: real)
    requires DerivShape(f, |x|, |u|)
    requires forall y: seq<real>, s: real :: |y| == |x| ==> f(y, u, Some(s)).0 == g(s)
    ensures var r := Simulator.Rk4(f, dt, x, u, t, true).0;
      && |r| == |x|
      && forall j :: 0 <= j < |x| ==>
           r[j] == x[j] + dt / 6.0 * (g(t)[j] + 4.0 * g(t + dt / 2.0)[j] + g(t + dt)[j])
  {
    var a, b, c := g(t), g(t + dt / 2.0), g(t + dt);
    assert f(x, u, Some(t)).0 == a;
    assert |a| == |x|;
    assert f(Add(x, Scale(dt / 2.0, a)), u, Some(t + dt / 2.0)).0 == b;
    assert |b| == |x|;
    assert f(Add(x, Scale(dt / 2.0, b)), u, Some(t + dt / 2.0)).0 == b;
    assert f(Add(x, Scale(dt, b)), u, Some(t + dt)).0 == c;
    assert |c| == |x|;
    Rk4Unfold(f, dt, x, u, t, true, a, b, b, c);
    SimpsonWeights(dt, x, a, b, c);
  }

  /** Four stages whose middle two agree combine with Simpson's weights 1, 4, 1. */
  lemma SimpsonWeights(dt: real, x: seq<real>, a: seq<real>, b: seq<real>, c: seq<real>)
    requires |a| == |x| && |b| == |x| && |c| == |x|
    ensures var r := Add(x, Scale(dt / 6.0, Add(Add(Add(a, Scale(2.0, b)), Scale(2.0, b)), c)));
      forall j :: 0 <= j < |x| ==> r[j] == x[j] + dt / 6.0 * (a[j] + 4.0 * b[j] + c[j])
  {
    var r := Add(x, Scale(dt / 6.0, Add(Add(Add(a, Scale(2.0, b)), Scale(2.0, b)), c)));
    forall j | 0 <= j < |x|
      ensures r[j] == x[j] + dt / 6.0 * (a[j] + 4.0 * b[j] + c[j])
    {
      assert a[j] + 2.0 * b[j] + 2.0 * b[j] + c[j] == a[j] + 4.0 * b[j] + c[j];
    }
  }

}
