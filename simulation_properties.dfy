/**
 * What a run of the simulator guarantees: the grid it samples, the shape and
 * column layout of its matrix, the recurrence the matrix rows satisfy (state
 * row 0 is the initial state, each control is the law at its own row, each
 * next state is one Runge-Kutta step from the row before, each logged row is
 * the step's auxiliary vector), exactly when it fails, and how the labels
 * line up with the columns.
 */
module SimulationProperties {
  import opened Wrappers
  import opened Simulation

  /** The time column of a result row. */
  function TimeOf(row: seq<real>): real
    requires |row| >= 1
  {
    row[0]
  }

  /** The state columns of a result row. */
  function StateOf(row: seq<real>, numStates: nat): seq<real>
    requires |row| >= 1 + numStates
  {
    row[1..1 + numStates]
  }

  /** The control columns of a result row. */
  function ControlOf(row: seq<real>, numStates: nat, numControls: nat): seq<real>
    requires |row| >= 1 + numStates + numControls
  {
    row[1 + numStates..1 + numStates + numControls]
  }

  /** The logged columns of a result row. */
  function LoggedOf(row: seq<real>, numStates: nat, numControls: nat): seq<real>
    requires |row| >= 1 + numStates + numControls
  {
    row[1 + numStates + numControls..]
  }

  /** The logged width of a run from `x0` at `t0`: the length of the first step's auxiliary vector. */
  function LoggedWidth(sys: ClosedLoop, x0: seq<real>, t0: real): nat {
    |sys.eom(x0, sys.law(x0, TimeArg(sys.lawTimeVariant, t0)), TimeArg(sys.eomTimeVariant, t0)).1|
  }

  /** A matrix of `numRows` rows, each of one time, `numStates` state, `numControls` control and `width` logged columns. */
  predicate Shaped(m: seq<seq<real>>, numRows: nat, numStates: nat, numControls: nat, width: nat) {
    |m| == numRows && forall i :: 0 <= i < |m| ==> |m[i]| == 1 + numStates + numControls + width
  }

  /** Whether numpy can assign `aux` to a logged row of `width` columns. */
  predicate Fits(aux: seq<real>, width: nat) {
    |aux| == width || |aux| == 1
  }

  /** Whether every sample's auxiliary vector fits a logged row of `width` columns. */
  predicate AllFit(samples: seq<Sample>, width: nat) {
    forall j :: 0 <= j < |samples| ==> Fits(samples[j].aux, width)
  }

  /** Point `i` of a grid of at least two points is `start` plus `i` steps. */
  lemma LinspacePoint(start: real, stop: real, num: nat, i: nat)
    requires num >= 2 && i < num
    ensures Linspace(start, stop, num)[i] == start + i as real * ((stop - start) / (num - 1) as real)
  {
  }

  /** Multiplying a quotient back by its nonzero divisor. */
  lemma MulDiv(a: real, k: real)
    requires k != 0.0
    ensures k * (a / k) == a
  {
  }

  /** Multiples of a positive step at least one apart differ by at least the step. */
  lemma StepsApart(a: real, b: real, s: real)
    requires a + 1.0 <= b && s > 0.0
    ensures b * s - a * s >= s
  {
    assert b * s - a * s - s == (b - a - 1.0) * s;
  }

  /**
   * The grid of `np.linspace` with at least two points starts at `start`,
   * ends at `stop`, and its `num - 1` steps of `ts[1] - ts[0]` span the interval.
   */
  lemma LinspaceEndpoints(start: real, stop: real, num: nat)
    requires num >= 2
    ensures var ts := Linspace(start, stop, num);
      && ts[0] == start
      && ts[num - 1] == stop
      && (ts[1] - ts[0]) * (num - 1) as real == stop - start
  {
    var ts := Linspace(start, stop, num);
    var k := (num - 1) as real;
    var step := (stop - start) / k;
    LinspacePoint(start, stop, num, 0);
    LinspacePoint(start, stop, num, 1);
    LinspacePoint(start, stop, num, num - 1);
    MulDiv(stop - start, k);
    assert ts[1] - ts[0] == step;
    assert ts[num - 1] == start + k * step;
  }

  /** Consecutive grid points are all `ts[1] - ts[0]` apart. */
  lemma LinspaceUniform(start: real, stop: real, num: nat)
    requires num >= 2
    ensures var ts := Linspace(start, stop, num);
      forall i :: 0 <= i < num - 1 ==> ts[i + 1] - ts[i] == ts[1] - ts[0]
  {
    var ts := Linspace(start, stop, num);
    var step := (stop - start) / (num - 1) as real;
    LinspacePoint(start, stop, num, 0);
    LinspacePoint(start, stop, num, 1);
    forall i | 0 <= i < num - 1
      ensures ts[i + 1] - ts[i] == ts[1] - ts[0]
    {
      LinspacePoint(start, stop, num, i);
      LinspacePoint(start, stop, num, i + 1);
      assert (i + 1) as real * step == i as real * step + step;
    }
  }

  /** On an interval with `start < stop` the grid increases strictly. */
  lemma LinspaceIncreasing(start: real, stop: real, num: nat)
    requires num >= 2 && start < stop
    ensures var ts := Linspace(start, stop, num);
      forall i, j :: 0 <= i < j < num ==> ts[i] < ts[j]
  {
    var ts := Linspace(start, stop, num);
    var step := (stop - start) / (num - 1) as real;
    assert step > 0.0;
    forall i, j | 0 <= i < j < num
      ensures ts[i] < ts[j]
    {
      LinspacePoint(start, stop, num, i);
      LinspacePoint(start, stop, num, j);
      StepsApart(i as real, j as real, step);
    }
  }

  /** The columns of a matrix row are, in order, the sample's time, state, control and the logged values. */
  lemma RowColumns(s: Sample, logged: seq<real>)
    ensures |Row(s, logged)| == 1 + |s.state| + |s.control| + |logged|
    ensures TimeOf(Row(s, logged)) == s.time
    ensures StateOf(Row(s, logged), |s.state|) == s.state
    ensures ControlOf(Row(s, logged), |s.state|, |s.control|) == s.control
    ensures LoggedOf(Row(s, logged), |s.state|, |s.control|) == logged
  {
    var row := Row(s, logged);
    var n, m := |s.state|, |s.control|;
    assert row == [s.time] + s.state + s.control + logged;
    assert row[1..1 + n] == s.state;
    assert row[1 + n..1 + n + m] == s.control;
    assert row[1 + n + m..] == logged;
  }

  /** When the logged rows succeed, every sample's auxiliary vector fits and its row is the fitted vector. */
  lemma {:induction false} LoggedRowsFit(samples: seq<Sample>, width: nat)
    ensures LoggedRows(samples, width).Success? ==>
      forall j :: 0 <= j < |samples| ==>
        FitRow(samples[j].aux, width) == Some(LoggedRows(samples, width).value[j])
  {
    if samples != [] {
      LoggedRowsFit(samples[1..], width);
    }
  }

  /** When the logged rows fail at `k`, the samples before `k` fit and sample `k` does not. */
  lemma {:induction false} LoggedRowsFailure(samples: seq<Sample>, width: nat)
    ensures var r := LoggedRows(samples, width);
      r.Failure? ==>
        && (forall j :: 0 <= j < r.error ==> FitRow(samples[j].aux, width).Some?)
        && FitRow(samples[r.error].aux, width).None?
  {
    if samples != [] && FitRow(samples[0].aux, width).Some? {
      LoggedRowsFailure(samples[1..], width);
    }
  }

  /** The rows of a successful collection: row `i` is sample `i` with its fitted logged vector. */
  lemma CollectRows(sys: ClosedLoop, x0: seq<real>, ts: seq<real>, dt: real)
    requires sys.WellShaped() && |x0| == sys.numStates && |ts| >= 1
    ensures var traj := Trajectory(sys, dt, x0, ts);
      var r := Collect(sys, x0, ts, dt);
      r.Success? ==>
        && |traj[0].aux| == LoggedWidth(sys, x0, ts[0])
        && forall i :: 0 <= i < |ts| ==>
             && FitRow(traj[i].aux, |traj[0].aux|).Some?
             && r.value[i] == Row(traj[i], FitRow(traj[i].aux, |traj[0].aux|).value)
  {
    var traj := Trajectory(sys, dt, x0, ts);
    TrajectoryStep(sys, dt, x0, ts, 0);
    LoggedRowsFit(traj, |traj[0].aux|);
  }

  /**
   * A successful run has `numPts >= 2` rows, each of `1 + numStates +
   * numControls + W` columns where `W` is the first step's auxiliary length,
   * and its time column is the grid.
   */
  lemma SimulateShape(sys: ClosedLoop, x0: seq<real>, tStart: real, tEnd: real, numPts: int)
    requires sys.WellShaped() && |x0| == sys.numStates
    ensures var r := Simulate(sys, x0, tStart, tEnd, numPts);
      r.Success? ==>
        && numPts >= 2
        && Shaped(r.value, numPts, sys.numStates, sys.numControls, LoggedWidth(sys, x0, tStart))
        && forall i :: 0 <= i < numPts ==> TimeOf(r.value[i]) == Linspace(tStart, tEnd, numPts)[i]
  {
    var r := Simulate(sys, x0, tStart, tEnd, numPts);
    if r.Success? {
      var ts := Linspace(tStart, tEnd, numPts);
      var w := LoggedWidth(sys, x0, tStart);
      forall i | 0 <= i < numPts
        ensures |r.value[i]| == 1 + sys.numStates + sys.numControls + w && TimeOf(r.value[i]) == ts[i]
      {
        SimulateRow(sys, x0, tStart, tEnd, numPts, i);
      }
    }
  }

  /** Row `i` of a successful run holds sample `i`'s time, state and control. */
  lemma SimulateRow(sys: ClosedLoop, x0: seq<real>, tStart: real, tEnd: real, numPts: int, i: nat)
    requires sys.WellShaped() && |x0| == sys.numStates
    requires Simulate(sys, x0, tStart, tEnd, numPts).Success? && i < numPts
    ensures numPts >= 2
    ensures var ts := Linspace(tStart, tEnd, numPts);
      var s := Trajectory(sys, ts[1] - ts[0], x0, ts)[i];
      var row := Simulate(sys, x0, tStart, tEnd, numPts).value[i];
      && |row| == 1 + sys.numStates + sys.numControls + LoggedWidth(sys, x0, tStart)
      && TimeOf(row) == ts[i]
      && StateOf(row, sys.numStates) == s.state
      && ControlOf(row, sys.numStates, sys.numControls) == s.control
  {
    var ts := Linspace(tStart, tEnd, numPts);
    var dt := ts[1] - ts[0];
    var traj := Trajectory(sys, dt, x0, ts);
    CollectRows(sys, x0, ts, dt);
    TrajectoryStep(sys, dt, x0, ts, i);
    RowColumns(traj[i], FitRow(traj[i].aux, |traj[0].aux|).value);
  }

  /** The logged columns of row `i` of a successful run are sample `i`'s auxiliary vector, fitted. */
  lemma SimulateRowLogged(sys: ClosedLoop, x0: seq<real>, tStart: real, tEnd: real, numPts: int, i: nat)
    requires sys.WellShaped() && |x0| == sys.numStates
    requires Simulate(sys, x0, tStart, tEnd, numPts).Success? && i < numPts
    ensures numPts >= 2
    ensures var ts := Linspace(tStart, tEnd, numPts);
      var s := Trajectory(sys, ts[1] - ts[0], x0, ts)[i];
      var row := Simulate(sys, x0, tStart, tEnd, numPts).value[i];
      && |row| == 1 + sys.numStates + sys.numControls + LoggedWidth(sys, x0, tStart)
      && FitRow(s.aux, LoggedWidth(sys, x0, tStart)) == Some(LoggedOf(row, sys.numStates, sys.numControls))
  {
    var ts := Linspace(tStart, tEnd, numPts);
    var dt := ts[1] - ts[0];
    var traj := Trajectory(sys, dt, x0, ts);
    CollectRows(sys, x0, ts, dt);
    TrajectoryStep(sys, dt, x0, ts, i);
    RowColumns(traj[i], FitRow(traj[i].aux, |traj[0].aux|).value);
  }

  /** State row 0 of a successful run is the initial state. */
  lemma SimulateInitialState(sys: ClosedLoop, x0: seq<real>, tStart: real, tEnd: real, numPts: int)
    requires sys.WellShaped() && |x0| == sys.numStates
    ensures var r := Simulate(sys, x0, tStart, tEnd, numPts);
      r.Success? ==>
        && Shaped(r.value, numPts, sys.numStates, sys.numControls, LoggedWidth(sys, x0, tStart))
        && StateOf(r.value[0], sys.numStates) == x0
  {
    SimulateShape(sys, x0, tStart, tEnd, numPts);
    if Simulate(sys, x0, tStart, tEnd, numPts).Success? {
      SimulateRow(sys, x0, tStart, tEnd, numPts, 0);
      var ts := Linspace(tStart, tEnd, numPts);
      TrajectoryStep(sys, ts[1] - ts[0], x0, ts, 0);
    }
  }

  /**
   * Every control row of a successful run is the control law at that row's
   * state, given that row's time only when the controller is time-variant.
   */
  lemma SimulateControls(sys: ClosedLoop, x0: seq<real>, tStart: real, tEnd: real, numPts: int)
    requires sys.WellShaped() && |x0| == sys.numStates
    ensures var r := Simulate(sys, x0, tStart, tEnd, numPts);
      var n, m := sys.numStates, sys.numControls;
      r.Success? ==>
        && Shaped(r.value, numPts, n, m, LoggedWidth(sys, x0, tStart))
        && forall i :: 0 <= i < numPts ==>
             ControlOf(r.value[i], n, m)
               == sys.law(StateOf(r.value[i], n), TimeArg(sys.lawTimeVariant, TimeOf(r.value[i])))
  {
    SimulateShape(sys, x0, tStart, tEnd, numPts);
    if Simulate(sys, x0, tStart, tEnd, numPts).Success? {
      forall i | 0 <= i < numPts
        ensures var row := Simulate(sys, x0, tStart, tEnd, numPts).value[i];
          ControlOf(row, sys.numStates, sys.numControls)
            == sys.law(StateOf(row, sys.numStates), TimeArg(sys.lawTimeVariant, TimeOf(row)))
      {
        SimulateControlAt(sys, x0, tStart, tEnd, numPts, i);
      }
    }
  }

  /** Control row `i` of a successful run is the control law at that row's state and time. */
  lemma SimulateControlAt(sys: ClosedLoop, x0: seq<real>, tStart: real, tEnd: real, numPts: int, i: nat)
    requires sys.WellShaped() && |x0| == sys.numStates
    requires Simulate(sys, x0, tStart, tEnd, numPts).Success? && i < numPts
    ensures var row := Simulate(sys, x0, tStart, tEnd, numPts).value[i];
      var n, c := sys.numStates, sys.numControls;
      && |row| >= 1 + n + c
      && ControlOf(row, n, c) == sys.law(StateOf(row, n), TimeArg(sys.lawTimeVariant, TimeOf(row)))
  {
    var ts := Linspace(tStart, tEnd, numPts);
    var dt := ts[1] - ts[0];
    var row := Simulate(sys, x0, tStart, tEnd, numPts).value[i];
    var s := Trajectory(sys, dt, x0, ts);
    var n, c := sys.numStates, sys.numControls;
    SimulateRow(sys, x0, tStart, tEnd, numPts, i);
    assert StateOf(row, n) == s[i].state;
    assert ControlOf(row, n, c) == s[i].control;
    assert TimeOf(row) == ts[i];
    TrajectoryStep(sys, dt, x0, ts, i);
    assert s[i].control == sys.law(s[i].state, TimeArg(sys.lawTimeVariant, ts[i]));
  }

  /** The spacing of an `num`-point grid over `[start, stop]`. */
  function GridStep(start: real, stop: real, num: nat): real
    requires num >= 2
  {
    (stop - start) / (num - 1) as real
  }

  /** The first two grid points are one grid step apart. */
  lemma LinspaceStep(start: real, stop: real, num: nat)
    requires num >= 2
    ensures var ts := Linspace(start, stop, num); ts[1] - ts[0] == GridStep(start, stop, num)
  {
    LinspacePoint(start, stop, num, 0);
    LinspacePoint(start, stop, num, 1);
  }

  /**
   * Every state row of a successful run but the first is one Runge-Kutta
   * step, over the grid step, from the row before with that row's control
   * and time.
   */
  lemma SimulateSteps(sys: ClosedLoop, x0: seq<real>, tStart: real, tEnd: real, numPts: int)
    requires sys.WellShaped() && |x0| == sys.numStates
    ensures var r := Simulate(sys, x0, tStart, tEnd, numPts);
      var n, m := sys.numStates, sys.numControls;
      r.Success? ==>
        && numPts >= 2
        && Shaped(r.value, numPts, n, m, LoggedWidth(sys, x0, tStart))
        && forall i :: 0 <= i < numPts - 1 ==>
             StateOf(r.value[i + 1], n)
               == Simulator.Rk4(sys.eom, GridStep(tStart, tEnd, numPts), StateOf(r.value[i], n),
                                ControlOf(r.value[i], n, m), TimeOf(r.value[i]), sys.eomTimeVariant).0
  {
    SimulateShape(sys, x0, tStart, tEnd, numPts);
    if Simulate(sys, x0, tStart, tEnd, numPts).Success? {
      var m := Simulate(sys, x0, tStart, tEnd, numPts).value;
      forall i | 0 <= i < numPts - 1
        ensures StateOf(m[i + 1], sys.numStates)
          == Simulator.Rk4(sys.eom, GridStep(tStart, tEnd, numPts), StateOf(m[i], sys.numStates),
                           ControlOf(m[i], sys.numStates, sys.numControls), TimeOf(m[i]), sys.eomTimeVariant).0
      {
        SimulateStepAt(sys, x0, tStart, tEnd, numPts, i);
      }
    }
  }

  /** State row `i + 1` of a successful run is one Runge-Kutta step from row `i`. */
  lemma SimulateStepAt(sys: ClosedLoop, x0: seq<real>, tStart: real, tEnd: real, numPts: int, i: nat)
    requires sys.WellShaped() && |x0| == sys.numStates
    requires Simulate(sys, x0, tStart, tEnd, numPts).Success? && i + 1 < numPts
    ensures numPts >= 2
    ensures var m := Simulate(sys, x0, tStart, tEnd, numPts).value;
      var n, c := sys.numStates, sys.numControls;
      && |m[i]| >= 1 + n + c && |m[i + 1]| >= 1 + n
      && StateOf(m[i + 1], n)
           == Simulator.Rk4(sys.eom, GridStep(tStart, tEnd, numPts), StateOf(m[i], n), ControlOf(m[i], n, c),
                            TimeOf(m[i]), sys.eomTimeVariant).0
  {
    var ts := Linspace(tStart, tEnd, numPts);
    var dt := ts[1] - ts[0];
    var m := Simulate(sys, x0, tStart, tEnd, numPts).value;
    var s := Trajectory(sys, dt, x0, ts);
    var n, c := sys.numStates, sys.numControls;
    SimulateRow(sys, x0, tStart, tEnd, numPts, i);
    SimulateRow(sys, x0, tStart, tEnd, numPts, i + 1);
    LinspaceStep(tStart, tEnd, numPts);
    assert StateOf(m[i], n) == s[i].state;
    assert ControlOf(m[i], n, c) == s[i].control;
    assert TimeOf(m[i]) == ts[i];
    assert StateOf(m[i + 1], n) == s[i + 1].state;
    TrajectoryStep(sys, dt, x0, ts, i);
    assert s[i + 1].state == Simulator.Rk4(sys.eom, dt, s[i].state, s[i].control, ts[i], sys.eomTimeVariant).0;
    Rk4Congruent(sys.eom, sys.eomTimeVariant, dt, s[i].state, s[i].control, ts[i], s[i + 1].state,
                 GridStep(tStart, tEnd, numPts), StateOf(m[i], n), ControlOf(m[i], n, c), TimeOf(m[i]),
                 StateOf(m[i + 1], n));
  }

  /**
   * A Runge-Kutta step depends on its arguments only: a state equal to the
   * step from one set of arguments is the step from any equal arguments.
   * `SimulateStepAt` calls it so that the solver rewrites the step's
   * arguments from the sample to the row once, instead of unfolding `Rk4`.
   */
  lemma Rk4Congruent(eom: Dynamics.Eom, tv: bool, h: real, x: seq<real>, u: seq<real>, t: real, y: seq<real>,
                     h': real, x': seq<real>, u': seq<real>, t': real, y': seq<real>)
    requires DerivShape(eom, |x|, |u|)
    requires h == h' && x' == x && u' == u && t' == t && y' == y
    requires y == Simulator.Rk4(eom, h, x, u, t, tv).0
    ensures y' == Simulator.Rk4(eom, h', x', u', t', tv).0
  {
  }

  /**
   * Every logged row of a successful run is the auxiliary vector of the
   * first stage of that row's step, at the row's own state, control and
   * time, fitted to the first row's width.
   */
  lemma SimulateLogged(sys: ClosedLoop, x0: seq<real>, tStart: real, tEnd: real, numPts: int)
    requires sys.WellShaped() && |x0| == sys.numStates
    ensures var r := Simulate(sys, x0, tStart, tEnd, numPts);
      var n, m, w := sys.numStates, sys.numControls, LoggedWidth(sys, x0, tStart);
      r.Success? ==>
        && Shaped(r.value, numPts, n, m, w)
        && forall i :: 0 <= i < numPts ==>
             FitRow(sys.eom(StateOf(r.value[i], n), ControlOf(r.value[i], n, m),
                            TimeArg(sys.eomTimeVariant, TimeOf(r.value[i]))).1, w)
               == Some(LoggedOf(r.value[i], n, m))
  {
    SimulateShape(sys, x0, tStart, tEnd, numPts);
    if Simulate(sys, x0, tStart, tEnd, numPts).Success? {
      var ts := Linspace(tStart, tEnd, numPts);
      var m := Simulate(sys, x0, tStart, tEnd, numPts).value;
      forall i | 0 <= i < numPts
        ensures FitRow(sys.eom(StateOf(m[i], sys.numStates), ControlOf(m[i], sys.numStates, sys.numControls),
                               TimeArg(sys.eomTimeVariant, TimeOf(m[i]))).1, LoggedWidth(sys, x0, tStart))
          == Some(LoggedOf(m[i], sys.numStates, sys.numControls))
      {
        SimulateLoggedAt(sys, x0, tStart, tEnd, numPts, i);
      }
    }
  }

  /** The logged rows succeed exactly when every sample's auxiliary vector fits the width. */
  lemma LoggedRowsSucceed(samples: seq<Sample>, width: nat)
    ensures LoggedRows(samples, width).Success? <==> AllFit(samples, width)
  {
    LoggedRowsFit(samples, width);
    if AllFit(samples, width) {
      LoggedRowsAllFit(samples, width);
    }
  }

  /** The first sample's auxiliary vector is the first stage's, so its length is the logged width. */
  lemma FirstAux(sys: ClosedLoop, dt: real, x0: seq<real>, ts: seq<real>)
    requires sys.WellShaped() && |x0| == sys.numStates && |ts| >= 1
    ensures |Trajectory(sys, dt, x0, ts)[0].aux| == LoggedWidth(sys, x0, ts[0])
  {
    TrajectoryStep(sys, dt, x0, ts, 0);
  }

  /** A collection succeeds exactly when every sample's auxiliary vector fits the first one's length. */
  lemma CollectSucceedsIff(sys: ClosedLoop, x0: seq<real>, ts: seq<real>, dt: real)
    requires sys.WellShaped() && |x0| == sys.numStates && |ts| >= 1
    ensures var traj := Trajectory(sys, dt, x0, ts);
      Collect(sys, x0, ts, dt).Success? <==> AllFit(traj, |traj[0].aux|)
  {
    var traj := Trajectory(sys, dt, x0, ts);
    LoggedRowsSucceed(traj, |traj[0].aux|);
  }

  /** The logged columns of row `i` of a successful run are the first stage's auxiliary vector there, fitted. */
  lemma SimulateLoggedAt(sys: ClosedLoop, x0: seq<real>, tStart: real, tEnd: real, numPts: int, i: nat)
    requires sys.WellShaped() && |x0| == sys.numStates
    requires Simulate(sys, x0, tStart, tEnd, numPts).Success? && i < numPts
    ensures var m := Simulate(sys, x0, tStart, tEnd, numPts).value;
      var n, c := sys.numStates, sys.numControls;
      && |m[i]| == 1 + n + c + LoggedWidth(sys, x0, tStart)
      && FitRow(sys.eom(StateOf(m[i], n), ControlOf(m[i], n, c), TimeArg(sys.eomTimeVariant, TimeOf(m[i]))).1,
                LoggedWidth(sys, x0, tStart))
           == Some(LoggedOf(m[i], n, c))
  {
    var ts := Linspace(tStart, tEnd, numPts);
    var dt := ts[1] - ts[0];
    var m := Simulate(sys, x0, tStart, tEnd, numPts).value;
    var s := Trajectory(sys, dt, x0, ts)[i];
    var n, c := sys.numStates, sys.numControls;
    SimulateRow(sys, x0, tStart, tEnd, numPts, i);
    SimulateRowLogged(sys, x0, tStart, tEnd, numPts, i);
    assert StateOf(m[i], n) == s.state;
    assert ControlOf(m[i], n, c) == s.control;
    assert TimeOf(m[i]) == ts[i];
    TrajectoryStep(sys, dt, x0, ts, i);
    var fromRow := sys.eom(StateOf(m[i], n), ControlOf(m[i], n, c), TimeArg(sys.eomTimeVariant, TimeOf(m[i])));
    var fromSample := sys.eom(s.state, s.control, TimeArg(sys.eomTimeVariant, ts[i]));
    assert fromRow == fromSample;
  }

  /**
   * A run succeeds exactly when it has at least two points and every step's
   * auxiliary vector has the first step's length or length one.
   */
  lemma SimulateSucceeds(sys: ClosedLoop, x0: seq<real>, tStart: real, tEnd: real, numPts: int)
    requires sys.WellShaped() && |x0| == sys.numStates
    ensures Simulate(sys, x0, tStart, tEnd, numPts).Success? <==>
      && numPts >= 2
      && var ts := Linspace(tStart, tEnd, numPts);
         AllFit(Trajectory(sys, ts[1] - ts[0], x0, ts), LoggedWidth(sys, x0, tStart))
  {
    if numPts >= 2 {
      var ts := Linspace(tStart, tEnd, numPts);
      var dt := ts[1] - ts[0];
      FirstAux(sys, dt, x0, ts);
      CollectSucceedsIff(sys, x0, ts, dt);
    }
  }

  /**
   * A run of at least two points that fails reports the first point whose
   * auxiliary vector does not fit, the logged width and that vector's length.
   */
  lemma SimulateFailure(sys: ClosedLoop, x0: seq<real>, tStart: real, tEnd: real, numPts: int)
    requires sys.WellShaped() && |x0| == sys.numStates
    ensures var r := Simulate(sys, x0, tStart, tEnd, numPts);
      r.Failure? && numPts >= 2 ==>
        && r.error.LoggedWidthMismatch?
        && var ts := Linspace(tStart, tEnd, numPts);
           var traj := Trajectory(sys, ts[1] - ts[0], x0, ts);
           var k, w := r.error.index, LoggedWidth(sys, x0, tStart);
           && k < numPts
           && r.error.width == w
           && r.error.found == |traj[k].aux|
           && (forall j :: 0 <= j < k ==> Fits(traj[j].aux, w))
           && !Fits(traj[k].aux, w)
  {
    if numPts >= 2 {
      var ts := Linspace(tStart, tEnd, numPts);
      var dt := ts[1] - ts[0];
      var traj := Trajectory(sys, dt, x0, ts);
      TrajectoryStep(sys, dt, x0, ts, 0);
      LoggedRowsFailure(traj, |traj[0].aux|);
    }
  }

  /**
   * The labels of a successful run name its columns one to one exactly when
   * the controller's output names and the logged names together are as many
   * as the control and logged columns: the label list counts the
   * controller's outputs, the matrix the model's inputs.
   */
  lemma LabelsMatchColumns(sys: ClosedLoop, x0: seq<real>, tStart: real, tEnd: real, numPts: int,
                           stateStr: seq<string>, outputsStr: seq<string>, loggedVars: seq<string>)
    requires sys.WellShaped() && |x0| == sys.numStates && |stateStr| == sys.numStates
    requires Simulate(sys, x0, tStart, tEnd, numPts).Success?
    ensures var m := Simulate(sys, x0, tStart, tEnd, numPts).value;
      forall i :: 0 <= i < |m| ==>
        (|Labels(stateStr, outputsStr, loggedVars)| == |m[i]| <==>
         |outputsStr| + |loggedVars| == sys.numControls + LoggedWidth(sys, x0, tStart))
  {
    SimulateShape(sys, x0, tStart, tEnd, numPts);
  }
}
