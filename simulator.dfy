/**
 * The simulation engine of `simulator.py`: the classic fourth-order
 * Runge-Kutta step with the control held over the step, and the run loop that
 * drives a model and a controller over a uniform time grid and assembles the
 * `[time | states | controls | logged]` matrix.
 *
 * The run is specified by `Simulate`, a function of the closed loop, the
 * initial state and the grid parameters; `Simulator.Run` is proved to compute
 * it, and the lemmas below state what `Simulate` guarantees.
 */
module Simulation {
  import opened Wrappers
  import opened Vectors
  import opened Dynamics

  /** The time argument of a compiled closure: passed only when the closure is time-variant. */
  function TimeArg(timeVariant: bool, t: real): (a: Option<real>)
    ensures a.Some? <==> timeVariant
    ensures a.Some? ==> a.value == t
  {
    if timeVariant then Some(t) else None
  }

  /** The equations of motion give one derivative per state. */
  ghost predicate DerivShape(f: Eom, numStates: nat, numInputs: nat) {
    forall x: seq<real>, u: seq<real>, t: Option<real> ::
      |x| == numStates && |u| == numInputs ==> |f(x, u, t).0| == numStates
  }

  /** The control law gives one value per model input. */
  ghost predicate ControlShape(g: ControlLaw, numStates: nat, numInputs: nat) {
    forall x: seq<real>, t: Option<real> :: |x| == numStates ==> |g(x, t)| == numInputs
  }

  /** What a run combines: the compiled model and controller, their sizes and time variance. */
  datatype ClosedLoop = ClosedLoop(
    eom: Eom,
    law: ControlLaw,
    numStates: nat,
    numControls: nat,
    eomTimeVariant: bool,
    lawTimeVariant: bool)
  {
    ghost predicate WellShaped() {
      DerivShape(eom, numStates, numControls) && ControlShape(law, numStates, numControls)
    }
  }

  /**
   * `np.linspace(start, stop, num)`: `num` points, the i-th at
   * `start + i * step` with `step = (stop - start) / (num - 1)`.
   */
  function Linspace(start: real, stop: real, num: nat): (ts: seq<real>)
    ensures |ts| == num
    ensures num >= 1 ==> ts[0] == start
    ensures num == 1 ==> ts == [start]
  {
    if num == 1 then [start]
    else
      var step := (stop - start) / (num - 1) as real;
      seq(num, i requires 0 <= i < num => start + i as real * step)
  }

  /** One grid point of a run: its time, state, control, and the auxiliary values of its step. */
  datatype Sample = Sample(time: real, state: seq<real>, control: seq<real>, aux: seq<real>)

  /** How a run fails. */
  datatype SimError =
    | TooFewPoints                                           // `time_list[1]` does not exist
    | LoggedWidthMismatch(index: nat, width: nat, found: nat) // a logged row numpy cannot assign

  /**
   * The samples of a run from state `x` over the remaining grid `ts`: at each
   * point the control is evaluated once, then one integrator step gives the
   * auxiliary values and the state of the next point.
   */
  function Trajectory(sys: ClosedLoop, dt: real, x: seq<real>, ts: seq<real>): (s: seq<Sample>)
    requires sys.WellShaped() && |x| == sys.numStates
    ensures |s| == |ts|
    decreases |ts|
  {
    if ts == [] then []
    else
      var u := sys.law(x, TimeArg(sys.lawTimeVariant, ts[0]));
      var step := Simulator.Rk4(sys.eom, dt, x, u, ts[0], sys.eomTimeVariant);
      [Sample(ts[0], x, u, step.1)] + Trajectory(sys, dt, step.0, ts[1..])
  }

  /**
   * numpy's assignment of `aux` to a row of `width` columns: an equal-length
   * vector is copied, a one-element vector is broadcast, anything else raises.
   */
  function FitRow(aux: seq<real>, width: nat): (row: Option<seq<real>>)
    ensures row.Some? <==> |aux| == width || |aux| == 1
    ensures row.Some? ==> |row.value| == width
    ensures |aux| == width ==> row == Some(aux)
    ensures |aux| == 1 && row.Some? ==> forall j :: 0 <= j < width ==> row.value[j] == aux[0]
  {
    if |aux| == width then Some(aux)
    else if |aux| == 1 then Some(seq(width, _ => aux[0]))
    else None
  }

  /** The logged rows of the samples, in order, or the index of the first that does not fit. */
  function LoggedRows(samples: seq<Sample>, width: nat): (r: Result<seq<seq<real>>, nat>)
    ensures r.Success? ==> |r.value| == |samples|
    ensures r.Failure? ==> r.error < |samples|
  {
    if samples == [] then Success([])
    else
      match FitRow(samples[0].aux, width)
      case None => Failure(0)
      case Some(row) =>
        match LoggedRows(samples[1..], width)
        case Success(rows) => Success([row] + rows)
        case Failure(k) => Failure(k + 1)
  }

  /** One row of the result matrix: `[t_i] ++ states[i] ++ controls[i] ++ logged[i]`. */
  function Row(s: Sample, logged: seq<real>): (row: seq<real>)
    ensures |row| == 1 + |s.state| + |s.control| + |logged|
    ensures row[0] == s.time
  {
    [s.time] + s.state + s.control + logged
  }

  /** `np.concatenate((time_list, states, controls, logged_signals), axis=1)`. */
  function Assemble(samples: seq<Sample>, logged: seq<seq<real>>): (m: seq<seq<real>>)
    requires |logged| == |samples|
    ensures |m| == |samples|
    ensures forall i :: 0 <= i < |samples| ==> m[i] == Row(samples[i], logged[i])
  {
    seq(|samples|, i requires 0 <= i < |samples| => Row(samples[i], logged[i]))
  }

  /**
   * The matrix of a run from `x0` over the grid `ts` with step `dt`, whose
   * logged width is fixed by the first step's auxiliary vector.
   */
  function Collect(sys: ClosedLoop, x0: seq<real>, ts: seq<real>, dt: real): (r: Result<seq<seq<real>>, SimError>)
    requires sys.WellShaped() && |x0| == sys.numStates && |ts| >= 1
    ensures r.Success? ==> |r.value| == |ts|
    ensures r.Failure? ==> r.error.LoggedWidthMismatch?
  {
    var traj := Trajectory(sys, dt, x0, ts);
    var width := |traj[0].aux|;
    match LoggedRows(traj, width)
    case Failure(k) => Failure(LoggedWidthMismatch(k, width, |traj[k].aux|))
    case Success(rows) => Success(Assemble(traj, rows))
  }

  /** What `Simulator.run` computes: `numPts` points over `[tStart, tEnd]` from `x0`. */
  function Simulate(sys: ClosedLoop, x0: seq<real>, tStart: real, tEnd: real, numPts: int)
    : (r: Result<seq<seq<real>>, SimError>)
    requires sys.WellShaped() && |x0| == sys.numStates
    ensures numPts < 2 <==> r == Failure(TooFewPoints)
    ensures r.Success? ==> |r.value| == numPts
  {
    if numPts < 2 then Failure(TooFewPoints)
    else
      var ts := Linspace(tStart, tEnd, numPts);
      Collect(sys, x0, ts, ts[1] - ts[0])
  }

  /** The label list: `"Time [s]"`, then state, controller output and logged names. */
  function Labels(stateStr: seq<string>, outputsStr: seq<string>, loggedVars: seq<string>)
    : (labels: seq<string>)
    ensures |labels| == 1 + |stateStr| + |outputsStr| + |loggedVars|
    ensures labels[0] == "Time [s]"
    ensures forall i :: 0 <= i < |stateStr| ==> labels[1 + i] == stateStr[i]
    ensures forall j :: 0 <= j < |outputsStr| ==> labels[1 + |stateStr| + j] == outputsStr[j]
    ensures forall k :: 0 <= k < |loggedVars| ==>
      labels[1 + |stateStr| + |outputsStr| + k] == loggedVars[k]
  {
    ["Time [s]"] + stateStr + outputsStr + loggedVars
  }

  /** The runner: a model, a controller, the parameters of the last run and its result. */
  class Simulator {
    const model: Model
    const ctrl: Controller
    const numStates: nat
    const numControls: nat
    var tStart: real
    var tEnd: real
    var numPts: int
    var lastSim: Option<seq<seq<real>>>

    ghost predicate Valid()
      reads model, ctrl
    {
      && model.Valid()
      && ctrl.Valid()
      && numStates == model.dyn.numStates
      && numControls == model.numInputs
    }

    /** The closed loop a run drives. */
    function Loop(): ClosedLoop
      reads model, ctrl
    {
      ClosedLoop(model.equations, ctrl.law, numStates, numControls,
                 model.dyn.timeVariant, ctrl.dyn.timeVariant)
    }

    constructor (dynamics: Model, controlLaw: Controller)
      requires dynamics.Valid() && controlLaw.Valid()
      ensures Valid()
      ensures model == dynamics && ctrl == controlLaw
      ensures numStates == dynamics.dyn.numStates && numControls == dynamics.numInputs
      ensures tStart == 0.0 && tEnd == 1.0 && numPts == 100
      ensures lastSim == None
    {
      model := dynamics;
      ctrl := controlLaw;
      numStates := dynamics.dyn.numStates;
      numControls := dynamics.numInputs;
      tStart := 0.0;
      tEnd := 1.0;
      numPts := 100;
      lastSim := None;
    }

    /** `last_sim_labels`. */
    function LastSimLabels(): (labels: seq<string>)
      reads model, ctrl
      ensures var n, o := |model.dyn.stateStr|, |ctrl.outputsStr|;
        && |labels| == 1 + n + o + |model.dyn.loggedVars|
        && labels[0] == "Time [s]"
        && labels[1..1 + n] == model.dyn.stateStr
        && labels[1 + n..1 + n + o] == ctrl.outputsStr
        && labels[1 + n + o..] == model.dyn.loggedVars
    {
      Labels(model.dyn.stateStr, ctrl.outputsStr, model.dyn.loggedVars)
    }

    /**
     * One classic Runge-Kutta step of `dxdt` from `x` over `dt`, with the
     * control `u` held for all four stages; gives the next state and the
     * auxiliary values of the first stage.
     */
    static function Rk4(dxdt: Eom, dt: real, x: seq<real>, u: seq<real>, t: real, timeVariant: bool := false)
      : (r: (seq<real>, seq<real>))
      requires DerivShape(dxdt, |x|, |u|)
      ensures |r.0| == |x|
      ensures r.1 == dxdt(x, u, TimeArg(timeVariant, t)).1
    {
      var stage1 := dxdt(x, u, TimeArg(timeVariant, t));
      var k1 := stage1.0;
      var k2 := dxdt(Add(x, Scale(dt / 2.0, k1)), u, TimeArg(timeVariant, t + dt / 2.0)).0;
      var k3 := dxdt(Add(x, Scale(dt / 2.0, k2)), u, TimeArg(timeVariant, t + dt / 2.0)).0;
      var k4 := dxdt(Add(x, Scale(dt, k3)), u, TimeArg(timeVariant, t + dt)).0;
      (Add(x, Scale(dt / 6.0, Add(Add(Add(k1, Scale(2.0, k2)), Scale(2.0, k3)), k4))), stage1.1)
    }

    /**
     * `run`: records the grid parameters, simulates `numPts` points over
     * `[tStart, tEnd]`, and on success stores the matrix as the last result
     * and returns it with the labels.
     */
    method Run(tStart: real := 0.0, tEnd: real := 1.0, numPts: int := 100)
      returns (r: Result<(seq<seq<real>>, seq<string>), SimError>)
      requires Valid() && Loop().WellShaped()
      modifies this
      ensures Valid() && Loop() == old(Loop())
      ensures this.tStart == tStart && this.tEnd == tEnd && this.numPts == numPts
      ensures var expected := Simulate(Loop(), model.initialConditions, tStart, tEnd, numPts);
        && (r.Success? <==> expected.Success?)
        && (r.Success? ==> r.value.0 == expected.value && r.value.1 == LastSimLabels())
        && (r.Failure? ==> r.error == expected.error)
      ensures lastSim == if r.Success? then Some(r.value.0) else old(lastSim)
    {
      this.tStart := tStart;
      this.tEnd := tEnd;
      this.numPts := numPts;
      var dynamics := model.GetCompiledEom();
      var controller := ctrl.GetCompiledController(model.dyn.stateSym);
      var outcome := Execute(Loop(), dynamics, controller, model.dyn.timeVariant, ctrl.dyn.timeVariant,
                             model.initialConditions, tStart, tEnd, numPts);
      match outcome
      case Failure(e) =>
        r := Failure(e);
      case Success(data) =>
        lastSim := Some(data);
        r := Success((data, LastSimLabels()));
    }

    /**
     * The computation of `run` once the closures are compiled: the grid,
     * its step (which needs a second point), and the loop.
     */
    static method Execute(sys: ClosedLoop, dynamics: Compiled<Eom>, controller: Compiled<ControlLaw>,
                          eomTimeVariant: bool, lawTimeVariant: bool,
                          x0: seq<real>, tStart: real, tEnd: real, numPts: int)
      returns (r: Result<seq<seq<real>>, SimError>)
      requires sys.WellShaped() && |x0| == sys.numStates
      requires dynamics.eval == sys.eom && eomTimeVariant == sys.eomTimeVariant
      requires controller.eval == sys.law && lawTimeVariant == sys.lawTimeVariant
      ensures r == Simulate(sys, x0, tStart, tEnd, numPts)
    {
      if numPts < 2 {
        return Failure(TooFewPoints);
      }
      var timeList := Linspace(tStart, tEnd, numPts);
      var timeStep := timeList[1] - timeList[0];
      r := Integrate(sys, dynamics, controller, eomTimeVariant, lawTimeVariant, x0, timeList, timeStep);
    }

    /**
     * The body of `run`'s loop at grid point `i`, from the state `x` the
     * loop holds there: the controller's output, then one solver step, whose
     * next state is kept only before the last point.
     */
    static method Advance(sys: ClosedLoop, dynamics: Compiled<Eom>, controller: Compiled<ControlLaw>,
                          eomTimeVariant: bool, lawTimeVariant: bool,
                          x0: seq<real>, timeList: seq<real>, timeStep: real, i: nat, x: seq<real>)
      returns (u: seq<real>, next: seq<real>, loggedValues: seq<real>)
      requires sys.WellShaped() && |x0| == sys.numStates && i < |timeList|
      requires dynamics.eval == sys.eom && eomTimeVariant == sys.eomTimeVariant
      requires controller.eval == sys.law && lawTimeVariant == sys.lawTimeVariant
      requires x == Trajectory(sys, timeStep, x0, timeList)[i].state
      ensures var traj := Trajectory(sys, timeStep, x0, timeList);
        && u == traj[i].control
        && loggedValues == traj[i].aux
        && (i + 1 < |timeList| ==> next == traj[i + 1].state)
    {
      TrajectoryStep(sys, timeStep, x0, timeList, i);
      var t_i := timeList[i];
      if lawTimeVariant {
        u := controller.eval(x, Some(t_i));
      } else {
        u := controller.eval(x, None);
      }
      if i < |timeList| - 1 {
        var step := Rk4(dynamics.eval, timeStep, x, u, t_i, eomTimeVariant);
        next, loggedValues := step.0, step.1;
      } else {
        var step := Rk4(dynamics.eval, timeStep, x, u, t_i, eomTimeVariant);
        next, loggedValues := x, step.1;
      }
    }

    /**
     * The loop of `run`: at each grid point evaluates the controller once,
     * advances the state by one step (except at the last point), and records
     * the step's auxiliary values in a logged buffer allocated at the first
     * point; then concatenates the columns. The three numpy buffers are local
     * sequences the loop rewrites row by row.
     */
    static method Integrate(sys: ClosedLoop, dynamics: Compiled<Eom>, controller: Compiled<ControlLaw>,
                            eomTimeVariant: bool, lawTimeVariant: bool,
                            x0: seq<real>, timeList: seq<real>, timeStep: real)
      returns (r: Result<seq<seq<real>>, SimError>)
      requires sys.WellShaped() && |x0| == sys.numStates && |timeList| >= 1
      requires dynamics.eval == sys.eom && eomTimeVariant == sys.eomTimeVariant
      requires controller.eval == sys.law && lawTimeVariant == sys.lawTimeVariant
      ensures r == Collect(sys, x0, timeList, timeStep)
    {
      var numPts := |timeList|;
      var states := seq(numPts, _ => Zeros(sys.numStates));
      states := states[0 := x0];
      var controls := seq(numPts, _ => Zeros(sys.numControls));
      var loggedSignals: Option<seq<seq<real>>> := None;
      var width: nat := 0;
      ghost var traj := Trajectory(sys, timeStep, x0, timeList);

      for i := 0 to numPts
        invariant |states| == numPts && |controls| == numPts
        invariant forall j :: 0 <= j < i ==> controls[j] == traj[j].control
        invariant forall j :: 0 <= j <= i && j < numPts ==> states[j] == traj[j].state
        invariant loggedSignals.None? <==> i == 0
        invariant loggedSignals.Some? ==>
          && |loggedSignals.value| == numPts
          && width == |traj[0].aux|
          && forall j :: 0 <= j < i ==> FitRow(traj[j].aux, width) == Some(loggedSignals.value[j])
      {
        var u, next, loggedValues := Advance(sys, dynamics, controller, eomTimeVariant, lawTimeVariant,
                                             x0, timeList, timeStep, i, states[i]);
        controls := controls[i := u];
        if i < numPts - 1 {
          states := states[i + 1 := next];
        }

        if loggedSignals.None? {
          width := |loggedValues|;
          loggedSignals := Some(seq(numPts, _ => Zeros(width)));
        }
        var row := FitRow(loggedValues, width);
        if row.None? {
          CollectFailsAt(sys, x0, timeList, timeStep, i);
          return Failure(LoggedWidthMismatch(i, width, |loggedValues|));
        }
        loggedSignals := Some(loggedSignals.value[i := row.value]);
      }

      var logged := loggedSignals.value;
      var data := Concatenate(timeList, states, controls, logged);
      CollectSucceeds(sys, x0, timeList, timeStep, states, controls, logged);
      r := Success(data);
    }
  }

  /**
   * Sample `i` of a trajectory: its time is the grid's, its control is the
   * law evaluated at its own state and time, its auxiliary values are those
   * of its step, and the next sample's state is that step's result.
   */
  lemma {:induction false} TrajectoryStep(sys: ClosedLoop, dt: real, x: seq<real>, ts: seq<real>, i: nat)
    decreases i
    requires sys.WellShaped() && |x| == sys.numStates
    requires i < |ts|
    ensures var s := Trajectory(sys, dt, x, ts);
      && s[0].state == x
      && |s[i].state| == sys.numStates
      && s[i].time == ts[i]
      && s[i].control == sys.law(s[i].state, TimeArg(sys.lawTimeVariant, ts[i]))
      && var step := Simulator.Rk4(sys.eom, dt, s[i].state, s[i].control, ts[i], sys.eomTimeVariant);
         && s[i].aux == step.1
         && (i + 1 < |ts| ==> s[i + 1].state == step.0)
  {
    if i > 0 {
      var u := sys.law(x, TimeArg(sys.lawTimeVariant, ts[0]));
      var step := Simulator.Rk4(sys.eom, dt, x, u, ts[0], sys.eomTimeVariant);
      TrajectoryStep(sys, dt, step.0, ts[1..], i - 1);
    }
  }

  /** Side-by-side concatenation of the time column and the state, control and logged rows. */
  function Concatenate(ts: seq<real>, states: seq<seq<real>>, controls: seq<seq<real>>, logged: seq<seq<real>>)
    : (m: seq<seq<real>>)
    requires |states| == |ts| && |controls| == |ts| && |logged| == |ts|
    ensures |m| == |ts|
    ensures forall i :: 0 <= i < |ts| ==> m[i] == [ts[i]] + states[i] + controls[i] + logged[i]
  {
    seq(|ts|, i requires 0 <= i < |ts| => [ts[i]] + states[i] + controls[i] + logged[i])
  }

  /** The matrix is the concatenation of the rows a run fills, when every logged row fits. */
  lemma CollectSucceeds(sys: ClosedLoop, x0: seq<real>, ts: seq<real>, dt: real,
                        states: seq<seq<real>>, controls: seq<seq<real>>, logged: seq<seq<real>>)
    requires sys.WellShaped() && |x0| == sys.numStates && |ts| >= 1
    requires |states| == |ts| && |controls| == |ts| && |logged| == |ts|
    requires var traj := Trajectory(sys, dt, x0, ts);
      forall j :: 0 <= j < |ts| ==>
        && states[j] == traj[j].state
        && controls[j] == traj[j].control
        && FitRow(traj[j].aux, |traj[0].aux|) == Some(logged[j])
    ensures Collect(sys, x0, ts, dt) == Success(Concatenate(ts, states, controls, logged))
  {
    var traj := Trajectory(sys, dt, x0, ts);
    LoggedRowsAllFit(traj, |traj[0].aux|);
    assert LoggedRows(traj, |traj[0].aux|).value == logged;
    forall j | 0 <= j < |ts|
      ensures Concatenate(ts, states, controls, logged)[j] == Assemble(traj, logged)[j]
    {
      TrajectoryStep(sys, dt, x0, ts, j);
    }
    assert Concatenate(ts, states, controls, logged) == Assemble(traj, logged);
  }

  /** A run fails at the first grid point whose auxiliary vector does not fit the logged width. */
  lemma CollectFailsAt(sys: ClosedLoop, x0: seq<real>, ts: seq<real>, dt: real, k: nat)
    requires sys.WellShaped() && |x0| == sys.numStates && k < |ts|
    requires var traj := Trajectory(sys, dt, x0, ts);
      && (forall j :: 0 <= j < k ==> FitRow(traj[j].aux, |traj[0].aux|).Some?)
      && FitRow(traj[k].aux, |traj[0].aux|).None?
    ensures var traj := Trajectory(sys, dt, x0, ts);
      Collect(sys, x0, ts, dt) == Failure(LoggedWidthMismatch(k, |traj[0].aux|, |traj[k].aux|))
  {
    var traj := Trajectory(sys, dt, x0, ts);
    LoggedRowsFirstMisfit(traj, |traj[0].aux|, k);
  }

  /** The logged rows are exactly the fitted auxiliary vectors when every one fits. */
  lemma {:induction false} LoggedRowsAllFit(samples: seq<Sample>, width: nat)
    requires forall j :: 0 <= j < |samples| ==> FitRow(samples[j].aux, width).Some?
    ensures LoggedRows(samples, width).Success?
    ensures forall j :: 0 <= j < |samples| ==>
      LoggedRows(samples, width).value[j] == FitRow(samples[j].aux, width).value
  {
    if samples != [] {
      LoggedRowsAllFit(samples[1..], width);
    }
  }

  /** The logged rows fail at index `k` when the rows before it fit and row `k` does not. */
  lemma {:induction false} LoggedRowsFirstMisfit(samples: seq<Sample>, width: nat, k: nat)
    requires k < |samples|
    requires forall j :: 0 <= j < k ==> FitRow(samples[j].aux, width).Some?
    requires FitRow(samples[k].aux, width).None?
    ensures LoggedRows(samples, width) == Failure(k)
  {
    if k > 0 {
      LoggedRowsFirstMisfit(samples[1..], width, k - 1);
    }
  }
}
