/**
 * How `Simulator.rk4` and `Simulator.run` call the compiled closures, set
 * against the parameter lists the closures are compiled over.
 *
 * The equations of motion are compiled over one scalar per state, one per
 * input and, for a time-variant model, `t`; a call binds only with one
 * positional argument per parameter. Stage 1 of `rk4` splats the state and
 * the inputs (`dx_dt(*x, *u, t)`), but stages 2 to 4 of the time-variant
 * branch pass the perturbed state and the inputs as two whole vectors. The
 * time-invariant controller is compiled over one scalar per state but is
 * called with the state as one vector. `EomStageCallAsWritten` and
 * `ControllerCallAsWritten` are the calls as written; `EomCall` and
 * `ControllerCall` are the calls that bind for every size, which is how the
 * rest of the model applies `Eom` and `ControlLaw`.
 */
module CallShape {
  import opened Dynamics

  /** The argument list of an equations-of-motion call that binds: states, inputs, then `t` if time-variant. */
  function EomCall(x: seq<real>, u: seq<real>, t: real, timeVariant: bool): (args: seq<Arg>)
    ensures |args| == |x| + |u| + (if timeVariant then 1 else 0)
    ensures forall i :: 0 <= i < |x| ==> args[i] == Num(x[i])
    ensures forall j :: 0 <= j < |u| ==> args[|x| + j] == Num(u[j])
    ensures timeVariant ==> args[|x| + |u|] == Num(t)
  {
    var xs, us := Splat(x), Splat(u);
    assert forall j :: 0 <= j < |u| ==> (xs + us)[|x| + j] == us[j];
    xs + us + (if timeVariant then [Num(t)] else [])
  }

  /**
   * The corrected call binds to the compiled equations of motion for every
   * size, and hands each state, each input and the time to the parameter of
   * its own symbol.
   */
  lemma EomArgumentOrder(stateSym: seq<Symbol>, inputSym: seq<Symbol>, timeVariant: bool,
                         x: seq<real>, u: seq<real>, t: real)
    requires |x| == |stateSym| && |u| == |inputSym|
    ensures var ps, args := EomParams(stateSym, inputSym, timeVariant), EomCall(x, u, t, timeVariant);
      && Binds(ps, args)
      && (forall i :: 0 <= i < |x| ==> ps[i] == Scalar(stateSym[i]) && args[i] == Num(x[i]))
      && (forall j :: 0 <= j < |u| ==> ps[|x| + j] == Scalar(inputSym[j]) && args[|x| + j] == Num(u[j]))
      && (timeVariant ==> ps[|x| + |u|] == Scalar(TimeSymbol) && args[|x| + |u|] == Num(t))
  {
    var ps, args := EomParams(stateSym, inputSym, timeVariant), EomCall(x, u, t, timeVariant);
    forall j | 0 <= j < |u|
      ensures ps[|x| + j] == Scalar(inputSym[j]) && args[|x| + j] == Num(u[j])
    {
      var k := |stateSym| + j;
      assert ps[k] == Scalar(inputSym[j]);
    }
  }

  /**
   * Stages 2 to 4 of `rk4` as written: the perturbed state and the inputs as
   * two vectors and then `t` in the time-variant branch; both splatted in the
   * time-invariant branch.
   */
  function EomStageCallAsWritten(x: seq<real>, u: seq<real>, t: real, timeVariant: bool): (args: seq<Arg>)
    ensures timeVariant ==> args == [Vec(x), Vec(u), Num(t)]
    ensures !timeVariant ==> args == EomCall(x, u, t, false)
  {
    if timeVariant then [Vec(x), Vec(u), Num(t)] else Splat(x) + Splat(u)
  }

  /**
   * The stage 2 to 4 call as written binds exactly when the model is
   * time-invariant or has two states and inputs together.
   */
  lemma EomStageCallAsWrittenBinds(stateSym: seq<Symbol>, inputSym: seq<Symbol>, timeVariant: bool,
                                   x: seq<real>, u: seq<real>, t: real)
    requires |x| == |stateSym| && |u| == |inputSym|
    ensures Binds(EomParams(stateSym, inputSym, timeVariant), EomStageCallAsWritten(x, u, t, timeVariant))
            <==> !timeVariant || |stateSym| + |inputSym| == 2
  {
    if !timeVariant {
      EomArgumentOrder(stateSym, inputSym, false, x, u, t);
    }
  }

  /** Nine state names and four input names, the sizes of the bicycle models. */
  const BicycleStates: seq<Symbol> := Symbols(["x", "x_dot", "y", "y_dot", "psi", "psi_dot", "X", "Y", "S"], false)
  const BicycleInputs: seq<Symbol> := Symbols(["a_f", "a_r", "d_f", "d_r"], true)

  /** A time-variant model of the bicycle's size cannot take stage 2 of `rk4` as written. */
  lemma BicycleStageCallFails(x: seq<real>, u: seq<real>, t: real)
    requires |x| == 9 && |u| == 4
    ensures !Binds(EomParams(BicycleStates, BicycleInputs, true), EomStageCallAsWritten(x, u, t, true))
    ensures Binds(EomParams(BicycleStates, BicycleInputs, true), EomCall(x, u, t, true))
  {
    EomStageCallAsWrittenBinds(BicycleStates, BicycleInputs, true, x, u, t);
    EomArgumentOrder(BicycleStates, BicycleInputs, true, x, u, t);
  }

  /** The controller call of `run` as written: the state as one vector, and `t` if time-variant. */
  function ControllerCallAsWritten(x: seq<real>, t: real, timeVariant: bool): (args: seq<Arg>)
    ensures |args| == if timeVariant then 2 else 1
    ensures args[0] == Vec(x)
  {
    if timeVariant then [Vec(x), Num(t)] else [Vec(x)]
  }

  /**
   * The controller call as written binds exactly when the controller is
   * time-variant or the model has a single state.
   */
  lemma ControllerCallAsWrittenBinds(dynamicStates: seq<Symbol>, timeVariant: bool, x: seq<real>, t: real)
    requires |x| == |dynamicStates|
    ensures Binds(ControllerParams(dynamicStates, timeVariant), ControllerCallAsWritten(x, t, timeVariant))
            <==> timeVariant || |dynamicStates| == 1
  {
  }

  /** The controller call that binds: the state vector and `t` if time-variant, else each state on its own. */
  function ControllerCall(x: seq<real>, t: real, timeVariant: bool): (args: seq<Arg>)
    ensures timeVariant ==> args == [Vec(x), Num(t)]
    ensures !timeVariant ==> |args| == |x| && forall i :: 0 <= i < |x| ==> args[i] == Num(x[i])
  {
    if timeVariant then [Vec(x), Num(t)] else Splat(x)
  }

  /**
   * The corrected controller call binds to the compiled controller for every
   * size, with the states in the order of the state symbols.
   */
  lemma ControllerCallBinds(dynamicStates: seq<Symbol>, timeVariant: bool, x: seq<real>, t: real)
    requires |x| == |dynamicStates|
    ensures var ps, args := ControllerParams(dynamicStates, timeVariant), ControllerCall(x, t, timeVariant);
      && Binds(ps, args)
      && (!timeVariant ==> forall i :: 0 <= i < |x| ==> ps[i] == Scalar(dynamicStates[i]) && args[i] == Num(x[i]))
  {
  }

  /** A time-invariant controller over the bicycle's nine states cannot take the call as written. */
  lemma BicycleControllerCallFails(x: seq<real>, t: real)
    requires |x| == 9
    ensures !Binds(ControllerParams(BicycleStates, false), ControllerCallAsWritten(x, t, false))
    ensures Binds(ControllerParams(BicycleStates, false), ControllerCall(x, t, false))
  {
    ControllerCallAsWrittenBinds(BicycleStates, false, x, t);
    ControllerCallBinds(BicycleStates, false, x, t);
  }
}
