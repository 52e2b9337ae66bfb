/**
 * The model and controller bookkeeping of `dynamics/dynamics.py`: name lists,
 * the counts derived from them, the time-variance flag and its `t` symbol,
 * initial-condition padding, and the parameter lists the compiled closures
 * are built over.
 *
 * The symbolic equations themselves are not modelled: a model contributes its
 * equations of motion already as a numeric function `Eom`, a controller its
 * control law as a `ControlLaw`.
 */
module Dynamics {
  import opened Wrappers
  import opened Vectors

  /** A sympy symbol: its name, and whether it was created with `real=True`. */
  datatype Symbol = Symbol(name: string, isReal: bool)

  /** `sp.symbols('t')`, the time symbol of a time-variant system. */
  const TimeSymbol: Symbol := Symbol("t", false)

  /** One symbol per name, in the same order (`[sp.symbols(x) for x in names]`). */
  function Symbols(names: seq<string>, isReal: bool): (syms: seq<Symbol>)
    ensures |syms| == |names|
    ensures forall i :: 0 <= i < |names| ==> syms[i].name == names[i] && syms[i].isReal == isReal
  {
    if names == [] then [] else [Symbol(names[0], isReal)] + Symbols(names[1..], isReal)
  }

  /**
   * The numeric equations of motion: states, inputs and, for a time-variant
   * model only, the time; they give the state derivatives and the auxiliary
   * (logged) values.
   */
  type Eom = (seq<real>, seq<real>, Option<real>) -> (seq<real>, seq<real>)

  /** The numeric control law: states and, for a time-variant controller only, the time. */
  type ControlLaw = (seq<real>, Option<real>) -> seq<real>

  /**
   * One entry of the parameter list handed to lambdify: a scalar symbol takes
   * one positional argument; a nested list of symbols takes one argument that
   * is unpacked into them.
   */
  datatype Param = Scalar(sym: Symbol) | Unpack(syms: seq<Symbol>)

  /** One positional argument at a call of a compiled closure: a number or a vector. */
  datatype Arg = Num(num: real) | Vec(values: seq<real>)

  /** A compiled closure: the parameter list it was built over and what it evaluates. */
  datatype Compiled<F> = Compiled(params: seq<Param>, eval: F)

  /**
   * Whether a call with positional arguments `args` binds to the parameters:
   * Python demands exactly one argument per parameter, and an unpacked
   * parameter demands a vector of exactly as many values as it has symbols. A
   * vector given to a scalar parameter binds (numpy evaluates it elementwise).
   */
  predicate Binds(params: seq<Param>, args: seq<Arg>) {
    |params| == |args| &&
    forall i :: 0 <= i < |params| && params[i].Unpack? ==>
      args[i].Vec? && |args[i].values| == |params[i].syms|
  }

  /** A closure compiled over scalar parameters only takes exactly one argument per parameter, of any kind. */
  lemma BindsScalars(params: seq<Param>, args: seq<Arg>)
    requires forall i :: 0 <= i < |params| ==> params[i].Scalar?
    ensures Binds(params, args) <==> |args| == |params|
  {
  }

  /**
   * A leading unpacked parameter takes exactly a vector of as many values as
   * it has symbols, and the remaining arguments bind to the remaining
   * parameters.
   */
  lemma BindsUnpacked(syms: seq<Symbol>, rest: seq<Param>, arg: Arg, args: seq<Arg>)
    ensures Binds([Unpack(syms)] + rest, [arg] + args) <==>
            arg.Vec? && |arg.values| == |syms| && Binds(rest, args)
  {
    var ps, given := [Unpack(syms)] + rest, [arg] + args;
    assert forall i :: 0 <= i < |rest| ==> ps[i + 1] == rest[i];
    assert forall i :: 0 <= i < |args| ==> given[i + 1] == args[i];
    if Binds(ps, given) {
      assert ps[0].Unpack?;
      forall i | 0 <= i < |rest| && rest[i].Unpack?
        ensures args[i].Vec? && |args[i].values| == |rest[i].syms|
      {
        assert ps[i + 1].Unpack?;
      }
    }
  }

  /** Each symbol as its own positional parameter (Python's `*syms`). */
  function ScalarParams(syms: seq<Symbol>): (ps: seq<Param>)
    ensures |ps| == |syms|
    ensures forall i :: 0 <= i < |syms| ==> ps[i] == Scalar(syms[i])
  {
    seq(|syms|, i requires 0 <= i < |syms| => Scalar(syms[i]))
  }

  /** Each value as its own positional argument (Python's `*v`). */
  function Splat(v: seq<real>): (args: seq<Arg>)
    ensures |args| == |v|
    ensures forall i :: 0 <= i < |v| ==> args[i] == Num(v[i])
  {
    seq(|v|, i requires 0 <= i < |v| => Num(v[i]))
  }

  /**
   * The parameter list of the compiled equations of motion: every state
   * symbol, then every input symbol, then `t` for a time-variant model.
   */
  function EomParams(stateSym: seq<Symbol>, inputSym: seq<Symbol>, timeVariant: bool): (ps: seq<Param>)
    ensures |ps| == |stateSym| + |inputSym| + (if timeVariant then 1 else 0)
    ensures forall i :: 0 <= i < |stateSym| ==> ps[i] == Scalar(stateSym[i])
    ensures forall j :: 0 <= j < |inputSym| ==> ps[|stateSym| + j] == Scalar(inputSym[j])
    ensures timeVariant ==> ps[|stateSym| + |inputSym|] == Scalar(TimeSymbol)
    ensures forall i :: 0 <= i < |ps| ==> ps[i].Scalar?
  {
    ScalarParams(stateSym) + ScalarParams(inputSym) + (if timeVariant then [Scalar(TimeSymbol)] else [])
  }

  /**
   * The parameter list of the compiled controller: one unpacked state vector
   * and `t` for a time-variant controller, otherwise each state symbol as its
   * own scalar parameter.
   */
  function ControllerParams(dynamicStates: seq<Symbol>, timeVariant: bool): (ps: seq<Param>)
    ensures timeVariant ==> |ps| == 2 && ps[0] == Unpack(dynamicStates) && ps[1] == Scalar(TimeSymbol)
    ensures !timeVariant ==> |ps| == |dynamicStates|
    ensures !timeVariant ==> forall i :: 0 <= i < |dynamicStates| ==> ps[i] == Scalar(dynamicStates[i])
  {
    if timeVariant then [Unpack(dynamicStates), Scalar(TimeSymbol)] else ScalarParams(dynamicStates)
  }

  /** The bookkeeping `AbstractDynamics` keeps: state names and symbols, time variance, logged names. */
  datatype Dynamics = Dynamics(
    loggedVars: seq<string>,
    stateStr: seq<string>,
    stateSym: seq<Symbol>,
    numStates: nat,
    timeVariant: bool,
    t: Option<Symbol>)
  {
    ghost predicate Valid() {
      && stateSym == Symbols(stateStr, false)
      && numStates == |stateSym|
      && t == (if timeVariant then Some(TimeSymbol) else None)
    }
  }

  /** `AbstractDynamics.__init__`: no logged names yet, and a `t` symbol exactly when time-variant. */
  function NewDynamics(states: seq<string>, timeVariant: bool): (d: Dynamics)
    ensures d.Valid()
    ensures d.loggedVars == []
    ensures d.stateStr == states && d.numStates == |states|
    ensures forall i :: 0 <= i < |states| ==> d.stateSym[i].name == states[i]
    ensures d.timeVariant == timeVariant
    ensures d.t.Some? <==> timeVariant
  {
    var syms := Symbols(states, false);
    Dynamics([], states, syms, |syms|, timeVariant, if timeVariant then Some(TimeSymbol) else None)
  }

  /**
   * The initial conditions a model keeps: `num_states` zeros, with the first
   * `len(ic)` of them replaced by a non-empty supplied vector `ic`.
   */
  function PaddedInitialConditions(numStates: nat, ic: Option<seq<real>>): (x0: seq<real>)
    requires ic.Some? ==> |ic.value| <= numStates
    ensures |x0| == numStates
    ensures ic.Some? ==> x0[..|ic.value|] == ic.value
    ensures forall i :: 0 <= i < numStates && (ic.None? || |ic.value| <= i) ==> x0[i] == 0.0
  {
    match ic
    case None => Zeros(numStates)
    case Some(v) => v + Zeros(numStates - |v|)
  }

  /** `AbstractDynamicController`: the controller's output names besides the shared bookkeeping. */
  class Controller {
    var dyn: Dynamics
    var outputsStr: seq<string>
    var outputsSym: seq<Symbol>
    var numOutputs: nat
    /** The control law, as the numeric function its compilation yields. */
    const law: ControlLaw

    ghost predicate Valid()
      reads this
    {
      && dyn.Valid()
      && outputsSym == Symbols(outputsStr, false)
      && numOutputs == |outputsSym|
    }

    constructor (outputs: seq<string>, states: seq<string>, law: ControlLaw, timeVariant: bool := false)
      ensures Valid()
      ensures dyn == NewDynamics(states, timeVariant)
      ensures outputsStr == outputs && numOutputs == |outputs|
      ensures this.law == law
    {
      dyn := NewDynamics(states, timeVariant);
      outputsStr := outputs;
      outputsSym := Symbols(outputs, false);
      numOutputs := |outputs|;
      this.law := law;
    }

    /** `get_compiled_controller`: the law, compiled over the given state symbols. */
    function GetCompiledController(dynamicStates: seq<Symbol>): (c: Compiled<ControlLaw>)
      reads this
      ensures c.params == ControllerParams(dynamicStates, dyn.timeVariant)
      ensures c.eval == law
    {
      Compiled(ControllerParams(dynamicStates, dyn.timeVariant), law)
    }
  }

  /** `AbstractDynamicModel`: input names and initial conditions besides the shared bookkeeping. */
  class Model {
    var dyn: Dynamics
    var inputStr: seq<string>
    var inputSym: seq<Symbol>
    var numInputs: nat
    var initialConditions: seq<real>
    /** The equations of motion, as the numeric function their compilation yields. */
    const equations: Eom

    ghost predicate Valid()
      reads this
    {
      && dyn.Valid()
      && inputSym == Symbols(inputStr, true)
      && numInputs == |inputSym|
      && |initialConditions| == dyn.numStates
    }

    constructor (inputs: seq<string>, states: seq<string>, equations: Eom,
                 initialConditions: Option<seq<real>> := None, timeVariant: bool := false)
      requires initialConditions.Some? ==> |initialConditions.value| <= |states|
      ensures Valid()
      ensures dyn == NewDynamics(states, timeVariant)
      ensures inputStr == inputs && numInputs == |inputs|
      ensures this.initialConditions == PaddedInitialConditions(|states|, initialConditions)
      ensures this.equations == equations
    {
      dyn := NewDynamics(states, timeVariant);
      inputStr := inputs;
      inputSym := Symbols(inputs, true);
      numInputs := |inputs|;
      var ic := Zeros(|states|);
      if initialConditions.Some? && initialConditions.value != [] {
        var supplied := initialConditions.value;
        ic := supplied + ic[|supplied|..];
      }
      assert ic == PaddedInitialConditions(|states|, initialConditions);
      this.initialConditions := ic;
      this.equations := equations;
    }

    /** A concrete model naming its auxiliary signals (what a subclass assigns to `_logged_vars`). */
    method DeclareLoggedVars(names: seq<string>)
      requires Valid()
      modifies this`dyn
      ensures Valid()
      ensures dyn == old(dyn).(loggedVars := names)
    {
      dyn := dyn.(loggedVars := names);
    }

    /** `get_compiled_eom`: the equations, compiled over states, then inputs, then `t`. */
    function GetCompiledEom(): (c: Compiled<Eom>)
      reads this
      ensures c.params == EomParams(dyn.stateSym, inputSym, dyn.timeVariant)
      ensures c.eval == equations
    {
      Compiled(EomParams(dyn.stateSym, inputSym, dyn.timeVariant), equations)
    }
  }
}
