# A verified model of the me533 simulation engine

This project models the generic simulation engine of the `me533` repository in Dafny.
It covers the simulator in `simulator.py` and the model and controller bookkeeping in `dynamics/dynamics.py`.

A run works like this:
- A *model* declares named states and inputs, whether it is time-variant, and its equations of motion.
- A *controller* declares named outputs and a control law.
- `Simulator.run` builds a uniform time grid.
- At each grid point it evaluates the controller once. It then advances the state by one classic fourth-order Runge-Kutta step, with the control held over all four stages. At the last point it does not advance the state.
- It records the step's auxiliary ("logged") vector.
- It concatenates `[time | states | controls | logged]` into a matrix, stores it as the last result, and returns it with a label list.

The symbolic layer (sympy expressions compiled by `lambdify`) is not modelled. A model contributes its compiled equations of motion as a numeric function `Eom(x, u, t?) -> (derivative, aux)`. A controller contributes its law as `ControlLaw(x, t?) -> u`. The time argument is `Some(t)` only for a time-variant closure (`Simulation.TimeArg`). What the model does keep of compilation is the parameter list each closure is built over (`Dynamics.EomParams`, `Dynamics.ControllerParams`). `CallShape` checks the calls in `simulator.py` against those lists.

The source's default arguments are Dafny default parameter values: `Run`'s grid `0.0`, `1.0`, `100`; `Rk4`'s `timeVariant := false`; the constructors' `timeVariant := false` and `initialConditions := None`. `states` and `timeVariant`, which the source takes through `**kwargs`, are ordinary parameters here: `states` follows the name list, the closure follows `states`, `initialConditions` follows the closure, and `timeVariant` comes last.

Files:
- `wrappers.dfy`: `Option` and `Result`.
- `vectors.dfy`: the numpy elementwise operations.
- `dynamics.dfy`: `AbstractDynamics` and its two subclasses.
  - The shared bookkeeping is a `Dynamics` datatype, held in a `dyn` field.
  - `AbstractDynamicController` is the class `Controller`; `AbstractDynamicModel` is the class `Model`.
- `simulator.dfy`: the specification functions and the simulator.
  - The specification functions are `Linspace`, `Trajectory`, `FitRow`, `LoggedRows`, `Collect` and `Simulate`.
  - The class `Simulator` holds `Run`, its loop (`Execute`, `Integrate`, `Advance`) and the step `Rk4`.
- `simulation_properties.dfy`: what a run guarantees.
  - the grid;
  - the shape of the matrix;
  - the row recurrences;
  - exactly when a run fails;
  - label alignment.
- `rk4_properties.dfy`: what one step is, component by component, and its behaviour on the following systems:
  - rest points;
  - linear systems;
  - state-independent fields (Simpson's rule).
- `call_shape.dfy`: the two argument-shape findings below.

How the model follows the code at its edges:
- **Logged widths.** The first step's auxiliary length fixes the logged width, as the code does. A later auxiliary vector is accepted when numpy's row assignment accepts it: the same length, or length one (broadcast). Any other length stops the run with `LoggedWidthMismatch`, which models numpy's `ValueError`.
- **Too few points.** A run with fewer than two points is modelled as `Failure(TooFewPoints)`, since `time_list[1]` does not exist. The three grid fields have already been overwritten by then, as in the code.
- **Control columns.** There are as many control columns as the model has inputs (`num_controls = num_inputs`), not as many as the controller has outputs. `LabelsMatchColumns` states when the labels still line up with the columns.

## Model

| member | source | states |
|---|---|---|
| Dynamics.Symbols | dynamics/dynamics.py:12 | one symbol per name, same order, same realness flag |
| Dynamics.NewDynamics | dynamics/dynamics.py:8-15 | no logged names; states kept; `num_states = len(states)`; `t` present iff time-variant |
| Dynamics.PaddedInitialConditions | dynamics/dynamics.py:83-85 | length `num_states`; supplied prefix kept; every other entry is 0, and all of them are 0 when nothing is supplied |
| Dynamics.Model.constructor | dynamics/dynamics.py:76-85 | defaults: no initial conditions, time-invariant; bookkeeping as `NewDynamics`; `num_inputs = len(inputs)`; initial conditions padded by in-place slice assignment over a zero list |
| Dynamics.Controller.constructor | dynamics/dynamics.py:44-49 | time-invariant by default; bookkeeping as `NewDynamics`; `num_outputs = len(outputs)` |
| Dynamics.Model.DeclareLoggedVars | dynamics/dynamics.py:10 | only `logged_vars` changes, the invariant is kept |
| Dynamics.EomParams | dynamics/dynamics.py:106-118 | compiled over every state symbol, then every input symbol, then `t` iff time-variant, all scalar |
| Dynamics.ControllerParams | dynamics/dynamics.py:66-71 | time-variant: one unpacked state vector then `t`; otherwise one scalar per state symbol |
| Dynamics.Model.GetCompiledEom | dynamics/dynamics.py:106-118 | parameter list is `EomParams` of the model's symbols; evaluates the model's equations |
| Dynamics.Controller.GetCompiledController | dynamics/dynamics.py:66-71 | parameter list is `ControllerParams` of the given symbols; evaluates the law |
| Dynamics.BindsScalars | simulator.py:88-91 | against scalar parameters only, a positional call binds iff it has exactly one argument per parameter (`Dynamics.Binds`) |
| Dynamics.BindsUnpacked | dynamics/dynamics.py:68 | a leading unpacked parameter binds iff its argument is a vector of as many values as it has symbols and the rest binds (`Dynamics.Binds`) |
| Dynamics.Splat | simulator.py:82 | `*v`: one numeric argument per component, in order |
| Vectors.Zeros | simulator.py:39 | `np.zeros(n)`: length `n`, every entry 0 |
| Vectors.Add | simulator.py:93 | elementwise sum |
| Vectors.Scale | simulator.py:89 | `np.multiply(k, a)`: every entry times `k` |
| Simulation.TimeArg | simulator.py:48-51 | the time is passed iff the closure is time-variant |
| Simulation.Linspace | simulator.py:35 | `num` points starting at `t_start` (a single point is `[t_start]`) |
| Simulation.FitRow | simulator.py:72 | row assignment succeeds iff the length equals the width or is 1; copies, or broadcasts the one value |
| Simulation.Labels | simulator.py:22-24 | `"Time [s]"`, then state names, controller output names, logged names, each at its own offset |
| Simulation.Trajectory | simulator.py:47-68 | one sample per grid point (what each sample holds is stated by `TrajectoryStep`) |
| Simulation.LoggedRows | simulator.py:70-72 | as many rows as samples, or the index of a sample that does not fit (which rows, by `LoggedRowsFit` and `LoggedRowsFailure`) |
| Simulation.Row | simulator.py:74 | `1 + n + m + W` columns, time first (the blocks by `RowColumns`) |
| Simulation.Assemble | simulator.py:74 | one row per sample; row i is `Row` of sample i and logged row i |
| Simulation.Collect | simulator.py:39-74 | one row per grid point on success; a failure is always a logged-width mismatch (contents by `CollectRows`, `CollectSucceedsIff`) |
| Simulation.Simulate | simulator.py:30-76 | fails with `TooFewPoints` iff fewer than two points; `num_pts` rows on success (contents by the `SimulationProperties` lemmas) |
| Simulation.Simulator.LastSimLabels | simulator.py:22-24 | `"Time [s]"`, then exactly the model's state names, the controller's output names and the model's logged names, block by block |
| Simulation.Simulator.constructor | simulator.py:7-20 | keeps model and controller; sizes from the model; grid defaults 0.0, 1.0, 100; no last result |
| Simulation.Simulator.Rk4 | simulator.py:79-93 | time-invariant by default; next state has the state's length; auxiliary vector is stage 1's at the unperturbed state |
| Simulation.Simulator.Run | simulator.py:30-76 | defaults `0.0`, `1.0`, `100`; stores the three grid fields; result equals `Simulate` of the closed loop; on success `last_sim` is the matrix and labels are `last_sim_labels`; on failure `last_sim` unchanged |
| Simulation.Simulator.Execute | simulator.py:35-38 | fewer than two points fail with `TooFewPoints`; otherwise the loop over `linspace` with `dt = t[1] - t[0]`; equals `Simulate` |
| Simulation.Simulator.Advance | simulator.py:47-68 | control = law at the loop's state; logged = the step's aux; next state = the step's, before the last point |
| Simulation.Simulator.Integrate | simulator.py:39-74 | the loop and the concatenation compute `Collect`: the matrix, or the first logged-width mismatch |
| Simulation.TrajectoryStep | simulator.py:47-68 | sample i: grid time, law at its state, aux and next state from one `Rk4` step |
| Simulation.Concatenate | simulator.py:74 | row i is `[t_i] ++ states[i] ++ controls[i] ++ logged[i]` |
| Simulation.CollectSucceeds | simulator.py:74 | rows filled as the loop fills them concatenate to the specified matrix |
| Simulation.CollectFailsAt | simulator.py:72 | the first misfitting auxiliary vector decides the failure and its report |
| Simulation.LoggedRowsAllFit | simulator.py:70-72 | all fit: each logged row is its fitted vector |
| Simulation.LoggedRowsFirstMisfit | simulator.py:70-72 | rows before k fit, row k does not: failure at k |
| SimulationProperties.LinspaceEndpoints | simulator.py:35 | first point `t_start`, last `t_end`, `(t[1]-t[0])(n-1) = t_end - t_start` |
| SimulationProperties.LinspaceUniform | simulator.py:35 | consecutive points are `t[1]-t[0]` apart |
| SimulationProperties.LinspaceIncreasing | simulator.py:35 | strictly increasing when `t_start < t_end` |
| SimulationProperties.LinspaceStep | simulator.py:38 | `time_step = (t_end - t_start)/(num_pts - 1)` |
| SimulationProperties.RowColumns | simulator.py:74 | a row's column blocks are time, state, control, logged |
| SimulationProperties.LoggedRowsFit | simulator.py:72 | success: every logged row is its fitted auxiliary vector |
| SimulationProperties.LoggedRowsFailure | simulator.py:72 | failure at k: every earlier vector fits, vector k does not |
| SimulationProperties.LoggedRowsSucceed | simulator.py:70-72 | logged rows succeed iff every auxiliary vector fits |
| SimulationProperties.CollectRows | simulator.py:70-74 | success: width is the first step's aux length; row i is sample i with its fitted vector |
| SimulationProperties.CollectSucceedsIff | simulator.py:70-72 | a collection succeeds iff every step's aux fits the first's length |
| SimulationProperties.FirstAux | simulator.py:70-71 | the first sample's aux length is the logged width |
| SimulationProperties.SimulateShape | simulator.py:35-41 | success: at least 2 points; `num_pts` rows of `1 + n + m + W` columns; time column is the grid |
| SimulationProperties.SimulateRow | simulator.py:74 | row i holds sample i's time, state and control |
| SimulationProperties.SimulateRowLogged | simulator.py:72 | row i's logged columns are sample i's aux, fitted |
| SimulationProperties.SimulateInitialState | simulator.py:39-40 | state row 0 is the initial conditions |
| SimulationProperties.SimulateControls | simulator.py:47-51 | every control row is the law at that row's state, with its time iff time-variant |
| SimulationProperties.SimulateControlAt | simulator.py:47-51 | the same for one row |
| SimulationProperties.SimulateSteps | simulator.py:53-60 | every state row but the first is one `Rk4` step over the grid step from the row before, with its control and time |
| SimulationProperties.SimulateStepAt | simulator.py:53-60 | the same for one row |
| SimulationProperties.SimulateLogged | simulator.py:53-72 | every logged row is stage 1's aux at that row's state, control and time, fitted |
| SimulationProperties.SimulateLoggedAt | simulator.py:62-72 | the same for one row, the last row included |
| SimulationProperties.SimulateSucceeds | simulator.py:35-72 | a run succeeds iff it has at least 2 points and every aux fits the first's length |
| SimulationProperties.SimulateFailure | simulator.py:70-72 | a failing run of at least 2 points names the first misfit, the width and that aux's length |
| SimulationProperties.LabelsMatchColumns | simulator.py:24 | labels are as many as columns iff output names plus logged names equal control plus logged columns |
| Rk4Properties.Rk4Components | simulator.py:79-93 | component j is `x[j] + dt/6 (k1 + 2k2 + 2k3 + k4)[j]`; stages at `x`, `x + dt/2 k1`, `x + dt/2 k2`, `x + dt k3`; times `t`, `t+dt/2`, `t+dt/2`, `t+dt`; same `u` each time |
| Rk4Properties.Rk4TimeInvariant | simulator.py:87-91 | a time-invariant step does not depend on `t` |
| Rk4Properties.Rk4RestPoint | simulator.py:79-93 | a rest point of the held-control system is not moved |
| Rk4Properties.LinearMultiplier | simulator.py:93 | the stage multipliers of `y' = lam y` combine to `1 + z + z²/2 + z³/6 + z⁴/24` |
| Rk4Properties.Rk4Linear | simulator.py:79-93 | on `x' = lam x` a step multiplies by the degree-4 Taylor polynomial of `exp(lam dt)` |
| Rk4Properties.Rk4Simpson | simulator.py:81-85 | on a state-independent time-variant field a step is Simpson's rule |
| CallShape.EomCall | simulator.py:82 | states, then inputs, then `t` iff time-variant, each as one number |
| CallShape.EomArgumentOrder | dynamics/dynamics.py:107-108 | the splatted call binds for every size; each value lands on its own symbol's parameter |
| CallShape.EomStageCallAsWritten | simulator.py:83-85 | time-variant stages 2-4 as written: `[x, u, t]` as two vectors and a number |
| CallShape.EomStageCallAsWrittenBinds | simulator.py:83-85 | that call binds iff the model is time-invariant or `n + m = 2` |
| CallShape.BicycleStageCallFails | simulator.py:83 | 9 states and 4 inputs, time-variant: the written call does not bind, the corrected one does |
| CallShape.ControllerCallAsWritten | simulator.py:48-51 | the state as one vector, then `t` iff time-variant |
| CallShape.ControllerCallAsWrittenBinds | dynamics/dynamics.py:70-71 | that call binds iff the controller is time-variant or `n = 1` |
| CallShape.ControllerCall | simulator.py:48-51 | time-variant: `[x, t]`; otherwise each state as one number |
| CallShape.ControllerCallBinds | dynamics/dynamics.py:66-71 | the corrected call binds for every size, states in symbol order |
| CallShape.BicycleControllerCallFails | simulator.py:51 | 9 states, time-invariant: the written call does not bind, the corrected one does |

## Findings

| source | as written | input that shows it | evidently intended | confidence | as-written member | corrected member |
|---|---|---|---|---|---|---|
| simulator.py:83-85 | time-variant stages 2-4 call `dx_dt(x + ..., u, t + ...)` with three arguments; the closure from dynamics/dynamics.py:108 takes `n + m + 1` scalars | a time-variant model with 9 states and 4 inputs: 3 arguments for 14 parameters, a `TypeError` at stage 2 | splat as stage 1 does: `dx_dt(*(x + ...), *u, t + ...)` | not executed | CallShape.EomStageCallAsWrittenBinds | CallShape.EomArgumentOrder |
| simulator.py:51 | a time-invariant controller is called as `controller(states[i, :])`; the closure from dynamics/dynamics.py:71 takes one scalar per state | a time-invariant controller over 9 states: 1 argument for 9 parameters, a `TypeError` at the first point | `controller(*states[i, :])` | not executed | CallShape.ControllerCallAsWrittenBinds | CallShape.ControllerCallBinds |

The rest of the model applies `Eom` and `ControlLaw` in the corrected shape, as `Simulator.Rk4` and `Simulator.Advance` show. `BicycleStageCallFails` and `BicycleControllerCallFails` are the concrete counterexamples. The shipped bicycle scripts use time-invariant models and a time-variant controller, so they avoid both paths.

## Left out

- Symbolic construction and compilation (`sp.symbols`, `lambdify`, sympy expressions) belong to a foreign library. Compiled closures are given numeric functions. Only their parameter lists are modelled.
- `Dynamics.Symbols` models `sp.symbols(name)` as one symbol per name. It does not model sympy splitting a name that contains commas or spaces into several symbols.
- Floating point is not modelled; the model uses exact `real`. This covers `np.linspace` rounding, non-finite values, and the `O(dt^4)` error bound against `exp(-t)`, which is not provable from this code. `Rk4Properties.Rk4Linear` states the exact per-step polynomial instead.
- The lengths of the derivative and control vectors are requirements (`DerivShape`, `ControlShape` in `ClosedLoop.WellShaped`) rather than modelled numpy errors; this also excludes a length-one derivative or control vector, which numpy would broadcast over the row.
- Simulation.Simulator.Integrate keeps the `states`, `controls` and `logged_signals` numpy buffers as local sequences it rewrites row by row, not as arrays updated in place. Nothing else aliases them, so only the in-place update itself is not modelled.
- The time argument `t_i` is a one-element array in the source, because `time_list` is reshaped to a column. It is modelled as a number.
- Dynamics.Model.constructor requires the supplied initial conditions to be no longer than the state list. Python's slice assignment would lengthen the list instead.
- The `last_sim_data` property only reads `last_sim`, which is a field of the model.
- Negative `num_pts`, where `np.linspace` raises, is modelled as the same `TooFewPoints` failure.
- The accessor properties of `dynamics/dynamics.py` are plain field reads of the `Dynamics`, `Model` and `Controller` records. The abstract `control_law` and `equations_of_motion`, which raise `NotImplementedError`, are the closures themselves.
- `dynamics/bicycle_model.py`, `dynamics/bicycle_model_linearized.py`, `vehicle_model_simulation.py`, `slotine_p7_10.py` and `sympy_tests.py` are not part of this model. They hold concrete physics, driver scripts, printing and plotting. Only the bicycle sizes are used, in `CallShape`.
