# Stichotrope performance workloads, modelled in Dafny

Stichotrope is an explicit-instrumentation profiler for Python. Its
performance tests run a fixed set of workloads under measurement, and those
workloads live in `tests/performance/workloads.py`. This project models that
module and proves what its functions compute:

- `cpu_intensive_work`: an accumulate-and-reduce loop over the squares of
  `range(iterations)`, kept below one million.
- `nested_function_calls`: a linear recursion with a closed form.
- `mixed_workload`: a sleep followed by the CPU loop, returning `(None, cpu_result)`.
- `WorkloadMultiplier`: a callable that runs a workload `multiplier` times with
  the same arguments and returns the last result.
- `create_workload_variants`: a dictionary of multipliers keyed `"x<m>"`.
- The `WORKLOAD_SCENARIOS` table with `get_workload_scenario` and `get_all_scenarios`.

Files:

- `wrappers.dfy` (module `Wrappers`): `Option` for Python's `None`, and
  `Result`/`Outcome` for an exception raised instead of a return.
- `py_int.dfy` (module `PyInt`): Python's `str(int)`, which the f-string
  `f"x{mult}"` uses, with its parser as inverse. The round trip makes the
  variant keys injective.
- `workloads.dfy` (module `Workloads`): the workload module itself.

Modelling choices:

- A workload callable is run for its effects, such as sleeping or touching a
  profiler. It is modelled as a function `(S, A) -> (S, R)`: from the state `S`
  it affects and its arguments `A`, it gives the next state and its return
  value. `Repeated(f, args, s, k)` is `k` calls in a row. With it, "called
  exactly `k` times with the same arguments" becomes a statement about the
  final state.
- `WorkloadMultiplier` never changes its two fields after `__init__`, so it is
  a datatype and not a class. `__call__` is its method `Call`, a `while` loop
  like the source's `for` over `range(self.multiplier)`. The constructor's
  `multiplier` defaults to 1, as in the source.
- Python dictionaries keep insertion order, and `get_all_scenarios` depends
  on it. So `WORKLOAD_SCENARIOS` is a sequence of (key, entry) pairs, and a
  lookup that misses yields `KeyError` as a `Result` failure.
- `simulate_work` exists to use up `duration_ms` of wall-clock time, which
  the performance tests measure. Apart from the time it takes, which is not
  modelled, its only observable effect is the `ValueError` that `time.sleep`
  raises for a negative length. `SimulateWork` keeps that error, and
  `mixed_workload` reports it as a failure.
- The Python default arguments (1000 iterations, depth 5, 1.0 ms and 100
  iterations, `None` multipliers) are Dafny default parameter values.
- Python integers are unbounded, like Dafny's `int`. The source has no
  wrap-around to model.

## Model

| member | source | states |
|---|---|---|
| `Workloads.CpuIntensiveWork` | tests/performance/workloads.py:22-36 | The result is always in `[0, 1000000)`. It is 0 when `iterations <= 0`, because the loop never runs. Otherwise it is the sum of `i*i` over `range(iterations)`, reduced modulo 1000000 once at the end. The loop reduces after every step, and its invariant proves that this gives the same residue. |
| `Workloads.SumOfSquaresClosedForm` | tests/performance/workloads.py:33-34 | The unreduced total of the loop has a closed form: six times the sum of squares below `n` is `(n-1)*n*(2n-1)`. |
| `Workloads.ReduceEachStep` | tests/performance/workloads.py:34-35 | Reducing the running sum before adding the next square does not change the residue modulo 1000000. |
| `Workloads.DefaultCpuResult` | tests/performance/workloads.py:22-36 | With the default 1000 iterations, `cpu_intensive_work()` returns 833500. |
| `Workloads.NestedFunctionCalls` | tests/performance/workloads.py:39-51 | The result is 1 for `depth <= 0`, and `1 + depth*(depth+1)/2` for `depth >= 0`, so never below 1. The recursion terminates because `depth` decreases towards 0. |
| `Workloads.SimulateWork` | tests/performance/workloads.py:12-19 | `simulate_work` raises the sleep's `ValueError` exactly when `duration_ms < 0`, and otherwise returns normally. |
| `Workloads.MixedWorkload` | tests/performance/workloads.py:54-67 | `mixed_workload` fails with the sleep's `ValueError` exactly when `duration_ms < 0`. Otherwise it returns `(None, c)`, where `c` is what `cpu_intensive_work(cpu_iterations)` returns (in range, same residue). Apart from the time it takes, which is not modelled, the sleep at lines 12-19 has only one observable effect, the `ValueError` for a negative length. It has no effect on `c`. |
| `Workloads.WorkloadMultiplier.Call` | tests/performance/workloads.py:88-98 | Calling a multiplier has the effect and result of running its workload `max(multiplier, 0)` times in a row with the same arguments, from the caller's state. The model's `None` means that the workload never ran, which happens exactly when `multiplier <= 0`. Otherwise the result is `Some` of the last call's result. |
| `Workloads.RepeatedInvokesExactly` | tests/performance/workloads.py:95-97 | Take a workload that logs each call's arguments. After `k` repetitions the log has grown by exactly `k` copies of the same arguments, so the workload ran `k` times, each time with those arguments. |
| `Workloads.RepeatedComposes` | tests/performance/workloads.py:95-98 | Running `a` times and then `b` times has the same effect as running `a + b` times. When `b > 0` the result is also the same, namely the last call's. |
| `Workloads.RepeatedLastResult` | tests/performance/workloads.py:95-98 | Take a workload whose result does not depend on the state. A repetition returns that result when it ran at least once, and `None` when it never ran. |
| `Workloads.CreateWorkloadVariants` | tests/performance/workloads.py:101-120 | `None` for multipliers means `[1, 10, 100]`. The key set is exactly `{"x" + str(m) : m in multipliers}`. Each key `"x" + str(m)` maps to a `WorkloadMultiplier` over the base workload with multiplier `m`, so a repeated multiplier overwrites its earlier entry with an equal one. |
| `Workloads.VariantName` | tests/performance/workloads.py:118 | The key `f"x{mult}"` is `x` followed by the text of an integer, and reading that text back gives `mult`. |
| `Workloads.VariantNameInjective` | tests/performance/workloads.py:118 | Distinct multipliers never share a key `f"x{mult}"`. |
| `Workloads.DefaultVariantNames` | tests/performance/workloads.py:114-118 | The default variants are keyed exactly `"x1"`, `"x10"` and `"x100"`. |
| `PyInt.NatToDecimal` | tests/performance/workloads.py:118 | `str` of a non-negative integer is non-empty and made of decimal digits only. It starts with `0` only for zero. |
| `PyInt.Str` | tests/performance/workloads.py:118 | `str(i)` is an optional minus sign followed by decimal digits. The sign is there exactly when `i < 0`. |
| `PyInt.DecimalRoundTrip` | tests/performance/workloads.py:118 | Reading back the digits of `n` gives `n`. |
| `PyInt.StrRoundTrip` | tests/performance/workloads.py:118 | `int(str(i)) == i` for every integer `i`, negative ones included. |
| `PyInt.StrInjective` | tests/performance/workloads.py:118 | `str(i) == str(j)` implies `i == j`. |
| `Workloads.Keys` | tests/performance/workloads.py:171 | `list(d.keys())` has one element per entry, and each is that entry's key, in insertion order. |
| `Workloads.Lookup` | tests/performance/workloads.py:161 | A dictionary lookup succeeds exactly when the key is among the dictionary's keys. It then returns the value stored under that key. Otherwise it fails with `KeyError(key)`. The dictionary's keys are distinct, as in any Python `dict`. |
| `Workloads.GetWorkloadScenario` | tests/performance/workloads.py:148-161 | `get_workload_scenario(name)` succeeds exactly for `"tiny"`, `"small"`, `"medium"` and `"large"`. The entry returned is the one the table stores under that name. Any other name fails with `KeyError(name)`. |
| `Workloads.GetAllScenarios` | tests/performance/workloads.py:164-171 | `get_all_scenarios()` is exactly `["tiny", "small", "medium", "large"]`, in the table's insertion order. |
| `Workloads.ListedScenariosResolve` | tests/performance/workloads.py:124-171 | A name can be looked up exactly when `get_all_scenarios()` lists it. |
| `Workloads.ScenarioNamesDistinct` | tests/performance/workloads.py:124-145 | The listed scenario names are pairwise distinct. |
| `Workloads.ScenarioDurations` | tests/performance/workloads.py:124-145 | The `duration_ms` of `"tiny"`, `"small"`, `"medium"` and `"large"` are 0.1, 1.0, 10.0 and 100.0. |
| `Workloads.ScenarioLabels` | tests/performance/workloads.py:124-145 | The `name` and `description` of each of the four scenarios are the texts in the table, for example `"Tiny blocks (0.1ms)"`. |

## Left out

- The profiling engine (`Profiler`, blocks, tracks, the call-site cache, the enable gates, the per-thread merge) is not part of this model. Only the workload module is modelled.
- Workloads.MixedWorkload: the passing of time during `simulate_work` is not modelled; only the `ValueError` for a negative length is. `time.sleep`'s `OverflowError` for lengths too large for the platform is left out, and so is NaN, which reals do not have.
- Workloads.SimulateWork: the elapsed time, `duration_ms` milliseconds of sleep, is not modelled, although it is the reason the function exists and what its callers measure. Durations are reals, not floats. For a negative `duration_ms` so small in magnitude that `duration_ms / 1000.0` underflows to `-0.0`, CPython's sleep returns normally, while the model reports the `ValueError`.
- Workloads.NestedFunctionCalls: Python's recursion limit is not modelled. CPython raises `RecursionError` for depths near its default limit of 1000, and the model returns the closed-form value for every depth.
- Workloads.WorkloadMultiplier.Call: a workload that raises is not modelled. In the source the exception escapes `__call__` and the remaining repetitions do not run. Positional and keyword arguments are collapsed into a single argument value `A`. The model's `Option` tells "never ran" (`None`) apart from "ran and returned `None`". A workload whose own result is Python's `None`, such as a sleep, appears as `Some(())`. In Python both cases read as `None`.
- Workloads.GetWorkloadScenario: returns a copy of the entry. The source returns the table's own dictionary object, so a caller who mutates it changes later lookups; that aliasing is not modelled.
- PyInt.Str: CPython refuses to convert an integer of more than 4300 digits to text by default and raises `ValueError`. The model renders every integer, so `PyInt.StrRoundTrip` holds for all of them, and `Workloads.CreateWorkloadVariants` returns a map where CPython would raise at `f"x{mult}"` for such a multiplier.
- Workloads.CreateWorkloadVariants: the result is a Dafny `map`, which has no order. The insertion order of the returned Python `dict` (the order of the multipliers, first occurrence first) is not modelled.
- Dynamic typing is not modelled: every argument has its declared type (for example, a float `iterations` would make `range` raise `TypeError`).
