/**
 * The standard workloads the performance tests of the profiler run under
 * measurement: a CPU-bound arithmetic loop, a linear recursion, a sleep
 * followed by CPU work, a wrapper that repeats a workload a fixed number of
 * times, the family of such wrappers keyed "x<multiplier>", and the table of
 * named block-size scenarios.
 *
 * A workload is an arbitrary Python callable and is run for its effects
 * (sleeping, advancing clocks, touching a profiler). Here a workload is a
 * function `(S, A) -> (S, R)`: given the state `S` of everything it affects
 * and its arguments `A`, it yields the next state and its return value. How
 * often and in what order a workload runs then shows in the final state.
 */
module Workloads {
  import opened Wrappers
  import PyInt

  // ---------------------------------------------------------------------
  // CPU work
  // ---------------------------------------------------------------------

  /** The modulus `cpu_intensive_work` keeps its running result below. */
  const CpuModulus: int := 1000000

  /** `max(n, 0)`: the number of rounds `range(n)` yields. */
  function RangeLength(n: int): nat {
    if n < 0 then 0 else n
  }

  /** 0*0 + 1*1 + ... + (n-1)*(n-1), the unreduced total the loop tracks. */
  function SumOfSquaresBelow(n: nat): nat {
    if n == 0 then 0 else SumOfSquaresBelow(n - 1) + (n - 1) * (n - 1)
  }

  /** The sum of squares below `n` in closed form. */
  lemma {:induction false} SumOfSquaresClosedForm(n: nat)
    ensures 6 * SumOfSquaresBelow(n) == (n - 1) * n * (2 * n - 1)
  {
    if n > 0 {
      SumOfSquaresClosedForm(n - 1);
      var m := n - 1;
      assert 6 * SumOfSquaresBelow(n) == 6 * SumOfSquaresBelow(m) + 6 * (m * m);
      ClosedFormStep(m);
    }
  }

  /** The induction step of the closed form, as a polynomial identity. */
  lemma ClosedFormStep(m: int)
    ensures (m - 1) * m * (2 * m - 1) + 6 * (m * m) == m * (m + 1) * (2 * m + 1)
  {
  }

  /** Reducing the running sum after every step leaves the residue that
      reducing the full sum once would. */
  lemma ReduceEachStep(total: int, term: int)
    ensures (total % CpuModulus + term) % CpuModulus == (total + term) % CpuModulus
  {
  }

  /**
   * `cpu_intensive_work(iterations)`: adds `i * i` for every `i` in
   * `range(iterations)`, reducing modulo one million after each addition.
   */
  method CpuIntensiveWork(iterations: int := 1000) returns (result: int)
    ensures 0 <= result < CpuModulus
    ensures iterations <= 0 ==> result == 0
    ensures result == SumOfSquaresBelow(RangeLength(iterations)) % CpuModulus
  {
    result := 0;
    var i := 0;
    while i < iterations
      invariant 0 <= i <= RangeLength(iterations)
      invariant result == SumOfSquaresBelow(i) % CpuModulus
    {
      ReduceEachStep(SumOfSquaresBelow(i), i * i);
      result := result + i * i;
      result := result % CpuModulus;
      i := i + 1;
    }
  }

  /** With its default argument, `cpu_intensive_work()` returns 833500:
      the squares below 1000 add up to 332833500. */
  lemma DefaultCpuResult()
    ensures SumOfSquaresBelow(RangeLength(1000)) % CpuModulus == 833500
  {
    SumOfSquaresClosedForm(1000);
  }

  // ---------------------------------------------------------------------
  // Nested calls
  // ---------------------------------------------------------------------

  /**
   * `nested_function_calls(depth)`: 1 at depth zero or below, otherwise
   * `depth` plus the value one level down; that is, 1 + depth*(depth+1)/2.
   */
  function NestedFunctionCalls(depth: int := 5): (r: int)
    ensures r >= 1
    ensures depth <= 0 ==> r == 1
    ensures depth >= 0 ==> 2 * r == 2 + depth * (depth + 1)
    decreases RangeLength(depth)
  {
    if depth <= 0 then 1 else depth + NestedFunctionCalls(depth - 1)
  }

  // ---------------------------------------------------------------------
  // Sleeping and the mixed workload
  // ---------------------------------------------------------------------

  /** The exception `time.sleep` raises for a negative duration. */
  datatype SleepError = NegativeSleepLength

  /**
   * `simulate_work(duration_ms)`: sleeps `duration_ms / 1000` seconds.
   * The time it takes is not modelled; what remains is that the sleep
   * refuses a negative length with a `ValueError`, and otherwise returns
   * `None`.
   */
  function SimulateWork(durationMs: real): (r: Outcome<SleepError>)
    ensures r.Fail? <==> durationMs < 0.0
    ensures r.Fail? ==> r.error == NegativeSleepLength
  {
    if durationMs / 1000.0 < 0.0 then Fail(NegativeSleepLength) else Pass
  }

  /**
   * `mixed_workload(duration_ms, cpu_iterations)`: sleeps, then runs the CPU
   * loop, and returns the pair `(None, cpu_result)`; `()` stands for `None`.
   */
  method MixedWorkload(durationMs: real := 1.0, cpuIterations: int := 100)
    returns (r: Result<((), int), SleepError>)
    ensures r.Failure? <==> durationMs < 0.0
    ensures r.Failure? ==> r.error == NegativeSleepLength
    ensures r.Success? ==> 0 <= r.value.1 < CpuModulus
    ensures r.Success? ==> r.value.1 == SumOfSquaresBelow(RangeLength(cpuIterations)) % CpuModulus
  {
    var slept := SimulateWork(durationMs);
    if slept.Fail? {
      return Failure(slept.error);
    }
    var cpuResult := CpuIntensiveWork(cpuIterations);
    r := Success(((), cpuResult));
  }

  // ---------------------------------------------------------------------
  // Repeating a workload
  // ---------------------------------------------------------------------

  /**
   * Running `f` on `args` `count` times in a row from state `s`: the final
   * state and the last return value, `None` when `f` never ran.
   */
  function Repeated<S, A, R>(f: (S, A) -> (S, R), args: A, s: S, count: nat): (S, Option<R>) {
    if count == 0 then (s, None)
    else
      var before := Repeated(f, args, s, count - 1).0;
      var (after, r) := f(before, args);
      (after, Some(r))
  }

  /** A workload that logs each invocation's arguments, applied `count`
      times, logs `args` exactly `count` times and nothing else. */
  lemma {:induction false} RepeatedInvokesExactly<A, R>(f: (seq<A>, A) -> (seq<A>, R), args: A, log: seq<A>, count: nat)
    requires forall l, a :: f(l, a).0 == l + [a]
    ensures Repeated(f, args, log, count).0 == log + seq(count, _ => args)
  {
    if count > 0 {
      RepeatedInvokesExactly(f, args, log, count - 1);
      var before := Repeated(f, args, log, count - 1).0;
      assert f(before, args).0 == before + [args];
      assert seq(count - 1, _ => args) + [args] == seq(count, _ => args);
    }
  }

  /** Running `a` times and then `b` times is running `a + b` times; when
      the second run is not empty its result is the overall result. */
  lemma {:induction false} RepeatedComposes<S, A, R>(f: (S, A) -> (S, R), args: A, s: S, a: nat, b: nat)
    ensures Repeated(f, args, s, a + b).0 == Repeated(f, args, Repeated(f, args, s, a).0, b).0
    ensures b > 0 ==> Repeated(f, args, s, a + b).1 == Repeated(f, args, Repeated(f, args, s, a).0, b).1
  {
    if b > 0 {
      RepeatedComposes(f, args, s, a, b - 1);
    }
  }

  /** A workload whose result depends on its arguments alone returns that
      result from any non-empty repetition, and `None` from an empty one. */
  lemma {:induction false} RepeatedLastResult<S, A, R>(f: (S, A) -> (S, R), args: A, s: S, count: nat, value: R)
    requires forall t :: f(t, args).1 == value
    ensures Repeated(f, args, s, count).1 == if count == 0 then None else Some(value)
  {
    if count > 0 {
      var before := Repeated(f, args, s, count - 1).0;
      StatelessResultAt(f, args, before, value);
    }
  }

  /** Instantiates `RepeatedLastResult`'s hypothesis at one state `t`
      (the verifier does not instantiate it at `Repeated(...).0` unaided). */
  lemma StatelessResultAt<S, A, R>(f: (S, A) -> (S, R), args: A, t: S, value: R)
    requires forall t' :: f(t', args).1 == value
    ensures f(t, args).1 == value
  {
  }

  /**
   * `WorkloadMultiplier(workload_func, multiplier=1)`: a callable that, when
   * called, runs `workload_func` `multiplier` times with the same arguments
   * and returns the last result.
   */
  datatype WorkloadMultiplier<!S, !A, R> = WorkloadMultiplier(workloadFunc: (S, A) -> (S, R), multiplier: int := 1)
  {
    /** `__call__`: a loop over `range(self.multiplier)`. */
    method Call(s: S, args: A) returns (s': S, result: Option<R>)
      ensures (s', result) == Repeated(workloadFunc, args, s, RangeLength(multiplier))
      ensures result.None? <==> multiplier <= 0
    {
      s', result := s, None;
      var i := 0;
      while i < multiplier
        invariant 0 <= i <= RangeLength(multiplier)
        invariant (s', result) == Repeated(workloadFunc, args, s, i)
        invariant result.None? <==> i == 0
      {
        var (next, r) := workloadFunc(s', args);
        s', result := next, Some(r);
        i := i + 1;
      }
    }
  }

  // ---------------------------------------------------------------------
  // Variants
  // ---------------------------------------------------------------------

  /** The multipliers `create_workload_variants` uses when given `None`. */
  const DefaultMultipliers: seq<int> := [1, 10, 100]

  /** The key of a variant, `f"x{mult}"`. */
  function VariantName(mult: int): (name: string)
    ensures |name| >= 2 && name[0] == 'x'
    ensures PyInt.IsIntText(name[1..]) && PyInt.ParseInt(name[1..]) == mult
  {
    var digits := PyInt.Str(mult);
    PyInt.StrRoundTrip(mult);
    assert ("x" + digits)[1..] == digits;
    "x" + digits
  }

  /** Distinct multipliers give distinct keys. */
  lemma VariantNameInjective(m: int, n: int)
    requires VariantName(m) == VariantName(n)
    ensures m == n
  {
    assert PyInt.Str(m) == VariantName(m)[1..];
    assert PyInt.Str(n) == VariantName(n)[1..];
    PyInt.StrInjective(m, n);
  }

  /**
   * `create_workload_variants(base_workload, multipliers=None)`: one
   * `WorkloadMultiplier` over the base workload per multiplier, keyed by
   * `VariantName`; `None` stands for `[1, 10, 100]`.
   */
  method CreateWorkloadVariants<S, A, R>(baseWorkload: (S, A) -> (S, R), multipliers: Option<seq<int>> := None)
    returns (variants: map<string, WorkloadMultiplier<S, A, R>>)
    ensures variants.Keys == set m | m in multipliers.GetOr(DefaultMultipliers) :: VariantName(m)
    ensures forall m | m in multipliers.GetOr(DefaultMultipliers) ::
      variants[VariantName(m)] == WorkloadMultiplier(baseWorkload, m)
  {
    var mults := if multipliers.None? then DefaultMultipliers else multipliers.value;
    variants := map[];
    for i := 0 to |mults|
      invariant variants.Keys == set m | m in mults[..i] :: VariantName(m)
      invariant forall m | m in mults[..i] :: variants[VariantName(m)] == WorkloadMultiplier(baseWorkload, m)
    {
      var mult := mults[i];
      var name := VariantName(mult);
      forall m | m in mults[..i] && VariantName(m) == name
        ensures m == mult
      {
        VariantNameInjective(m, mult);
      }
      variants := variants[name := WorkloadMultiplier(baseWorkload, mult)];
      assert mults[..i + 1] == mults[..i] + [mult];
    }
    assert mults[..|mults|] == mults;
  }

  /** The default variants are keyed exactly "x1", "x10" and "x100". */
  lemma DefaultVariantNames()
    ensures (set m | m in DefaultMultipliers :: VariantName(m)) == {"x1", "x10", "x100"}
  {
    assert VariantName(1) == "x1";
    assert VariantName(10) == "x10";
    assert VariantName(100) == "x100";
  }

  // ---------------------------------------------------------------------
  // Scenarios
  // ---------------------------------------------------------------------

  /** One entry of the scenario table. */
  datatype Scenario = Scenario(name: string, durationMs: real, description: string)

  /** The `KeyError` a dictionary lookup raises for a missing key. */
  datatype LookupError = KeyError(key: string)

  /** `WORKLOAD_SCENARIOS`, a dictionary literal: its entries in insertion order. */
  const WorkloadScenarios: seq<(string, Scenario)> := [
    ("tiny", Scenario("Tiny blocks (0.1ms)", 0.1, "Very short blocks, high overhead expected")),
    ("small", Scenario("Small blocks (1ms)", 1.0, "Small blocks, target \U{2264}10% overhead")),
    ("medium", Scenario("Medium blocks (10ms)", 10.0, "Medium blocks, low overhead expected")),
    ("large", Scenario("Large blocks (100ms)", 100.0, "Large blocks, minimal overhead expected"))
  ]

  /** A sequence of entries is a dictionary when no key occurs twice. */
  predicate IsDict<V>(table: seq<(string, V)>) {
    forall i, j :: 0 <= i < j < |table| ==> table[i].0 != table[j].0
  }

  /** The keys of an ordered dictionary, in insertion order (`list(d.keys())`). */
  function Keys<V>(table: seq<(string, V)>): (keys: seq<string>)
    ensures |keys| == |table|
    ensures forall k :: 0 <= k < |table| ==> keys[k] == table[k].0
  {
    seq(|table|, k requires 0 <= k < |table| => table[k].0)
  }

  /** `d[key]`: the value stored under `key`, else `KeyError`. */
  function Lookup<V>(table: seq<(string, V)>, key: string): (r: Result<V, LookupError>)
    requires IsDict(table)
    ensures r.Success? <==> key in Keys(table)
    ensures r.Success? ==> (key, r.value) in table
    ensures r.Failure? ==> r.error == KeyError(key)
  {
    if table == [] then Failure(KeyError(key))
    else if table[0].0 == key then Success(table[0].1)
    else
      var r := Lookup(table[1..], key);
      assert Keys(table) == [table[0].0] + Keys(table[1..]);
      assert r.Success? ==> (key, r.value) in table[1..];
      r
  }

  /** `get_workload_scenario(name)`: the table entry, or `KeyError`. */
  function GetWorkloadScenario(scenarioName: string): (r: Result<Scenario, LookupError>)
    ensures r.Success? <==> scenarioName in {"tiny", "small", "medium", "large"}
    ensures r.Success? ==> (scenarioName, r.value) in WorkloadScenarios
    ensures r.Failure? ==> r.error == KeyError(scenarioName)
  {
    assert Keys(WorkloadScenarios) == ["tiny", "small", "medium", "large"];
    assert IsDict(WorkloadScenarios);
    Lookup(WorkloadScenarios, scenarioName)
  }

  /** `get_all_scenarios()`: the scenario names in table order. */
  function GetAllScenarios(): (names: seq<string>)
    ensures names == ["tiny", "small", "medium", "large"]
  {
    Keys(WorkloadScenarios)
  }

  /** Every listed scenario can be looked up, and nothing else can. */
  lemma ListedScenariosResolve(scenarioName: string)
    ensures GetWorkloadScenario(scenarioName).Success? <==> scenarioName in GetAllScenarios()
  {
  }

  /** The listed scenario names are distinct, as dictionary keys are. */
  lemma ScenarioNamesDistinct()
    ensures forall i, j :: 0 <= i < j < |GetAllScenarios()| ==> GetAllScenarios()[i] != GetAllScenarios()[j]
  {
  }

  /** The block durations the scenarios stand for, in milliseconds. */
  lemma ScenarioDurations()
    ensures GetWorkloadScenario("tiny").Success? && GetWorkloadScenario("tiny").value.durationMs == 0.1
    ensures GetWorkloadScenario("small").Success? && GetWorkloadScenario("small").value.durationMs == 1.0
    ensures GetWorkloadScenario("medium").Success? && GetWorkloadScenario("medium").value.durationMs == 10.0
    ensures GetWorkloadScenario("large").Success? && GetWorkloadScenario("large").value.durationMs == 100.0
  {
  }

  /** The display name and description of each scenario, as the tests'
      reports read them. */
  lemma ScenarioLabels()
    ensures GetWorkloadScenario("tiny").Success? && GetWorkloadScenario("tiny").value.name == "Tiny blocks (0.1ms)"
    ensures GetWorkloadScenario("small").Success? && GetWorkloadScenario("small").value.name == "Small blocks (1ms)"
    ensures GetWorkloadScenario("medium").Success? && GetWorkloadScenario("medium").value.name == "Medium blocks (10ms)"
    ensures GetWorkloadScenario("large").Success? && GetWorkloadScenario("large").value.name == "Large blocks (100ms)"
    ensures GetWorkloadScenario("tiny").value.description == "Very short blocks, high overhead expected"
    ensures GetWorkloadScenario("small").value.description == "Small blocks, target \U{2264}10% overhead"
    ensures GetWorkloadScenario("medium").value.description == "Medium blocks, low overhead expected"
    ensures GetWorkloadScenario("large").value.description == "Large blocks, minimal overhead expected"
  {
  }
}
