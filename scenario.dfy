/** Scenarios, runners and reports of the benchmark harness, and the
    dual-role dispatch of `Runner::run`: the same program either runs one
    scenario's function (it is a worker, started under Callgrind with a run
    id) or spawns one worker per scenario and collects their output files
    into reports (it is the controller, started without a run id). */
module Scenarios {
  import Iterators

  /** The outcome of an operation that may fail with an error value. */
  datatype Result<T, E> = Ok(value: T) | Err(error: E)

  /** The address of a benchmark function (`fn()`); only compared. */
  datatype FuncId = FuncId(address: nat)

  /** Callgrind options of a scenario. Their fields belong to the instance
      module, which is not part of this model: here a configuration is an
      opaque token that is only stored, replaced and compared. */
  datatype ScenarioConfig = ScenarioConfig(token: nat)

  /** `ScenarioConfig::default()`. */
  const DefaultScenarioConfig: ScenarioConfig := ScenarioConfig(0)

  /** The name of the file a Callgrind run wrote its output to. */
  datatype ResultFile = ResultFile(path: string)

  /** `std::env::VarError`. */
  datatype VarError = NotPresent | NotUnicode(raw: seq<bv8>)

  /** Why the run id could not be read: the variable is missing or not
      Unicode, or its text is not a number. */
  datatype RunIdError =
    | EnvironmentVariableError(cause: VarError)
    | NotANumber(text: string)

  /** `CalliperError`, the error `run` returns. */
  datatype CalliperError =
    | RunIdOutOfBounds(value: nat, limit: nat)
    | RunId(cause: RunIdError)
    | Spawn(detail: string)  // the failures `spawn_callgrind` reports itself

  /** A benchmark target and its configuration override. */
  datatype Scenario = Scenario(config: ScenarioConfig, func: FuncId)
  {
    /** `Scenario::new(func)`: the function with the default configuration. */
    static function New(func: FuncId): (s: Scenario)
      ensures s.func == func
      ensures s.config == DefaultScenarioConfig
    {
      Scenario(DefaultScenarioConfig, func)
    }

    /** `Scenario::config(c)`: replaces the configuration wholesale and keeps
        the function. */
    function Config(c: ScenarioConfig): (s: Scenario)
      ensures s.config == c
      ensures s.func == func
    {
      this.(config := c)
    }
  }

  /** One completed worker run: the scenario it ran (the source borrows it;
      here it is a copy of the value), its position in the submitted
      sequence, and the file Callgrind wrote. */
  datatype Report = Report(run: Scenario, runIdx: nat, results: ResultFile)

  /** The session's policy: a bound on concurrent Callgrind instances and the
      default configuration handed to the spawner. */
  datatype Runner = Runner(parallelism: nat, defaults: ScenarioConfig)
  {
    /** Every runner the builders produce allows at least one instance. */
    predicate Valid() {
      parallelism != 0
    }

    /** `Runner::default()`. */
    static function Default(): (r: Runner)
      ensures r.Valid()
      ensures r.parallelism == 1
      ensures r.defaults == DefaultScenarioConfig
    {
      Runner(1, DefaultScenarioConfig)
    }

    /** `Runner::config(c)`: replaces the defaults wholesale; the bound is
        unchanged, so a valid runner stays valid. */
    function Config(c: ScenarioConfig): (r: Runner)
      ensures r.defaults == c
      ensures r.parallelism == parallelism
      ensures Valid() ==> r.Valid()
    {
      this.(defaults := c)
    }

    /** `Runner::parallelism(p)`: a zero bound is a programmer error (the
        source panics); otherwise sets the bound and keeps the defaults. */
    function Parallelism(p: nat): (r: Runner)
      requires p != 0
      ensures r.Valid()
      ensures r.parallelism == p
      ensures r.defaults == defaults
    {
      this.(parallelism := p)
    }
  }

  /** One call of the fluent builder. */
  datatype BuildStep = SetConfig(config: ScenarioConfig) | SetParallelism(bound: nat)

  /** A step the source accepts without panicking. */
  predicate Accepted(step: BuildStep) {
    step.SetParallelism? ==> step.bound != 0
  }

  /** `r.config(..).parallelism(..)...`: the steps applied in order. */
  function Build(r: Runner, steps: seq<BuildStep>): (built: Runner)
    requires forall k :: 0 <= k < |steps| ==> Accepted(steps[k])
    decreases |steps|
  {
    if steps == [] then r
    else
      assert Accepted(steps[0]);
      var next := match steps[0]
        case SetConfig(c) => r.Config(c)
        case SetParallelism(p) => r.Parallelism(p);
      Build(next, steps[1..])
  }

  /** The bound after the steps: the last one set, else the starting one. */
  function LastBound(start: nat, steps: seq<BuildStep>): (bound: nat)
    decreases |steps|
  {
    if steps == [] then start
    else LastBound(if steps[0].SetParallelism? then steps[0].bound else start, steps[1..])
  }

  /** The defaults after the steps: the last set, else the starting ones. */
  function LastConfig(start: ScenarioConfig, steps: seq<BuildStep>): (config: ScenarioConfig)
    decreases |steps|
  {
    if steps == [] then start
    else LastConfig(if steps[0].SetConfig? then steps[0].config else start, steps[1..])
  }

  /** Whatever chain of builder calls starts from `Runner::default()`, the
      runner has a non-zero bound, the last bound set (1 if none) and the
      last defaults set (the default configuration if none): the two setters
      never disturb each other's field. */
  lemma {:induction false} BuildFromDefault(steps: seq<BuildStep>)
    requires forall k :: 0 <= k < |steps| ==> Accepted(steps[k])
    ensures Build(Runner.Default(), steps).Valid()
    ensures Build(Runner.Default(), steps).parallelism == LastBound(1, steps)
    ensures Build(Runner.Default(), steps).defaults == LastConfig(DefaultScenarioConfig, steps)
  {
    BuildPreserves(Runner.Default(), steps);
  }

  lemma {:induction false} BuildPreserves(r: Runner, steps: seq<BuildStep>)
    requires r.Valid()
    requires forall k :: 0 <= k < |steps| ==> Accepted(steps[k])
    ensures Build(r, steps).Valid()
    ensures Build(r, steps).parallelism == LastBound(r.parallelism, steps)
    ensures Build(r, steps).defaults == LastConfig(r.defaults, steps)
    decreases |steps|
  {
    if steps != [] {
      assert Accepted(steps[0]);
      var next := match steps[0]
        case SetConfig(c) => r.Config(c)
        case SetParallelism(p) => r.Parallelism(p);
      BuildPreserves(next, steps[1..]);
    }
  }

  /** `settings.get(run_id).ok_or(RunIdOutOfBounds { .. })`: the scenario a
      worker with this run id must run, or the out-of-bounds error carrying
      the id and the number of scenarios. */
  function Select(settings: seq<Scenario>, runId: nat): (r: Result<Scenario, CalliperError>)
    ensures r.Ok? <==> runId < |settings|
    ensures r.Ok? ==> r.value == settings[runId]
    ensures r.Err? ==> r.error == RunIdOutOfBounds(runId, |settings|)
  {
    if runId < |settings| then Ok(settings[runId])
    else Err(RunIdOutOfBounds(runId, |settings|))
  }

  /** The closure of the controller path: `((run_idx, output), run)` to a
      report. */
  function ToReport(item: ((nat, ResultFile), Scenario)): (report: Report) {
    Report(item.1, item.0.0, item.0.1)
  }

  /** `outputs.into_iter().enumerate().zip(settings).map(..).collect()`. */
  function MakeReports(outputs: seq<ResultFile>, settings: seq<Scenario>): (reports: seq<Report>) {
    Iterators.Map(ToReport, Iterators.Zip(Iterators.Enumerate(outputs, 0), settings))
  }

  /** The reports are as many as the shorter of the two inputs, and report
      `i` binds scenario `i` to output `i` under position `i`. */
  lemma ReportsAt(outputs: seq<ResultFile>, settings: seq<Scenario>)
    ensures |MakeReports(outputs, settings)| == if |outputs| <= |settings| then |outputs| else |settings|
    ensures forall i :: 0 <= i < |outputs| && i < |settings| ==>
      MakeReports(outputs, settings)[i] == Report(settings[i], i, outputs[i])
  {
    forall i | 0 <= i < |outputs| && i < |settings|
      ensures MakeReports(outputs, settings)[i] == Report(settings[i], i, outputs[i])
    {
      Iterators.EnumerateAt(outputs, 0, i);
      Iterators.ZipAt(Iterators.Enumerate(outputs, 0), settings, i);
    }
  }

  /** Position is the shared vocabulary of the two roles: a worker started
      with the run id of any report the controller builds runs exactly the
      scenario that report names. */
  lemma WorkerRunsReportedScenario(outputs: seq<ResultFile>, settings: seq<Scenario>, k: nat)
    requires |outputs| == |settings|
    requires k < |settings|
    ensures k < |MakeReports(outputs, settings)|
    ensures Select(settings, MakeReports(outputs, settings)[k].runIdx)
         == Ok(MakeReports(outputs, settings)[k].run)
  {
    ReportsAt(outputs, settings);
  }

  /** A panic of the source, which ends the process instead of returning. */
  datatype Panic = AssertEqFailed(left: nat, right: nat)

  /** What `run` does: it returns a result, or it panics. */
  datatype RunOutcome =
    | Returned(result: Result<seq<Report>, CalliperError>)
    | Panicked(panic: Panic)

  /** An effect of `run` that a Callgrind measurement can see. */
  datatype Effect =
    | Invoked(func: FuncId)
    | Spawned(scenarios: seq<Scenario>, defaults: ScenarioConfig)

  /** The process `run` executes in; `trace` records, in order, every
      benchmark function it calls and every request to spawn workers. */
  class Process {
    ghost var trace: seq<Effect>

    constructor ()
      ensures trace == []
    {
      trace := [];
    }

    /** `Runner::run`. `runId` is what the run-id lookup found in the
        environment and `spawn` stands for `spawn_callgrind`, which launches
        the workers and returns their output files.
        - Worker (`Ok(id)`): runs exactly `settings[id].func`, once, and
          returns no reports; an id past the end is `RunIdOutOfBounds` and
          runs nothing.
        - Controller (variable not present): spawns once with the scenarios
          and the runner's defaults, propagates a spawn error unchanged,
          panics unless there is one output per scenario, and otherwise
          returns report `i` = (scenario `i`, position `i`, output `i`).
        - Any other lookup error: returned converted, with no effect. */
    method Run(runner: Runner, settings: seq<Scenario>, runId: Result<nat, RunIdError>,
               spawn: (seq<Scenario>, ScenarioConfig) -> Result<seq<ResultFile>, CalliperError>)
      returns (outcome: RunOutcome)
      modifies this
      ensures runId.Ok? && runId.value < |settings| ==>
        outcome == Returned(Ok([])) &&
        trace == old(trace) + [Invoked(settings[runId.value].func)]
      ensures runId.Ok? && runId.value >= |settings| ==>
        outcome == Returned(Err(RunIdOutOfBounds(runId.value, |settings|))) &&
        trace == old(trace)
      ensures runId == Err(EnvironmentVariableError(NotPresent)) ==>
        trace == old(trace) + [Spawned(settings, runner.defaults)] &&
        match spawn(settings, runner.defaults)
        case Err(e) => outcome == Returned(Err(e))
        case Ok(outputs) =>
          if |outputs| != |settings| then outcome == Panicked(AssertEqFailed(|outputs|, |settings|))
          else
            outcome.Returned? && outcome.result.Ok? &&
            |outcome.result.value| == |settings| &&
            forall i :: 0 <= i < |settings| ==>
              outcome.result.value[i] == Report(settings[i], i, outputs[i])
      ensures runId.Err? && runId.error != EnvironmentVariableError(NotPresent) ==>
        outcome == Returned(Err(RunId(runId.error))) &&
        trace == old(trace)
    {
      match runId {
        case Ok(id) =>
          var bench := Select(settings, id);
          if bench.Err? {
            return Returned(Err(bench.error));
          }
          trace := trace + [Invoked(bench.value.func)];
          return Returned(Ok([]));
        case Err(EnvironmentVariableError(NotPresent)) =>
          trace := trace + [Spawned(settings, runner.defaults)];
          var spawned := spawn(settings, runner.defaults);
          if spawned.Err? {
            return Returned(Err(spawned.error));
          }
          var outputs := spawned.value;
          if |outputs| != |settings| {
            return Panicked(AssertEqFailed(|outputs|, |settings|));
          }
          ReportsAt(outputs, settings);
          return Returned(Ok(MakeReports(outputs, settings)));
        case Err(e) =>
          return Returned(Err(RunId(e)));
      }
    }
  }
}
