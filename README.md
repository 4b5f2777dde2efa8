# Calliper scenario runner, modelled in Dafny

Calliper benchmarks functions under Callgrind. A benchmark program builds a
`Runner`, lists its `Scenario`s (a function plus a Callgrind configuration)
and calls `Runner::run`. The same binary plays two roles:

- started by the user, no run id is set in its environment: it is the
  **controller**. It asks `spawn_callgrind` to re-run the binary under
  Callgrind once per scenario. It then binds every output file to its
  scenario and its position in a `Report`.
- started by the controller under Callgrind, with a run id: it is a
  **worker**. It calls exactly the function of the scenario at that position
  and returns no reports.

The project has two modules:

- `Iterators` (`iterators.dfy`) holds the `enumerate`, `zip` and `map`
  adaptors that the controller chains. They are functions on sequences, with
  lemmas that give each item by position.
- `Scenarios` (`scenario.dfy`) holds the value types (`Scenario`, `Runner`,
  `Report`, the error types) and the builders. It also holds `Select`, the
  worker's bounds-checked lookup, and `MakeReports`, the controller's report
  chain. The process running `run` is the class `Process`. Its ghost `trace`
  records every benchmark function called and every spawn request.
  `Process.Run` is `Runner::run`.

Three collaborators are parameters of `Run`:

- `runId` is the outcome of the run-id lookup, a `Result<nat, RunIdError>`.
- `spawn` stands for `spawn_callgrind`. It is a function from the scenarios
  and the runner's defaults to the output files or an error.
- The `assert_eq!` on the output count is the outcome `Panicked`, distinct
  from every returned value.

Three points where the model follows the code rather than its comments:

- The doc comment of `Runner::parallelism` (src/scenario.rs:47-49) calls the
  bound an upper bound on Callgrind instances running at once. But
  src/scenario.rs:80 never hands it to `spawn_callgrind`. `Run` passes only
  the scenarios and the defaults.
- The doc comments of `Runner::config` and `Scenario::config`
  (src/scenario.rs:42, :116) speak of overriding a configuration. No merge
  of runner defaults with scenario configurations happens in this file. Both
  builders replace a configuration wholesale.
- The doc comment of `run` (src/scenario.rs:56-59) names only the two roles.
  A run id that cannot be read or parsed is neither: it is never
  `RunIdOutOfBounds`, it is returned converted (src/scenario.rs:94), and
  nothing runs.

## Model

| member | source | states |
|---|---|---|
| `Scenarios.Scenario.New` | src/scenario.rs:110-115 | the new scenario holds the given function and the default configuration |
| `Scenarios.Scenario.Config` | src/scenario.rs:117-120 | the configuration is replaced by the given one; the function is unchanged |
| `Scenarios.Runner.Default` | src/scenario.rs:32-38 | the default runner has bound 1, the default configuration, and is valid (bound non-zero) |
| `Scenarios.Runner.Config` | src/scenario.rs:43-46 | the defaults are replaced by the given configuration; the bound is unchanged, so validity is preserved |
| `Scenarios.Runner.Parallelism` | src/scenario.rs:50-54 | a zero bound is refused (the source panics); otherwise the bound is the given one, the defaults are unchanged, and the runner is valid |
| `Scenarios.BuildPreserves` | src/scenario.rs:43-54 | any chain of accepted builder calls keeps a valid runner valid; the bound is the last one set and the defaults the last ones set |
| `Scenarios.BuildFromDefault` | src/scenario.rs:32-54 | every runner built from the default has a non-zero bound, the last bound set (else 1) and the last defaults set (else the default configuration) |
| `Scenarios.Select` | src/scenario.rs:69-74 | the lookup succeeds exactly when the run id is below the scenario count and then yields the scenario at that position; otherwise the error is `RunIdOutOfBounds` with the id and the count |
| `Iterators.Enumerate` | src/scenario.rs:84 | enumeration keeps the length of its input |
| `Iterators.EnumerateAt` | src/scenario.rs:84 | item k of the enumeration is input k tagged with its position |
| `Iterators.Zip` | src/scenario.rs:85 | zipping yields as many pairs as the shorter input |
| `Iterators.ZipAt` | src/scenario.rs:85 | pair k holds item k of each input |
| `Iterators.Map` | src/scenario.rs:86-91 | mapping keeps the length and applies the closure to each item in place |
| `Scenarios.ReportsAt` | src/scenario.rs:82-91 | the report chain yields as many reports as the shorter of outputs and scenarios; report i binds scenario i, position i and output i |
| `Scenarios.WorkerRunsReportedScenario` | src/scenario.rs:69-91 | with one output per scenario, a worker given the position of any controller report selects exactly the scenario that report names |
| `Scenarios.Process.Run` | src/scenario.rs:60-96 | worker with an id in range: exactly that scenario's function is called once, nothing is spawned, the result is `Ok` of no reports. Worker with an id out of range: `RunIdOutOfBounds` with the id and the count, and nothing is called. No run id: one spawn with the scenarios and the defaults, and a spawn error is returned unchanged. An output count different from the scenario count is a panic. Otherwise report i binds scenario i, position i and output i, and no function is called. Any other lookup error is returned converted, with no effect |

## Left out

- `Report::raw` (src/scenario.rs:17-19) reads the output file. It is pure file I/O.
- `Report::parse` (src/scenario.rs:20-22) delegates to the Callgrind output parser, which is not part of this model.
- `spawn_callgrind` is not part of this model. Launching Callgrind, setting the workers' run ids and naming output files happen inside it. It is a parameter of `Run`. Its error is any `CalliperError`, which `Run` returns unchanged (the `?` at src/scenario.rs:80). The `Spawn` variant stands for the failures the spawner reports itself; its contents are not modelled.
- `utils::get_run_id` is not part of this model. Decoding the environment variable happens inside it, so `Run` takes its outcome as a parameter. The `NotANumber` variant of `RunIdError` stands for its parse failures.
- The configuration fields (`ScenarioConfig`, in the instance module) are not part of this model. A configuration is an opaque token compared by equality.
- The parallelism bound has no behaviour here. The source stores it but never uses it when spawning; concurrency belongs to the spawner.
- Benchmark functions are not executed. The trace records which function was called, not what it does, and a function that panics or never returns is not modelled.
- `Scenarios.Process.Run`: the run id and the scenario positions are unbounded naturals, so the platform width of `usize` is not modelled. No arithmetic is done on them, so no wrap-around can arise.
- `Report` borrows its scenario in the source; here it holds a copy of the scenario value, which compares equal to it.
