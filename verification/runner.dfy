/** `Runner.run` of `routine_runner.py`: every task of the routine in
    order against one shared `Runtime`, each turned into a summary, with
    the passes and failures counted. */
module RoutineRunner {
  import opened Wrappers
  import opened PyText
  import opened SsUtils
  import opened Tasks
  import opened Macros
  import opened Execution

  /** One entry of `task-results`. `start` and `durationMs` are `None`
      where the document says `N/A`. */
  datatype Summary = Summary(
    name: string,
    typeName: string,
    description: string,
    instances: int,
    hostIndex: int,
    result: string,
    detail: string,
    start: Option<int>,
    durationMs: Option<int>)

  /** The document `Runner.run` returns, without its timestamp. */
  datatype Report = Report(
    hostSet: string,
    routine: string,
    hosts: string,
    passed: nat,
    failed: nat,
    results: seq<Summary>)

  /** The summary of a task that ended with `result`, given the times its
      run recorded. */
  function SummaryOf(t: Task, result: TaskResult, start: Option<int>, end: Option<int>): Summary
  {
    Summary(t.name, t.TypeName(), t.description, t.instances, t.hostIndex, result.Name(), result.detail, start,
      if start.Some? && end.Some? then Some(TimeDiffMs(start.value, end.value)) else None)
  }

  /** The exception a run raised becomes `UNCLASSIFIED_ERROR`. */
  function ResultOf(r: Result<TaskResult, string>): TaskResult
  {
    match r
    case Ok(res) => res
    case Err(e) => TaskResult(UnclassifiedError, "Task Exception: " + e)
  }

  /** One task's run on the host it names. */
  function RunTask(t: Task, host: Host, st: RtState, w: World, gen: Generator): (Outcome, RtState)
  {
    if t.kind.DockerExec? then DockerExecRun(t, host, st, w, gen) else HttpRun(t, host, st, w, gen)
  }

  /** How a task is run on a host; the loop of `Runner.run` is stated for
      any such function, and `Execute` is the one of the two task types. */
  type TaskRun = (Task, Host, RtState, World) -> (Outcome, RtState)

  function Execute(gen: Generator): TaskRun
  {
    (t, h, st, w) => RunTask(t, h, st, w, gen)
  }

  /** `run` runs every task as `RunTask` does with generator `gen`, so it
      agrees with `Execute(gen)` at every argument. The methods of `Runner`
      are stated for such a `run`; `RunTasksAgree` carries every property
      of `RunTasks(…, Execute(gen))` over to them. */
  ghost predicate RunsTasks(run: TaskRun, gen: Generator)
  {
    forall t, h, st, w {:trigger RunTask(t, h, st, w, gen)} :: run(t, h, st, w) == RunTask(t, h, st, w, gen)
  }

  lemma ExecuteRunsTasks(gen: Generator)
    ensures RunsTasks(Execute(gen), gen)
  {
  }

  /** One task gives the same outcome under any `run` that runs tasks as
      `RunTask` does. */
  lemma RunOneAgrees(t: Task, hosts: seq<Host>, st: RtState, w: World, run: TaskRun, gen: Generator)
    requires RunsTasks(run, gen)
    ensures RunOne(t, hosts, st, w, run) == RunOne(t, hosts, st, w, Execute(gen))
  {
    if t.enabled && PyIndex(hosts, t.hostIndex).Some? {
      var h := PyIndex(hosts, t.hostIndex).value;
      assert run(t, h, st, w) == RunTask(t, h, st, w, gen);
    }
  }

  /** A whole run is the same under any `run` that runs tasks as `RunTask`
      does. */
  lemma {:induction false} RunTasksAgree(tasks: seq<Task>, hosts: seq<Host>, st: RtState, worlds: seq<World>, run: TaskRun, gen: Generator)
    requires |worlds| == |tasks| && RunsTasks(run, gen)
    ensures RunTasks(tasks, hosts, st, worlds, run) == RunTasks(tasks, hosts, st, worlds, Execute(gen))
    decreases |tasks|
  {
    if |tasks| > 0 {
      RunOneAgrees(tasks[0], hosts, st, worlds[0], run, gen);
      RunTasksAgree(tasks[1..], hosts, RunOne(tasks[0], hosts, st, worlds[0], run).2, worlds[1..], run, gen);
    }
  }

  /** One iteration of the loop of `Runner.run`: a disabled task is
      skipped; an enabled one looks up its host (a bad index raises) and
      runs; any exception becomes `UNCLASSIFIED_ERROR`. The result, the
      summary, the runtime afterwards and the calls issued. */
  function RunOne(t: Task, hosts: seq<Host>, st: RtState, w: World, run: TaskRun): (TaskResult, Summary, RtState, seq<Call>)
  {
    if !t.enabled then
      var r := TaskResult(Skipped, "Task marked as disabled");
      (r, SummaryOf(t, r, None, None), st, [])
    else match PyIndex(hosts, t.hostIndex)
      case None =>
        var r := TaskResult(UnclassifiedError, "Task Exception: IndexError: list index out of range");
        (r, SummaryOf(t, r, None, None), st, [])
      case Some(h) =>
        var (out, st1) := run(t, h, st, w);
        var r := ResultOf(out.result);
        (r, SummaryOf(t, r, out.started, out.ended), st1, out.calls)
  }

  /** What a run over a list of tasks produces. */
  datatype RunLog = RunLog(summaries: seq<Summary>, passed: nat, failed: nat, calls: seq<Call>, state: RtState)

  /** The loop of `Runner.run` over `tasks`, with `worlds[i]` the world of
      task `i`: a pass counts when the code is 0, a failure when it is
      positive. */
  function RunTasks(tasks: seq<Task>, hosts: seq<Host>, st: RtState, worlds: seq<World>, run: TaskRun): RunLog
    requires |worlds| == |tasks|
  {
    if |tasks| == 0 then RunLog([], 0, 0, [], st)
    else
      var one := RunOne(tasks[0], hosts, st, worlds[0], run);
      Record(one, RunTasks(tasks[1..], hosts, one.2, worlds[1..], run))
  }

  /** One task's result and summary recorded before the rest of the run. */
  function Record(one: (TaskResult, Summary, RtState, seq<Call>), rest: RunLog): RunLog
  {
    RunLog([one.1] + rest.summaries,
           rest.passed + (if one.0.Code() == 0 then 1 else 0),
           rest.failed + (if one.0.Code() > 0 then 1 else 0),
           one.3 + rest.calls, rest.state)
  }

  /** Two parts of a run, one after the other. */
  function Concat(la: RunLog, lb: RunLog): RunLog
  {
    RunLog(la.summaries + lb.summaries, la.passed + lb.passed, la.failed + lb.failed, la.calls + lb.calls, lb.state)
  }

  /** The run so far, extended by one more task. */
  function Extend(acc: RunLog, one: (TaskResult, Summary, RtState, seq<Call>)): RunLog
  {
    Concat(acc, Record(one, RunLog([], 0, 0, [], one.2)))
  }

  /** The run so far with the counters, summaries and calls of one more
      task added in is that run extended by the task. */
  lemma ExtendIs(acc: RunLog, one: (TaskResult, Summary, RtState, seq<Call>), log: RunLog)
    requires log.summaries == acc.summaries + [one.1] && log.calls == acc.calls + one.3 && log.state == one.2
    requires log.passed == acc.passed + (if one.0.Code() == 0 then 1 else 0)
    requires log.failed == acc.failed + (if one.0.Code() > 0 then 1 else 0)
    ensures log == Extend(acc, one)
  {
    assert [one.1] + [] == [one.1] && one.3 + [] == one.3;
  }

  lemma RecordConcat(one: (TaskResult, Summary, RtState, seq<Call>), la: RunLog, lb: RunLog)
    ensures Record(one, Concat(la, lb)) == Concat(Record(one, la), lb)
  {
    assert [one.1] + (la.summaries + lb.summaries) == ([one.1] + la.summaries) + lb.summaries;
    assert one.3 + (la.calls + lb.calls) == (one.3 + la.calls) + lb.calls;
  }

  lemma ConcatRecord(acc: RunLog, one: (TaskResult, Summary, RtState, seq<Call>), rest: RunLog)
    ensures Concat(acc, Record(one, rest)) == Concat(Extend(acc, one), rest)
  {
    assert [one.1] + [] == [one.1] && one.3 + [] == one.3;
    assert acc.summaries + ([one.1] + rest.summaries) == (acc.summaries + [one.1]) + rest.summaries;
    assert acc.calls + (one.3 + rest.calls) == (acc.calls + one.3) + rest.calls;
  }

  /** The run from task `i` on is task `i` recorded before the run from
      task `i + 1` on. */
  lemma RunTasksStep(tasks: seq<Task>, hosts: seq<Host>, st: RtState, worlds: seq<World>, run: TaskRun, i: nat)
    requires |worlds| == |tasks| && i < |tasks|
    ensures var one := RunOne(tasks[i], hosts, st, worlds[i], run);
      RunTasks(tasks[i..], hosts, st, worlds[i..], run) == Record(one, RunTasks(tasks[i + 1..], hosts, one.2, worlds[i + 1..], run))
  {
    assert tasks[i..][1..] == tasks[i + 1..] && worlds[i..][1..] == worlds[i + 1..];
  }

  /** The runtime state before task `i` runs. */
  function StateBefore(tasks: seq<Task>, hosts: seq<Host>, st: RtState, worlds: seq<World>, run: TaskRun, i: nat): RtState
    requires |worlds| == |tasks| && i <= |tasks|
    decreases i
  {
    if i == 0 then st
    else StateBefore(tasks[1..], hosts, RunOne(tasks[0], hosts, st, worlds[0], run).2, worlds[1..], run, i - 1)
  }

  /** Task `i` runs on the state task `i - 1` left. */
  lemma {:induction false} StateBeforeStep(tasks: seq<Task>, hosts: seq<Host>, st: RtState, worlds: seq<World>, run: TaskRun, i: nat)
    requires |worlds| == |tasks| && i < |tasks|
    ensures StateBefore(tasks, hosts, st, worlds, run, i + 1)
      == RunOne(tasks[i], hosts, StateBefore(tasks, hosts, st, worlds, run, i), worlds[i], run).2
    decreases i
  {
    if i > 0 {
      var st1 := RunOne(tasks[0], hosts, st, worlds[0], run).2;
      StateBeforeStep(tasks[1..], hosts, st1, worlds[1..], run, i - 1);
      assert tasks[1..][i - 1] == tasks[i] && worlds[1..][i - 1] == worlds[i];
    }
  }

  /** `','.join(host.name for host in hosts)`. */
  function HostNames(hosts: seq<Host>): (names: seq<string>)
    ensures |names| == |hosts|
    ensures forall i :: 0 <= i < |hosts| ==> names[i] == hosts[i].name
  {
    if |hosts| == 0 then [] else [hosts[0].name] + HostNames(hosts[1..])
  }

  /** The number of summaries with the given result name. */
  function CountResult(ss: seq<Summary>, name: string): (n: nat)
    ensures n <= |ss|
  {
    if |ss| == 0 then 0
    else (if ss[0].result == name then 1 else 0) + CountResult(ss[1..], name)
  }

  /** A `Runner` holds the routine, the host set and the `Runtime` its
      tasks share. */
  class Runner {
    const routine: Routine
    const hostSet: HostSet
    const runtime: Runtime

    constructor (routine: Routine, hostSet: HostSet)
      ensures this.routine == routine && this.hostSet == hostSet
      ensures fresh(runtime) && runtime.Valid() && runtime.State() == InitialState()
    {
      this.routine := routine;
      this.hostSet := hostSet;
      runtime := new Runtime();
    }

    /** One iteration of the loop of `run`. */
    method RunStep(t: Task, w: World, gen: Generator, ghost run: TaskRun) returns (r: TaskResult, s: Summary, calls: seq<Call>)
      requires runtime.Valid() && RunsTasks(run, gen)
      modifies runtime
      ensures runtime.Valid()
      ensures (r, s, runtime.State(), calls) == RunOne(t, hostSet.hosts, old(runtime.State()), w, run)
    {
      if !t.enabled {
        r := TaskResult(Skipped, "Task marked as disabled");
        return r, SummaryOf(t, r, None, None), [];
      }
      var host := PyIndex(hostSet.hosts, t.hostIndex);
      if host.None? {
        r := TaskResult(UnclassifiedError, "Task Exception: IndexError: list index out of range");
        return r, SummaryOf(t, r, None, None), [];
      }
      var out;
      if t.kind.DockerExec? {
        out := RunDockerExec(t, host.value, runtime, w, gen);
      } else {
        out := RunHttp(t, host.value, runtime, w, gen);
      }
      assert (out, runtime.State()) == RunTask(t, host.value, old(runtime.State()), w, gen);
      r := ResultOf(out.result);
      s := SummaryOf(t, r, out.started, out.ended);
      calls := out.calls;
    }

    /** `run()`: the report of the routine on the host set, and every
        external call issued, given one world per task; `run` is the
        task-run of `RunTask` with generator `gen` (see `RunsTasks`). */
    method Run(worlds: seq<World>, gen: Generator, ghost run: TaskRun) returns (doc: Report, calls: seq<Call>)
      requires runtime.Valid() && |worlds| == |routine.tasks| && RunsTasks(run, gen)
      modifies runtime
      ensures runtime.Valid()
      ensures var log := RunTasks(routine.tasks, hostSet.hosts, old(runtime.State()), worlds, run);
        && doc == Report(hostSet.name, routine.name, Join(HostNames(hostSet.hosts), ','), log.passed, log.failed, log.summaries)
        && calls == log.calls
        && runtime.State() == log.state
    {
      var tasks := routine.tasks;
      var summaries: seq<Summary> := [];
      var passed: nat := 0;
      var failed: nat := 0;
      calls := [];
      ghost var total := RunTasks(tasks, hostSet.hosts, runtime.State(), worlds, run);
      assert tasks[0..] == tasks && worlds[0..] == worlds;
      assert [] + total.summaries == total.summaries && [] + total.calls == total.calls;
      var i := 0;
      while i < |tasks|
        invariant 0 <= i <= |tasks|
        invariant runtime.Valid()
        invariant Concat(RunLog(summaries, passed, failed, calls, runtime.State()),
                         RunTasks(tasks[i..], hostSet.hosts, runtime.State(), worlds[i..], run)) == total
      {
        ghost var acc := RunLog(summaries, passed, failed, calls, runtime.State());
        ghost var before := runtime.State();
        var r, s, cs := RunStep(tasks[i], worlds[i], gen, run);
        ghost var one := (r, s, runtime.State(), cs);
        RunTasksStep(tasks, hostSet.hosts, before, worlds, run, i);
        ConcatRecord(acc, one, RunTasks(tasks[i + 1..], hostSet.hosts, runtime.State(), worlds[i + 1..], run));
        if r.Code() == 0 {
          passed := passed + 1;
        } else if r.Code() > 0 {
          failed := failed + 1;
        }
        summaries := summaries + [s];
        calls := calls + cs;
        ExtendIs(acc, one, RunLog(summaries, passed, failed, calls, runtime.State()));
        i := i + 1;
      }
      assert tasks[i..] == [] && worlds[i..] == [];
      assert summaries + [] == summaries && calls + [] == calls;
      doc := Report(hostSet.name, routine.name, Join(HostNames(hostSet.hosts), ','), passed, failed, summaries);
    }
  }

  // ---------------------------------------------------------------------
  // Properties of a run

  /** There is one summary per task, and summary `i` is the outcome of task
      `i` run on the state the earlier tasks left. */
  lemma {:induction false} SummaryPerTask(tasks: seq<Task>, hosts: seq<Host>, st: RtState, worlds: seq<World>, run: TaskRun)
    requires |worlds| == |tasks|
    ensures |RunTasks(tasks, hosts, st, worlds, run).summaries| == |tasks|
    ensures forall i :: 0 <= i < |tasks| ==>
      RunTasks(tasks, hosts, st, worlds, run).summaries[i]
        == RunOne(tasks[i], hosts, StateBefore(tasks, hosts, st, worlds, run, i), worlds[i], run).1
    decreases |tasks|
  {
    if |tasks| > 0 {
      var st1 := RunOne(tasks[0], hosts, st, worlds[0], run).2;
      SummaryPerTask(tasks[1..], hosts, st1, worlds[1..], run);
      forall i | 1 <= i < |tasks|
        ensures RunTasks(tasks, hosts, st, worlds, run).summaries[i]
          == RunOne(tasks[i], hosts, StateBefore(tasks, hosts, st, worlds, run, i), worlds[i], run).1
      {
        assert tasks[1..][i - 1] == tasks[i] && worlds[1..][i - 1] == worlds[i];
      }
    }
  }

  /** Every summary describes its own task, in routine order. */
  lemma SummariesInOrder(tasks: seq<Task>, hosts: seq<Host>, st: RtState, worlds: seq<World>, run: TaskRun)
    requires |worlds| == |tasks|
    ensures var ss := RunTasks(tasks, hosts, st, worlds, run).summaries;
      && |ss| == |tasks|
      && forall i :: 0 <= i < |tasks| ==>
        && ss[i].name == tasks[i].name && ss[i].description == tasks[i].description
        && ss[i].typeName == tasks[i].TypeName() && ss[i].instances == tasks[i].instances
        && ss[i].hostIndex == tasks[i].hostIndex
  {
    SummaryPerTask(tasks, hosts, st, worlds, run);
  }

  /** A disabled task is reported `SKIPPED` without times, issues no call
      and leaves the runtime as it was. */
  lemma DisabledIsSkipped(t: Task, hosts: seq<Host>, st: RtState, w: World, run: TaskRun)
    requires !t.enabled
    ensures var (r, s, st', cs) := RunOne(t, hosts, st, w, run);
      && r.kind == Skipped && s.result == "SKIPPED" && s.detail == "Task marked as disabled"
      && s.start.None? && s.durationMs.None? && st' == st && cs == []
  {
  }

  /** An enabled task whose host index is out of range is reported
      `UNCLASSIFIED_ERROR` and issues no call. */
  lemma BadHostIndex(t: Task, hosts: seq<Host>, st: RtState, w: World, run: TaskRun)
    requires t.enabled && !(-|hosts| <= t.hostIndex < |hosts|)
    ensures var (r, s, st', cs) := RunOne(t, hosts, st, w, run);
      && r.kind == UnclassifiedError && s.result == "UNCLASSIFIED_ERROR"
      && s.start.None? && st' == st && cs == []
  {
  }

  /** An exception raised by a task's run becomes `UNCLASSIFIED_ERROR`
      with the exception's text in the detail, and the run goes on. */
  lemma ExceptionIsUnclassified(t: Task, hosts: seq<Host>, st: RtState, w: World, run: TaskRun)
    requires t.enabled && -|hosts| <= t.hostIndex < |hosts|
    requires run(t, PyIndex(hosts, t.hostIndex).value, st, w).0.result.Err?
    ensures var (r, s, _, _) := RunOne(t, hosts, st, w, run);
      var e := run(t, PyIndex(hosts, t.hostIndex).value, st, w).0.result.error;
      && r == TaskResult(UnclassifiedError, "Task Exception: " + e)
      && s.result == "UNCLASSIFIED_ERROR"
  {
  }

  /** The counters agree with the summaries: `tasks-passed` is the number
      of `SUCCESS` results, `tasks-failed` the number of results that are
      neither `SUCCESS` nor `SKIPPED`, and together they never exceed the
      number of tasks. */
  lemma {:induction false} RunCounts(tasks: seq<Task>, hosts: seq<Host>, st: RtState, worlds: seq<World>, run: TaskRun)
    requires |worlds| == |tasks|
    ensures var log := RunTasks(tasks, hosts, st, worlds, run);
      && |log.summaries| == |tasks|
      && log.passed == CountResult(log.summaries, "SUCCESS")
      && log.failed == |tasks| - CountResult(log.summaries, "SUCCESS") - CountResult(log.summaries, "SKIPPED")
      && log.passed + log.failed <= |tasks|
    decreases |tasks|
  {
    if |tasks| > 0 {
      var (r, s, st1, cs) := RunOne(tasks[0], hosts, st, worlds[0], run);
      RunCounts(tasks[1..], hosts, st1, worlds[1..], run);
      CodeSignMatchesName(r.kind);
      var log := RunTasks(tasks, hosts, st, worlds, run);
      assert s.result == r.Name();
      assert log.summaries[1..] == RunTasks(tasks[1..], hosts, st1, worlds[1..], run).summaries;
    }
  }

  /** A `docker_exec` task whose command line is built and whose command
      returns is counted in `tasks-passed` exactly when the exit code is
      0, and in `tasks-failed` otherwise. */
  lemma DockerExecCounts(t: Task, hosts: seq<Host>, st: RtState, w: World, gen: Generator)
    requires t.enabled && t.kind.DockerExec? && PyIndex(hosts, t.hostIndex).Some?
    requires "container-name" in PyIndex(hosts, t.hostIndex).value.cfg
    requires Expand(t.kind.command, st, gen).0.Ok? && w.failAt != Some(0)
    ensures var log := RunTasks([t], hosts, st, [w], Execute(gen));
      && (log.passed == 1 <==> w.exitCode == 0)
      && (log.failed == 1 <==> w.exitCode != 0)
      && log.passed + log.failed == 1
  {
    DockerExecCode(t, hosts, st, w, gen);
    RunTasksOfCode(t, hosts, st, w, Execute(gen));
  }

  /** Such a task's result code is 0 exactly when the exit code is, and
      never negative. */
  lemma DockerExecCode(t: Task, hosts: seq<Host>, st: RtState, w: World, gen: Generator)
    requires t.enabled && t.kind.DockerExec? && PyIndex(hosts, t.hostIndex).Some?
    requires "container-name" in PyIndex(hosts, t.hostIndex).value.cfg
    requires Expand(t.kind.command, st, gen).0.Ok? && w.failAt != Some(0)
    ensures var code := RunOne(t, hosts, st, w, Execute(gen)).0.Code();
      (code == 0 <==> w.exitCode == 0) && code >= 0
  {
    var h := PyIndex(hosts, t.hostIndex).value;
    DockerExecOutcome(t, h, st, w, gen);
    RunOneRuns(t, hosts, st, w, gen);
    var out := DockerExecRun(t, h, st, w, gen).0;
    assert RunTask(t, h, st, w, gen).0 == out;
    ResultCodeOfExit(out.result, w.exitCode);
  }

  /** A result that is success exactly when the exit code is 0, and
      otherwise a failure or an exception, has code 0 exactly when the exit
      code is 0 and never a negative one. */
  lemma ResultCodeOfExit(r: Result<TaskResult, string>, exitCode: int)
    requires r == Ok(TaskResult(Success, "OK")) <==> exitCode == 0
    requires r.Ok? && exitCode != 0 ==> r.value.Code() > 0
    ensures ResultOf(r).Code() == 0 <==> exitCode == 0
    ensures ResultOf(r).Code() >= 0
  {
  }

  /** A run of one task whose code is not negative counts it exactly once:
      as passed when the code is 0, as failed otherwise. */
  lemma RunTasksOfCode(t: Task, hosts: seq<Host>, st: RtState, w: World, run: TaskRun)
    requires RunOne(t, hosts, st, w, run).0.Code() >= 0
    ensures var log := RunTasks([t], hosts, st, [w], run);
      var code := RunOne(t, hosts, st, w, run).0.Code();
      && (log.passed == 1 <==> code == 0)
      && (log.failed == 1 <==> code != 0)
      && log.passed + log.failed == 1
  {
    RunTasksSingle(t, hosts, st, w, run);
  }

  /** A run of one task counts that task's result. */
  lemma RunTasksSingle(t: Task, hosts: seq<Host>, st: RtState, w: World, run: TaskRun)
    ensures var log := RunTasks([t], hosts, st, [w], run);
      var r := RunOne(t, hosts, st, w, run).0;
      && log.passed == (if r.Code() == 0 then 1 else 0)
      && log.failed == (if r.Code() > 0 then 1 else 0)
  {
    assert [t][1..] == [] && [w][1..] == [];
  }

  /** Running the tasks of two lists in turn is running their
      concatenation: the summaries, counters and calls add up. */
  lemma {:induction false} RunTasksAppend(a: seq<Task>, b: seq<Task>, hosts: seq<Host>, st: RtState, wa: seq<World>, wb: seq<World>, run: TaskRun)
    requires |wa| == |a| && |wb| == |b|
    ensures var la := RunTasks(a, hosts, st, wa, run);
      var lb := RunTasks(b, hosts, la.state, wb, run);
      RunTasks(a + b, hosts, st, wa + wb, run) == Concat(la, lb)
    decreases |a|
  {
    var la := RunTasks(a, hosts, st, wa, run);
    var lb := RunTasks(b, hosts, la.state, wb, run);
    if |a| == 0 {
      assert a + b == b && wa + wb == wb;
      assert [] + lb.summaries == lb.summaries && [] + lb.calls == lb.calls;
    } else {
      var one := RunOne(a[0], hosts, st, wa[0], run);
      assert (a + b)[0] == a[0] && (wa + wb)[0] == wa[0];
      assert (a + b)[1..] == a[1..] + b && (wa + wb)[1..] == wa[1..] + wb;
      RunTasksAppend(a[1..], b, hosts, one.2, wa[1..], wb, run);
      var la1 := RunTasks(a[1..], hosts, one.2, wa[1..], run);
      assert la == Record(one, la1);
      assert RunTasks(a + b, hosts, st, wa + wb, run) == Record(one, RunTasks(a[1..] + b, hosts, one.2, wa[1..] + wb, run));
      RecordConcat(one, la1, lb);
    }
  }

  // ---------------------------------------------------------------------
  // The value-mismatch branch as written

  /** One iteration of the loop of `Runner.run` with `http.run` as
      written. The run's result is what the corrected run gives, with
      `EXPECTED_VALUE_NOT_FOUND` as a tuple (`HttpCheckAsWrittenDiffers`:
      the request loop and the expansions pass the check's result on
      unchanged); an exception is still caught and converted. Then
      `result.code` is read outside the `try`: for a tuple that raises
      `AttributeError`, which ends `run` itself. Otherwise the iteration is
      the corrected one. */
  function RunOneAsWritten(t: Task, hosts: seq<Host>, st: RtState, w: World, gen: Generator): Result<(TaskResult, Summary, RtState, seq<Call>), string>
  {
    if t.enabled && t.kind.Http? && PyIndex(hosts, t.hostIndex).Some? then
      var (out, _) := HttpRun(t, PyIndex(hosts, t.hostIndex).value, st, w, gen);
      match ReadCodeAsWritten(ReturnedOf(out.result))
      case Err(e) => Err(e)
      case Ok(_) => Ok(RunOne(t, hosts, st, w, Execute(gen)))
    else Ok(RunOne(t, hosts, st, w, Execute(gen)))
  }

  /** The value `result` holds after the `try` of the loop, as written: an
      exception is converted to `UNCLASSIFIED_ERROR`, a returned value is
      kept as returned. Its `.code` raises exactly when the corrected
      result is `EXPECTED_VALUE_NOT_FOUND`. */
  function ReturnedOf(r: Result<TaskResult, string>): (v: Returned)
    ensures ReadCodeAsWritten(v).Err? <==> ResultOf(r).kind == ExpectedValueNotFound
    ensures v.ReturnedResult? ==> v.result == ResultOf(r)
  {
    if r.Err? then ReturnedResult(ResultOf(r)) else AsReturned(r).value
  }

  /** As written, the iteration raises out of `run` exactly when the
      corrected iteration reports `EXPECTED_VALUE_NOT_FOUND`. */
  lemma RunOneAsWrittenRaises(t: Task, hosts: seq<Host>, st: RtState, w: World, gen: Generator)
    ensures RunOneAsWritten(t, hosts, st, w, gen).Err? <==> RunOne(t, hosts, st, w, Execute(gen)).0.kind == ExpectedValueNotFound
  {
    if t.enabled && t.kind.Http? && PyIndex(hosts, t.hostIndex).Some? {
      RunOneHttpResult(t, hosts, st, w, gen);
    } else {
      RunOneNotHttpKind(t, hosts, st, w, gen);
    }
  }

  /** Otherwise the iteration as written is the corrected one. */
  lemma RunOneAsWrittenAgrees(t: Task, hosts: seq<Host>, st: RtState, w: World, gen: Generator)
    ensures RunOneAsWritten(t, hosts, st, w, gen).Ok? ==> RunOneAsWritten(t, hosts, st, w, gen).value == RunOne(t, hosts, st, w, Execute(gen))
  {
  }

  /** A task that is disabled, has a bad host index or is a `docker_exec`
      task is never reported `EXPECTED_VALUE_NOT_FOUND`. */
  lemma RunOneNotHttpKind(t: Task, hosts: seq<Host>, st: RtState, w: World, gen: Generator)
    requires !(t.enabled && t.kind.Http? && PyIndex(hosts, t.hostIndex).Some?)
    ensures RunOne(t, hosts, st, w, Execute(gen)).0.kind != ExpectedValueNotFound
  {
    if t.enabled && PyIndex(hosts, t.hostIndex).Some? {
      RunOneRuns(t, hosts, st, w, gen);
      DockerExecNeverMismatch(t, PyIndex(hosts, t.hostIndex).value, st, w, gen);
    }
  }

  /** A `docker_exec` run is never `EXPECTED_VALUE_NOT_FOUND`. */
  lemma DockerExecNeverMismatch(t: Task, h: Host, st: RtState, w: World, gen: Generator)
    requires t.kind.DockerExec?
    ensures ResultOf(RunTask(t, h, st, w, gen).0.result).kind != ExpectedValueNotFound
  {
    var out := DockerExecRun(t, h, st, w, gen).0;
    var c := Expand(t.kind.command, st, gen).0;
    if c.Ok? && "container-name" in h.cfg && w.failAt != Some(0) {
      assert out.result == ExecResult(w.exitCode, t.kind.outputStream, w.stdout, w.stderr);
    } else {
      assert out.result.Err?;
    }
  }

  /** An enabled `http` task with a valid host index is reported with the
      result of its run. */
  lemma RunOneHttpResult(t: Task, hosts: seq<Host>, st: RtState, w: World, gen: Generator)
    requires t.enabled && t.kind.Http? && PyIndex(hosts, t.hostIndex).Some?
    ensures RunOne(t, hosts, st, w, Execute(gen)).0 == ResultOf(HttpRun(t, PyIndex(hosts, t.hostIndex).value, st, w, gen).0.result)
  {
  }

  /** The input that shows the difference: an enabled `http` task without
      macros, whose one request returns a status in range, no save-field,
      and an expected field holding some value other than the expected
      string. The corrected iteration counts it as a failure with code 3;
      as written, `run` raises `AttributeError`. */
  lemma MismatchEscapesAsWritten(t: Task, hosts: seq<Host>, st: RtState, w: World, gen: Generator)
    requires t.enabled && t.kind.Http? && PyIndex(hosts, t.hostIndex).Some?
    requires '<' !in t.kind.uri && '<' !in t.kind.data && '<' !in t.kind.auth
    requires t.instances > 0 && w.failAt.None?
    requires ConnectHost(st, PyIndex(hosts, t.hostIndex).value.name, PyIndex(hosts, t.hostIndex).value.cfg).Ok?
    requires t.kind.lower <= w.status <= t.kind.upper && t.kind.saveField.None?
    requires t.kind.expectedField.Some? && t.kind.expectedValue.Some? && '<' !in t.kind.expectedValue.value
    requires var v := XPathGet(w.json, t.kind.expectedField.value);
      v != JNull && v != JStr(t.kind.expectedValue.value)
    ensures RunOne(t, hosts, st, w, Execute(gen)).0.kind == ExpectedValueNotFound
    ensures RunOne(t, hosts, st, w, Execute(gen)).0.Code() == 3
    ensures RunOneAsWritten(t, hosts, st, w, gen) == Err("AttributeError: 'tuple' object has no attribute 'code'")
  {
    var h := PyIndex(hosts, t.hostIndex).value;
    var k := t.kind;
    ExpandWithoutAngle(k.uri, st, gen);
    ExpandWithoutAngle(k.data, st, gen);
    ExpandWithoutAngle(k.auth, st, gen);
    var req := HttpCall(k.httpMethod, k.uri, k.data, k.contentType, k.auth);
    assert HttpRun(t, h, st, w, gen) == HttpSend(t, h, st, req, w, gen);
    HttpSendsInstances(t, h, st, req, w, gen);
    var st1 := ConnectHost(st, h.name, h.cfg).value;
    ExpandWithoutAngle(k.expectedValue.value, st1, gen);
    HttpMismatchIsResult(t, st1, w, gen);
    RunOneAsWrittenRaises(t, hosts, st, w, gen);
  }

  // ---------------------------------------------------------------------
  // The generator memo across a run

  /** The field a task expands first: the command of a `docker_exec`
      task, the URI of an `http` task. */
  function FirstField(t: Task): string
  {
    if t.kind.DockerExec? then t.kind.command else t.kind.uri
  }

  /** `run` keeps every memoised value `g` of the runtime, except when the
      task overwrites it. */
  ghost predicate KeepsMemo(run: TaskRun, g: string)
  {
    forall t, h, st, w :: !OverwritesMemo(t, g) ==> MemoKept(st, run(t, h, st, w).1, g)
  }

  /** Running either type of task keeps every memoised value, unless the
      task is an `http` task named `cached` that saves under that key. */
  lemma RunTaskKeepsMemo(t: Task, h: Host, st: RtState, w: World, gen: Generator, g: string)
    requires !OverwritesMemo(t, g)
    ensures MemoKept(st, RunTask(t, h, st, w, gen).1, g)
  {
    if t.kind.DockerExec? {
      DockerExecKeepsMemo(t, h, st, w, gen, g);
    } else {
      HttpRunKeepsMemo(t, h, st, w, gen, g);
    }
  }

  lemma ExecuteKeepsMemo(gen: Generator, g: string)
    ensures KeepsMemo(Execute(gen), g)
  {
    forall t, h, st, w | !OverwritesMemo(t, g)
      ensures MemoKept(st, Execute(gen)(t, h, st, w).1, g)
    {
      RunTaskKeepsMemo(t, h, st, w, gen, g);
    }
  }

  /** One iteration of the loop keeps every memoised value, unless the
      task is an `http` task named `cached` that saves under that key. */
  lemma RunOneKeepsMemo(t: Task, hosts: seq<Host>, st: RtState, w: World, gen: Generator, g: string)
    requires !OverwritesMemo(t, g)
    ensures MemoKept(st, RunOne(t, hosts, st, w, Execute(gen)).2, g)
  {
    ExecuteKeepsMemo(gen, g);
    RunOneKeeps(t, hosts, st, w, Execute(gen), g);
  }

  lemma RunOneKeeps(t: Task, hosts: seq<Host>, st: RtState, w: World, run: TaskRun, g: string)
    requires KeepsMemo(run, g) && !OverwritesMemo(t, g)
    ensures MemoKept(st, RunOne(t, hosts, st, w, run).2, g)
  {
    if t.enabled && PyIndex(hosts, t.hostIndex).Some? {
      var h := PyIndex(hosts, t.hostIndex).value;
      assert RunOne(t, hosts, st, w, run).2 == run(t, h, st, w).1;
    }
  }

  /** `g` is memoised in `memo` as a string, and `st` holds that value. */
  predicate MemoHolds(memo: map<string, Json>, st: RtState, g: string)
  {
    g in memo && memo[g].JStr? && g in Cache(st) && Cache(st)[g] == memo[g]
  }

  /** `run` keeps, after a task whose first field expands, every value
      that expansion memoised, except when the task overwrites it. */
  ghost predicate KeepsFirstFieldMemo(run: TaskRun, gen: Generator, g: string)
  {
    forall t, h, st, w {:trigger Expand(FirstField(t), st, gen), run(t, h, st, w)} ::
      Expand(FirstField(t), st, gen).0.Ok? && !OverwritesMemo(t, g)
      ==> MemoKept(Expand(FirstField(t), st, gen).1, run(t, h, st, w).1, g)
  }

  /** A task whose first field expands keeps, through its run on a host,
      every value that expansion memoised, unless it overwrites it. */
  lemma RunTaskKeepsFirstFieldMemo(t: Task, h: Host, st: RtState, w: World, gen: Generator, g: string)
    requires Expand(FirstField(t), st, gen).0.Ok? && !OverwritesMemo(t, g)
    ensures MemoKept(Expand(FirstField(t), st, gen).1, RunTask(t, h, st, w, gen).1, g)
  {
    if t.kind.Http? {
      HttpRunKeepsMemo(t, h, st, w, gen, g);
    } else {
      assert DockerExecRun(t, h, st, w, gen).1 == Expand(t.kind.command, st, gen).1;
    }
  }

  lemma ExecuteKeepsFirstFieldMemo(gen: Generator, g: string)
    ensures KeepsFirstFieldMemo(Execute(gen), gen, g)
  {
    forall t, h, st, w | Expand(FirstField(t), st, gen).0.Ok? && !OverwritesMemo(t, g)
      ensures MemoKept(Expand(FirstField(t), st, gen).1, Execute(gen)(t, h, st, w).1, g)
    {
      RunTaskKeepsFirstFieldMemo(t, h, st, w, gen, g);
    }
  }

  /** A task that runs and whose first field holds `<general:g>` and
      expands leaves, after its run, the string that expansion memoised. */
  lemma RunOneMemoises(t: Task, hosts: seq<Host>, st: RtState, w: World, gen: Generator, g: string)
    requires t.enabled && PyIndex(hosts, t.hostIndex).Some?
    requires IsWord(g) && GeneralToken(g) in FindMacros(FirstField(t))
    requires Expand(FirstField(t), st, gen).0.Ok? && !OverwritesMemo(t, g)
    ensures var memo := Cache(Expand(FirstField(t), st, gen).1);
      var st' := RunOne(t, hosts, st, w, Execute(gen)).2;
      && g in memo && memo[g].JStr? && g in Cache(st') && Cache(st')[g] == memo[g]
  {
    ExpandMemoises(FirstField(t), st, gen, g);
    RunOneRuns(t, hosts, st, w, gen);
    RunTaskKeepsFirstFieldMemo(t, PyIndex(hosts, t.hostIndex).value, st, w, gen, g);
  }

  /** An enabled task with a valid host index leaves the state its run
      leaves. */
  lemma RunOneRuns(t: Task, hosts: seq<Host>, st: RtState, w: World, gen: Generator)
    requires t.enabled && PyIndex(hosts, t.hostIndex).Some?
    ensures var (out, st1) := RunTask(t, PyIndex(hosts, t.hostIndex).value, st, w, gen);
      RunOne(t, hosts, st, w, Execute(gen)).0 == ResultOf(out.result) && RunOne(t, hosts, st, w, Execute(gen)).2 == st1
  {
  }

  /** Between tasks `i` and `j`, none of which overwrites it, the memoised
      value of `g` is kept, for any way of running a task that keeps it. */
  lemma {:induction false} MemoKeptAcross(tasks: seq<Task>, hosts: seq<Host>, st: RtState, worlds: seq<World>, run: TaskRun,
                                          g: string, i: nat, j: nat)
    requires |worlds| == |tasks| && i <= j <= |tasks| && KeepsMemo(run, g)
    requires forall k :: i <= k < j ==> !OverwritesMemo(tasks[k], g)
    ensures MemoKept(StateBefore(tasks, hosts, st, worlds, run, i), StateBefore(tasks, hosts, st, worlds, run, j), g)
    decreases j - i
  {
    if i < j {
      MemoKeptAcross(tasks, hosts, st, worlds, run, g, i, j - 1);
      var before := StateBefore(tasks, hosts, st, worlds, run, j - 1);
      StateBeforeStep(tasks, hosts, st, worlds, run, j - 1);
      RunOneKeeps(tasks[j - 1], hosts, before, worlds[j - 1], run, g);
    }
  }

  /** A string memoised for `g` in `memo` and held before task `i` is
      what `<general:g>` expands to before any later task `j`, when no task
      in between overwrites it. */
  lemma MemoReadLater(tasks: seq<Task>, hosts: seq<Host>, st: RtState, worlds: seq<World>, run: TaskRun,
                      gen2: Generator, g: string, memo: map<string, Json>, i: nat, j: nat)
    requires |worlds| == |tasks| && i <= j <= |tasks| && KeepsMemo(run, g) && IsWord(g)
    requires forall k :: i <= k < j ==> !OverwritesMemo(tasks[k], g)
    requires MemoHolds(memo, StateBefore(tasks, hosts, st, worlds, run, i), g)
    ensures var later := StateBefore(tasks, hosts, st, worlds, run, j);
      Expand(GeneralToken(g), later, gen2) == (Ok(memo[g].s), later)
  {
    MemoKeptAcross(tasks, hosts, st, worlds, run, g, i, j);
    GeneralExpandsToMemo(g, StateBefore(tasks, hosts, st, worlds, run, j), gen2);
  }

  /** Every reference to `<general:g>` within one run reads one value:
      once task `i` has expanded the macro, a later task `j` finds the
      value it memoised and expands `<general:g>` to that same string,
      changing nothing and calling no generator, unless a task in between
      overwrote the memo entry. */
  lemma GeneralSameAcrossRun(tasks: seq<Task>, hosts: seq<Host>, st: RtState, worlds: seq<World>, gen: Generator,
                             gen2: Generator, g: string, i: nat, j: nat)
    requires |worlds| == |tasks| && i < j <= |tasks| && IsWord(g)
    requires tasks[i].enabled && PyIndex(hosts, tasks[i].hostIndex).Some?
    requires GeneralToken(g) in FindMacros(FirstField(tasks[i]))
    requires Expand(FirstField(tasks[i]), StateBefore(tasks, hosts, st, worlds, Execute(gen), i), gen).0.Ok?
    requires forall k :: i <= k < j ==> !OverwritesMemo(tasks[k], g)
    ensures var memo := Cache(Expand(FirstField(tasks[i]), StateBefore(tasks, hosts, st, worlds, Execute(gen), i), gen).1);
      var later := StateBefore(tasks, hosts, st, worlds, Execute(gen), j);
      && g in memo && memo[g].JStr?
      && Expand(GeneralToken(g), later, gen2) == (Ok(memo[g].s), later)
  {
    ExpandMemoises(FirstField(tasks[i]), StateBefore(tasks, hosts, st, worlds, Execute(gen), i), gen, g);
    ExecuteKeepsMemo(gen, g);
    ExecuteKeepsFirstFieldMemo(gen, g);
    MemoAfterTask(tasks, hosts, st, worlds, Execute(gen), gen, g, i);
    var memo := Cache(Expand(FirstField(tasks[i]), StateBefore(tasks, hosts, st, worlds, Execute(gen), i), gen).1);
    MemoReadLater(tasks, hosts, st, worlds, Execute(gen), gen2, g, memo, i + 1, j);
  }

  /** Task `i`, whose first field expands, leaves before task `i + 1`
      every value that expansion memoised, unless it overwrites it. */
  lemma MemoAfterTask(tasks: seq<Task>, hosts: seq<Host>, st: RtState, worlds: seq<World>, run: TaskRun, gen: Generator,
                      g: string, i: nat)
    requires |worlds| == |tasks| && i < |tasks| && KeepsFirstFieldMemo(run, gen, g)
    requires tasks[i].enabled && PyIndex(hosts, tasks[i].hostIndex).Some?
    requires Expand(FirstField(tasks[i]), StateBefore(tasks, hosts, st, worlds, run, i), gen).0.Ok?
    requires !OverwritesMemo(tasks[i], g)
    ensures MemoKept(Expand(FirstField(tasks[i]), StateBefore(tasks, hosts, st, worlds, run, i), gen).1,
                     StateBefore(tasks, hosts, st, worlds, run, i + 1), g)
  {
    var before := StateBefore(tasks, hosts, st, worlds, run, i);
    StateBeforeStep(tasks, hosts, st, worlds, run, i);
    var h := PyIndex(hosts, tasks[i].hostIndex).value;
    assert RunOne(tasks[i], hosts, before, worlds[i], run).2 == run(tasks[i], h, before, worlds[i]).1;
  }
}
