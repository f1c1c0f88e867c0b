# apptometrist routine engine and monitor agent, modelled in Dafny

apptometrist checks that containerised applications behave as expected.

- A **routine** is a list of tasks. Each task is either a `docker_exec` command, run inside the container, or an `http` request, whose status and JSON body are checked.
- It runs against a **host set**.
- A **runner** runs the tasks in order with one shared **runtime**. The runtime holds saved response fields, a connection per host and a memo of generated values, and it expands `<class:name[:args]>` macros in task fields.
- The runner produces a report:
  - how many tasks passed and failed;
  - one summary per task.
- The **monitor agent** keeps a monitoring server in step with the local docker containers:
  - it posts clients for new containers;
  - it creates a check timer per container that has a configured frequency;
  - it deletes clients (and their timers) whose container has gone;
  - it turns a routine's report into a check result.

The model covers the following.

- Task construction and validation (`Tasks`).
- Python's string built-ins that the code relies on (`PyText`):
  - `split`, `strip` and `replace`;
  - `int()` and `str()` on integers;
  - the `\w` character class;
  - list indexing with negative indices.
- `xpath_get` and `get_time_diff` (`SsUtils`).
- The runtime (`Macros`):
  - a class whose `values` map is updated in place;
  - token finding, token resolution and the expansion loop, specified by functions.
- What one run of each task type does, and how routines and host sets are built (`Execution`).
- `Runner.run` (`RoutineRunner`).
- The reconciliation pass, the timer table and the check result (`MonitorAgent`).

Effects become parameters:

- the docker exec result and the HTTP response (a `World` per task);
- the generator behind `<general:rand_string>`, a function of the macro name and the number of draws so far;
- the clock readings;
- the docker container listing, the server's client list, this host's name and the configured frequency rules;
- the regular-expression match, an abstract `matches(pattern, name)`.

Each imperative piece of the source is a method proved against a specification function:

- `Runtime.ExpandMacros`, `Runner.Run`, `Agent.Update`;
- `NewRoutine`, `NewHostSet`, `XPathGetLoop`.

The properties of each piece are lemmas about that function.

Python exceptions are `Err` values carrying the exception's class and a message. The model keeps which exception is raised and where. Messages are simplified where they would quote `repr` output.

## Model

| member | source | states |
|---|---|---|
| PyText.Split | routine_runner.py:145-147 | `str.split(sep)` always yields at least one piece |
| PyText.SplitPiecesLackSeparator | routine_runner.py:145 | no piece of a split contains the separator |
| PyText.JoinSplit | routine_runner.py:145 | joining the pieces with the separator gives back the string (split keeps empty pieces) |
| PyText.SplitAtSeparator | routine_runner.py:145 | a string `a + sep + b`, with no separator in `a`, splits into `a` followed by the pieces of `b` |
| PyText.SplitWithoutSeparator | routine_runner.py:145 | a string without the separator splits into itself alone |
| PyText.StripChar | lib/ss_utils.py:79 | `strip("/")` never lengthens the string and leaves no `/` at either end |
| PyText.StripCharWithout | lib/ss_utils.py:79 | stripping a character that does not occur changes nothing |
| PyText.StripSpace | routine_runner.py:145 | `int()` ignores surrounding whitespace; the stripped text has none at either end |
| PyText.StripSpaceIsInfix | routine_runner.py:145 | stripping whitespace introduces no new character |
| PyText.ParseInt | routine_runner.py:145-147 | `int(s)` succeeds only on text that contains a digit |
| PyText.ParseIntNeedsDigit | lib/ss_utils.py:80-83 | text without digits raises `ValueError` in `int()`, so `xpath_get` treats it as a map key |
| PyText.ParseIntToString | routine_runner.py:193 | `int(str(n)) == n` for every integer, negative ones included |
| PyText.NatToString | routine_runner.py:193 | `str(n)` of a natural number is a non-empty run of digits |
| PyText.DigitsOfNatToString | routine_runner.py:193 | the digits of `str(n)` denote `n` |
| PyText.NatToStringChars | routine_runner.py:145 | `str(n)` contains neither `/` nor `-`, so it survives a path split or a range split whole |
| PyText.IntToString | routine_runner.py:193 | `str(n)` of any integer is non-empty |
| PyText.IntToStringNoSlash | lib/ss_utils.py:79 | `str(i)` of any integer contains no `/`, so it is one path segment |
| PyText.ReplaceAbsent | routine_runner.py:378 | `str.replace` with a pattern that does not occur leaves the string unchanged |
| PyText.ReplaceWhole | routine_runner.py:378 | replacing a whole string that is the pattern gives the replacement |
| PyText.PyIndex | routine_runner.py:301 | list indexing succeeds exactly for `-len <= i < len`; a negative index counts from the end |
| SsUtils.Step | lib/ss_utils.py:80-84 | one step from `None` always raises (it is neither indexable nor has `.get`) |
| SsUtils.Segments | lib/ss_utils.py:79 | a path yields at least one segment, and no segment contains `/` |
| SsUtils.WalkFrom | lib/ss_utils.py:79-88 | the walk over the segments; its properties are the WalkFrom lemmas below |
| SsUtils.XPathGet | lib/ss_utils.py:76-88 | `xpath_get`: strip `/`, split on `/` and walk; stated by the lemmas below |
| SsUtils.IntPath | lib/ss_utils.py:79-81 | the path `str(i)` is the single segment `str(i)`, and `int()` reads `i` back from it |
| SsUtils.XPathGetLoop | lib/ss_utils.py:76-88 | the loop that reassigns `elem` step by step returns what the traversal specification gives |
| SsUtils.WalkFromResolved | lib/ss_utils.py:79-84 | a path whose every segment resolves returns the nested element |
| SsUtils.WalkFromStopsAtFailure | lib/ss_utils.py:77-88 | when step `k` fails, the result is the element reached after the first `k` steps, not `None` |
| SsUtils.WalkFromNull | lib/ss_utils.py:84-88 | once the element is `None`, every further segment keeps it `None` |
| SsUtils.MissingKeyYieldsNull | lib/ss_utils.py:84 | a missing map key gives `None`, whatever segments follow |
| SsUtils.SingleKeyIsGet | lib/ss_utils.py:79-84 | a single non-numeric key, with or without surrounding slashes, is `mydict.get(key)` |
| SsUtils.IndexSegment | lib/ss_utils.py:80-82 | an integer segment, negative ones included, indexes a list or a string as Python does; out of range, or on an object or any other value, the walk stops and returns that element |
| SsUtils.TimeDiffMs | lib/ss_utils.py:99-100 | the difference in milliseconds is in 0..999 and brackets the microseconds component of the difference |
| SsUtils.TimeDiffIgnoresSeconds | lib/ss_utils.py:99-100 | whole seconds in the difference do not change the result |
| SsUtils.TimeDiffSubSecond | lib/ss_utils.py:99-100 | a non-negative difference under one second gives its microseconds divided by 1000 |
| SsUtils.TimeDiffBackwards | lib/ss_utils.py:99-100 | an end one microsecond before the start gives 999, not a negative number |
| Tasks.CodeSignMatchesName | routine_runner.py:229-242 | code 0 is exactly SUCCESS, a negative code exactly SKIPPED, every other result a positive code; names identify results |
| Tasks.TaskTypeNamed | routine_runner.py:41-45 | only `docker_exec` and `http` name task classes |
| Tasks.GeneralFields | routine_runner.py:55-63 | the general fields with their defaults, or the general error; stated by GeneralFieldsOfNewTask |
| Tasks.ParseStatusRange | routine_runner.py:144-149 | `expected-status` split on `-`; stated by the StatusRange lemmas |
| Tasks.NewDockerExec | routine_runner.py:95-107 | the `docker_exec` constructor; stated by DockerExecNeedsCommand |
| Tasks.NewHttp | routine_runner.py:133-159 | the `http` constructor; stated by HttpConstruction and InstancesWithSaveFieldRefused |
| Tasks.NewTask | routine_runner.py:55-69 | `task_class(cfg)` for the two classes; stated by GeneralFieldsOfNewTask |
| Tasks.GeneralFieldsOfNewTask | routine_runner.py:55-63 | a missing `name` or `description` fails construction; otherwise `host-index` 0, `enabled` true and `instances` 1 unless given, and the class matches the type |
| Tasks.DockerExecNeedsCommand | routine_runner.py:66-107 | a `docker_exec` task is built exactly when `name`, `description` and `command` are present; without `command` the type-specific error is raised |
| Tasks.HttpConstruction | routine_runner.py:132-165 | an `http` task is built exactly when the general fields, `request.uri`, `request.method` and a parseable `expected-status` are present and the instances/save-field constraint holds; the bounds are the parse of the spec |
| Tasks.StatusRangeOfPair | routine_runner.py:144-147 | `"N-M"` gives lower N and upper M |
| Tasks.StatusRangeOfSingle | routine_runner.py:144-149 | a bare `"N"` gives lower = upper = N |
| Tasks.StatusRangeOfNegative | routine_runner.py:144-145 | `"-N"` fails construction: its first piece is empty, and `int("")` raises |
| Tasks.InstancesWithSaveFieldRefused | routine_runner.py:157-159 | an `http` task with `instances > 1` and a `save-field` is refused |
| Tasks.ReadCodeAsWritten | routine_runner.py:309 | reading `.code` succeeds exactly on a `TaskResult` and gives its code; on the tuple the mismatch branch returns, it raises `AttributeError` |
| Macros.FindMacros | routine_runner.py:356-357 | every token found has at least 5 characters (`<a:b>`) |
| Macros.FindMacrosSound | routine_runner.py:356-357 | every string `findall` returns is a whole `<\w+:[\w:]+>` token occurring in the string searched |
| Macros.FindMacrosEmptyIff | routine_runner.py:356-357 | `findall` finds nothing exactly when no token occurs in the string |
| Macros.NoAngleNoToken | routine_runner.py:356 | a string without `<` holds no token |
| Macros.FindTokenAfterPlainText | routine_runner.py:356-357 | for `a` without `<` and a token `t`, the tokens of `a + t + b` are `t` followed by the tokens of `b` |
| Macros.TokenFoundAlone | routine_runner.py:356-357 | a string that is exactly one `<\w+:[\w:]+>` token is found as that single token |
| Macros.Chunks | routine_runner.py:360 | the list of chunks is never empty (a chunk itself may be, as in `<a::b>`) |
| Macros.ResolveToken | routine_runner.py:360-376 | one token's value: the `task` and `general` branches, and `expanded` left over from the previous token for any other class; stated by ResolveTokenKeepsEntries and the General/Task lemmas |
| Macros.TaskValue | routine_runner.py:367-370 | `values[T][k]` resolves exactly when `T` holds saved fields with a string under `k`, and is that string |
| Macros.GeneralValue | routine_runner.py:371-376 | the memoised value, or a fresh draw that is memoised; stated by GeneralValueKeepsEntries, GeneralFirstUse and GeneralReadsMemo |
| Macros.Expand | routine_runner.py:353-380 | `expand_macros`; stated by ExpandWithoutToken, ExpandKeepsEntries, ExpandSingleToken and ExpandMemoises |
| Macros.Save | routine_runner.py:346-351 | `save_value`; stated by SaveThenExpand, SaveOverwrites and SaveFailsOnConnection |
| Macros.ConnectHost | routine_runner.py:182-187 | the connection entry made on first use; stated by ConnectIdempotent and ConnectKeepsMemo |
| Macros.ExpandWithoutToken | routine_runner.py:353-380 | a string in which no `<\w+:[\w:]+>` token occurs is returned unchanged, and the runtime is untouched, whatever other `<` it holds |
| Macros.ExpandWithoutAngle | routine_runner.py:353-380 | in particular a string without `<` is returned unchanged with the runtime untouched |
| Macros.ResolveTokenKeepsEntries | routine_runner.py:357-376 | resolving one token changes no entry but the memo, keeps every memoised value and never lowers the draw count |
| Macros.GeneralValueKeepsEntries | routine_runner.py:371-376 | the `general` branch only adds to the memo |
| Macros.ExpandFromKeepsEntries | routine_runner.py:357-378 | the expansion loop keeps every entry but the memo, and every memoised value |
| Macros.ExpandKeepsEntries | routine_runner.py:353-380 | `expand_macros` keeps every saved value and connection, and every memoised value |
| Macros.ExpandSingleToken | routine_runner.py:353-380 | a string that is one token expands to that token's value |
| Macros.GeneralTokenParts | routine_runner.py:356-366 | `<general:g>` is found alone and splits into `general`, `g` |
| Macros.TaskTokenParts | routine_runner.py:356-366 | `<task:T:k>` is found alone and splits into `task`, `T`, `k` |
| Macros.GeneralFirstUse | routine_runner.py:371-376 | the first `<general:rand_string>` calls the generator once and memoises the value |
| Macros.GeneralResolvedMemo | routine_runner.py:371-376 | after a `general` token resolves, its value is in the memo |
| Macros.GeneralReadsMemo | routine_runner.py:372-373 | a memoised value is read back without calling the generator |
| Macros.GeneralMemoised | routine_runner.py:371-376 | expanding a `general` macro a second time in the same runtime gives the identical value and state, whatever the generator would give |
| Macros.GeneralExpandsToMemo | routine_runner.py:371-373 | `<general:g>` with a string memoised for `g` expands to it, changes nothing and ignores the generator |
| Macros.SaveKeepsMemo | routine_runner.py:346-351 | a save keeps every memoised value, unless it is a save into `cached` under that very key |
| Macros.ConnectKeepsMemo | routine_runner.py:182-187 | making a connection keeps every memoised value |
| Macros.ExpandMemoises | routine_runner.py:353-380 | an expansion that succeeds on a string in which `<general:g>` occurs leaves a string memoised for `g` |
| Macros.TaskMacroUnresolved | routine_runner.py:367-370 | `<task:T:k>` with nothing saved under `T` or `k` raises and changes nothing |
| Macros.SaveThenExpand | routine_runner.py:346-370 | a value saved under (task, key) is what `<task:T:k>` expands to |
| Macros.SaveOverwrites | routine_runner.py:346-351 | a second save under the same (task, key) overwrites the first and touches no other key or entry |
| Macros.SaveFailsOnConnection | routine_runner.py:346-351 | a save fails exactly when the task's name holds a connection |
| Macros.Runtime.constructor | routine_runner.py:342-343 | a new runtime holds only the empty memo |
| Macros.Runtime.SaveValue | routine_runner.py:346-351 | updates `values` in place as the save specification says |
| Macros.Runtime.Connect | routine_runner.py:182-188 | creates the host's connection entry only when missing |
| Macros.Runtime.ResolveMacro | routine_runner.py:357-378 | one iteration of the expansion loop resolves the token as specified and updates the memo in place |
| Macros.Runtime.GeneralMacro | routine_runner.py:371-376 | the `general` branch reads the memo or draws once and memoises |
| Macros.Runtime.ExpandMacros | routine_runner.py:353-380 | the expansion loop returns, and leaves the runtime in, what the expansion specification gives |
| Execution.ExecResult | routine_runner.py:125-130 | exit code 0 is SUCCESS "OK"; otherwise UNCLASSIFIED_ERROR with the configured stream's text, and an unknown stream raises |
| Execution.DockerExecRun | routine_runner.py:109-130 | `docker_exec.run`; stated by DockerExecOutcome and DockerExecKeepsMemo |
| Execution.RunDockerExec | routine_runner.py:109-130 | the exec run expands the command, builds the command line and maps the exit code as specified |
| Execution.HttpRequests | routine_runner.py:181-189 | the request loop; stated by HttpRequestsPerInstance and HttpRequestsKeepMemo |
| Execution.HttpExpect | routine_runner.py:212-224 | the expected-field check as evidently intended, comparing through `ExpectedCheck`; stated by HttpExpectSuccess, HttpMismatchIsResult and HttpExpectKeepsSaved |
| Execution.ExpectedCheckMismatch | routine_runner.py:216-222 | a field that holds a value other than the expected string gives EXPECTED_VALUE_NOT_FOUND with the mismatch detail |
| Execution.ExpectedCheckAsWrittenDiffers | routine_runner.py:216-222 | the comparison as written is the corrected one passed through `AsReturned`: only the mismatch comes back as a pair |
| Execution.HttpCheck | routine_runner.py:192-224 | the status, save-field and expected-field checks; stated by StatusOutsideRange and HttpCheckSuccess |
| Execution.HttpRun | routine_runner.py:167-224 | `http.run`; stated by HttpSendsInstances, HttpNoInstances and HttpRunKeepsMemo |
| Execution.HttpExpectAsWritten | routine_runner.py:212-224 | the expected-field check as written, the mismatch branch returning the pair `(EXPECTED_VALUE_NOT_FOUND, detail)` |
| Execution.AsReturned | routine_runner.py:212-224 | a corrected check's outcome as the as-written one returns it: a result stays a result, an exception stays an exception |
| Execution.HttpExpectAsWrittenDiffers | routine_runner.py:220-222 | the as-written check is the corrected one except that a mismatch comes back as the pair, not a `TaskResult` |
| Execution.HttpCheckAsWritten | routine_runner.py:192-224 | the response checks as written, ending in the as-written expected-field check |
| Execution.HttpCheckAsWrittenDiffers | routine_runner.py:192-224 | likewise for the whole response check, and the state afterwards is the same |
| Execution.DockerExecOutcome | routine_runner.py:109-130 | one call `docker exec [--user u] [--privileged] <container> <command>`; start and end recorded; the result follows the exit code and the stream |
| Execution.SendRequests | routine_runner.py:181-189 | the request loop connects on first use and sends once per instance, as specified |
| Execution.CheckExpected | routine_runner.py:212-224 | the expected-field check, as specified |
| Execution.CheckResponse | routine_runner.py:192-224 | the response checks, as specified |
| Execution.RunHttp | routine_runner.py:167-224 | an `http` run expands uri, data and auth, sends, then checks, as specified |
| Execution.SendAndCheck | routine_runner.py:180-224 | sending and checking, as specified |
| Execution.ConnectIdempotent | routine_runner.py:182-188 | a host's connection is created once and reused |
| Execution.HttpRequestsPerInstance | routine_runner.py:181-189 | without failures, `instances` identical requests are sent over the one connection |
| Execution.StatusOutsideRange | routine_runner.py:192-194 | a status outside the range is UNEXPECTED_HTTP_STATUS (code 1), its detail contains the status, and nothing is saved |
| Execution.HttpCheckSuccess | routine_runner.py:192-210 | SUCCESS implies the status was in range and any save-field was found and saved |
| Execution.HttpExpectSuccess | routine_runner.py:212-224 | SUCCESS with an expected field implies the field held exactly the expanded expected string |
| Execution.HttpExpectKeepsSaved | routine_runner.py:212-216 | the expected-field check never loses a saved value |
| Execution.HttpMismatchIsResult | routine_runner.py:220-222 | a mismatching field gives EXPECTED_VALUE_NOT_FOUND (code 3) with the field named in the detail |
| Execution.HttpSendsInstances | routine_runner.py:180-190 | with `instances > 0`, that many requests are sent, both times recorded, then the last response is checked |
| Execution.HttpNoInstances | routine_runner.py:181-192 | with `instances <= 0`, nothing is sent and `response` is unbound, so the run raises |
| Execution.HttpRequestsKeepMemo | routine_runner.py:181-189 | the request loop keeps every memoised value |
| Execution.HttpExpectKeepsMemo | routine_runner.py:212-224 | the expected-field check keeps every memoised value |
| Execution.HttpCheckKeepsMemo | routine_runner.py:192-224 | the response checks keep every memoised value unless the task is named `cached` and saves under that key |
| Execution.HttpRunKeepsMemo | routine_runner.py:167-224 | an `http` run keeps every memoised value, under the same exception, both overall and from the expansion of the uri on |
| Execution.DockerExecKeepsMemo | routine_runner.py:109-130 | a `docker_exec` run keeps every memoised value |
| Execution.NewHost | routine_runner.py:262-266 | a host is built exactly when its config has `name` |
| Execution.Kept | routine_runner.py:255-260 | a task config contributes its task when construction succeeds, and nothing otherwise |
| Execution.NewRoutine | routine_runner.py:245-260 | the loop appending tasks builds what the routine specification gives |
| Execution.NewHostSet | routine_runner.py:268-279 | the loop appending hosts builds what the host-set specification gives |
| Execution.BuildTasks | routine_runner.py:250-260 | the task loop of `Routine`; stated by the BuildTasks lemmas |
| Execution.BuildHosts | routine_runner.py:273-279 | the host loop of `HostSet`; stated by the BuildHosts lemmas |
| Execution.BuildTasksFails | routine_runner.py:250-254 | the routine fails exactly when some task names an unknown type |
| Execution.BuildTasksAppend | routine_runner.py:250-260 | building is piecewise over concatenated task lists, so input order is kept |
| Execution.BuildTasksOne | routine_runner.py:250-260 | one config gives its task, or nothing when construction raises |
| Execution.BuildTasksShape | routine_runner.py:255-260 | no more tasks than configs, and each kept task is a config's construction |
| Execution.BuildTasksAllBuild | routine_runner.py:250-260 | when every config builds, the routine holds all of them, in order |
| Execution.BuildHostsAppend | routine_runner.py:273-279 | building hosts is piecewise, so input order is kept |
| Execution.BuildHostsShape | routine_runner.py:273-279 | no more hosts than configs; each kept host is a named config; all named keeps all, none named keeps none |
| RoutineRunner.HostNames | routine_runner.py:293 | the `hosts` field lists the host names, one per host, in order |
| RoutineRunner.ResultOf | routine_runner.py:300-305 | an exception becomes UNCLASSIFIED_ERROR `Task Exception: <message>`; stated by ExceptionIsUnclassified |
| RoutineRunner.SummaryOf | routine_runner.py:318-331 | the summary of a task; stated by SummariesInOrder |
| RoutineRunner.RunOne | routine_runner.py:298-307 | one iteration of the loop; stated by DisabledIsSkipped, BadHostIndex and ExceptionIsUnclassified |
| RoutineRunner.RunTasks | routine_runner.py:298-332 | the loop of `run`; stated by SummaryPerTask, RunCounts and RunTasksAppend |
| RoutineRunner.CountResult | routine_runner.py:309-316 | a count of results never exceeds the number of summaries |
| RoutineRunner.Runner.constructor | routine_runner.py:282-286 | a runner owns a fresh runtime |
| RoutineRunner.Runner.RunStep | routine_runner.py:299-307 | one iteration: skipped, host index failure, or the task's run, as specified, for a `run` that runs every task as `RunTask` does (`RunsTasks`) |
| RoutineRunner.Runner.Run | routine_runner.py:288-334 | the loop with its counters builds the report the run specification gives, and leaves the runtime in its final state; stated for any `run` that runs every task as `RunTask` does, which RunTasksAgree ties to `Execute(gen)` |
| RoutineRunner.RunOneAgrees | routine_runner.py:299-307 | one loop iteration gives the same result, summary, state and calls under every `run` that runs tasks as `RunTask` does |
| RoutineRunner.RunTasksAgree | routine_runner.py:298-332 | the whole run is the same under every `run` that runs tasks as `RunTask` does, so the loop's report is that of `Execute(gen)` |
| RoutineRunner.SummaryPerTask | routine_runner.py:298-332 | one summary per task; summary `i` is task `i` run on the state the earlier tasks left |
| RoutineRunner.SummariesInOrder | routine_runner.py:321-332 | each summary carries its own task's name, type, description, instances and host index, in routine order |
| RoutineRunner.DisabledIsSkipped | routine_runner.py:306-307 | a disabled task is SKIPPED, is not run, and has no times |
| RoutineRunner.BadHostIndex | routine_runner.py:300-305 | a host index outside the host list becomes UNCLASSIFIED_ERROR |
| RoutineRunner.ExceptionIsUnclassified | routine_runner.py:300-305 | an exception from a task becomes UNCLASSIFIED_ERROR with detail `Task Exception: <message>` |
| RoutineRunner.RunCounts | routine_runner.py:309-316 | passed counts SUCCESS; failed counts everything but SUCCESS and SKIPPED; passed + failed <= tasks |
| RoutineRunner.DockerExecNeverMismatch | routine_runner.py:109-130 | a `docker_exec` run never reports EXPECTED_VALUE_NOT_FOUND |
| RoutineRunner.RunOneHttpResult | routine_runner.py:299-304 | the result of an enabled `http` task with a valid host is that of `http.run`, an exception turned into UNCLASSIFIED_ERROR |
| RoutineRunner.RunOneNotHttpKind | routine_runner.py:299-307 | a disabled task, a bad host index or a `docker_exec` task never gives EXPECTED_VALUE_NOT_FOUND |
| RoutineRunner.DockerExecCounts | routine_runner.py:125-130 | a `docker_exec` task whose command returns is counted as passed exactly when its exit code is 0, and as failed otherwise |
| RoutineRunner.DockerExecCode | routine_runner.py:125-130 | such a task's result code is 0 exactly when its exit code is 0, and never negative |
| RoutineRunner.RunTasksOfCode | routine_runner.py:309-314 | a task with a non-negative code is counted exactly once: as passed when the code is 0, as failed otherwise |
| RoutineRunner.RunTasksAppend | routine_runner.py:298-332 | running two task lists in turn is running their concatenation |
| RoutineRunner.ReturnedOf | routine_runner.py:302 | what `task.run` returns as written: reading `.code` from it raises exactly when the corrected result is EXPECTED_VALUE_NOT_FOUND, and it is otherwise that result |
| RoutineRunner.RunOneAsWritten | routine_runner.py:298-309 | one iteration as written, where the code is read outside the `try` |
| RoutineRunner.RunOneAsWrittenRaises | routine_runner.py:302-309 | as written, the iteration raises out of `run` exactly when the corrected one reports EXPECTED_VALUE_NOT_FOUND |
| RoutineRunner.RunOneAsWrittenAgrees | routine_runner.py:298-309 | otherwise the iteration as written is the corrected one |
| RoutineRunner.MismatchEscapesAsWritten | routine_runner.py:220-222 | an `http` task whose expected field holds another value is EXPECTED_VALUE_NOT_FOUND (code 3) when corrected, and as written raises `AttributeError` out of `run` |
| RoutineRunner.RunOneKeepsMemo | routine_runner.py:298-307 | one iteration keeps every memoised value unless the task is named `cached` and saves under that key |
| RoutineRunner.RunOneMemoises | routine_runner.py:298-307 | when a task's first expanded field (the command or the uri) holds `<general:g>` and expands, the string memoised for `g` is still memoised after the task, unless the task overwrites it |
| RoutineRunner.ExecuteKeepsMemo | routine_runner.py:298-307 | running a task of either type keeps every memoised value unless the task is named `cached` and saves under that key |
| RoutineRunner.ExecuteKeepsFirstFieldMemo | routine_runner.py:298-307 | what the expansion of a task's first field memoises is still there after the task, under the same exception |
| RoutineRunner.MemoKeptAcross | routine_runner.py:298-332 | a memoised value survives every later task of the run that does not overwrite it, for any task-run that keeps memoised values (`Execute(gen)` does, by ExecuteKeepsMemo) |
| RoutineRunner.MemoAfterTask | routine_runner.py:298-307 | the memo made while expanding task `i`'s first field is still in the state before task `i + 1` |
| RoutineRunner.MemoReadLater | routine_runner.py:353-380 | a string memoised before task `i` is what `<general:g>` expands to, with no draw and no change of state, before any later task `j` that no task in between overwrites |
| RoutineRunner.GeneralSameAcrossRun | routine_runner.py:298-332 | the value `<general:g>` gets in task `i` is what `<general:g>` expands to, with no draw, in the state before any later task `j`, whatever the generator, when no task in between is a `cached` save under `g` |
| MonitorAgent.ContainerName | monitor_agent.py:44-45 | a container without names raises; otherwise the result is the first name without its first character (empty for an empty name) |
| MonitorAgent.ContainerNameStripsSlash | monitor_agent.py:44-45 | `/name` is read back as `name` |
| MonitorAgent.Names | monitor_agent.py:81 | the names of all containers, in order, or a failure when any container has no name |
| MonitorAgent.CheckFreq | monitor_agent.py:67-72 | the seconds of the first rule, in order, that matches the whole name; `None` exactly when no rule matches |
| MonitorAgent.ClientNames | monitor_agent.py:84 | all client names, whatever their address |
| MonitorAgent.AddFrom | monitor_agent.py:86-101 | the first loop of `update`; stated by FalsyFrequencySkipped, AddFromPosts and AddFromTimers |
| MonitorAgent.FalsyFrequencySkipped | monitor_agent.py:89-92 | a container whose frequency is `None` or 0 gets neither a post nor a timer |
| MonitorAgent.AddFromPosts | monitor_agent.py:94-97 | exactly the containers with a frequency and no client of that name among all clients are posted, in order |
| MonitorAgent.AddFromTimers | monitor_agent.py:99-101 | afterwards every container with a frequency has a timer; existing entries are unchanged; new entries belong to such containers |
| MonitorAgent.AddFromKeepsTimers | monitor_agent.py:99-101 | a timer that exists before the first loop is there unchanged after it |
| MonitorAgent.AddFromCoversTimers | monitor_agent.py:99-101 | after the first loop every container with a truthy frequency has a timer |
| MonitorAgent.AddFromNewTimers | monitor_agent.py:99-101 | every timer the first loop adds is made from a container of that name with a truthy frequency |
| MonitorAgent.DeleteOnlyStale | monitor_agent.py:105-113 | only clients of this host whose container is gone are deleted; every other timer is kept unchanged |
| MonitorAgent.DeleteStale | monitor_agent.py:105-113 | with distinct stale clients, each with a timer, all are deleted in order and their timers popped and shut down |
| MonitorAgent.DeleteMissingTimerRaises | monitor_agent.py:113 | popping the timer of a stale client that has none raises |
| MonitorAgent.StaleNamesMembers | monitor_agent.py:106-108 | a name is deleted-to-be exactly when a client of that name is this host's and its container is gone |
| MonitorAgent.DeleteFrom | monitor_agent.py:105-113 | the second loop of `update`; stated by DeleteOnlyStale, DeleteStale and DeleteMissingTimerRaises |
| MonitorAgent.UpdateOf | monitor_agent.py:76-113 | `update()`: names, client list, then the two loops; stated by UpdateKeepsLiveClients and the AddFrom and DeleteFrom lemmas |
| MonitorAgent.UpdateKeepsLiveClients | monitor_agent.py:76-113 | a client that is another host's, or whose container is listed, is not deleted and keeps its timer |
| MonitorAgent.Agent.constructor | monitor_agent.py:193 | the timer table starts empty |
| MonitorAgent.Agent.CreateCheckTimer | monitor_agent.py:179-184 | stores a timer under the container's name; a nameless container raises and changes nothing |
| MonitorAgent.Agent.Update | monitor_agent.py:76-113 | the pass leaves the table, and returns the posts, deletions, shut-downs and failure, that the update specification gives |
| MonitorAgent.Agent.AddTimers | monitor_agent.py:86-101 | the first loop, as specified |
| MonitorAgent.Agent.RemoveStale | monitor_agent.py:105-113 | the second loop, as specified |
| MonitorAgent.CheckResultOf | monitor_agent.py:130-143 | no failed tasks gives `OK` and status 0, otherwise status 2 and the failed summaries; the source is the container name |
| MonitorAgent.Failures | monitor_agent.py:135 | the summaries whose result is neither SUCCESS nor SKIPPED; stated by FailuresFilter and FailuresCount |
| MonitorAgent.FailuresFilter | monitor_agent.py:135 | a summary is listed exactly when its result is neither SUCCESS nor SKIPPED, and the listing keeps report order |
| MonitorAgent.FailuresCount | monitor_agent.py:135 | the number listed is the number of results other than SUCCESS and SKIPPED |
| MonitorAgent.CheckResultOfRun | monitor_agent.py:130-136 | for a run's report, status 0 exactly when every task succeeded or was skipped, and otherwise one listed summary per failed task |

## Left out

- `RestHelper` (HTTP over sockets): a response is a status, a body text and its parsed JSON (or `None`) in the task's `World`. The failure of a request is an optional index and message.
- `TaskTimer` and every thread: a timer is the interval and container it was created with, and shutting down is recording it. Concurrent access to the timer table is not modelled.
- `run_cmd`: the exit code and the two output streams are inputs. The `csv` tokenising of the command line is not modelled.
- Docker client calls (`CLI.containers`, `inspect_container`, `docker cp`): the container listing is an input. `get_host_cfg` is used only by `run_check`.
- `run_check` and `run_check2`: wiring and a debug stub. `run_check` also passes a `Host` where `Runner` expects a `HostSet` (monitor_agent.py:173), so `host_set.hosts` would raise there.
- `add_client` and `delete_client` are the posted and deleted names; their request bodies are not modelled.
- MonitorAgent.UpdateOf: the server requests `GET /clients` (monitor_agent.py:83), `add_client` (:97) and `delete_client` (:111) are taken to succeed. One that raises aborts `update()` partway, leaving later containers without a timer and later stale clients with theirs; that is not modelled.
- MonitorAgent.CheckFreq: the pattern match is an abstract total `matches`, so the `re.error` that an invalid pattern raises at monitor_agent.py:70 is not modelled.
- Clock readings are integers in microseconds. `strftime` formatting, the report's `timestamp` and the text of `task-start` are left out.
- `get_rand_string` and `get_current_time_numeric` refer to names that do not exist (`Time`, `self`). The generator is a parameter.
- JSON loading of configs and routines: configs are typed records whose absent keys are `None`. A key holding a value of the wrong JSON type is not modelled, and neither is a non-string host config value.
- `json.dumps` of the check output: the output is the list of summaries itself.
- Logging, `traceback` output and `log_obj`.
- `warning-threshold` and `critical-threshold` are read but never used.
- The `__main__` blocks and `sys.exit`.
- Floating-point JSON numbers: `JNum` holds integers.
- Execution.Str: a list or object is rendered as `[...]` or `{...}` rather than its Python `repr`, so a mismatch detail quoting one is approximated.
- Exception messages are the exception's class with a short text, not Python's exact wording.
- Macros.Cache: the fallback (an empty memo when `cached` is not a saved dictionary) is for states `Runtime.Valid` excludes.
- Macros.Save: modelled as evidently intended. As written, `save_value` lacks `self` (routine_runner.py:346), so the bound call at routine_runner.py:210 passes four arguments to three parameters and raises `TypeError`. The model saves under the task's name, as the body's `task.name` intends.
- `Runtime.values[host.name]` in the model is the connection entry. The `port`, `secure` and `check-cert` options it was built with are not kept.

## Findings

| source | as written | input that shows it | evidently intended | confidence | as-written member | corrected member |
|---|---|---|---|---|---|---|
| routine_runner.py:222 | the mismatch branch of `http.run` returns the tuple `(EXPECTED_VALUE_NOT_FOUND, detail)`, and `run` reads `result.code` outside the `try`, so `AttributeError` escapes `Runner.run` | an `http` task whose expected field holds `"b"` when `"a"` is expected | a `TaskResult` with EXPECTED_VALUE_NOT_FOUND (code 3), counted as failed | high (not executed) | RoutineRunner.MismatchEscapesAsWritten | Execution.HttpMismatchIsResult |
