/** Running tasks in `routine_runner.py`: `docker_exec.run`, `http.run`,
    the tolerant building of `Routine` and `HostSet`, and `Runner.run`.

    Everything a run receives from outside is a parameter: the outcome of
    the `docker exec` command and of the HTTP requests, whether one of
    those calls raises, and the two clock readings of `start()` and
    `end()` are a `World`, one per task; the generator behind `general:`
    macros is a `Generator`. */
module Execution {
  import opened Wrappers
  import opened PyText
  import opened SsUtils
  import opened Tasks
  import opened Macros

  /** A `Host`: its name and its whole configuration dictionary. */
  datatype Host = Host(name: string, cfg: map<string, string>)

  /** What the outside world answers to one task's run. `exitCode`,
      `stdout` and `stderr` are what `run_cmd` returns for the exec
      command; `status`, `body` and `json` describe the response the HTTP
      check reads (`json` is `JNull` when the body is not JSON, as
      `json.loads` failing leaves `None`); `failAt` is the index of the
      external call that raises, if any, with `failure` its message;
      `start` and `end` are the clock readings in microseconds. */
  datatype World = World(
    exitCode: int, stdout: string, stderr: string,
    status: int, body: string, json: Json,
    failAt: Option<nat>, failure: string,
    start: int, end: int)

  /** An external call a run issues. */
  datatype Call =
    | ExecCall(commandLine: string)
    | HttpCall(httpMethod: string, uri: string, data: string, contentType: Option<string>, auth: string)

  /** What one task's `run` did: the `TaskResult` it returned or the
      exception it raised, the times recorded by `start()` and `end()`
      (`None` when not reached), and the external calls it issued. */
  datatype Outcome = Outcome(
    result: Result<TaskResult, string>,
    started: Option<int>,
    ended: Option<int>,
    calls: seq<Call>)

  // ---------------------------------------------------------------------
  // docker_exec.run

  /** The options of `docker exec`: `--user` when a user is set,
      `--privileged` when asked for. */
  function ExecOptions(user: Option<string>, privileged: bool): string
  {
    (if user.Some? then " --user " + user.value else "") + (if privileged then " --privileged" else "")
  }

  /** The mapping of the command's result: exit code 0 is `SUCCESS`, any
      other code is `UNCLASSIFIED_ERROR` carrying the configured output
      stream; a stream name other than `stdout` or `stderr` is a
      `KeyError`. */
  function ExecResult(exitCode: int, stream: string, stdout: string, stderr: string): (r: Result<TaskResult, string>)
    ensures exitCode == 0 <==> r == Ok(TaskResult(Success, "OK"))
    ensures r.Err? <==> exitCode != 0 && stream != "stdout" && stream != "stderr"
    ensures exitCode != 0 && stream == "stdout" ==> r == Ok(TaskResult(UnclassifiedError, stdout))
    ensures exitCode != 0 && stream == "stderr" ==> r == Ok(TaskResult(UnclassifiedError, stderr))
  {
    if exitCode == 0 then Ok(TaskResult(Success, "OK"))
    else if stream == "stdout" then Ok(TaskResult(UnclassifiedError, stdout))
    else if stream == "stderr" then Ok(TaskResult(UnclassifiedError, stderr))
    else Err("KeyError: '" + stream + "'")
  }

  /** `docker_exec.run(host, runtime)`: expand the command, build the
      command line from the host's `container-name`, then start the clock,
      run the command and stop the clock. */
  function DockerExecRun(t: Task, host: Host, st: RtState, w: World, gen: Generator): (Outcome, RtState)
    requires t.kind.DockerExec?
  {
    var k := t.kind;
    var (c, st1) := Expand(k.command, st, gen);
    if c.Err? then (Outcome(Err(c.error), None, None, []), st1)
    else if "container-name" !in host.cfg then (Outcome(Err("KeyError: 'container-name'"), None, None, []), st1)
    else
      var line := "docker exec" + ExecOptions(k.user, k.privileged) + " " + host.cfg["container-name"] + " " + c.value;
      if w.failAt == Some(0) then (Outcome(Err(w.failure), Some(w.start), None, [ExecCall(line)]), st1)
      else (Outcome(ExecResult(w.exitCode, k.outputStream, w.stdout, w.stderr), Some(w.start), Some(w.end), [ExecCall(line)]), st1)
  }

  method RunDockerExec(t: Task, host: Host, rt: Runtime, w: World, gen: Generator) returns (out: Outcome)
    requires t.kind.DockerExec? && rt.Valid()
    modifies rt
    ensures rt.Valid()
    ensures (out, rt.State()) == DockerExecRun(t, host, old(rt.State()), w, gen)
  {
    var c := rt.ExpandMacros(t.kind.command, gen);
    if c.Err? {
      return Outcome(Err(c.error), None, None, []);
    }
    if "container-name" !in host.cfg {
      return Outcome(Err("KeyError: 'container-name'"), None, None, []);
    }
    var options := "";
    if t.kind.user.Some? {
      options := options + " --user " + t.kind.user.value;
    }
    if t.kind.privileged {
      options := options + " --privileged";
    }
    assert options == ExecOptions(t.kind.user, t.kind.privileged);
    var line := "docker exec" + options + " " + host.cfg["container-name"] + " " + c.value;
    if w.failAt == Some(0) {
      return Outcome(Err(w.failure), Some(w.start), None, [ExecCall(line)]);
    }
    var r := ExecResult(w.exitCode, t.kind.outputStream, w.stdout, w.stderr);
    out := Outcome(r, Some(w.start), Some(w.end), [ExecCall(line)]);
  }

  /** Once the command line is built and the command returns, the exit code
      alone decides success, the result is `UNCLASSIFIED_ERROR` otherwise,
      and the command issued names the host's container and the expanded
      command. */
  lemma DockerExecOutcome(t: Task, host: Host, st: RtState, w: World, gen: Generator)
    requires t.kind.DockerExec?
    requires Expand(t.kind.command, st, gen).0.Ok?
    requires "container-name" in host.cfg && w.failAt != Some(0)
    ensures var (out, _) := DockerExecRun(t, host, st, w, gen);
      && out.started == Some(w.start) && out.ended == Some(w.end)
      && |out.calls| == 1
      && out.calls[0].commandLine == "docker exec" + ExecOptions(t.kind.user, t.kind.privileged) + " "
           + host.cfg["container-name"] + " " + Expand(t.kind.command, st, gen).0.value
      && (out.result == Ok(TaskResult(Success, "OK")) <==> w.exitCode == 0)
      && (out.result.Ok? && w.exitCode != 0 ==> out.result.value.kind == UnclassifiedError && out.result.value.Code() > 0)
      && (w.exitCode != 0 && t.kind.outputStream == "stderr" ==> out.result == Ok(TaskResult(UnclassifiedError, w.stderr)))
      && (w.exitCode != 0 && t.kind.outputStream == "stdout" ==> out.result == Ok(TaskResult(UnclassifiedError, w.stdout)))
  {
  }

  // ---------------------------------------------------------------------
  // http.run

  /** The `for i in range(instances)` loop from iteration `i` on: each
      iteration makes sure the host has a connection entry (creating one the
      first time) and sends the same request; the call numbered `failAt`
      raises. The last response is the one checked afterwards. */
  function HttpRequests(i: nat, n: int, st: RtState, host: Host, req: Call, w: World): (Result<(), string>, RtState, seq<Call>)
    decreases n - i
  {
    if i >= n then (Ok(()), st, [])
    else match ConnectHost(st, host.name, host.cfg)
      case Err(e) => (Err(e), st, [])
      case Ok(st1) =>
        if w.failAt == Some(i) then (Err(w.failure), st1, [req])
        else
          var (r, st2, cs) := HttpRequests(i + 1, n, st1, host, req, w);
          (r, st2, [req] + cs)
  }

  /** The detail of an unexpected status. */
  function StatusDetail(spec: string, status: int, body: string): string
  {
    "expected status " + spec + ", got " + IntToString(status) + ", response: " + body
  }

  /** `str(value)` for the JSON values a response field can hold. Lists and
      objects are shown by a marker only. */
  function Str(j: Json): string
  {
    match j
    case JNull => "None"
    case JBool(b) => if b then "True" else "False"
    case JNum(n) => IntToString(n)
    case JStr(s) => s
    case JArr(_) => "[...]"
    case JObj(_) => "{...}"
  }

  /** The detail of a value mismatch. */
  function MismatchDetail(value: Json, expected: string, field: string): string
  {
    "value \"" + Str(value) + "\" does not match expected value \"" + expected + "\" in response field \"" + field + "\""
  }

  function KeyNotFoundDetail(field: string): string
  {
    "expected but could not find key in response: " + field
  }

  /** The expected-field check: the expected value is expanded (a missing
      expected value cannot be and raises), then the field is compared with
      it. */
  function HttpExpect(t: Task, st: RtState, w: World, gen: Generator): (Result<TaskResult, string>, RtState)
    requires t.kind.Http?
  {
    var k := t.kind;
    if k.expectedField.None? then (Ok(TaskResult(Success, "OK")), st)
    else if k.expectedValue.None? then (Err("TypeError: cannot concatenate 'str' and 'NoneType' objects"), st)
    else
      var (ev, st1) := Expand(k.expectedValue.value, st, gen);
      if ev.Err? then (Err(ev.error), st1)
      else (Ok(ExpectedCheck(k.expectedField.value, w.json, ev.value)), st1)
  }

  /** The field is looked up in the response, and a missing field or a
      different value fails the check. A JSON string is equal to the
      expected text exactly when it has the same characters. */
  function ExpectedCheck(field: string, json: Json, expected: string): TaskResult
  {
    var value := XPathGet(json, field);
    if value == JNull then TaskResult(ExpectedKeyNotFound, KeyNotFoundDetail(field))
    else if value != JStr(expected) then TaskResult(ExpectedValueNotFound, MismatchDetail(value, expected, field))
    else TaskResult(Success, "OK")
  }

  /** The expected-field check as written: identical to `HttpExpect`
      except that a value mismatch returns the bare tuple
      `(EXPECTED_VALUE_NOT_FOUND, detail)` instead of a `TaskResult`. */
  function HttpExpectAsWritten(t: Task, st: RtState, w: World, gen: Generator): (Result<Returned, string>, RtState)
    requires t.kind.Http?
  {
    var k := t.kind;
    if k.expectedField.None? then (Ok(ReturnedResult(TaskResult(Success, "OK"))), st)
    else if k.expectedValue.None? then (Err("TypeError: cannot concatenate 'str' and 'NoneType' objects"), st)
    else
      var (ev, st1) := Expand(k.expectedValue.value, st, gen);
      if ev.Err? then (Err(ev.error), st1)
      else (Ok(ExpectedCheckAsWritten(k.expectedField.value, w.json, ev.value)), st1)
  }

  /** The comparison as written. */
  function ExpectedCheckAsWritten(field: string, json: Json, expected: string): Returned
  {
    var value := XPathGet(json, field);
    if value == JNull then ReturnedResult(TaskResult(ExpectedKeyNotFound, KeyNotFoundDetail(field)))
    else if value != JStr(expected) then ReturnedPair(ExpectedValueNotFound, MismatchDetail(value, expected, field))
    else ReturnedResult(TaskResult(Success, "OK"))
  }

  /** A result of `http.run` as the source returns it: the
      `EXPECTED_VALUE_NOT_FOUND` result as a bare tuple, every other result
      as the `TaskResult` itself. */
  function AsReturned(r: Result<TaskResult, string>): (v: Result<Returned, string>)
    ensures v.Err? <==> r.Err?
    ensures r.Ok? && r.value.kind == ExpectedValueNotFound ==> v == Ok(ReturnedPair(ExpectedValueNotFound, r.value.detail))
    ensures r.Ok? && r.value.kind != ExpectedValueNotFound ==> v == Ok(ReturnedResult(r.value))
  {
    match r
    case Err(e) => Err(e)
    case Ok(res) => if res.kind == ExpectedValueNotFound then Ok(ReturnedPair(res.kind, res.detail)) else Ok(ReturnedResult(res))
  }

  /** The comparison as written returns the corrected comparison's result,
      with the mismatch result as a tuple. */
  lemma ExpectedCheckAsWrittenDiffers(field: string, json: Json, expected: string)
    ensures Ok(ExpectedCheckAsWritten(field, json, expected)) == AsReturned(Ok(ExpectedCheck(field, json, expected)))
  {
  }

  /** The expected-field check as written differs from the corrected one
      exactly in the mismatch branch: it returns what the corrected check
      returns, with the mismatch result as a tuple, and leaves the same
      state. */
  lemma HttpExpectAsWrittenDiffers(t: Task, st: RtState, w: World, gen: Generator)
    requires t.kind.Http?
    ensures HttpExpectAsWritten(t, st, w, gen) == (AsReturned(HttpExpect(t, st, w, gen).0), HttpExpect(t, st, w, gen).1)
  {
    var k := t.kind;
    if k.expectedField.Some? && k.expectedValue.Some? {
      var ev := Expand(k.expectedValue.value, st, gen).0;
      if ev.Ok? {
        ExpectedCheckAsWrittenDiffers(k.expectedField.value, w.json, ev.value);
      }
    }
  }

  /** The checks on the last response as written: the status and
      save-field branches return `TaskResult`s, the expected-field check
      returns as written. */
  function HttpCheckAsWritten(t: Task, st: RtState, w: World, gen: Generator): (Result<Returned, string>, RtState)
    requires t.kind.Http?
  {
    var k := t.kind;
    if !(k.lower <= w.status <= k.upper) then
      (Ok(ReturnedResult(TaskResult(UnexpectedHttpStatus, StatusDetail(k.statusSpec, w.status, w.body)))), st)
    else if k.saveField.Some? && XPathGet(w.json, k.saveField.value) == JNull then
      (Ok(ReturnedResult(TaskResult(ExpectedKeyNotFound, KeyNotFoundDetail(k.saveField.value)))), st)
    else
      var saved := if k.saveField.Some? then Save(st, t.name, k.saveField.value, XPathGet(w.json, k.saveField.value)) else Ok(st);
      if saved.Err? then (Err(saved.error), st)
      else HttpExpectAsWritten(t, saved.value, w, gen)
  }

  /** No branch of the response checks but the expected-field mismatch
      yields `EXPECTED_VALUE_NOT_FOUND`, so the checks as written are the
      corrected checks with that one result as a tuple. */
  lemma HttpCheckAsWrittenDiffers(t: Task, st: RtState, w: World, gen: Generator)
    requires t.kind.Http?
    ensures HttpCheckAsWritten(t, st, w, gen) == (AsReturned(HttpCheck(t, st, w, gen).0), HttpCheck(t, st, w, gen).1)
  {
    var k := t.kind;
    if k.lower <= w.status <= k.upper && !(k.saveField.Some? && XPathGet(w.json, k.saveField.value) == JNull) {
      var saved := if k.saveField.Some? then Save(st, t.name, k.saveField.value, XPathGet(w.json, k.saveField.value)) else Ok(st);
      if saved.Ok? {
        HttpExpectAsWrittenDiffers(t, saved.value, w, gen);
      }
    }
  }

  /** The checks on the last response: the status range, then the
      save-field (a missing field fails, a found one is saved under the
      task's name), then the expected field. */
  function HttpCheck(t: Task, st: RtState, w: World, gen: Generator): (Result<TaskResult, string>, RtState)
    requires t.kind.Http?
  {
    var k := t.kind;
    if !(k.lower <= w.status <= k.upper) then
      (Ok(TaskResult(UnexpectedHttpStatus, StatusDetail(k.statusSpec, w.status, w.body))), st)
    else if k.saveField.Some? && XPathGet(w.json, k.saveField.value) == JNull then
      (Ok(TaskResult(ExpectedKeyNotFound, KeyNotFoundDetail(k.saveField.value))), st)
    else
      var saved := if k.saveField.Some? then Save(st, t.name, k.saveField.value, XPathGet(w.json, k.saveField.value)) else Ok(st);
      if saved.Err? then (Err(saved.error), st)
      else HttpExpect(t, saved.value, w, gen)
  }

  /** `http.run(host, runtime)`: expand `uri`, `data` and `auth` in that
      order, then send the request and check the response. */
  function HttpRun(t: Task, host: Host, st: RtState, w: World, gen: Generator): (Outcome, RtState)
    requires t.kind.Http?
  {
    var k := t.kind;
    var (u, st1) := Expand(k.uri, st, gen);
    if u.Err? then (Outcome(Err(u.error), None, None, []), st1)
    else
      var (d, st2) := Expand(k.data, st1, gen);
      if d.Err? then (Outcome(Err(d.error), None, None, []), st2)
      else
        var (a, st3) := Expand(k.auth, st2, gen);
        if a.Err? then (Outcome(Err(a.error), None, None, []), st3)
        else
          HttpSend(t, host, st3, HttpCall(k.httpMethod, u.value, d.value, k.contentType, a.value), w, gen)
  }

  /** The part of `http.run` after the expansions: start the clock, send
      `instances` copies of the request, stop the clock and check the last
      response. With no instance at all there is no response, and reading
      it raises. */
  function HttpSend(t: Task, host: Host, st: RtState, req: Call, w: World, gen: Generator): (Outcome, RtState)
    requires t.kind.Http?
  {
    var (sent, st1, calls) := HttpRequests(0, t.instances, st, host, req, w);
    if sent.Err? then (Outcome(Err(sent.error), Some(w.start), None, calls), st1)
    else if t.instances <= 0 then
      (Outcome(Err("UnboundLocalError: local variable 'response' referenced before assignment"),
               Some(w.start), Some(w.end), calls), st1)
    else
      var (res, st2) := HttpCheck(t, st1, w, gen);
      (Outcome(res, Some(w.start), Some(w.end), calls), st2)
  }

  /** The rest of the request loop once `calls` were sent. */
  function After(calls: seq<Call>, rest: (Result<(), string>, RtState, seq<Call>)): (Result<(), string>, RtState, seq<Call>)
  {
    (rest.0, rest.1, calls + rest.2)
  }

  /** The request loop of `http.run`. */
  method SendRequests(n: int, host: Host, req: Call, rt: Runtime, w: World) returns (r: Result<(), string>, calls: seq<Call>)
    requires rt.Valid()
    modifies rt
    ensures rt.Valid()
    ensures (r, rt.State(), calls) == HttpRequests(0, n, old(rt.State()), host, req, w)
  {
    calls := [];
    var i: nat := 0;
    assert [] + HttpRequests(i, n, rt.State(), host, req, w).2 == HttpRequests(i, n, rt.State(), host, req, w).2;
    while i < n
      invariant rt.Valid()
      invariant After(calls, HttpRequests(i, n, rt.State(), host, req, w)) == HttpRequests(0, n, old(rt.State()), host, req, w)
      decreases n - i
    {
      var c := rt.Connect(host.name, host.cfg);
      if c.Err? {
        assert calls + [] == calls;
        return Err(c.error), calls;
      }
      ghost var sent := calls;
      calls := calls + [req];
      if w.failAt == Some(i) {
        return Err(w.failure), calls;
      }
      ghost var rest := HttpRequests(i + 1, n, rt.State(), host, req, w);
      assert sent + ([req] + rest.2) == calls + rest.2;
      i := i + 1;
    }
    r := Ok(());
    assert calls + [] == calls;
  }

  method CheckExpected(t: Task, rt: Runtime, w: World, gen: Generator) returns (r: Result<TaskResult, string>)
    requires t.kind.Http? && rt.Valid()
    modifies rt
    ensures rt.Valid()
    ensures (r, rt.State()) == HttpExpect(t, old(rt.State()), w, gen)
  {
    var k := t.kind;
    if k.expectedField.None? {
      return Ok(TaskResult(Success, "OK"));
    }
    if k.expectedValue.None? {
      return Err("TypeError: cannot concatenate 'str' and 'NoneType' objects");
    }
    var ev := rt.ExpandMacros(k.expectedValue.value, gen);
    if ev.Err? {
      return Err(ev.error);
    }
    var field := k.expectedField.value;
    var value := XPathGetLoop(w.json, field);
    if value == JNull {
      r := Ok(TaskResult(ExpectedKeyNotFound, KeyNotFoundDetail(field)));
    } else if value != JStr(ev.value) {
      r := Ok(TaskResult(ExpectedValueNotFound, MismatchDetail(value, ev.value, field)));
    } else {
      r := Ok(TaskResult(Success, "OK"));
    }
  }

  method CheckResponse(t: Task, rt: Runtime, w: World, gen: Generator) returns (r: Result<TaskResult, string>)
    requires t.kind.Http? && rt.Valid()
    modifies rt
    ensures rt.Valid()
    ensures (r, rt.State()) == HttpCheck(t, old(rt.State()), w, gen)
  {
    var k := t.kind;
    if !(k.lower <= w.status <= k.upper) {
      return Ok(TaskResult(UnexpectedHttpStatus, StatusDetail(k.statusSpec, w.status, w.body)));
    }
    if k.saveField.Some? {
      var value := XPathGetLoop(w.json, k.saveField.value);
      if value == JNull {
        return Ok(TaskResult(ExpectedKeyNotFound, KeyNotFoundDetail(k.saveField.value)));
      }
      var saved := rt.SaveValue(t.name, k.saveField.value, value);
      if saved.Err? {
        return Err(saved.error);
      }
    }
    r := CheckExpected(t, rt, w, gen);
  }

  method RunHttp(t: Task, host: Host, rt: Runtime, w: World, gen: Generator) returns (out: Outcome)
    requires t.kind.Http? && rt.Valid()
    modifies rt
    ensures rt.Valid()
    ensures (out, rt.State()) == HttpRun(t, host, old(rt.State()), w, gen)
  {
    var k := t.kind;
    var u := rt.ExpandMacros(k.uri, gen);
    if u.Err? {
      return Outcome(Err(u.error), None, None, []);
    }
    var d := rt.ExpandMacros(k.data, gen);
    if d.Err? {
      return Outcome(Err(d.error), None, None, []);
    }
    var a := rt.ExpandMacros(k.auth, gen);
    if a.Err? {
      return Outcome(Err(a.error), None, None, []);
    }
    var req := HttpCall(k.httpMethod, u.value, d.value, k.contentType, a.value);
    out := SendAndCheck(t, host, req, rt, w, gen);
  }

  method SendAndCheck(t: Task, host: Host, req: Call, rt: Runtime, w: World, gen: Generator) returns (out: Outcome)
    requires t.kind.Http? && rt.Valid()
    modifies rt
    ensures rt.Valid()
    ensures (out, rt.State()) == HttpSend(t, host, old(rt.State()), req, w, gen)
  {
    var sent, calls := SendRequests(t.instances, host, req, rt, w);
    if sent.Err? {
      return Outcome(Err(sent.error), Some(w.start), None, calls);
    }
    if t.instances <= 0 {
      return Outcome(Err("UnboundLocalError: local variable 'response' referenced before assignment"),
                     Some(w.start), Some(w.end), calls);
    }
    var res := CheckResponse(t, rt, w, gen);
    out := Outcome(res, Some(w.start), Some(w.end), calls);
  }

  /** Connecting twice to the same host is connecting once. */
  lemma ConnectIdempotent(st: RtState, host: Host)
    requires ConnectHost(st, host.name, host.cfg).Ok?
    ensures var st1 := ConnectHost(st, host.name, host.cfg).value;
      ConnectHost(st1, host.name, host.cfg) == Ok(st1)
  {
  }

  /** When the host can be connected and no request raises, iteration `i`
      on sends exactly `n - i` copies of the request. */
  lemma {:induction false} HttpRequestsPerInstance(i: nat, n: int, st: RtState, host: Host, req: Call, w: World)
    requires i < n
    requires ConnectHost(st, host.name, host.cfg).Ok?
    requires w.failAt.None?
    ensures var (r, st', cs) := HttpRequests(i, n, st, host, req, w);
      && r.Ok? && st' == ConnectHost(st, host.name, host.cfg).value
      && |cs| == n - i && (forall c :: c in cs ==> c == req)
    decreases n - i
  {
    var st1 := ConnectHost(st, host.name, host.cfg).value;
    if i + 1 < n {
      ConnectIdempotent(st, host);
      HttpRequestsPerInstance(i + 1, n, st1, host, req, w);
    }
  }

  /** A status outside the expected range yields `UNEXPECTED_HTTP_STATUS`
      (code 1), whose detail shows the observed status, and nothing is
      saved. */
  lemma StatusOutsideRange(t: Task, st: RtState, w: World, gen: Generator)
    requires t.kind.Http?
    requires w.status < t.kind.lower || w.status > t.kind.upper
    ensures var (r, st') := HttpCheck(t, st, w, gen);
      && r.Ok? && r.value.kind == UnexpectedHttpStatus && r.value.Code() == 1
      && Contains(r.value.detail, IntToString(w.status))
      && st' == st
  {
    var pre := "expected status " + t.kind.statusSpec + ", got ";
    var x := IntToString(w.status);
    var d := StatusDetail(t.kind.statusSpec, w.status, w.body);
    assert d == pre + x + (", response: " + w.body);
    assert d[|pre|..|pre| + |x|] == x;
    assert OccursAt(d, x, |pre|);
  }

  /** A check that reports `SUCCESS` saw a status in range and found the
      save-field, whose value it saved under the task's name before
      checking the expected field. */
  lemma HttpCheckSuccess(t: Task, st: RtState, w: World, gen: Generator)
    requires t.kind.Http?
    requires HttpCheck(t, st, w, gen).0 == Ok(TaskResult(Success, "OK"))
    ensures t.kind.lower <= w.status <= t.kind.upper
    ensures t.kind.saveField.Some? ==>
      var f := t.kind.saveField.value;
      && XPathGet(w.json, f) != JNull
      && Save(st, t.name, f, XPathGet(w.json, f)).Ok?
      && HttpCheck(t, st, w, gen) == HttpExpect(t, Save(st, t.name, f, XPathGet(w.json, f)).value, w, gen)
    ensures t.kind.saveField.None? ==> HttpCheck(t, st, w, gen) == HttpExpect(t, st, w, gen)
  {
  }

  /** An expected-field check that reports `SUCCESS` found, at the expected
      field, exactly the expanded expected value. */
  lemma HttpExpectSuccess(t: Task, st: RtState, w: World, gen: Generator)
    requires t.kind.Http?
    requires HttpExpect(t, st, w, gen).0 == Ok(TaskResult(Success, "OK"))
    ensures t.kind.expectedField.Some? ==>
      && t.kind.expectedValue.Some?
      && Expand(t.kind.expectedValue.value, st, gen).0.Ok?
      && XPathGet(w.json, t.kind.expectedField.value) == JStr(Expand(t.kind.expectedValue.value, st, gen).0.value)
  {
  }

  /** The expected-field check keeps every saved value: a field saved by
      this or an earlier task is still there afterwards. */
  lemma HttpExpectKeepsSaved(t: Task, st: RtState, w: World, gen: Generator, name: string, f: string)
    requires t.kind.Http?
    requires name in st.values && st.values[name].Saved? && f in st.values[name].fields
    ensures var st' := HttpExpect(t, st, w, gen).1;
      && name in st'.values && st'.values[name].Saved?
      && f in st'.values[name].fields && st'.values[name].fields[f] == st.values[name].fields[f]
  {
    var k := t.kind;
    if k.expectedField.Some? && k.expectedValue.Some? {
      var st' := Expand(k.expectedValue.value, st, gen).1;
      assert HttpExpect(t, st, w, gen).1 == st';
      ExpandKeepsEntries(k.expectedValue.value, st, gen);
      if name == CacheKey {
        assert f in Cache(st);
      }
    } else {
      assert HttpExpect(t, st, w, gen).1 == st;
    }
  }

  /** With the status in range and no save-field, an expected field that
      holds a value other than the expected string is reported as
      `EXPECTED_VALUE_NOT_FOUND` (code 3), a `TaskResult` whose detail
      names the field. */
  lemma HttpMismatchIsResult(t: Task, st: RtState, w: World, gen: Generator)
    requires t.kind.Http?
    requires t.kind.lower <= w.status <= t.kind.upper && t.kind.saveField.None?
    requires t.kind.expectedField.Some? && t.kind.expectedValue.Some?
    requires Expand(t.kind.expectedValue.value, st, gen).0.Ok?
    requires var v := XPathGet(w.json, t.kind.expectedField.value);
      v != JNull && v != JStr(Expand(t.kind.expectedValue.value, st, gen).0.value)
    ensures HttpCheck(t, st, w, gen).0
      == Ok(TaskResult(ExpectedValueNotFound, MismatchDetail(XPathGet(w.json, t.kind.expectedField.value),
           Expand(t.kind.expectedValue.value, st, gen).0.value, t.kind.expectedField.value)))
    ensures HttpCheck(t, st, w, gen).0.value.Code() == 3
  {
    HttpCheckIsExpect(t, st, w, gen);
    HttpExpectCompares(t, st, w, gen);
    ExpectedCheckMismatch(t.kind.expectedField.value, w.json, Expand(t.kind.expectedValue.value, st, gen).0.value);
  }

  /** A field holding a value other than the expected string is a
      mismatch. */
  lemma ExpectedCheckMismatch(field: string, json: Json, expected: string)
    requires XPathGet(json, field) != JNull && XPathGet(json, field) != JStr(expected)
    ensures ExpectedCheck(field, json, expected)
      == TaskResult(ExpectedValueNotFound, MismatchDetail(XPathGet(json, field), expected, field))
  {
  }

  /** With the status in range and no save-field, the checks come down to
      the expected-field check. */
  lemma HttpCheckIsExpect(t: Task, st: RtState, w: World, gen: Generator)
    requires t.kind.Http? && t.kind.lower <= w.status <= t.kind.upper && t.kind.saveField.None?
    ensures HttpCheck(t, st, w, gen) == HttpExpect(t, st, w, gen)
  {
  }

  /** With an expected field and an expected value that expands, the
      expected-field check is the comparison with the expansion. */
  lemma HttpExpectCompares(t: Task, st: RtState, w: World, gen: Generator)
    requires t.kind.Http? && t.kind.expectedField.Some? && t.kind.expectedValue.Some?
    requires Expand(t.kind.expectedValue.value, st, gen).0.Ok?
    ensures HttpExpect(t, st, w, gen).0
      == Ok(ExpectedCheck(t.kind.expectedField.value, w.json, Expand(t.kind.expectedValue.value, st, gen).0.value))
  {
    var e := Expand(t.kind.expectedValue.value, st, gen);
    assert HttpExpect(t, st, w, gen) == (Ok(ExpectedCheck(t.kind.expectedField.value, w.json, e.0.value)), e.1);
  }

  /** Once the request is built, a host that connects and requests that
      all return give one request per instance, both times recorded, and
      the check of the last response as the result. */
  lemma HttpSendsInstances(t: Task, host: Host, st: RtState, req: Call, w: World, gen: Generator)
    requires t.kind.Http? && t.instances > 0 && w.failAt.None?
    requires ConnectHost(st, host.name, host.cfg).Ok?
    ensures var (out, st') := HttpSend(t, host, st, req, w, gen);
      && |out.calls| == t.instances && (forall c :: c in out.calls ==> c == req)
      && out.started == Some(w.start) && out.ended == Some(w.end)
      && (out.result, st') == HttpCheck(t, ConnectHost(st, host.name, host.cfg).value, w, gen)
  {
    HttpRequestsPerInstance(0, t.instances, st, host, req, w);
  }

  /** With no instance no request is sent, and the run raises after
      recording both times. */
  lemma HttpNoInstances(t: Task, host: Host, st: RtState, req: Call, w: World, gen: Generator)
    requires t.kind.Http? && t.instances <= 0
    ensures var (out, st') := HttpSend(t, host, st, req, w, gen);
      && out.result.Err? && out.calls == [] && st' == st
      && out.started == Some(w.start) && out.ended == Some(w.end)
  {
  }

  // ---------------------------------------------------------------------
  // The generator memo across a task's run

  /** Whether running `t` can overwrite the memoised value of `g`: only an
      `http` task named `cached` whose save-field is `g` saves into the
      memo, under that key. */
  predicate OverwritesMemo(t: Task, g: string)
  {
    t.name == CacheKey && t.kind.Http? && t.kind.saveField == Some(g)
  }

  /** The request loop keeps every memoised value. */
  lemma {:induction false} HttpRequestsKeepMemo(i: nat, n: int, st: RtState, host: Host, req: Call, w: World, g: string)
    ensures MemoKept(st, HttpRequests(i, n, st, host, req, w).1, g)
    decreases n - i
  {
    if i < n && ConnectHost(st, host.name, host.cfg).Ok? {
      var st1 := ConnectHost(st, host.name, host.cfg).value;
      ConnectKeepsMemo(st, host.name, host.cfg, g);
      if w.failAt != Some(i) {
        HttpRequestsKeepMemo(i + 1, n, st1, host, req, w, g);
      }
    }
  }

  /** The expected-field check keeps every memoised value. */
  lemma HttpExpectKeepsMemo(t: Task, st: RtState, w: World, gen: Generator, g: string)
    requires t.kind.Http?
    ensures MemoKept(st, HttpExpect(t, st, w, gen).1, g)
  {
    var k := t.kind;
    if k.expectedField.Some? && k.expectedValue.Some? {
      ExpandKeepsEntries(k.expectedValue.value, st, gen);
      assert HttpExpect(t, st, w, gen).1 == Expand(k.expectedValue.value, st, gen).1;
    }
  }

  /** The response checks keep every memoised value unless the task
      overwrites it. */
  lemma HttpCheckKeepsMemo(t: Task, st: RtState, w: World, gen: Generator, g: string)
    requires t.kind.Http? && !OverwritesMemo(t, g)
    ensures MemoKept(st, HttpCheck(t, st, w, gen).1, g)
  {
    var k := t.kind;
    if k.lower <= w.status <= k.upper {
      if k.saveField.Some? {
        var f := k.saveField.value;
        var v := XPathGet(w.json, f);
        if v != JNull && Save(st, t.name, f, v).Ok? {
          var st1 := Save(st, t.name, f, v).value;
          SaveKeepsMemo(st, t.name, f, v, g);
          HttpExpectKeepsMemo(t, st1, w, gen, g);
          assert HttpCheck(t, st, w, gen).1 == HttpExpect(t, st1, w, gen).1;
        }
      } else {
        HttpExpectKeepsMemo(t, st, w, gen, g);
      }
    }
  }

  /** An `http` run keeps every memoised value unless the task overwrites
      it. */
  lemma HttpRunKeepsMemo(t: Task, host: Host, st: RtState, w: World, gen: Generator, g: string)
    requires t.kind.Http? && !OverwritesMemo(t, g)
    ensures MemoKept(st, HttpRun(t, host, st, w, gen).1, g)
    ensures Expand(t.kind.uri, st, gen).0.Ok? ==> MemoKept(Expand(t.kind.uri, st, gen).1, HttpRun(t, host, st, w, gen).1, g)
  {
    var k := t.kind;
    var (u, st1) := Expand(k.uri, st, gen);
    ExpandKeepsEntries(k.uri, st, gen);
    if u.Ok? {
      var (d, st2) := Expand(k.data, st1, gen);
      ExpandKeepsEntries(k.data, st1, gen);
      if d.Ok? {
        var (a, st3) := Expand(k.auth, st2, gen);
        ExpandKeepsEntries(k.auth, st2, gen);
        if a.Ok? {
          var req := HttpCall(k.httpMethod, u.value, d.value, k.contentType, a.value);
          var (sent, st4, calls) := HttpRequests(0, t.instances, st3, host, req, w);
          HttpRequestsKeepMemo(0, t.instances, st3, host, req, w, g);
          if sent.Ok? && t.instances > 0 {
            HttpCheckKeepsMemo(t, st4, w, gen, g);
          }
        }
      }
    }
  }

  /** A `docker_exec` run keeps every memoised value. */
  lemma DockerExecKeepsMemo(t: Task, host: Host, st: RtState, w: World, gen: Generator, g: string)
    requires t.kind.DockerExec?
    ensures MemoKept(st, DockerExecRun(t, host, st, w, gen).1, g)
  {
    ExpandKeepsEntries(t.kind.command, st, gen);
  }

  // ---------------------------------------------------------------------
  // Routine and HostSet

  /** A routine definition. */
  datatype RoutineConfig = RoutineConfig(name: Option<string>, tasks: Option<seq<TaskConfig>>)

  /** A host-set definition; each host is a dictionary of strings. */
  datatype HostSetConfig = HostSetConfig(name: Option<string>, hosts: Option<seq<map<string, string>>>)

  datatype Routine = Routine(name: string, tasks: seq<Task>)

  datatype HostSet = HostSet(name: string, hosts: seq<Host>)

  /** `Host(cfg)`: a host needs a `name`. */
  function NewHost(cfg: map<string, string>): (r: Option<Host>)
    ensures r.Some? <==> "name" in cfg
    ensures r.Some? ==> r.value == Host(cfg["name"], cfg)
  {
    if "name" in cfg then Some(Host(cfg["name"], cfg)) else None
  }

  /** The type a task definition names, `http` by default. */
  function TypeText(cfg: TaskConfig): string
  {
    if cfg.taskType.Some? then cfg.taskType.value else DefaultTaskType
  }

  /** The tasks built from a routine's definitions: a definition whose type
      is unknown raises out of the whole routine; one whose constructor
      raises is dropped; the others are kept in order. */
  function BuildTasks(cfgs: seq<TaskConfig>): Result<seq<Task>, string>
  {
    if |cfgs| == 0 then Ok([])
    else match TaskTypeNamed(TypeText(cfgs[0]))
      case None => Err("ValueError: unrecognized task-type: " + TypeText(cfgs[0]))
      case Some(ty) => PrependTasks(Kept(ty, cfgs[0]), BuildTasks(cfgs[1..]))
  }

  /** What one definition of a known type contributes: its task, or
      nothing when the constructor raises. */
  function Kept(ty: TaskType, cfg: TaskConfig): (ts: seq<Task>)
    ensures |ts| <= 1
    ensures |ts| == 1 <==> NewTask(ty, cfg).Ok?
    ensures |ts| == 1 ==> ts[0] == NewTask(ty, cfg).value
  {
    var built := NewTask(ty, cfg);
    if built.Ok? then [built.value] else []
  }

  /** The hosts built from a host set's definitions: one without a `name`
      is dropped; the others are kept in order. */
  function BuildHosts(cfgs: seq<map<string, string>>): seq<Host>
  {
    if |cfgs| == 0 then []
    else
      var h := NewHost(cfgs[0]);
      (if h.Some? then [h.value] else []) + BuildHosts(cfgs[1..])
  }

  /** `Routine(cfg)`. */
  function RoutineOf(cfg: RoutineConfig): Result<Routine, string>
  {
    if cfg.name.None? then Err("KeyError: 'name'")
    else if cfg.tasks.None? then Err("KeyError: 'tasks'")
    else match BuildTasks(cfg.tasks.value)
      case Err(e) => Err(e)
      case Ok(ts) => Ok(Routine(cfg.name.value, ts))
  }

  /** `HostSet(cfg)`. */
  function HostSetOf(cfg: HostSetConfig): Result<HostSet, string>
  {
    if cfg.name.None? then Err("KeyError: 'name'")
    else if cfg.hosts.None? then Err("KeyError: 'hosts'")
    else Ok(HostSet(cfg.name.value, BuildHosts(cfg.hosts.value)))
  }

  /** The tasks already appended, followed by those the rest gives. */
  function PrependTasks(tasks: seq<Task>, rest: Result<seq<Task>, string>): Result<seq<Task>, string>
  {
    match rest
    case Err(e) => Err(e)
    case Ok(ts) => Ok(tasks + ts)
  }

  lemma PrependTasksTwice(a: seq<Task>, b: seq<Task>, r: Result<seq<Task>, string>)
    ensures PrependTasks(a, PrependTasks(b, r)) == PrependTasks(a + b, r)
  {
    if r.Ok? {
      assert a + (b + r.value) == (a + b) + r.value;
    }
  }

  /** The loop of `Routine.__init__`, appending each task that builds. */
  method NewRoutine(cfg: RoutineConfig) returns (r: Result<Routine, string>)
    ensures r == RoutineOf(cfg)
  {
    if cfg.name.None? {
      return Err("KeyError: 'name'");
    }
    if cfg.tasks.None? {
      return Err("KeyError: 'tasks'");
    }
    var cfgs := cfg.tasks.value;
    var tasks: seq<Task> := [];
    var i := 0;
    assert cfgs[0..] == cfgs;
    assert BuildTasks(cfgs).Ok? ==> [] + BuildTasks(cfgs).value == BuildTasks(cfgs).value;
    while i < |cfgs|
      invariant 0 <= i <= |cfgs|
      invariant PrependTasks(tasks, BuildTasks(cfgs[i..])) == BuildTasks(cfgs)
    {
      assert cfgs[i..][1..] == cfgs[i + 1..];
      assert cfgs[i..][0] == cfgs[i];
      var ty := TaskTypeNamed(TypeText(cfgs[i]));
      if ty.None? {
        return Err("ValueError: unrecognized task-type: " + TypeText(cfgs[i]));
      }
      var built := NewTask(ty.value, cfgs[i]);
      PrependTasksTwice(tasks, Kept(ty.value, cfgs[i]), BuildTasks(cfgs[i + 1..]));
      if built.Ok? {
        tasks := tasks + [built.value];
      } else {
        assert tasks + Kept(ty.value, cfgs[i]) == tasks;
      }
      i := i + 1;
    }
    assert cfgs[i..] == [];
    assert tasks + [] == tasks;
    r := Ok(Routine(cfg.name.value, tasks));
  }

  /** The loop of `HostSet.__init__`, appending each host that builds. */
  method NewHostSet(cfg: HostSetConfig) returns (r: Result<HostSet, string>)
    ensures r == HostSetOf(cfg)
  {
    if cfg.name.None? {
      return Err("KeyError: 'name'");
    }
    if cfg.hosts.None? {
      return Err("KeyError: 'hosts'");
    }
    var cfgs := cfg.hosts.value;
    var hosts: seq<Host> := [];
    var i := 0;
    while i < |cfgs|
      invariant 0 <= i <= |cfgs|
      invariant hosts + BuildHosts(cfgs[i..]) == BuildHosts(cfgs)
    {
      assert cfgs[i..][1..] == cfgs[i + 1..];
      var h := NewHost(cfgs[i]);
      if h.Some? {
        hosts := hosts + [h.value];
      }
      i := i + 1;
    }
    assert cfgs[i..] == [];
    assert hosts + [] == hosts;
    r := Ok(HostSet(cfg.name.value, hosts));
  }

  /** Building tasks fails exactly when some definition names an unknown
      type, and then with the first such type. */
  lemma {:induction false} BuildTasksFails(cfgs: seq<TaskConfig>)
    ensures BuildTasks(cfgs).Err? <==> exists i :: 0 <= i < |cfgs| && TaskTypeNamed(TypeText(cfgs[i])).None?
    decreases |cfgs|
  {
    if |cfgs| > 0 {
      BuildTasksFails(cfgs[1..]);
      if TaskTypeNamed(TypeText(cfgs[0])).Some? {
        if exists i :: 0 <= i < |cfgs| && TaskTypeNamed(TypeText(cfgs[i])).None? {
          var i :| 0 <= i < |cfgs| && TaskTypeNamed(TypeText(cfgs[i])).None?;
          assert cfgs[1..][i - 1] == cfgs[i];
        }
      } else {
        assert TaskTypeNamed(TypeText(cfgs[0])).None?;
      }
    }
  }

  /** The built tasks of two lists of definitions are the tasks of the
      first followed by those of the second. */
  lemma {:induction false} BuildTasksAppend(a: seq<TaskConfig>, b: seq<TaskConfig>)
    requires BuildTasks(a).Ok? && BuildTasks(b).Ok?
    ensures BuildTasks(a + b) == Ok(BuildTasks(a).value + BuildTasks(b).value)
    decreases |a|
  {
    if |a| == 0 {
      assert a + b == b;
      assert [] + BuildTasks(b).value == BuildTasks(b).value;
    } else {
      assert (a + b)[0] == a[0];
      assert (a + b)[1..] == a[1..] + b;
      BuildTasksAppend(a[1..], b);
      var head := Kept(TaskTypeNamed(TypeText(a[0])).value, a[0]);
      PrependTasksTwice(head, BuildTasks(a[1..]).value, BuildTasks(b));
    }
  }

  /** A definition of a known type whose constructor raises contributes
      nothing; one that builds contributes its task, in place. */
  lemma BuildTasksOne(c: TaskConfig)
    requires TaskTypeNamed(TypeText(c)).Some?
    ensures var built := NewTask(TaskTypeNamed(TypeText(c)).value, c);
      BuildTasks([c]) == Ok(if built.Ok? then [built.value] else [])
  {
    assert [c][1..] == [];
    var head := Kept(TaskTypeNamed(TypeText(c)).value, c);
    assert head + [] == head;
  }

  /** At most one task per definition, each built from some definition. */
  lemma {:induction false} BuildTasksShape(cfgs: seq<TaskConfig>)
    requires BuildTasks(cfgs).Ok?
    ensures |BuildTasks(cfgs).value| <= |cfgs|
    ensures forall t :: t in BuildTasks(cfgs).value ==>
      exists c :: c in cfgs && TaskTypeNamed(TypeText(c)).Some? && NewTask(TaskTypeNamed(TypeText(c)).value, c) == Ok(t)
    decreases |cfgs|
  {
    if |cfgs| > 0 {
      BuildTasksShape(cfgs[1..]);
      forall t | t in BuildTasks(cfgs[1..]).value
        ensures exists c :: c in cfgs && TaskTypeNamed(TypeText(c)).Some? && NewTask(TaskTypeNamed(TypeText(c)).value, c) == Ok(t)
      {
        var c :| c in cfgs[1..] && TaskTypeNamed(TypeText(c)).Some? && NewTask(TaskTypeNamed(TypeText(c)).value, c) == Ok(t);
        assert c in cfgs;
      }
      assert cfgs[0] in cfgs;
    }
  }

  /** When every definition builds, the tasks are exactly the built
      definitions, one for one and in order. */
  lemma {:induction false} BuildTasksAllBuild(cfgs: seq<TaskConfig>)
    requires forall i :: 0 <= i < |cfgs| ==>
      TaskTypeNamed(TypeText(cfgs[i])).Some? && NewTask(TaskTypeNamed(TypeText(cfgs[i])).value, cfgs[i]).Ok?
    ensures BuildTasks(cfgs).Ok? && |BuildTasks(cfgs).value| == |cfgs|
    ensures forall i :: 0 <= i < |cfgs| ==>
      BuildTasks(cfgs).value[i] == NewTask(TaskTypeNamed(TypeText(cfgs[i])).value, cfgs[i]).value
    decreases |cfgs|
  {
    if |cfgs| > 0 {
      BuildTasksAllBuild(cfgs[1..]);
      var rest := BuildTasks(cfgs[1..]).value;
      forall i | 1 <= i < |cfgs|
        ensures BuildTasks(cfgs).value[i] == NewTask(TaskTypeNamed(TypeText(cfgs[i])).value, cfgs[i]).value
      {
        assert cfgs[1..][i - 1] == cfgs[i];
      }
    }
  }

  /** The hosts of two lists of definitions are those of the first
      followed by those of the second, and a definition without a `name`
      contributes nothing. */
  lemma {:induction false} BuildHostsAppend(a: seq<map<string, string>>, b: seq<map<string, string>>)
    ensures BuildHosts(a + b) == BuildHosts(a) + BuildHosts(b)
    decreases |a|
  {
    if |a| == 0 {
      assert a + b == b;
    } else {
      var first := if NewHost(a[0]).Some? then [NewHost(a[0]).value] else [];
      assert (a + b)[0] == a[0] && (a + b)[1..] == a[1..] + b;
      assert BuildHosts(a + b) == first + BuildHosts(a[1..] + b);
      BuildHostsAppend(a[1..], b);
      assert first + (BuildHosts(a[1..]) + BuildHosts(b)) == (first + BuildHosts(a[1..])) + BuildHosts(b);
    }
  }

  /** At most one host per definition; every host kept carries its
      definition's `name`, and exactly the definitions with a `name` are
      kept when there is one. */
  lemma {:induction false} BuildHostsShape(cfgs: seq<map<string, string>>)
    ensures |BuildHosts(cfgs)| <= |cfgs|
    ensures forall h :: h in BuildHosts(cfgs) ==> h.cfg in cfgs && "name" in h.cfg && h.name == h.cfg["name"]
    ensures (forall i :: 0 <= i < |cfgs| ==> "name" in cfgs[i]) ==> |BuildHosts(cfgs)| == |cfgs|
    ensures (forall i :: 0 <= i < |cfgs| ==> "name" !in cfgs[i]) ==> BuildHosts(cfgs) == []
    decreases |cfgs|
  {
    if |cfgs| > 0 {
      BuildHostsShape(cfgs[1..]);
      assert forall m :: m in cfgs[1..] ==> m in cfgs;
      if forall i :: 0 <= i < |cfgs| ==> "name" in cfgs[i] {
        assert forall i :: 0 <= i < |cfgs[1..]| ==> "name" in cfgs[1..][i] by {
          forall i | 0 <= i < |cfgs[1..]| ensures "name" in cfgs[1..][i] {
            assert cfgs[1..][i] == cfgs[i + 1];
          }
        }
      }
      if forall i :: 0 <= i < |cfgs| ==> "name" !in cfgs[i] {
        assert forall i :: 0 <= i < |cfgs[1..]| ==> "name" !in cfgs[1..][i] by {
          forall i | 0 <= i < |cfgs[1..]| ensures "name" !in cfgs[1..][i] {
            assert cfgs[1..][i] == cfgs[i + 1];
          }
        }
      }
    }
  }
}
