/** Task definitions and outcome kinds of `routine_runner.py`: the
    `TaskResult` kinds and their codes, the typed view of a task's JSON
    definition, and the validating constructors of the two task types
    (`docker_exec` and `http`), including the parse of an HTTP
    expected-status range. */
module Tasks {
  import opened Wrappers
  import opened PyText

  /** The fixed outcome kinds of `TaskResult`. */
  datatype ResultKind =
    | Skipped
    | Success
    | UnexpectedHttpStatus
    | ExpectedKeyNotFound
    | ExpectedValueNotFound
    | UnclassifiedError
  {
    function Name(): string
    {
      match this
      case Skipped => "SKIPPED"
      case Success => "SUCCESS"
      case UnexpectedHttpStatus => "UNEXPECTED_HTTP_STATUS"
      case ExpectedKeyNotFound => "EXPECTED_KEY_NOT_FOUND"
      case ExpectedValueNotFound => "EXPECTED_VALUE_NOT_FOUND"
      case UnclassifiedError => "UNCLASSIFIED_ERROR"
    }

    /** The signed code; only its sign is used to classify an outcome. */
    function Code(): int
    {
      match this
      case Skipped => -1
      case Success => 0
      case UnexpectedHttpStatus => 1
      case ExpectedKeyNotFound => 2
      case ExpectedValueNotFound => 3
      case UnclassifiedError => 8675309
    }

    /** The display colour. */
    function Color(): string
    {
      match this
      case Skipped => "#0000CD"
      case Success => "green"
      case _ => "red"
    }
  }

  /** A `TaskResult`: its kind (which carries name, code and colour) and a
      free-text detail. */
  datatype TaskResult = TaskResult(kind: ResultKind, detail: string)
  {
    function Name(): string { kind.Name() }
    function Code(): int { kind.Code() }
  }

  /** The sign of the code and the name agree: code 0 is exactly
      `SUCCESS`, a negative code exactly `SKIPPED`, and every other name
      has a positive code. Names identify kinds. */
  lemma CodeSignMatchesName(k: ResultKind)
    ensures k.Code() == 0 <==> k.Name() == "SUCCESS"
    ensures k.Code() < 0 <==> k.Name() == "SKIPPED"
    ensures k.Code() > 0 <==> k.Name() != "SUCCESS" && k.Name() != "SKIPPED"
    ensures forall k': ResultKind :: k'.Name() == k.Name() ==> k' == k
  {
  }

  /** The `request` object of an `http` task definition; `None` is a key
      that is absent. */
  datatype RequestConfig = RequestConfig(
    uri: Option<string>,
    httpMethod: Option<string>,
    auth: Option<string>,
    data: Option<string>,
    contentType: Option<string>)

  /** The `response` object of an `http` task definition. */
  datatype ResponseConfig = ResponseConfig(
    expectedStatus: Option<string>,
    expectedField: Option<string>,
    expectedValue: Option<string>,
    saveField: Option<string>)

  /** One entry of a routine's `tasks` list, each key present or absent. */
  datatype TaskConfig = TaskConfig(
    name: Option<string>,
    description: Option<string>,
    taskType: Option<string>,
    hostIndex: Option<int>,
    enabled: Option<bool>,
    instances: Option<int>,
    command: Option<string>,
    privileged: Option<bool>,
    user: Option<string>,
    outputStream: Option<string>,
    request: Option<RequestConfig>,
    response: Option<ResponseConfig>)

  /** Why a task definition was refused (each is a `ValueError` or a
      `KeyError` in the source). */
  datatype ConfigError =
    | MissingGeneralField
    | MissingTypeField(field: string)
    | MissingKey(key: string)
    | InvalidStatus(text: string)
    | InstancesWithSaveField

  /** The task types that `get_task` finds among the subclasses of
      `Task`, by class name. */
  datatype TaskType = DockerExecType | HttpType

  const DefaultTaskType := "http"

  /** `get_task(task_type)`: the subclass whose name is `task_type`. */
  function TaskTypeNamed(name: string): (r: Option<TaskType>)
    ensures r == Some(DockerExecType) <==> name == "docker_exec"
    ensures r == Some(HttpType) <==> name == "http"
  {
    if name == "docker_exec" then Some(DockerExecType)
    else if name == "http" then Some(HttpType)
    else None
  }

  /** The type-specific part of a constructed task. */
  datatype TaskKind =
    | DockerExec(command: string, privileged: bool, user: Option<string>, outputStream: string)
    | Http(
        uri: string, httpMethod: string, auth: string, data: string, contentType: Option<string>,
        statusSpec: string, lower: int, upper: int,
        expectedField: Option<string>, expectedValue: Option<string>, saveField: Option<string>)

  /** A constructed task. */
  datatype Task = Task(
    name: string,
    description: string,
    hostIndex: int,
    enabled: bool,
    instances: int,
    kind: TaskKind)
  {
    /** `task.__class__.__name__`. */
    function TypeName(): string
    {
      if kind.DockerExec? then "docker_exec" else "http"
    }
  }

  /** The part of `Task.__init__` common to every type: `name` and
      `description` are required, `host-index` defaults to 0, `enabled` to
      true and `instances` to 1. */
  function GeneralFields(cfg: TaskConfig): Result<(string, string, int, bool, int), ConfigError>
  {
    if cfg.name.None? || cfg.description.None? then Err(MissingGeneralField)
    else Ok((cfg.name.value, cfg.description.value,
                  GetOr(cfg.hostIndex, 0), GetOr(cfg.enabled, true), GetOr(cfg.instances, 1)))
  }

  function GetOr<T>(o: Option<T>, default: T): T
  {
    if o.Some? then o.value else default
  }

  /** The expected-status spec `"N-M"` or `"N"`: the text is split on `-`;
      the first piece must be an integer (the lower bound) and, when there
      is a second piece, it must be an integer too (the upper bound);
      otherwise the upper bound equals the lower. Pieces after the second
      are ignored. */
  function ParseStatusRange(spec: string): Result<(int, int), ConfigError>
  {
    var parts := Split(spec, '-');
    match ParseInt(parts[0])
    case None => Err(InvalidStatus(parts[0]))
    case Some(lower) =>
      if |parts| < 2 then Ok((lower, lower))
      else match ParseInt(parts[1])
        case None => Err(InvalidStatus(parts[1]))
        case Some(upper) => Ok((lower, upper))
  }

  /** `"N-M"` parses to the inclusive range `[N, M]`. */
  lemma StatusRangeOfPair(n: nat, m: nat)
    ensures ParseStatusRange(NatToString(n) + "-" + NatToString(m)) == Ok((n as int, m as int))
  {
    var a, b := NatToString(n), NatToString(m);
    NatToStringChars(n);
    NatToStringChars(m);
    SplitAtSeparator(a, '-', b);
    SplitWithoutSeparator(b, '-');
    assert a + "-" + b == a + ['-'] + b;
    ParseIntToString(n);
    ParseIntToString(m);
    assert IntToString(n) == a && IntToString(m) == b;
  }

  /** A bare `"N"` parses to `[N, N]`. */
  lemma StatusRangeOfSingle(n: nat)
    ensures ParseStatusRange(NatToString(n)) == Ok((n as int, n as int))
  {
    var a := NatToString(n);
    NatToStringChars(n);
    SplitWithoutSeparator(a, '-');
    ParseIntToString(n);
    assert IntToString(n) == a;
  }

  /** A leading minus sign is read as a range separator, so a negative
      bare status (`"-N"`) is refused: its first piece is empty. */
  lemma StatusRangeOfNegative(n: nat)
    ensures ParseStatusRange("-" + NatToString(n)).Err?
  {
    var a := NatToString(n);
    NatToStringChars(n);
    SplitAtSeparator("", '-', a);
    assert "" + ['-'] + a == "-" + a;
    ParseIntNeedsDigit("");
  }

  /** `docker_exec(cfg)`: the generic fields, then the required `command`;
      `privileged` defaults to false, `user` to `None` and `output-stream`
      to `"stderr"`. */
  function NewDockerExec(cfg: TaskConfig): Result<Task, ConfigError>
  {
    match GeneralFields(cfg)
    case Err(e) => Err(e)
    case Ok((name, description, hostIndex, enabled, instances)) =>
      if cfg.command.None? then Err(MissingTypeField("command"))
      else Ok(Task(name, description, hostIndex, enabled, instances,
        DockerExec(cfg.command.value, GetOr(cfg.privileged, false), cfg.user,
                   GetOr(cfg.outputStream, "stderr"))))
  }

  /** `http(cfg)`: the generic fields (no type-specific required field is
      declared), then `request` with its `uri` and `method`, `response`
      with its `expected-status`, which must parse; finally more than one
      instance together with a `save-field` is refused. */
  function NewHttp(cfg: TaskConfig): Result<Task, ConfigError>
  {
    match GeneralFields(cfg)
    case Err(e) => Err(e)
    case Ok((name, description, hostIndex, enabled, instances)) =>
      if cfg.request.None? then Err(MissingKey("request"))
      else if cfg.request.value.uri.None? then Err(MissingKey("uri"))
      else if cfg.request.value.httpMethod.None? then Err(MissingKey("method"))
      else if cfg.response.None? then Err(MissingKey("response"))
      else if cfg.response.value.expectedStatus.None? then Err(MissingKey("expected-status"))
      else
        var req := cfg.request.value;
        var resp := cfg.response.value;
        match ParseStatusRange(resp.expectedStatus.value)
        case Err(e) => Err(e)
        case Ok((lower, upper)) =>
          if instances > 1 && resp.saveField.Some? then Err(InstancesWithSaveField)
          else Ok(Task(name, description, hostIndex, enabled, instances,
            Http(req.uri.value, req.httpMethod.value, GetOr(req.auth, ""), GetOr(req.data, ""),
                 req.contentType, resp.expectedStatus.value, lower, upper,
                 resp.expectedField, resp.expectedValue, resp.saveField)))
  }

  /** Construct a task of the given type. */
  function NewTask(t: TaskType, cfg: TaskConfig): Result<Task, ConfigError>
  {
    match t
    case DockerExecType => NewDockerExec(cfg)
    case HttpType => NewHttp(cfg)
  }

  /** Construction of any type fails when `name` or `description` is
      absent; when it succeeds, the generic fields are those given or their
      defaults. */
  lemma GeneralFieldsOfNewTask(t: TaskType, cfg: TaskConfig)
    ensures cfg.name.None? || cfg.description.None? ==> NewTask(t, cfg) == Err(MissingGeneralField)
    ensures NewTask(t, cfg).Ok? ==>
      var task := NewTask(t, cfg).value;
      && Some(task.name) == cfg.name
      && Some(task.description) == cfg.description
      && task.hostIndex == (if cfg.hostIndex.Some? then cfg.hostIndex.value else 0)
      && task.enabled == (if cfg.enabled.Some? then cfg.enabled.value else true)
      && task.instances == (if cfg.instances.Some? then cfg.instances.value else 1)
      && (t == DockerExecType <==> task.kind.DockerExec?)
  {
  }

  /** A `docker_exec` task builds exactly when `name`, `description` and
      `command` are all present. */
  lemma DockerExecNeedsCommand(cfg: TaskConfig)
    ensures NewTask(DockerExecType, cfg).Ok? <==>
      cfg.name.Some? && cfg.description.Some? && cfg.command.Some?
    ensures cfg.name.Some? && cfg.description.Some? && cfg.command.None? ==>
      NewTask(DockerExecType, cfg) == Err(MissingTypeField("command"))
  {
  }

  /** An `http` task builds exactly when the generic fields, `request.uri`,
      `request.method` and a parsable `response.expected-status` are
      present and it does not combine several instances with a save-field;
      the built task carries the parsed range. */
  lemma HttpConstruction(cfg: TaskConfig)
    ensures NewTask(HttpType, cfg).Ok? <==>
      && cfg.name.Some? && cfg.description.Some?
      && cfg.request.Some? && cfg.request.value.uri.Some? && cfg.request.value.httpMethod.Some?
      && cfg.response.Some? && cfg.response.value.expectedStatus.Some?
      && ParseStatusRange(cfg.response.value.expectedStatus.value).Ok?
      && !((if cfg.instances.Some? then cfg.instances.value else 1) > 1 && cfg.response.value.saveField.Some?)
    ensures NewTask(HttpType, cfg).Ok? ==>
      var k := NewTask(HttpType, cfg).value.kind;
      ParseStatusRange(k.statusSpec) == Ok((k.lower, k.upper))
  {
    assert NewTask(HttpType, cfg) == NewHttp(cfg);
    if cfg.name.Some? && cfg.description.Some? && cfg.request.Some? && cfg.request.value.uri.Some?
      && cfg.request.value.httpMethod.Some? && cfg.response.Some? && cfg.response.value.expectedStatus.Some?
    {
      var range := ParseStatusRange(cfg.response.value.expectedStatus.value);
      if range.Ok? {
        var (lower, upper) := range.value;
        assert GetOr(cfg.instances, 1) > 1 && cfg.response.value.saveField.Some?
          ==> NewHttp(cfg) == Err(InstancesWithSaveField);
      }
    }
  }

  /** An `http` definition with more than one instance and a save-field is
      refused, whatever else it holds. */
  lemma InstancesWithSaveFieldRefused(cfg: TaskConfig)
    requires cfg.name.Some? && cfg.description.Some?
    requires cfg.instances.Some? && cfg.instances.value > 1
    requires cfg.response.Some? && cfg.response.value.saveField.Some?
    ensures NewTask(HttpType, cfg).Err?
  {
  }

  /** What `http.run` returns as written: a `TaskResult`, except that the
      value-mismatch branch (routine_runner.py:222) returns a bare
      `(kind, detail)` tuple. */
  datatype Returned = ReturnedResult(result: TaskResult) | ReturnedPair(kind: ResultKind, detail: string)

  /** `result.code` as the runner reads it (routine_runner.py:309), outside
      its `try`: reading it from a tuple raises `AttributeError`. */
  function ReadCodeAsWritten(v: Returned): (r: Result<int, string>)
    ensures r.Ok? <==> v.ReturnedResult?
    ensures r.Ok? ==> r.value == v.result.Code()
  {
    match v
    case ReturnedResult(r) => Ok(r.Code())
    case ReturnedPair(_, _) => Err("AttributeError: 'tuple' object has no attribute 'code'")
  }
}
