/** The handler manager: the rotating-file handler's parameters, and the
    manager object that creates the log directory and builds the handler once. */
module Handlers {
  import opened Common

  /** A `datetime.time` value, kept uninterpreted. */
  datatype TimeOfDay = TimeOfDay(hour: int, minute: int, second: int, microsecond: int)

  /** The parameter record of the handler, field by field. */
  datatype HandlerParameter = HandlerParameter(
    filePath: Path,
    when: string,
    interval: int,
    backupCount: int,
    encoding: Option<string>,
    delay: bool,
    utc: bool,
    atTime: Option<TimeOfDay>,
    errors: Option<string>,
    level: int,
    messageFormat: string,
    datetimeFormat: string)

  const DEFAULT_MESSAGE_FORMAT: string :=
    "%(asctime)s [%(levelname)-8s] %(name)-15s %(funcName)s:%(lineno)d - %(message)s"
  const DEFAULT_DATETIME_FORMAT: string := "%Y-%m-%d %H:%M:%S"

  /** `home / "Logs/Unknown.log"`, with the home directory supplied by the caller. */
  function DefaultFilePath(home: Path): Path
  {
    home.Join("Logs").Join("Unknown.log")
  }

  /** The parameter record with every field at its default. */
  function DefaultHandlerParameter(home: Path): (p: HandlerParameter)
    // the default log file lives in the directory `home / "Logs"`
    ensures p.filePath.Parent() == home.Join("Logs")
  {
    ParentOfJoin(home.Join("Logs"), "Unknown.log");
    HandlerParameter(DefaultFilePath(home), "midnight", 1, 99, Some("utf-8"), false, false,
                     None, None, DEBUG, DEFAULT_MESSAGE_FORMAT, DEFAULT_DATETIME_FORMAT)
  }

  /** The formatter a handler renders records with; its templates stay uninterpreted. */
  datatype Formatter = Formatter(fmt: string, datefmt: string)

  /** The identity of a handler object. */
  type HandlerId = nat

  /** A timed rotating file handler as the manager configures it. */
  datatype Handler = Handler(
    id: HandlerId,
    filename: Path,
    when: string,
    interval: int,
    backupCount: int,
    encoding: Option<string>,
    delay: bool,
    utc: bool,
    atTime: Option<TimeOfDay>,
    errors: Option<string>,
    level: int,
    formatter: Formatter)

  /** The handler built from `p`, with its level and formatter set from `p`,
      as a new object with identity `id`. */
  function NewHandler(p: HandlerParameter, id: HandlerId): (h: Handler)
    // the constructor's arguments, field by field
    ensures h.id == id && h.filename == p.filePath && h.when == p.when && h.interval == p.interval
    ensures h.backupCount == p.backupCount && h.encoding == p.encoding && h.delay == p.delay
    ensures h.utc == p.utc && h.atTime == p.atTime && h.errors == p.errors
    // then the level and the formatter set on it
    ensures h.level == p.level && h.formatter == Formatter(p.messageFormat, p.datetimeFormat)
  {
    Handler(id, p.filePath, p.when, p.interval, p.backupCount, p.encoding, p.delay, p.utc,
            p.atTime, p.errors, p.level, Formatter(p.messageFormat, p.datetimeFormat))
  }

  /** What the environment does when asked, at the time of one call: whether
      the directory (with its ancestors) can be made, and whether building,
      configuring and opening a handler from a parameter record succeeds. */
  datatype Environment = Environment(makeDirs: Path -> bool, buildsHandler: HandlerParameter -> bool)

  const DIRECTORY_FAILURE: string := "Failed to create log file directory."
  const HANDLER_FAILURE: string := "Failed to create log handler."

  /** The state of a manager object: its stored parameter and its cached handler. */
  datatype ManagerState = ManagerState(parameter: HandlerParameter, handler: Option<Handler>)

  /** A freshly initialised manager. */
  function NewManager(parameter: HandlerParameter): ManagerState
  {
    ManagerState(parameter, None)
  }

  /** The directory the manager creates: the parent of its stored file path. */
  function LogDirectory(m: ManagerState): Path
  {
    m.parameter.filePath.Parent()
  }

  /** `create_directory`: succeeds exactly when the stored file's directory can be
      made; any failure becomes the directory RuntimeError. */
  function DirectoryOutcome(m: ManagerState, env: Environment): (r: Outcome)
    ensures r.Pass? <==> env.makeDirs(LogDirectory(m))
    ensures r.Fail? ==> r.error == RuntimeError(DIRECTORY_FAILURE)
  {
    if env.makeDirs(LogDirectory(m)) then Pass else Fail(RuntimeError(DIRECTORY_FAILURE))
  }

  /** The manager after `create_handler`, and what the call returned or raised. */
  datatype HandlerStep = HandlerStep(manager: ManagerState, result: Result<Handler>)

  /** `create_handler`: builds a handler from the stored parameter only while
      none is cached, and caches it; `freshId` is the identity a new handler object gets. */
  function CreateHandlerStep(m: ManagerState, env: Environment, freshId: HandlerId): (r: HandlerStep)
    // the stored parameter never changes
    ensures r.manager.parameter == m.parameter
    // a returned handler is the cached one afterwards
    ensures r.result.Ok? ==> r.manager.handler == Some(r.result.value)
    // a cached handler is returned as it is and nothing is built
    ensures m.handler.Some? ==> r == HandlerStep(m, Ok(m.handler.value))
    // with nothing cached, the call succeeds exactly when construction does,
    // and the new handler comes from the stored parameter
    ensures m.handler.None? ==> (r.result.Ok? <==> env.buildsHandler(m.parameter))
    ensures m.handler.None? && r.result.Ok? ==> r.result.value == NewHandler(m.parameter, freshId)
    // a failed construction raises the handler RuntimeError and caches nothing
    ensures r.result.Err? ==> r.manager == m && m.handler == None
    ensures r.result.Err? ==> r.result.error == RuntimeError(HANDLER_FAILURE)
  {
    if m.handler.Some? then
      HandlerStep(m, Ok(m.handler.value))
    else if env.buildsHandler(m.parameter) then
      var h := NewHandler(m.parameter, freshId);
      HandlerStep(m.(handler := Some(h)), Ok(h))
    else
      HandlerStep(m, Err(RuntimeError(HANDLER_FAILURE)))
  }

  /** Once `create_handler` has succeeded, calling it again returns the same
      handler and leaves the manager alone, whatever the environment or identity. */
  lemma CreateHandlerIdempotent(m: ManagerState, env: Environment, freshId: HandlerId,
                                env': Environment, freshId': HandlerId)
    requires CreateHandlerStep(m, env, freshId).result.Ok?
    ensures var first := CreateHandlerStep(m, env, freshId);
            CreateHandlerStep(first.manager, env', freshId') == first
  {
  }

  /** The created handler carries the stored parameter's level and templates
      and writes to the stored file path. */
  lemma CreatedHandlerConfigured(m: ManagerState, env: Environment, freshId: HandlerId)
    requires m.handler.None? && CreateHandlerStep(m, env, freshId).result.Ok?
    ensures var h := CreateHandlerStep(m, env, freshId).result.value;
            h.level == m.parameter.level &&
            h.formatter == Formatter(m.parameter.messageFormat, m.parameter.datetimeFormat) &&
            h.filename == m.parameter.filePath && h.id == freshId
  {
  }

  /** The manager object: a stored parameter and a handler field that starts empty. */
  class HandlerManager {
    const parameter: HandlerParameter
    var handler: Option<Handler>

    ghost function State(): ManagerState
      reads this
    {
      ManagerState(parameter, handler)
    }

    constructor (parameter: HandlerParameter)
      ensures State() == NewManager(parameter)
    {
      this.parameter := parameter;
      this.handler := None;
    }

    /** Makes the stored file's directory; reads the object and changes nothing. */
    method CreateDirectory(env: Environment) returns (r: Outcome)
      ensures r == DirectoryOutcome(State(), env)
    {
      var directory := parameter.filePath.Parent();
      if env.makeDirs(directory) {
        r := Pass;
      } else {
        r := Fail(RuntimeError(DIRECTORY_FAILURE));
      }
    }

    /** Builds and caches the handler while the field is empty, else returns it. */
    method CreateHandler(env: Environment, freshId: HandlerId) returns (r: Result<Handler>)
      modifies this
      ensures HandlerStep(State(), r) == CreateHandlerStep(old(State()), env, freshId)
    {
      if handler.None? {
        if !env.buildsHandler(parameter) {
          return Err(RuntimeError(HANDLER_FAILURE));
        }
        var built := NewHandler(parameter, freshId);
        handler := Some(built);
      }
      r := Ok(handler.value);
    }
  }
}
