/** The entry point: one call builds the handler parameter from its arguments,
    gets the shared handler through the singleton manager, and gets the named
    logger with that handler attached. */
module Facade {
  import opened Common
  import opened Handlers
  import opened Loggers
  import Singleton

  /** The classes that use the singleton metaclass. */
  datatype ClassKey = HandlerManagerClass

  /** The arguments of one call, as the entry point receives them. */
  datatype GetLoggerArgs = GetLoggerArgs(
    loggerName: string,
    loggerLevel: int,
    logFilePath: Path,
    logMessageFormat: string,
    logDatetimeFormat: string,
    handlerWhen: string,
    handlerInterval: int,
    handlerBackupCount: int,
    handlerEncoding: Option<string>,
    handlerDelay: bool,
    handlerUtc: bool,
    handlerAtTime: Option<TimeOfDay>,
    handlerErrors: Option<string>,
    handlerLevel: int)

  /** Every argument at its default; `home` is the user's home directory. */
  function DefaultArgs(home: Path): (a: GetLoggerArgs)
    // the default logger is "Unknown" at DEBUG, writing to a file in `home / "Logs"`
    ensures a.loggerName == "Unknown" && a.loggerLevel == DEBUG && a.handlerLevel == DEBUG
    ensures a.logFilePath.Parent() == home.Join("Logs")
  {
    ParentOfJoin(home.Join("Logs"), "Unknown.log");
    GetLoggerArgs("Unknown", DEBUG, DefaultFilePath(home), DEFAULT_MESSAGE_FORMAT,
                  DEFAULT_DATETIME_FORMAT, "midnight", 1, 99, Some("utf-8"), false, false,
                  None, None, DEBUG)
  }

  /** The handler parameter record the entry point builds from its arguments. */
  function HandlerParameterOf(a: GetLoggerArgs): (p: HandlerParameter)
    // every handler argument lands in its own field; the logger's name and level take no part
    ensures p.filePath == a.logFilePath && p.when == a.handlerWhen && p.interval == a.handlerInterval
    ensures p.backupCount == a.handlerBackupCount && p.encoding == a.handlerEncoding
    ensures p.delay == a.handlerDelay && p.utc == a.handlerUtc && p.atTime == a.handlerAtTime
    ensures p.errors == a.handlerErrors && p.level == a.handlerLevel
    ensures p.messageFormat == a.logMessageFormat && p.datetimeFormat == a.logDatetimeFormat
  {
    HandlerParameter(a.logFilePath, a.handlerWhen, a.handlerInterval, a.handlerBackupCount,
                     a.handlerEncoding, a.handlerDelay, a.handlerUtc, a.handlerAtTime,
                     a.handlerErrors, a.handlerLevel, a.logMessageFormat, a.logDatetimeFormat)
  }

  /** The logger parameter record the entry point builds around the handler it got. */
  function LoggerParameterOf(a: GetLoggerArgs, handler: Handler): (p: LoggerParameter)
    // the logger's own level, not the handler's
    ensures p.handler == handler && p.name == a.loggerName && p.level == a.loggerLevel
  {
    LoggerParameter(handler, a.loggerName, a.loggerLevel)
  }

  /** The entry point's defaults are the defaults of both parameter records. */
  lemma DefaultsAgree(home: Path, handler: Handler)
    ensures HandlerParameterOf(DefaultArgs(home)) == DefaultHandlerParameter(home)
    ensures LoggerParameterOf(DefaultArgs(home), handler) == DefaultLoggerParameter(handler)
  {
  }

  /** The process-wide state the layer reads and writes: the singleton
      metaclass's instance table (as manager states), the library's logger
      table (as logger states), and the identity the next new handler gets. */
  datatype SystemState = SystemState(
    instances: map<ClassKey, ManagerState>,
    loggers: map<string, LoggerState>,
    nextId: nat)

  /** Nothing created yet. */
  const INITIAL: SystemState := SystemState(map[], map[], 0)

  /** The handler the singleton manager has cached, if there is a manager and a handler. */
  function CachedHandler(s: SystemState): Option<Handler>
  {
    if HandlerManagerClass in s.instances then s.instances[HandlerManagerClass].handler else None
  }

  /** The manager a call with parameter `p` works on: the stored one, or a new one. */
  function ManagerFor(s: SystemState, p: HandlerParameter): ManagerState
  {
    if HandlerManagerClass in s.instances then s.instances[HandlerManagerClass] else NewManager(p)
  }

  /** The state after getting the handler, and the handler or the error raised. */
  datatype HandlerCall = HandlerCall(state: SystemState, result: Result<Handler>)

  /** `_get_handler`: get or create the manager, make its directory, then
      get or build its handler. */
  function GetHandlerStep(s: SystemState, p: HandlerParameter, env: Environment): (r: HandlerCall)
    // the logger table is not touched
    ensures r.state.loggers == s.loggers
    // the manager exists afterwards, with the first call's parameter, even if the call failed
    ensures HandlerManagerClass in r.state.instances
    ensures r.state.instances[HandlerManagerClass].parameter == ManagerFor(s, p).parameter
    // the directory comes first: if it cannot be made, nothing is built
    ensures !env.makeDirs(LogDirectory(ManagerFor(s, p))) ==>
              r.result == Err(RuntimeError(DIRECTORY_FAILURE)) && CachedHandler(r.state) == CachedHandler(s) &&
              r.state.nextId == s.nextId
    // a cached handler is what every later call gets, whatever its parameter
    ensures CachedHandler(s).Some? && env.makeDirs(LogDirectory(ManagerFor(s, p))) ==>
              r == HandlerCall(s, Ok(CachedHandler(s).value))
    // a handler returned is the one now cached
    ensures r.result.Ok? ==> CachedHandler(r.state) == Some(r.result.value)
    // a new handler comes from the stored parameter and takes a new identity
    ensures CachedHandler(s).None? && r.result.Ok? ==>
              r.result.value == NewHandler(ManagerFor(s, p).parameter, s.nextId) && r.state.nextId == s.nextId + 1
    // with nothing cached and the directory made, the call succeeds exactly
    // when a handler can be built from the stored parameter
    ensures CachedHandler(s).None? && env.makeDirs(LogDirectory(ManagerFor(s, p))) ==>
              (r.result.Ok? <==> env.buildsHandler(ManagerFor(s, p).parameter))
    // past the directory, the only error is the handler RuntimeError
    ensures env.makeDirs(LogDirectory(ManagerFor(s, p))) && r.result.Err? ==>
              r.result.error == RuntimeError(HANDLER_FAILURE)
    // a failed call caches nothing
    ensures r.result.Err? ==> CachedHandler(r.state) == CachedHandler(s) && r.state.nextId == s.nextId
  {
    var o := Singleton.Call(s.instances, HandlerManagerClass, Ok(NewManager(p)));
    var m := o.result.value;
    match DirectoryOutcome(m, env)
    case Fail(e) => HandlerCall(s.(instances := o.instances), Err(e))
    case Pass =>
      var step := CreateHandlerStep(m, env, s.nextId);
      var nextId := if m.handler.None? && step.result.Ok? then s.nextId + 1 else s.nextId;
      HandlerCall(SystemState(o.instances[HandlerManagerClass := step.manager], s.loggers, nextId), step.result)
  }

  /** The state after one call of the entry point, and the name of the logger
      it returned or the error it raised. */
  datatype Step = Step(state: SystemState, result: Result<string>)

  /** `GetLogger(...)`: the handler first, then the logger with it attached. */
  function NewLoggerStep(s: SystemState, args: GetLoggerArgs, env: Environment): (r: Step)
    // the logger returned is the one stored under the requested name, with the cached handler attached
    ensures r.result.Ok? ==>
              r.result.value == args.loggerName && args.loggerName in r.state.loggers &&
              CachedHandler(r.state).Some? && CachedHandler(r.state).value in r.state.loggers[args.loggerName].handlers
    // loggers under other names are untouched
    ensures forall n :: n in s.loggers && n != args.loggerName ==> n in r.state.loggers && r.state.loggers[n] == s.loggers[n]
    // the call succeeds exactly when getting the handler does, and raises its error otherwise
    ensures r.result.Ok? <==> GetHandlerStep(s, HandlerParameterOf(args), env).result.Ok?
    ensures r.result.Err? ==> r.result.error == GetHandlerStep(s, HandlerParameterOf(args), env).result.error
    // the manager table and the identity counter are those getting the handler left
    ensures r.state.instances == GetHandlerStep(s, HandlerParameterOf(args), env).state.instances
    ensures r.state.nextId == GetHandlerStep(s, HandlerParameterOf(args), env).state.nextId
    // on success the logger table is `create_logger`'s, with the cached handler
    ensures r.result.Ok? ==>
              r.state.loggers == CreateLoggerTable(s.loggers, LoggerParameterOf(args, CachedHandler(r.state).value))
    // a failed call leaves the logger table and the cached handler as they were
    ensures r.result.Err? ==> r.state.loggers == s.loggers && CachedHandler(r.state) == CachedHandler(s)
  {
    var hc := GetHandlerStep(s, HandlerParameterOf(args), env);
    match hc.result
    case Err(e) => Step(hc.state, Err(e))
    case Ok(handler) =>
      var loggers := CreateLoggerTable(hc.state.loggers, LoggerParameterOf(args, handler));
      Step(hc.state.(loggers := loggers), Ok(args.loggerName))
  }

  /** A table keyed by class holds at most the one class that uses the metaclass. */
  lemma OnlyClass<V>(m: map<ClassKey, V>)
    requires HandlerManagerClass in m
    ensures m == map[HandlerManagerClass := m[HandlerManagerClass]]
  {
    forall k | k in m ensures k == HandlerManagerClass {
    }
  }

  /** The process-wide state as objects: the singleton metaclass's instance
      table, the library's logger table, and the identity counter for handlers. */
  class Runtime {
    var instances: map<ClassKey, HandlerManager>
    const registry: LoggerRegistry
    var nextId: nat

    ghost predicate Valid()
      reads this, registry, registry.loggers.Values
    {
      registry.Valid()
    }

    ghost function Managers(): map<ClassKey, ManagerState>
      reads this, instances.Values
    {
      map k | k in instances :: instances[k].State()
    }

    /** The table holds at most the manager, so its states are the manager's. */
    lemma StoredManager()
      requires HandlerManagerClass in instances
      ensures Managers() == map[HandlerManagerClass := instances[HandlerManagerClass].State()]
    {
      OnlyClass(instances);
    }

    ghost function Abs(): SystemState
      reads this, instances.Values, registry, registry.loggers.Values
    {
      SystemState(Managers(), registry.States(), nextId)
    }

    constructor ()
      ensures Valid() && Abs() == INITIAL && fresh(registry)
    {
      instances := map[];
      registry := new LoggerRegistry();
      nextId := 0;
    }

    /** `HandlerManager(parameter)` through the singleton metaclass: the stored
      manager if there is one, else a new manager, stored before it is returned. */
    method Instantiate(parameter: HandlerParameter) returns (m: HandlerManager)
      modifies this
      ensures nextId == old(nextId)
      ensures HandlerManagerClass in instances && m == instances[HandlerManagerClass]
      ensures HandlerManagerClass in old(instances) ==> instances == old(instances)
      ensures HandlerManagerClass !in old(instances) ==> fresh(m) && instances == old(instances)[HandlerManagerClass := m]
      ensures Managers() == Singleton.Call(old(Managers()), HandlerManagerClass, Ok(NewManager(parameter))).instances
    {
      if HandlerManagerClass !in instances {
        var instance := new HandlerManager(parameter);
        instances := instances[HandlerManagerClass := instance];
      }
      m := instances[HandlerManagerClass];
    }

    /** `_get_handler`. */
    method GetHandler(parameter: HandlerParameter, env: Environment) returns (r: Result<Handler>)
      requires Valid()
      modifies this, instances.Values
      ensures Valid()
      ensures HandlerCall(Abs(), r) == GetHandlerStep(old(Abs()), parameter, env)
      ensures HandlerManagerClass in old(instances) ==> instances == old(instances)
    {
      ghost var before := old(Abs());
      ghost var o := Singleton.Call(before.instances, HandlerManagerClass, Ok(NewManager(parameter)));
      var manager := Instantiate(parameter);
      assert Managers() == o.instances;
      assert manager.State() == o.result.value;
      registry.StatesUnchanged();
      var made := manager.CreateDirectory(env);
      if made.Fail? {
        r := Err(made.error);
        assert Abs() == before.(instances := o.instances);
        return;
      }
      ghost var step := CreateHandlerStep(o.result.value, env, before.nextId);
      var cached := manager.handler;
      r := manager.CreateHandler(env, nextId);
      assert HandlerStep(manager.State(), r) == step;
      if cached.None? && r.Ok? {
        nextId := nextId + 1;
      }
      StoredManager();
      assert Managers() == map[HandlerManagerClass := step.manager];
      OnlyClass(o.instances[HandlerManagerClass := step.manager]);
      registry.StatesUnchanged();
      assert GetHandlerStep(before, parameter, env) == HandlerCall(Abs(), r);
    }

    /** `_get_logger`. */
    method GetLogger(parameter: LoggerParameter) returns (logger: Logger)
      requires Valid()
      modifies registry, registry.loggers.Values
      ensures Valid()
      ensures Abs() == old(Abs()).(loggers := CreateLoggerTable(old(Abs()).loggers, parameter))
      ensures parameter.name in registry.loggers && logger == registry.loggers[parameter.name]
      ensures parameter.name in old(registry.loggers) ==> logger == old(registry.loggers[parameter.name])
    {
      var manager := new LoggerManager(parameter);
      logger := manager.CreateLogger(registry);
    }

    /** `GetLogger(...)`: returns the named logger, or raises. */
    method NewLogger(args: GetLoggerArgs, env: Environment) returns (r: Result<Logger>)
      requires Valid()
      modifies this, instances.Values, registry, registry.loggers.Values
      ensures Valid()
      ensures Abs() == NewLoggerStep(old(Abs()), args, env).state
      ensures r.Ok? <==> NewLoggerStep(old(Abs()), args, env).result.Ok?
      ensures r.Err? ==> r.error == NewLoggerStep(old(Abs()), args, env).result.error
      ensures r.Ok? ==> args.loggerName in registry.loggers && r.value == registry.loggers[args.loggerName]
      ensures r.Ok? && args.loggerName in old(registry.loggers) ==> r.value == old(registry.loggers[args.loggerName])
    {
      var handlerParameter := HandlerParameterOf(args);
      var handler := GetHandler(handlerParameter, env);
      if handler.Err? {
        return Err(handler.error);
      }
      var loggerParameter := LoggerParameterOf(args, handler.value);
      var logger := GetLogger(loggerParameter);
      r := Ok(logger);
    }
  }
}
