/** The logger manager: attaching the shared handler to the logger stored
    under a name, once, together with its level and non-propagation. */
module Loggers {
  import opened Common
  import opened Handlers

  /** The parameter record of the logger manager. */
  datatype LoggerParameter = LoggerParameter(handler: Handler, name: string, level: int)

  /** The record with its name and level at their defaults. */
  function DefaultLoggerParameter(handler: Handler): (p: LoggerParameter)
    ensures p.handler == handler && p.name == "Unknown" && p.level == DEBUG
  {
    LoggerParameter(handler, "Unknown", DEBUG)
  }

  /** The fields of a logging.Logger the manager reads and sets. */
  datatype LoggerState = LoggerState(level: int, handlers: seq<Handler>, propagate: bool)

  /** A logger the library has just made for a new name: no level of its own,
      no handlers, propagating. */
  const FRESH_LOGGER: LoggerState := LoggerState(NOTSET, [], true)

  /** No handler occurs twice in a list. */
  ghost predicate NoDuplicates(hs: seq<Handler>)
  {
    forall i, j :: 0 <= i < j < |hs| ==> hs[i] != hs[j]
  }

  /** The logger after `create_logger` has found it: if the handler is not yet
      attached, the level is set, the handler added and propagation switched off;
      otherwise nothing changes. */
  function Attach(l: LoggerState, p: LoggerParameter): (r: LoggerState)
    // the handler is attached afterwards
    ensures p.handler in r.handlers
    // an already attached handler leaves level, handlers and propagate alone
    ensures p.handler in l.handlers ==> r == l
    // a new attachment: the level is the parameter's, the logger stops
    // propagating, and the handler comes after the ones kept
    ensures p.handler !in l.handlers ==>
              r.level == p.level && !r.propagate && r.handlers == l.handlers + [p.handler]
    // nothing but the handler is ever added
    ensures forall h :: h in r.handlers <==> h in l.handlers || h == p.handler
    ensures |r.handlers| <= |l.handlers| + 1
    // no handler is attached twice
    ensures NoDuplicates(l.handlers) ==> NoDuplicates(r.handlers)
  {
    if p.handler in l.handlers then l
    else LoggerState(p.level, l.handlers + [p.handler], false)
  }

  /** The stored logger under `name`, or the one the library makes for a new name. */
  function Lookup(loggers: map<string, LoggerState>, name: string): LoggerState
  {
    if name in loggers then loggers[name] else FRESH_LOGGER
  }

  /** The name-keyed logger table after `create_logger` with parameter `p`. */
  function CreateLoggerTable(loggers: map<string, LoggerState>, p: LoggerParameter): (r: map<string, LoggerState>)
    // the name is present afterwards, and no other name is added or removed
    ensures r.Keys == loggers.Keys + {p.name}
    // loggers under other names are untouched
    ensures forall n :: n in loggers && n != p.name ==> r[n] == loggers[n]
    // the logger under the name has the handler attached
    ensures p.handler in r[p.name].handlers
    ensures r[p.name] == Attach(Lookup(loggers, p.name), p)
  {
    loggers[p.name := Attach(Lookup(loggers, p.name), p)]
  }

  /** Calling `create_logger` twice with the same parameter changes nothing the
      second time. */
  lemma CreateLoggerIdempotent(loggers: map<string, LoggerState>, p: LoggerParameter)
    ensures var once := CreateLoggerTable(loggers, p);
            CreateLoggerTable(once, p) == once
  {
  }

  /** A later call with a different level for the same name and handler keeps the
      level the first call set. The level conjunct follows from the table
      equality; it is spelled out because it is the property the lemma is for. */
  lemma FirstLevelWins(loggers: map<string, LoggerState>, p: LoggerParameter, level: int)
    ensures var once := CreateLoggerTable(loggers, p);
            var twice := CreateLoggerTable(once, p.(level := level));
            twice == once && twice[p.name].level == once[p.name].level
  {
  }

  /** Storing under a key twice keeps only the second value; `CreateLogger`
      updates the named logger's entry once by lookup and once by attachment. */
  lemma UpdateTwice<K, V>(m: map<K, V>, k: K, v: V, w: V)
    ensures m[k := v][k := w] == m[k := w]
  {
  }

  /** A logging.Logger object: its name, and the fields the manager changes. */
  class Logger {
    const name: string
    var level: int
    var handlers: seq<Handler>
    var propagate: bool

    ghost function State(): LoggerState
      reads this
    {
      LoggerState(level, handlers, propagate)
    }

    /** The logger the library makes for a name it has not seen. */
    constructor (name: string)
      ensures this.name == name && State() == FRESH_LOGGER
    {
      this.name := name;
      level := NOTSET;
      handlers := [];
      propagate := true;
    }

    method SetLevel(level: int)
      modifies this
      ensures State() == old(State()).(level := level)
    {
      this.level := level;
    }

    /** The library's addHandler: appends the handler unless it is already there. */
    method AddHandler(h: Handler)
      modifies this
      ensures State() == old(State()).(handlers := if h in old(handlers) then old(handlers) else old(handlers) + [h])
    {
      if h !in handlers {
        handlers := handlers + [h];
      }
    }
  }

  /** The library's process-wide table of loggers by name. Distinct names hold
      distinct logger objects. */
  class LoggerRegistry {
    var loggers: map<string, Logger>

    ghost predicate Valid()
      reads this, loggers.Values
    {
      && (forall n :: n in loggers ==> loggers[n].name == n)
      && (forall n, n' :: n in loggers && n' in loggers && n != n' ==> loggers[n] != loggers[n'])
    }

    /** The states of the stored loggers, by name. */
    ghost function States(): map<string, LoggerState>
      reads this, loggers.Values
    {
      map n | n in loggers :: loggers[n].State()
    }

    /** When only the stored logger `l` has changed since state `old`, only its
      entry in the states changes. */
    twostate lemma OnlyOneChanged(l: Logger)
      requires old(Valid()) && unchanged(this)
      requires l.name in loggers && loggers[l.name] == l
      requires forall n :: n in loggers && n != l.name ==> unchanged(loggers[n])
      ensures Valid()
      ensures States() == old(States())[l.name := l.State()]
    {
      forall n | n in loggers && n != l.name
        ensures loggers[n] != l
      {
      }
    }

    /** While neither the table nor any stored logger changes, neither do the states. */
    twostate lemma StatesUnchanged()
      requires unchanged(this) && unchanged(loggers.Values)
      ensures States() == old(States())
    {
    }

    constructor ()
      ensures Valid() && loggers == map[]
    {
      loggers := map[];
    }

    /** `logging.getLogger(name)`: the logger stored under the name, made and
      stored first if there is none. */
    method GetLogger(name: string) returns (l: Logger)
      requires Valid()
      modifies this
      ensures Valid()
      ensures name in loggers && l == loggers[name] && l.name == name
      ensures name in old(loggers) ==> loggers == old(loggers)
      ensures forall n :: n in old(loggers) ==> n in loggers && loggers[n] == old(loggers[n])
      ensures name !in old(loggers) ==> fresh(l) && loggers == old(loggers)[name := l] && l.State() == FRESH_LOGGER
      ensures States() == old(States())[name := Lookup(old(States()), name)]
    {
      if name in loggers {
        l := loggers[name];
      } else {
        l := new Logger(name);
        loggers := loggers[name := l];
      }
    }
  }

  /** The logger manager: a parameter record, and `create_logger` over the library's table. */
  class LoggerManager {
    const parameter: LoggerParameter

    constructor (parameter: LoggerParameter)
      ensures this.parameter == parameter
    {
      this.parameter := parameter;
    }

    /** Looks up the logger by name and attaches the handler, with level and no
      propagation, unless it is attached already; other loggers are untouched. */
    method CreateLogger(registry: LoggerRegistry) returns (logger: Logger)
      requires registry.Valid()
      modifies registry, registry.loggers.Values
      ensures registry.Valid()
      ensures parameter.name in registry.loggers && logger == registry.loggers[parameter.name]
      ensures parameter.name in old(registry.loggers) ==> logger == old(registry.loggers[parameter.name])
      ensures parameter.name !in old(registry.loggers) ==> fresh(logger)
      ensures forall n :: n in old(registry.loggers) ==> n in registry.loggers && registry.loggers[n] == old(registry.loggers[n])
      ensures registry.States() == CreateLoggerTable(old(registry.States()), parameter)
    {
      ghost var before := old(registry.States());
      logger := registry.GetLogger(parameter.name);
      ghost var current := logger.State();
      assert current == Lookup(before, parameter.name);
      label found:
      if parameter.handler !in logger.handlers {
        logger.SetLevel(parameter.level);
        logger.AddHandler(parameter.handler);
        logger.propagate := false;
      }
      assert logger.State() == Attach(current, parameter);
      registry.OnlyOneChanged@found(logger);
      UpdateTwice(before, parameter.name, current, Attach(current, parameter));
    }
  }
}
