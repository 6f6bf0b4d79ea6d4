# A get-or-create registry layer over a logging library, in Dafny

The layer hands out loggers that all write through one timed rotating file
handler per process. It has four parts, each modelled in its own module:

- `Singleton` (`singleton.dfy`): the singleton metaclass's class-keyed instance
  table. The first call for a class runs the constructor and stores the instance.
  Every later call returns the stored instance and does not construct again.
- `Handlers` (`handler.dfy`): the handler parameter record and its defaults, and the
  handler manager. The manager stores its parameter and a handler field that starts
  empty. `create_directory` makes the stored file's parent directory.
  `create_handler` builds the handler from the stored parameter only while the
  field is empty, then caches it.
- `Loggers` (`logger.dfy`): the logger parameter record, the library's name-keyed logger
  table, and `create_logger`. That call attaches the handler to the named logger,
  sets the level and switches propagation off, but only if the handler is not
  attached already.
- `Facade` (`core.dfy`): the entry point `GetLogger(...)`. It builds both parameter
  records from its arguments, gets the handler, then gets the logger.
  `Properties` (`properties.dfy`) states what follows across calls.

Each part comes in two layers:

- A value-level specification: `ManagerState`, `LoggerState`, and `SystemState`, which
  holds the instance table, the logger table and the next handler identity. Its
  functions give the effect of one call.
- Imperative classes that keep the source's mutable objects:
  - `HandlerManager`, with its `handler` field;
  - `Logger` objects, whose fields are changed in place;
  - `LoggerRegistry`, the library's logger table;
  - `Runtime`, the process-wide globals.

  Each class method is proved to have exactly the effect the specification gives,
  through `State()`, `States()` and `Abs()`.

The environment is given to each call as a value of type `Environment`. It says
whether a directory can be made and whether a handler can be built from a
parameter record. The user's home directory is a parameter. A handler's object
identity is a number taken from a counter.

Three behaviours of the code shape the model:

- There is one handler per process, whatever the file path. A later call with a
  different path gets the first handler.
- Every failure is a `RuntimeError` with a fixed message.
- `create_directory` runs on every call. So a call can fail on the directory even
  when a handler is already cached.

## Model

| member | source | states |
|---|---|---|
| `Singleton.Call` | UsamaAliceWhite/Logging/Shared/Singleton.py:14-20 | the returned instance is the one stored under the class; a class already present gets its stored instance with no construction and no change; an absent class gets the constructor's outcome; a raising constructor leaves the table unchanged; entries are only added, and only under the called class |
| `Singleton.LaterCallReturnsFirstInstance` | UsamaAliceWhite/Logging/Shared/Singleton.py:15-20 | after a successful call, a later call for the same class returns the identical instance and changes nothing, whatever its constructor would have built |
| `Singleton.OtherClassesUnchanged` | UsamaAliceWhite/Logging/Shared/Singleton.py:11-19 | a call for one class leaves every other class's entry as it was, present or absent |
| `Handlers.DefaultHandlerParameter` | UsamaAliceWhite/Logging/Core/Handler.py:17-31 | the default record (midnight, 1, 99, utf-8, no delay, local time, no time of day, no error policy, DEBUG, the two templates) puts the log file in `home / "Logs"` |
| `Handlers.NewHandler` | UsamaAliceWhite/Logging/Core/Handler.py:52-68 | the handler takes the stored file path, rotation, encoding, delay, UTC, time-of-day and error arguments, then the stored level and a formatter with the two stored templates, under the identity given |
| `Loggers.DefaultLoggerParameter` | UsamaAliceWhite/Logging/Core/Logger.py:14-17 | the logger record's defaults: the given handler, name "Unknown", level DEBUG |
| `Facade.DefaultArgs` | UsamaAliceWhite/Logging/Core/__init__.py:86-102 | the entry point's defaults: logger "Unknown" at DEBUG, handler level DEBUG, a log file in `home / "Logs"` |
| `Facade.HandlerParameterOf` | UsamaAliceWhite/Logging/Core/__init__.py:105-118 | every handler argument and both templates land in their own field of the handler record |
| `Facade.LoggerParameterOf` | UsamaAliceWhite/Logging/Core/__init__.py:121-125 | the logger record holds the handler got, the logger name and the logger level (not the handler level) |
| `Loggers.Logger.constructor` | UsamaAliceWhite/Logging/Core/Logger.py:31 | a logger the library makes for a new name has that name, level NOTSET, no handlers and propagation on |
| `Common.ParentOfJoin` | UsamaAliceWhite/Logging/Core/Handler.py:43 | the parent directory of `dir / name` is `dir` |
| `Handlers.HandlerManager.constructor` | UsamaAliceWhite/Logging/Core/Handler.py:36-38 | a new manager stores the given parameter and has no handler |
| `Handlers.DirectoryOutcome` | UsamaAliceWhite/Logging/Core/Handler.py:41-46 | `create_directory` succeeds exactly when the stored file path's parent can be made, and otherwise raises the directory RuntimeError |
| `Handlers.HandlerManager.CreateDirectory` | UsamaAliceWhite/Logging/Core/Handler.py:41-46 | the method targets the stored parameter's parent directory, changes nothing, and its outcome is `DirectoryOutcome` of the manager's state |
| `Handlers.CreateHandlerStep` | UsamaAliceWhite/Logging/Core/Handler.py:49-74 | the parameter never changes; a returned handler is the cached one afterwards; a cached handler is returned as it is and nothing is built; with nothing cached, the call succeeds exactly when construction from the stored parameter does, and builds the handler from that parameter; a failure raises the handler RuntimeError and leaves the field empty |
| `Handlers.HandlerManager.CreateHandler` | UsamaAliceWhite/Logging/Core/Handler.py:49-74 | the manager's new state and the result are exactly those of `CreateHandlerStep` on its old state |
| `Handlers.CreateHandlerIdempotent` | UsamaAliceWhite/Logging/Core/Handler.py:50-74 | once `create_handler` has succeeded, calling it again, in any environment, returns the same handler and leaves the manager unchanged |
| `Handlers.CreatedHandlerConfigured` | UsamaAliceWhite/Logging/Core/Handler.py:52-68 | a newly built handler writes to the stored file path and has the stored parameter's level and message and date templates |
| `Loggers.Attach` | UsamaAliceWhite/Logging/Core/Logger.py:32-35 | afterwards the handler is attached; if it was already attached, level, handlers and propagate are unchanged; otherwise the level is the parameter's, propagation is off and the handler is appended after the kept ones; nothing else is added; a list without duplicates stays without duplicates |
| `Loggers.CreateLoggerTable` | UsamaAliceWhite/Logging/Core/Logger.py:28-39 | afterwards the name is present and no other name is added or removed; loggers under other names are untouched; the named logger is `Attach` applied to the stored logger, or to a new one for a new name |
| `Loggers.CreateLoggerIdempotent` | UsamaAliceWhite/Logging/Core/Logger.py:31-35 | a second `create_logger` with the same parameter leaves the table unchanged |
| `Loggers.FirstLevelWins` | UsamaAliceWhite/Logging/Core/Logger.py:32-33 | a second call for the same name and handler with a different level changes nothing, so the logger keeps the first level |
| `Loggers.Logger.SetLevel` | UsamaAliceWhite/Logging/Core/Logger.py:33 | only the logger's level changes, to the given one |
| `Loggers.Logger.AddHandler` | UsamaAliceWhite/Logging/Core/Logger.py:34 | the handler is appended unless it is already in the list; level and propagate are unchanged |
| `Loggers.LoggerRegistry.GetLogger` | UsamaAliceWhite/Logging/Core/Logger.py:31 | the result is the logger stored under the name afterwards; a known name gives its stored object and the table is unchanged; a new name gets a new logger with no level, no handlers and propagation on |
| `Loggers.LoggerManager.constructor` | UsamaAliceWhite/Logging/Core/Logger.py:24-25 | the manager stores the given parameter |
| `Loggers.LoggerManager.CreateLogger` | UsamaAliceWhite/Logging/Core/Logger.py:28-39 | returns the object stored under the name, the same object as before for a known name; every stored logger object stays stored under its name; the states of all loggers afterwards are `CreateLoggerTable` of the states before |
| `Facade.DefaultsAgree` | UsamaAliceWhite/Logging/Core/__init__.py:86-103 | the entry point's defaults build exactly the default handler record, and the logger record with name "Unknown" and level DEBUG |
| `Facade.GetHandlerStep` | UsamaAliceWhite/Logging/Core/__init__.py:131-136 | the logger table is untouched; the manager exists afterwards with the first call's parameter, even when the call fails; a directory that cannot be made raises the directory error and builds nothing; once a handler is cached, every call whose directory can be made gets that handler and changes nothing; with nothing cached and the directory made, the call succeeds exactly when a handler can be built from the stored parameter, which then takes a new identity; past the directory the only error is the handler RuntimeError; a failure caches nothing |
| `Facade.NewLoggerStep` | UsamaAliceWhite/Logging/Core/__init__.py:86-128 | the call succeeds exactly when getting the handler does, raises that step's error otherwise, and keeps the manager table and identity counter that step left; on success the logger table is exactly `CreateLoggerTable` with the cached handler, and the returned name is stored with that handler attached; loggers under other names are untouched; a failed call leaves the logger table and the cached handler as they were |
| `Facade.Runtime.constructor` | UsamaAliceWhite/Logging/Shared/Singleton.py:11 | a new process has no manager, no loggers and no handler identities taken |
| `Facade.Runtime.Instantiate` | UsamaAliceWhite/Logging/Shared/Singleton.py:14-20 | the stored manager object is returned when there is one and the table is unchanged; otherwise a new manager is constructed, stored and returned; the table's states are those `Singleton.Call` gives |
| `Facade.Runtime.GetHandler` | UsamaAliceWhite/Logging/Core/__init__.py:131-136 | the process's new state and the result are exactly those of `GetHandlerStep`; an existing manager object stays the stored one |
| `Facade.Runtime.GetLogger` | UsamaAliceWhite/Logging/Core/__init__.py:139-143 | the logger table changes exactly as `CreateLoggerTable` says; the result is the logger object stored under the name, the same object as before for a known name |
| `Facade.Runtime.NewLogger` | UsamaAliceWhite/Logging/Core/__init__.py:86-128 | the process's new state, success and error are exactly those of `NewLoggerStep`; on success the result is the logger object stored under the name, the same object as before for a known name |
| `Properties.FirstCallBuildsHandler` | UsamaAliceWhite/Logging/Core/__init__.py:119-126 | from a fresh process, a call succeeds exactly when its own file's directory can be made and its own handler built; it then caches the handler built with the first identity, and the only logger is the named one, holding that handler alone, the call's level and propagation off |
| `Properties.LaterCallGetsCachedHandler` | UsamaAliceWhite/Logging/Core/__init__.py:131-136 | once a handler is cached, a call with any path or handler arguments attaches exactly that handler; it succeeds exactly when the stored parameter's directory can be made; a failure changes nothing |
| `Properties.DirectoryFailureBuildsNothing` | UsamaAliceWhite/Logging/Core/__init__.py:132-134 | when the directory cannot be made, the call raises the directory error and the only possible change is the manager's creation |
| `Properties.SecondCallSharesFirstHandler` | UsamaAliceWhite/Logging/Core/__init__.py:119-134 | in a fresh process, the first successful call builds the handler from its own arguments; a second call with any arguments gets that same handler, and succeeds exactly when the first path's directory can be made |
| `Properties.SameNameTwice` | UsamaAliceWhite/Logging/Core/__init__.py:121-143 | two successful calls with the same name leave one logger with the shared handler attached exactly once, the first call's level and propagation off; the second call changes no logger |
| `Properties.FailedFirstCallKeepsFirstParameter` | UsamaAliceWhite/Logging/Core/Handler.py:36-72 | a first call whose handler cannot be built raises the handler error and leaves only a manager with its parameter and no handler; a later call succeeds exactly when that first parameter's directory and handler can be made, and then builds its handler from that first parameter |
| `Properties.InitialInvariant` | UsamaAliceWhite/Logging/Shared/Singleton.py:11 | the invariant holds in a fresh process |
| `Properties.StepPreservesInvariant` | UsamaAliceWhite/Logging/Core/__init__.py:86-143 | every call, successful or not, keeps the invariant: every logger the layer touched has exactly the one cached handler, once, and does not propagate |
| `Properties.RunPreservesInvariant` | UsamaAliceWhite/Logging/Core/__init__.py:86-143 | any sequence of calls keeps the invariant |
| `Properties.CachedHandlerNeverChanges` | UsamaAliceWhite/Logging/Core/Handler.py:50-74 | once cached, the handler stays the cached one through any sequence of calls |
| `Properties.StoredParameterNeverChanges` | UsamaAliceWhite/Logging/Shared/Singleton.py:15-20 | once the manager exists, it stays in the table with the first call's parameter through any sequence of calls |
| `Properties.OneHandlerPerProcess` | UsamaAliceWhite/Logging/Core/__init__.py:80-83 | after any sequence of calls in a fresh process, every logger the layer returned has the one cached handler attached exactly once and does not propagate |

## Left out

- The timed rotating file handler's internals are not modelled: rollover timing, backup eviction, opening and renaming files, encoding, error policy, delay, UTC and time of day. The handler is a record of its construction arguments plus an identity. Whether construction succeeds is the environment's `buildsHandler` answer.
- The formatter's rendering is not modelled. Its two templates are kept as uninterpreted strings.
- What `mkdir(parents=True, exist_ok=True)` does on disk is not modelled. Only whether it succeeds for the stored parent directory is, as the environment's `makeDirs` answer.
- The metaclass lock, the logger manager's lock and the double-checked locking are left out; the model is sequential. `create_handler` itself runs under no lock: two threads making their first calls at once could each build a handler. So the one-handler-per-process result holds only for sequential calls.
- The library's logger name hierarchy, parent propagation and record emission are left out. So is the library's own root logger, which `""` and `"root"` both name. The logger table starts empty, and a new logger has level NOTSET, no handlers and propagation on.
- `Path.home()` is a parameter. A `datetime.time` is a record with no meaning attached. Turning a string path into a `Path` is not modelled: the entry point takes a `Path`.
- The `GetLogger` object that `__new__` creates is left out. Its two helper methods keep no state, so they are methods of `Runtime`.
- `Facade.Runtime.Instantiate`: never takes the metaclass's failure branch, because the manager's `__init__` only assigns two fields and cannot raise. The failure branch (a raising constructor stores nothing) is stated for any class by `Singleton.Call`.
- `Loggers.LoggerManager.CreateLogger`: has no RuntimeError path. For a string name and an integer level, nothing inside the `try` can raise, so the "Failed to create logger." error cannot happen here.
- A handler's object identity is a number from the process's counter. Python's `id()` values are not modelled.
