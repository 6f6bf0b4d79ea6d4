/** What the entry point promises across calls: one handler per process,
    first-call-wins for the handler's configuration and for a logger's level,
    no duplicate attachment, and failures that leave the caches unset. */
module Properties {
  import opened Common
  import opened Handlers
  import opened Loggers
  import opened Facade
  import Singleton

  /** The first call from a fresh process succeeds exactly when its own file's
      directory can be made and its own handler built; it then builds the
      handler with the first identity, and the one logger it makes has that
      handler alone, the call's level and propagation off. */
  lemma FirstCallBuildsHandler(args: GetLoggerArgs, env: Environment)
    ensures var p := HandlerParameterOf(args);
            var r := NewLoggerStep(INITIAL, args, env);
            && (r.result.Ok? <==> env.makeDirs(p.filePath.Parent()) && env.buildsHandler(p))
            && (r.result.Ok? ==>
                  && r.result.value == args.loggerName
                  && CachedHandler(r.state) == Some(NewHandler(p, 0))
                  && r.state.nextId == 1
                  && r.state.loggers == map[args.loggerName := LoggerState(args.loggerLevel, [NewHandler(p, 0)], false)])
  {
    var h := NewHandler(HandlerParameterOf(args), 0);
    assert FRESH_LOGGER.handlers + [h] == [h];
  }

  /** Once a handler is cached, a call gets exactly that handler whatever its
      own file path or handler arguments; it succeeds exactly when the stored
      parameter's directory can be made, and changes only the named logger. */
  lemma LaterCallGetsCachedHandler(s: SystemState, args: GetLoggerArgs, env: Environment)
    requires CachedHandler(s).Some?
    ensures var r := NewLoggerStep(s, args, env);
            && r.state.instances == s.instances && r.state.nextId == s.nextId
            && (r.result.Ok? <==> env.makeDirs(LogDirectory(s.instances[HandlerManagerClass])))
            && (r.result.Ok? ==> r.state.loggers == CreateLoggerTable(s.loggers, LoggerParameterOf(args, CachedHandler(s).value)))
            && (r.result.Err? ==> r.state == s && r.result.error == RuntimeError(DIRECTORY_FAILURE))
  {
    var p := HandlerParameterOf(args);
    assert ManagerFor(s, p) == s.instances[HandlerManagerClass];
  }

  /** A directory that cannot be made aborts the call before any handler is
      built: the only possible change is that the manager now exists. */
  lemma DirectoryFailureBuildsNothing(s: SystemState, args: GetLoggerArgs, env: Environment)
    requires !env.makeDirs(LogDirectory(ManagerFor(s, HandlerParameterOf(args))))
    ensures var r := NewLoggerStep(s, args, env);
            && r.result == Err(RuntimeError(DIRECTORY_FAILURE))
            && r.state == s.(instances := Singleton.Call(s.instances, HandlerManagerClass,
                                                          Ok(NewManager(HandlerParameterOf(args)))).instances)
  {
  }

  /** The first successful call from a fresh process builds the handler from its
      own arguments; a second call with any other path or handler arguments gets
      that same handler attached to its logger. */
  lemma SecondCallSharesFirstHandler(args1: GetLoggerArgs, env1: Environment,
                                     args2: GetLoggerArgs, env2: Environment)
    requires NewLoggerStep(INITIAL, args1, env1).result.Ok?
    ensures var s1 := NewLoggerStep(INITIAL, args1, env1).state;
            var r2 := NewLoggerStep(s1, args2, env2);
            var h := NewHandler(HandlerParameterOf(args1), 0);
            && CachedHandler(s1) == Some(h)
            && (r2.result.Ok? <==> env2.makeDirs(HandlerParameterOf(args1).filePath.Parent()))
            && CachedHandler(r2.state) == Some(h)
            && (r2.result.Ok? ==> h in r2.state.loggers[args2.loggerName].handlers)
  {
    var s1 := NewLoggerStep(INITIAL, args1, env1).state;
    assert CachedHandler(s1) == Some(NewHandler(HandlerParameterOf(args1), 0));
    LaterCallGetsCachedHandler(s1, args2, env2);
  }

  /** Two successful calls with the same logger name from a fresh process: the
      logger has the shared handler attached exactly once, keeps the first call's
      level whatever level the second call asked for, and does not propagate. */
  lemma SameNameTwice(args1: GetLoggerArgs, env1: Environment, args2: GetLoggerArgs, env2: Environment)
    requires args2.loggerName == args1.loggerName
    requires NewLoggerStep(INITIAL, args1, env1).result.Ok?
    requires NewLoggerStep(NewLoggerStep(INITIAL, args1, env1).state, args2, env2).result.Ok?
    ensures var s1 := NewLoggerStep(INITIAL, args1, env1).state;
            var s2 := NewLoggerStep(s1, args2, env2).state;
            var h := NewHandler(HandlerParameterOf(args1), 0);
            && s2.loggers == s1.loggers
            && s2.loggers[args1.loggerName] == LoggerState(args1.loggerLevel, [h], false)
  {
    var s1 := NewLoggerStep(INITIAL, args1, env1).state;
    var h := NewHandler(HandlerParameterOf(args1), 0);
    assert CachedHandler(s1) == Some(h);
    assert s1.loggers[args1.loggerName] == Attach(FRESH_LOGGER, LoggerParameterOf(args1, h));
    LaterCallGetsCachedHandler(s1, args2, env2);
  }

  /** A first call whose handler cannot be built still leaves the manager behind
      with that call's parameter and no handler; a later call works on that first
      parameter, not its own: its directory, its construction, its handler. */
  lemma FailedFirstCallKeepsFirstParameter(args1: GetLoggerArgs, env1: Environment,
                                           args2: GetLoggerArgs, env2: Environment)
    requires env1.makeDirs(HandlerParameterOf(args1).filePath.Parent())
    requires !env1.buildsHandler(HandlerParameterOf(args1))
    ensures var r1 := NewLoggerStep(INITIAL, args1, env1);
            var p1 := HandlerParameterOf(args1);
            && r1.result == Err(RuntimeError(HANDLER_FAILURE))
            && r1.state == SystemState(map[HandlerManagerClass := NewManager(p1)], map[], 0)
    ensures var p1 := HandlerParameterOf(args1);
            var r2 := NewLoggerStep(NewLoggerStep(INITIAL, args1, env1).state, args2, env2);
            && (r2.result.Ok? <==> env2.makeDirs(p1.filePath.Parent()) && env2.buildsHandler(p1))
            && (r2.result.Ok? ==> CachedHandler(r2.state) == Some(NewHandler(p1, 0)))
  {
    var p1 := HandlerParameterOf(args1);
    var s1 := NewLoggerStep(INITIAL, args1, env1).state;
    assert s1 == SystemState(map[HandlerManagerClass := NewManager(p1)], map[], 0);
    assert ManagerFor(s1, HandlerParameterOf(args2)) == NewManager(p1);
  }

  /** What holds of every state the process can reach: every logger the layer
      has touched has exactly the one cached handler, once, and does not
      propagate; and the cached handler's identity was handed out already. */
  ghost predicate Invariant(s: SystemState)
  {
    && (forall n :: n in s.loggers ==>
          CachedHandler(s).Some? && s.loggers[n].handlers == [CachedHandler(s).value] && !s.loggers[n].propagate)
    && (CachedHandler(s).Some? ==> CachedHandler(s).value.id < s.nextId)
  }

  lemma InitialInvariant()
    ensures Invariant(INITIAL)
  {
  }

  /** Every call of the entry point keeps the invariant, whether it succeeds or raises. */
  lemma StepPreservesInvariant(s: SystemState, args: GetLoggerArgs, env: Environment)
    requires Invariant(s)
    ensures Invariant(NewLoggerStep(s, args, env).state)
  {
    var hc := GetHandlerStep(s, HandlerParameterOf(args), env);
    if hc.result.Ok? {
      var h := hc.result.value;
      var t := NewLoggerStep(s, args, env).state;
      assert CachedHandler(s).Some? ==> h == CachedHandler(s).value;
      assert CachedHandler(t) == Some(h);
      forall n | n in t.loggers
        ensures t.loggers[n].handlers == [h] && !t.loggers[n].propagate
      {
        if n != args.loggerName {
          assert n in s.loggers;
        } else if n in s.loggers {
          assert h in s.loggers[n].handlers;
        }
      }
    }
  }

  /** One call of the entry point, with the environment it meets. */
  datatype Request = Request(args: GetLoggerArgs, env: Environment)

  /** The state after a sequence of calls, each one raising or not. */
  function Run(s: SystemState, requests: seq<Request>): SystemState
    decreases |requests|
  {
    if requests == [] then s
    else Run(NewLoggerStep(s, requests[0].args, requests[0].env).state, requests[1..])
  }

  lemma {:induction false} RunPreservesInvariant(s: SystemState, requests: seq<Request>)
    requires Invariant(s)
    ensures Invariant(Run(s, requests))
    decreases |requests|
  {
    if requests != [] {
      StepPreservesInvariant(s, requests[0].args, requests[0].env);
      RunPreservesInvariant(NewLoggerStep(s, requests[0].args, requests[0].env).state, requests[1..]);
    }
  }

  /** Once cached, the handler is never replaced, whatever calls follow. */
  lemma {:induction false} CachedHandlerNeverChanges(s: SystemState, requests: seq<Request>)
    requires CachedHandler(s).Some?
    ensures CachedHandler(Run(s, requests)) == CachedHandler(s)
    decreases |requests|
  {
    if requests != [] {
      var t := NewLoggerStep(s, requests[0].args, requests[0].env).state;
      LaterCallGetsCachedHandler(s, requests[0].args, requests[0].env);
      CachedHandlerNeverChanges(t, requests[1..]);
    }
  }

  /** Once the manager exists, its stored parameter is the first call's for the
      rest of the process, whatever calls follow. */
  lemma {:induction false} StoredParameterNeverChanges(s: SystemState, requests: seq<Request>)
    requires HandlerManagerClass in s.instances
    ensures HandlerManagerClass in Run(s, requests).instances
    ensures Run(s, requests).instances[HandlerManagerClass].parameter == s.instances[HandlerManagerClass].parameter
    decreases |requests|
  {
    if requests != [] {
      var t := NewLoggerStep(s, requests[0].args, requests[0].env).state;
      assert t.instances[HandlerManagerClass].parameter == s.instances[HandlerManagerClass].parameter;
      StoredParameterNeverChanges(t, requests[1..]);
    }
  }

  /** One handler per process: after any sequence of calls from a fresh process,
      every logger the layer returned has the one cached handler attached, once,
      and does not propagate. */
  lemma OneHandlerPerProcess(requests: seq<Request>)
    ensures var s := Run(INITIAL, requests);
            forall n :: n in s.loggers ==>
              CachedHandler(s).Some? && s.loggers[n].handlers == [CachedHandler(s).value] && !s.loggers[n].propagate
  {
    InitialInvariant();
    RunPreservesInvariant(INITIAL, requests);
  }
}
