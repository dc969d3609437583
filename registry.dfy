/**
 * The per-file context registry (`configUserMap`, `configSystemMap`,
 * `configLogger`) and the entry points that read it back: `logCompact` and
 * the level helpers `debug`, `warn`, `error`, `info`.
 */
module Registry {
  import opened LogTypes
  import Envelope

  /** One `configLogger` call: the caller's registry key and the context it registered. */
  datatype ConfigCall = ConfigCall(fileNameFull: string, context: ContextFields)

  /** The contents of the two maps. */
  datatype Tables = Tables(user: map<string, ApplicationContext>, system: map<string, SystemContextStripped>)

  const EmptyTables := Tables(map[], map[])

  /** The context a compact call from `fileNameFull` uses for `stakeholder`: the registered one, else the fixed default. */
  function Resolve(t: Tables, stakeholder: Stakeholder, fileNameFull: string): (c: ContextFields)
    ensures StakeholderOf(c) == stakeholder
  {
    match stakeholder
    case SYSTEM => Sys(if fileNameFull in t.system then t.system[fileNameFull] else DefaultSystemContext)
    case USER => App(if fileNameFull in t.user then t.user[fileNameFull] else DefaultApplicationContext)
  }

  /**
   * The effect of one `configLogger` call: a later compact call from the same
   * file for the matching stakeholder sees exactly the registered context,
   * every other (stakeholder, file) pair resolves as before, and the map of
   * the other stakeholder is untouched.
   */
  function Register(t: Tables, call: ConfigCall): (r: Tables)
    ensures Resolve(r, StakeholderOf(call.context), call.fileNameFull) == call.context
    ensures forall s: Stakeholder, f: string ::
      (s != StakeholderOf(call.context) || f != call.fileNameFull) ==> Resolve(r, s, f) == Resolve(t, s, f)
    ensures HasArea(call.context) ==>
      r.user == t.user && r.system.Keys == t.system.Keys + {call.fileNameFull}
    ensures !HasArea(call.context) ==>
      r.system == t.system && r.user.Keys == t.user.Keys + {call.fileNameFull}
  {
    if HasArea(call.context) then
      Tables(t.user, t.system[call.fileNameFull := call.context.system])
    else
      Tables(t.user[call.fileNameFull := call.context.application], t.system)
  }

  /** The maps after a history of `configLogger` calls, starting from empty maps. */
  function Replay(calls: seq<ConfigCall>): Tables
    decreases |calls|
  {
    if calls == [] then EmptyTables
    else Register(Replay(calls[..|calls| - 1]), calls[|calls| - 1])
  }

  /** The context of the last call in `calls` from `fileNameFull` whose shape belongs to `stakeholder`. */
  function LastConfigured(calls: seq<ConfigCall>, stakeholder: Stakeholder, fileNameFull: string): Option<ContextFields>
    decreases |calls|
  {
    if calls == [] then None
    else
      var call := calls[|calls| - 1];
      if call.fileNameFull == fileNameFull && StakeholderOf(call.context) == stakeholder then Some(call.context)
      else LastConfigured(calls[..|calls| - 1], stakeholder, fileNameFull)
  }

  /** The files that registered a context of `stakeholder`'s shape at least once. */
  function ConfiguredFiles(calls: seq<ConfigCall>, stakeholder: Stakeholder): set<string>
    decreases |calls|
  {
    if calls == [] then {}
    else
      var call := calls[|calls| - 1];
      ConfiguredFiles(calls[..|calls| - 1], stakeholder) +
        (if StakeholderOf(call.context) == stakeholder then {call.fileNameFull} else {})
  }

  /**
   * Last write wins: after any history of `configLogger` calls, a compact
   * lookup returns the context that the lookup's file registered last for
   * that stakeholder, and the fixed default when it registered none.
   */
  lemma {:induction false} ReplayResolvesLast(calls: seq<ConfigCall>, stakeholder: Stakeholder, fileNameFull: string)
    ensures Resolve(Replay(calls), stakeholder, fileNameFull) ==
      match LastConfigured(calls, stakeholder, fileNameFull)
      case Some(c) => c
      case None => DefaultContext(stakeholder)
    decreases |calls|
  {
    if calls != [] {
      ReplayResolvesLast(calls[..|calls| - 1], stakeholder, fileNameFull);
    }
  }

  /** Entries are never removed: each map holds exactly one key per file that registered a context of its shape. */
  lemma {:induction false} ReplayKeys(calls: seq<ConfigCall>)
    ensures Replay(calls).system.Keys == ConfiguredFiles(calls, SYSTEM)
    ensures Replay(calls).user.Keys == ConfiguredFiles(calls, USER)
    decreases |calls|
  {
    if calls != [] {
      ReplayKeys(calls[..|calls| - 1]);
    }
  }

  /** The module-level registry, with the two maps the source keeps. */
  class ContextRegistry {
    var configUserMap: map<string, ApplicationContext>
    var configSystemMap: map<string, SystemContextStripped>
    /** Every `configLogger` call so far, oldest first. */
    ghost var calls: seq<ConfigCall>

    function State(): Tables
      reads this
    {
      Tables(configUserMap, configSystemMap)
    }

    /** The maps are what the history of `configLogger` calls made them. */
    ghost predicate Valid()
      reads this
    {
      State() == Replay(calls)
    }

    constructor ()
      ensures Valid() && calls == []
      ensures configUserMap == map[] && configSystemMap == map[]
    {
      configUserMap := map[];
      configSystemMap := map[];
      calls := [];
    }

    /** `configLogger`: a context with `area` goes to the system map, any other to the user map, keyed by the caller's path. */
    method ConfigLogger(context: ContextFields, caller: Caller)
      requires Valid()
      modifies this
      ensures Valid() && calls == old(calls) + [ConfigCall(caller.fullPath, context)]
      ensures HasArea(context) ==>
        configSystemMap == old(configSystemMap)[caller.fullPath := context.system] &&
        configUserMap == old(configUserMap)
      ensures !HasArea(context) ==>
        configUserMap == old(configUserMap)[caller.fullPath := context.application] &&
        configSystemMap == old(configSystemMap)
    {
      var fileNameFull := caller.fullPath;
      if HasArea(context) {
        configSystemMap := configSystemMap[fileNameFull := context.system];
      } else {
        configUserMap := configUserMap[fileNameFull := context.application];
      }
      ghost var previous := calls;
      calls := calls + [ConfigCall(fileNameFull, context)];
      assert calls[..|calls| - 1] == previous;
    }

    /**
     * `logCompact`: the context comes from the caller's file's registration,
     * or the fixed default on a miss; in a valid registry that is the last
     * context the file registered for the stakeholder.
     */
    method LogCompact(level: LogLevel, stakeholder: Stakeholder, message: string, data: Record,
                      caller: Caller, host: string) returns (e: Emission)
      ensures e == Envelope.Log(level, message, data, Resolve(State(), stakeholder, caller.fullPath), caller, host)
      ensures e.level == level && e.message == message
      ensures e.entry.context.stakeholder == stakeholder
      ensures e.entry.host == host && e.entry.data == data
      ensures Valid() ==>
        Resolve(State(), stakeholder, caller.fullPath) ==
          match LastConfigured(calls, stakeholder, caller.fullPath)
          case Some(c) => c
          case None => DefaultContext(stakeholder)
    {
      ReplayResolvesLast(calls, stakeholder, caller.fullPath);
      var fileNameFull := caller.fullPath;
      if stakeholder == SYSTEM {
        var contextFields: SystemContextStripped;
        if fileNameFull in configSystemMap {
          contextFields := configSystemMap[fileNameFull];
        } else {
          contextFields := DefaultSystemContext;
        }
        e := Envelope.LogSystem(level, message, data, contextFields, caller, host);
      } else {
        var contextFields: ApplicationContext;
        if fileNameFull in configUserMap {
          contextFields := configUserMap[fileNameFull];
        } else {
          contextFields := DefaultApplicationContext;
        }
        e := Envelope.LogUser(level, message, data, contextFields, host);
      }
    }

    /** `debug`: compact when no context is given, otherwise `log` at level debug, ignoring `stakeholder`. */
    method Debug(stakeholder: Stakeholder, message: string, data: Record, contextFields: Option<ContextFields>,
                 caller: Caller, host: string) returns (e: Emission)
      ensures e.level == LogLevel.Debug
      ensures contextFields.None? ==>
        e == Envelope.Log(LogLevel.Debug, message, data, Resolve(State(), stakeholder, caller.fullPath), caller, host) &&
        e.entry.context.stakeholder == stakeholder
      ensures contextFields.Some? ==>
        e == Envelope.Log(LogLevel.Debug, message, data, contextFields.value, caller, host)
    {
      if contextFields.None? {
        e := LogCompact(LogLevel.Debug, stakeholder, message, data, caller, host);
      } else {
        e := Envelope.Log(LogLevel.Debug, message, data, contextFields.value, caller, host);
      }
    }

    /** `warn`: compact when no context is given, otherwise `log` at level warn, ignoring `stakeholder`. */
    method Warn(stakeholder: Stakeholder, message: string, data: Record, contextFields: Option<ContextFields>,
                caller: Caller, host: string) returns (e: Emission)
      ensures e.level == LogLevel.Warn
      ensures contextFields.None? ==>
        e == Envelope.Log(LogLevel.Warn, message, data, Resolve(State(), stakeholder, caller.fullPath), caller, host) &&
        e.entry.context.stakeholder == stakeholder
      ensures contextFields.Some? ==>
        e == Envelope.Log(LogLevel.Warn, message, data, contextFields.value, caller, host)
    {
      if contextFields.None? {
        e := LogCompact(LogLevel.Warn, stakeholder, message, data, caller, host);
      } else {
        e := Envelope.Log(LogLevel.Warn, message, data, contextFields.value, caller, host);
      }
    }

    /** `error`: compact when no context is given, otherwise `log` at level error, ignoring `stakeholder`. */
    method Error(stakeholder: Stakeholder, message: string, data: Record, contextFields: Option<ContextFields>,
                 caller: Caller, host: string) returns (e: Emission)
      ensures e.level == LogLevel.Error
      ensures contextFields.None? ==>
        e == Envelope.Log(LogLevel.Error, message, data, Resolve(State(), stakeholder, caller.fullPath), caller, host) &&
        e.entry.context.stakeholder == stakeholder
      ensures contextFields.Some? ==>
        e == Envelope.Log(LogLevel.Error, message, data, contextFields.value, caller, host)
    {
      if contextFields.None? {
        e := LogCompact(LogLevel.Error, stakeholder, message, data, caller, host);
      } else {
        e := Envelope.Log(LogLevel.Error, message, data, contextFields.value, caller, host);
      }
    }

    /** `info`: compact when no context is given, otherwise `log` at level info, ignoring `stakeholder`. */
    method Info(stakeholder: Stakeholder, message: string, data: Record, contextFields: Option<ContextFields>,
                caller: Caller, host: string) returns (e: Emission)
      ensures e.level == LogLevel.Info
      ensures contextFields.None? ==>
        e == Envelope.Log(LogLevel.Info, message, data, Resolve(State(), stakeholder, caller.fullPath), caller, host) &&
        e.entry.context.stakeholder == stakeholder
      ensures contextFields.Some? ==>
        e == Envelope.Log(LogLevel.Info, message, data, contextFields.value, caller, host)
    {
      if contextFields.None? {
        e := LogCompact(LogLevel.Info, stakeholder, message, data, caller, host);
      } else {
        e := Envelope.Log(LogLevel.Info, message, data, contextFields.value, caller, host);
      }
    }
  }

  /**
   * A client in the shape of the compact test cases: register a context
   * from one file, then log compactly from it and from a file that
   * registered nothing.
   */
  method CompactClient(appContext: ApplicationContext, data: Record, host: string)
  {
    var registry := new ContextRegistry();
    var here := Caller("/repo/source/app.test.ts", "app.test.ts", "Object.<anonymous>");
    var elsewhere := Caller("/repo/source/other.ts", "other.ts", "run");
    registry.ConfigLogger(App(appContext), here);
    var e := registry.LogCompact(LogLevel.Info, USER, "ping", data, here, host);
    assert e.entry.context == Context(USER, UserFields(appContext));
    registry.ConfigLogger(Sys(SystemContextStripped(Execution)), here);
    e := registry.Debug(SYSTEM, "ping", data, None, here, host);
    assert e.entry.context.contextFields == SystemFields(SystemContext("app.test.ts", Execution, "Object.<anonymous>"));
    e := registry.Warn(USER, "ping", data, None, elsewhere, host);
    assert e.entry.context.contextFields == UserFields(ApplicationContext("unknown", "unknown", "unkown"));
    e := registry.Error(USER, "ping", data, Some(Sys(SystemContextStripped(Resilience))), elsewhere, host);
    assert e.level == LogLevel.Error && e.entry.context.stakeholder == SYSTEM;
  }
}
