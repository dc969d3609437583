/**
 * Stakeholder routing and envelope assembly: `log`, `logUser`, `logSystem`.
 * The hostname and the resolved call site are parameters.
 */
module Envelope {
  import opened LogTypes

  /** Exactly one context shape is attached, and it agrees with the stakeholder tag. */
  predicate WellFormed(entry: LogEntry)
  {
    entry.context.stakeholder == SYSTEM <==> entry.context.contextFields.SystemFields?
  }

  /** What the caller supplied, read back from an envelope: the system context loses its file and function. */
  function Stripped(fields: EnvelopeFields): ContextFields
  {
    match fields
    case UserFields(application) => App(application)
    case SystemFields(system) => Sys(SystemContextStripped(system.area))
  }

  /** `logUser`: the caller's application context goes into the envelope unchanged. */
  function LogUser(level: LogLevel, message: string, data: Record, contextFields: ApplicationContext, host: string): (e: Emission)
    ensures e.level == level && e.message == message
    ensures e.entry.context.stakeholder == USER && WellFormed(e.entry)
    ensures e.entry.context.contextFields == UserFields(contextFields)
    ensures e.entry.host == host && e.entry.data == data
  {
    Emission(level, message, LogEntry(Context(USER, UserFields(contextFields)), host, data))
  }

  /** `logSystem`: the area comes from the argument, file and function from the call site. */
  function LogSystem(level: LogLevel, message: string, data: Record, contextFieldsStripped: SystemContextStripped,
                     caller: Caller, host: string): (e: Emission)
    ensures e.level == level && e.message == message
    ensures e.entry.context.stakeholder == SYSTEM && WellFormed(e.entry)
    ensures Stripped(e.entry.context.contextFields) == Sys(contextFieldsStripped)
    ensures e.entry.context.contextFields.system.file == caller.baseName
    ensures e.entry.context.contextFields.system.functionName == caller.functionName
    ensures e.entry.host == host && e.entry.data == data
  {
    var context := Context(SYSTEM, SystemFields(SystemContext(caller.baseName, contextFieldsStripped.area, caller.functionName)));
    Emission(level, message, LogEntry(context, host, data))
  }

  /** `log`: routes on whether the context has an `area` field. */
  function Log(level: LogLevel, message: string, data: Record, contextFields: ContextFields,
               caller: Caller, host: string): (e: Emission)
    ensures e.level == level && e.message == message
    ensures e.entry.context.stakeholder == SYSTEM <==> HasArea(contextFields)
    ensures WellFormed(e.entry)
    ensures Stripped(e.entry.context.contextFields) == contextFields
    ensures HasArea(contextFields) ==>
      e.entry.context.contextFields.system.file == caller.baseName &&
      e.entry.context.contextFields.system.functionName == caller.functionName
    ensures e.entry.host == host && e.entry.data == data
  {
    if HasArea(contextFields) then
      LogSystem(level, message, data, contextFields.system, caller, host)
    else
      LogUser(level, message, data, contextFields.application, host)
  }
}
