/**
 * The data model of the logging facade: stakeholders, levels, the two
 * context shapes a caller supplies, the envelope that is handed to the
 * underlying logger, and the JSON-like values carried in `data` and `meta`.
 */
module LogTypes {

  datatype Option<+T> = None | Some(value: T)

  /** The audience of a log entry. */
  datatype Stakeholder = USER | SYSTEM

  /** The four levels the facade emits. */
  datatype LogLevel = Info | Debug | Warn | Error

  /** The architectural block a system-level entry comes from. */
  datatype Area = Execution | Operation | Orchestration | Resilience | Unknown

  /** `SystemContextStripped`: what a caller supplies for the SYSTEM stakeholder. */
  datatype SystemContextStripped = SystemContextStripped(area: Area)

  /**
   * `SystemContext`: the stripped context extended with the caller's file
   * and function (`function` is a reserved word here, hence `functionName`).
   */
  datatype SystemContext = SystemContext(file: string, area: Area, functionName: string)

  /** `ApplicationContext`: what a caller supplies for the USER stakeholder. */
  datatype ApplicationContext = ApplicationContext(unit: string, component: string, degradationMode: string)

  /**
   * A context argument of `log`, `configLogger` and the level helpers.
   * The source tells the two shapes apart by the presence of an `area`
   * field; here that duck-typed test is the constructor tag.
   */
  datatype ContextFields = Sys(system: SystemContextStripped) | App(application: ApplicationContext)

  /** `"area" in contextFields` */
  predicate HasArea(contextFields: ContextFields)
  {
    contextFields.Sys?
  }

  /** The stakeholder whose shape a context argument has. */
  function StakeholderOf(contextFields: ContextFields): Stakeholder
  {
    if HasArea(contextFields) then SYSTEM else USER
  }

  /** The fixed system context a compact call gets when its file registered none. */
  const DefaultSystemContext := SystemContextStripped(Unknown)

  /** The fixed application context a compact call gets when its file registered none (spelling as in the source). */
  const DefaultApplicationContext := ApplicationContext("unknown", "unknown", "unkown")

  function DefaultContext(stakeholder: Stakeholder): (c: ContextFields)
    ensures StakeholderOf(c) == stakeholder
  {
    match stakeholder
    case SYSTEM => Sys(DefaultSystemContext)
    case USER => App(DefaultApplicationContext)
  }

  /** JSON-like values: the caller's `data` payload and the formatted record's `meta`. */
  datatype Value =
    | Null
    | Undefined
    | Bool(b: bool)
    | Num(n: int)
    | Str(s: string)
    | Arr(items: seq<Value>)
    | Obj(fields: map<string, Value>)

  type Record = map<string, Value>

  /** JavaScript truthiness (numbers are integers here, so there is no NaN or -0). */
  predicate Truthy(v: Value)
  {
    match v
    case Null => false
    case Undefined => false
    case Bool(b) => b
    case Num(n) => n != 0
    case Str(s) => s != ""
    case Arr(_) => true
    case Obj(_) => true
  }

  /** JavaScript truthiness of an optional string such as an environment variable: unset and "" are false. */
  predicate IsSet(v: Option<string>)
  {
    v.Some? && v.value != ""
  }

  /**
   * The call site of a logging call, which the source recovers from a stack
   * trace with two different patterns: `fullPath` is the path from its first
   * '/' (the registry key), `baseName` the part after its last '/' (the
   * envelope's `file`), `functionName` the function name the source's
   * stack pattern for functions yields (source/app.ts:482-484).
   */
  datatype Caller = Caller(fullPath: string, baseName: string, functionName: string)

  /** The `contextFields` of an envelope: the caller's application context, or a full system context. */
  datatype EnvelopeFields = UserFields(application: ApplicationContext) | SystemFields(system: SystemContext)

  datatype Context = Context(stakeholder: Stakeholder, contextFields: EnvelopeFields)

  /** `LogEntry`: `{context, host, data}` */
  datatype LogEntry = LogEntry(context: Context, host: string, data: Record)

  /** One call of the underlying logger: `sorrirLogger.log(level, message, entry)`. */
  datatype Emission = Emission(level: LogLevel, message: string, entry: LogEntry)
}
