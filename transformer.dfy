/**
 * The record transformer of the Elasticsearch sink: reshapes
 * `{timestamp, message, level, meta}` into the object shipped to the index.
 * The current time is a parameter.
 */
module EsTransformer {
  import opened LogTypes

  /** The key under which the debug tag is merged into `fields`. */
  const DebugKey := "metadata.context.debug"

  const TransactionKey := "transaction.id"
  const TraceKey := "trace.id"
  const SpanKey := "span.id"

  /** The record the transport hands to the transformer. */
  datatype LogData = LogData(timestamp: Option<string>, message: string, level: string, meta: Record)

  /** `{id: value}` */
  datatype IdField = IdField(id: Value)

  /** The shipped object; an absent correlation field is `None`, not an empty object. */
  datatype Transformed = Transformed(timestamp: string, message: string, severity: string, fields: Record,
                                     transaction: Option<IdField>, trace: Option<IdField>, span: Option<IdField>)

  /** `logData.meta[key]` is truthy (a missing key reads as undefined). */
  predicate MetaTruthy(meta: Record, key: string)
  {
    key in meta && Truthy(meta[key])
  }

  /** A correlation identifier in `meta` promoted to a top-level `{id}` object. */
  function Promote(meta: Record, key: string): (field: Option<IdField>)
    ensures field.Some? <==> MetaTruthy(meta, key)
    ensures field.Some? ==> field.value.id == meta[key]
  {
    if MetaTruthy(meta, key) then Some(IdField(meta[key])) else None
  }

  /** `meta`, with the debug tag merged in when one is configured. */
  function Fields(meta: Record, contextDebug: Option<string>): (fields: Record)
    ensures fields - {DebugKey} == meta - {DebugKey}
    ensures IsSet(contextDebug) ==> DebugKey in fields && fields[DebugKey] == Str(contextDebug.value)
    ensures !IsSet(contextDebug) ==> fields == meta
  {
    if IsSet(contextDebug) then meta[DebugKey := Str(contextDebug.value)] else meta
  }

  /**
   * `transformer`: the timestamp falls back to `now` when absent or empty;
   * severity and message are copied; `fields` is `meta` plus the debug tag,
   * if any; each correlation object is present exactly when its key in
   * `meta` is truthy.
   */
  function Transform(logData: LogData, contextDebug: Option<string>, now: string): (r: Transformed)
    ensures r.timestamp == if IsSet(logData.timestamp) then logData.timestamp.value else now
    ensures r.message == logData.message && r.severity == logData.level
    ensures r.fields - {DebugKey} == logData.meta - {DebugKey}
    ensures IsSet(contextDebug) ==> DebugKey in r.fields && r.fields[DebugKey] == Str(contextDebug.value)
    ensures !IsSet(contextDebug) ==> r.fields == logData.meta
    ensures r.transaction.Some? <==> MetaTruthy(logData.meta, TransactionKey)
    ensures r.transaction.Some? ==> r.transaction.value.id == logData.meta[TransactionKey]
    ensures r.trace.Some? <==> MetaTruthy(logData.meta, TraceKey)
    ensures r.trace.Some? ==> r.trace.value.id == logData.meta[TraceKey]
    ensures r.span.Some? <==> MetaTruthy(logData.meta, SpanKey)
    ensures r.span.Some? ==> r.span.value.id == logData.meta[SpanKey]
  {
    var timestamp := if IsSet(logData.timestamp) then logData.timestamp.value else now;
    Transformed(timestamp, logData.message, logData.level, Fields(logData.meta, contextDebug),
                Promote(logData.meta, TransactionKey), Promote(logData.meta, TraceKey), Promote(logData.meta, SpanKey))
  }
}
