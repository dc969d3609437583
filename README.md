# sorrir/logging — a Dafny model of the logging facade

The facade gives every log entry a consistent envelope,
`{context: {stakeholder, contextFields}, host, data}`, and sends it to the
console or to Elasticsearch. This project models the logic of
`source/app.ts`. It has five modules:

- `LogTypes` (`log_types.dfy`) holds the data model. It has the two stakeholders
  (`USER`, `SYSTEM`), the four levels, and the context shapes
  (`ApplicationContext`, `SystemContextStripped`, `SystemContext`). It also has
  the envelope, JSON-like values with JavaScript truthiness, and the resolved
  call site `Caller(fullPath, baseName, functionName)`. The source tells the
  two context shapes apart by looking for an `area` field. Here that test is
  the tag of `ContextFields = Sys(..) | App(..)`.
- `Envelope` (`envelope.dfy`) holds `log`, `logUser` and `logSystem` as pure
  functions. An output is an `Emission(level, message, entry)`: one call of
  the underlying logger.
- `Registry` (`registry.dfy`) holds the per-file context registry. The class
  `ContextRegistry` has one field for each of the source's two maps,
  `configUserMap` and `configSystemMap`. It also has these methods:
  - `ConfigLogger` (`configLogger`), which writes to a map;
  - `LogCompact` and the level helpers `Debug`, `Warn`, `Error`, `Info`, which
    read the maps back and fall back to a fixed default on a miss.

  A ghost history of all `configLogger` calls is tied to the maps by `Valid()`.
  Two lemmas about that history state last-write-wins and "entries are never
  removed". `CompactClient` is a client that registers contexts and then logs
  compactly, in the shape of the source's compact test cases.
- `SinkSelection` (`sink.dfy`) holds the choice `getLogger` makes from
  `process.env`. Environment values use JavaScript truthiness, so an empty
  string counts as unset.
- `EsTransformer` (`transformer.dfy`) holds the Elasticsearch record
  transformer.

These things come from outside the modelled code, so they are parameters:
- the hostname (`os.hostname()`);
- the current time (`new Date().toISOString()`);
- the environment;
- the resolved call site.

The call site's file is two separate strings because the source uses two
different patterns. The registry key is the path from its first `/`. The system
envelope's `file` is only the part after the last `/`.

Two details of the code are kept as written:
- The default application context spells its degradation mode `"unkown"`.
  (source/app.ts:241, 286, 338, 390, 442)
- `logSystem` guards `area` with `contextFieldsStripped ? … : undefined`. Its
  argument is always an object, so the area is always copied.

## Model

| member | source | states |
|---|---|---|
| LogTypes.DefaultContext | source/app.ts:227-243 | The default on a miss has the matching stakeholder's shape: SYSTEM gets `{area: "unknown"}`, USER gets `{unit: "unknown", component: "unknown", degradationMode: "unkown"}`. |
| Envelope.LogUser | source/app.ts:502-517 | The envelope carries stakeholder USER and the caller's application context unchanged. It also carries the given host, data, level and message. |
| Envelope.LogSystem | source/app.ts:465-500 | The envelope carries stakeholder SYSTEM. Reading back its `{file, area, function}` gives exactly the supplied area. `file` is the caller's base name and `function` the caller's function. Host, data, level and message pass through. |
| Envelope.Log | source/app.ts:193-204 | Takes the system path exactly when the context has `area`. The envelope is well formed: its stakeholder tag agrees with its context shape. Reading back its context gives the caller's input. |
| Registry.Resolve | source/app.ts:224-246 | A compact lookup always yields a context of the requested stakeholder's shape. |
| Registry.Register | source/app.ts:186-190 | After one `configLogger` from file f, a lookup for the matching stakeholder from f gives exactly the registered context. Every other (stakeholder, file) pair resolves as before. The other stakeholder's map is unchanged. The written map gains only key f. |
| Registry.ReplayResolvesLast | source/app.ts:170-191 | After any sequence of `configLogger` calls, a compact lookup gives the context that file registered last for that stakeholder. If the file registered none, it gives the fixed default (last write wins). |
| Registry.ReplayKeys | source/app.ts:170-191 | The entries are never removed. Each map has exactly one key for each file that ever registered a context of its shape. |
| Registry.ContextRegistry.constructor | source/app.ts:170-171 | Both maps start empty, with an empty history. |
| Registry.ContextRegistry.ConfigLogger | source/app.ts:172-191 | A context with `area` updates only the system map, at the caller's full path. Any other context updates only the user map. The maps stay equal to the replay of the whole call history. |
| Registry.ContextRegistry.LogCompact | source/app.ts:206-248 | Emits `log` of the resolved context: the registered one for the caller's full path, else the default. In a valid registry that context is the last one the caller's file registered for the stakeholder, or the default if it registered none. The envelope's stakeholder is the requested one. Level, message, host and data pass through. |
| Registry.ContextRegistry.Debug | source/app.ts:250-300 | Always emits level debug. Without a context it behaves like the compact lookup. With a context it behaves like `log` and ignores the `stakeholder` argument. |
| Registry.ContextRegistry.Warn | source/app.ts:302-352 | Always emits level warn. Otherwise the same as `Debug`. |
| Registry.ContextRegistry.Error | source/app.ts:354-404 | Always emits level error. Otherwise the same as `Debug`. |
| Registry.ContextRegistry.Info | source/app.ts:406-456 | Always emits level info. Otherwise the same as `Debug`. |
| SinkSelection.SelectSink | source/app.ts:91-156 | Elasticsearch is chosen iff `NODE_ENV` is not "production" and URL, user and password are all non-empty. Node and credentials are those variables. The index is `SORRIR_ES_INDEX` as given. When that index is non-empty there is no prefix. Otherwise the prefix is `SORRIR_ES_INDEX_PREFIX`, or "filebeat-debug" if that is empty or unset. Exactly one of index and prefix is effective. Both sinks have level debug. |
| SinkSelection.ProductionIgnoresRemoteSettings | source/app.ts:93-98 | Any two production environments select the same console sink, whatever their Elasticsearch variables. |
| EsTransformer.Promote | source/app.ts:124-129 | A correlation object is present iff its `meta` key is truthy. When present it is `{id: meta[key]}`. |
| EsTransformer.Fields | source/app.ts:120-122 | The fields equal `meta` when no debug tag is set. Otherwise they are `meta` plus the debug tag under `"metadata.context.debug"`, and every other key is unchanged. |
| EsTransformer.Transform | source/app.ts:113-132 | `@timestamp` is the record's timestamp when it is non-empty, else the given current time. `severity` is the level and `message` is copied. The fields are as in `Fields`. `transaction`, `trace` and `span` are present exactly when the matching `meta` key is truthy, and then hold that value as `id`. |

## Left out

- Stack-trace capture and the regular expressions that find the caller are left out. They depend on the runtime, and they throw when nothing matches. The resolved `Caller` is an input (source/app.ts:175-184, 214-222, 471-485).
- `logDefault` and the `sorrirLogger` singleton built at load time are left out. Both only pass through to the winston library.
- The winston/logform formatting pipeline is left out: timestamp stamping, nesting under `metadata`, JSON serialisation. It is foreign library code. An `Emission` stands for the arguments of one `sorrirLogger.log` call.
- Transport construction, the Elasticsearch client (and its fixed `context` option), console output and the delivery-warning handler are left out. They are I/O. `SelectSink` records only which sink is chosen and the values it is built from.
- `os.hostname()`, the clock and `process.env` are parameters.
- `Registry.Register`: a system entry keeps only its `area`. The source stores the whole object given to `configLogger`, which may carry extra fields, but later reads only `.area`.
- `LogTypes.ContextFields` makes the two context shapes exclusive. An object carrying both `area` and application fields would be routed to SYSTEM in the source, and that routing is kept. However, its application fields cannot be represented.
- `LogTypes.Truthy`: numbers are integers, so NaN and -0 are not modelled.
- `EsTransformer.Transform`: the timestamp is an optional string. A record whose `meta` is missing, on which the source would throw, is not representable.
- `source/index.ts` only re-exports and is not part of this model. `source/app.test.ts` is not modelled either; `Registry.CompactClient` follows its compact cases.
- The caller's `file` and `function` can come from different stack frames in the source: the file from the third match of the file pattern, the function from the fourth match of the function pattern (source/app.ts:476-484). `Caller` takes both as given and does not model which frame each comes from.
- Object identity and aliasing are not modelled. `configLogger` stores the caller's object by reference and `logUser` puts that same reference into the envelope (source/app.ts:187-189, 510), so mutating a registered context changes later compact entries. The model stores values.
