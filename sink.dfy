/**
 * The sink decision `getLogger` makes from the process environment: the
 * console, or an Elasticsearch transport with its endpoint, credentials,
 * index or index prefix and debug tag. Building the transports is not
 * modelled, only the values they are built from.
 */
module SinkSelection {
  import opened LogTypes

  /** `process.env` */
  type Environment = map<string, string>

  function Env(env: Environment, name: string): Option<string>
  {
    if name in env then Some(env[name]) else None
  }

  const DefaultIndexPrefix := "filebeat-debug"

  /** Both transports are created with minimum level debug. */
  datatype Sink =
    | Console(level: LogLevel)
    | Elasticsearch(node: string, username: string, password: string,
                    index: Option<string>, indexPrefix: Option<string>,
                    contextDebug: Option<string>, level: LogLevel)

  /**
   * `getLogger`'s transport choice: Elasticsearch exactly when not in
   * production and URL, user and password are all non-empty. An explicit
   * non-empty index switches the prefix off; otherwise the prefix is the
   * configured one, or "filebeat-debug" when that is unset or empty.
   */
  function SelectSink(env: Environment): (sink: Sink)
    ensures sink.Elasticsearch? <==>
      Env(env, "NODE_ENV") != Some("production") &&
      IsSet(Env(env, "SORRIR_ES_URL")) &&
      IsSet(Env(env, "SORRIR_ES_USER")) &&
      IsSet(Env(env, "SORRIR_ES_PASSWORD"))
    ensures sink.level == LogLevel.Debug
    ensures sink.Elasticsearch? ==>
      Env(env, "SORRIR_ES_URL") == Some(sink.node) &&
      Env(env, "SORRIR_ES_USER") == Some(sink.username) &&
      Env(env, "SORRIR_ES_PASSWORD") == Some(sink.password)
    ensures sink.Elasticsearch? ==>
      sink.index == Env(env, "SORRIR_ES_INDEX") &&
      sink.contextDebug == Env(env, "SORRIR_ES_DEBUG")
    ensures sink.Elasticsearch? && IsSet(Env(env, "SORRIR_ES_INDEX")) ==> sink.indexPrefix == None
    ensures sink.Elasticsearch? && !IsSet(Env(env, "SORRIR_ES_INDEX")) ==>
      sink.indexPrefix == Some(if IsSet(Env(env, "SORRIR_ES_INDEX_PREFIX")) then env["SORRIR_ES_INDEX_PREFIX"] else DefaultIndexPrefix)
    ensures sink.Elasticsearch? ==> IsSet(sink.index) != IsSet(sink.indexPrefix)
  {
    var url, user, password := Env(env, "SORRIR_ES_URL"), Env(env, "SORRIR_ES_USER"), Env(env, "SORRIR_ES_PASSWORD");
    if Env(env, "NODE_ENV") != Some("production") && IsSet(url) && IsSet(user) && IsSet(password) then
      var esIndex := Env(env, "SORRIR_ES_INDEX");
      var prefix := Env(env, "SORRIR_ES_INDEX_PREFIX");
      var esIndexPrefix := if IsSet(prefix) then prefix.value else DefaultIndexPrefix;
      Elasticsearch(url.value, user.value, password.value,
                    esIndex, if IsSet(esIndex) then None else Some(esIndexPrefix),
                    Env(env, "SORRIR_ES_DEBUG"), LogLevel.Debug)
    else
      Console(LogLevel.Debug)
  }

  /** In production the Elasticsearch variables do not matter: any two production environments select the same sink. */
  lemma ProductionIgnoresRemoteSettings(env1: Environment, env2: Environment)
    requires Env(env1, "NODE_ENV") == Some("production") && Env(env2, "NODE_ENV") == Some("production")
    ensures SelectSink(env1) == SelectSink(env2) == Console(LogLevel.Debug)
  {
  }
}
