/** What the `LoggingCommon` constructor fixes once: the default entry
    metadata, the record keys the transform reads, the service context and
    the severity table. */
module Settings {
  import opened JsValue
  import opened Severity

  /** The constructor options the core reads. `None` and `Undef` stand for
      an option that is absent (`undefined` or `null` for `??`). */
  datatype Options = Options(
    logName: Option<string>,
    resource: Value,
    labels: Value,
    errorKey: Option<string>,
    httpRequestKey: Option<string>,
    messageKey: Option<string>,
    metadataKey: Option<string>,
    redirectToStdout: Option<bool>,
    serviceContext: Value,
    pinoLevelSeverity: SeverityTable,
    flushCheckIntervalMs: Option<int>,
    flushTimeoutMs: Option<int>)

  /** No option given. */
  const NoOptions: Options :=
    Options(None, Undef, Undef, None, None, None, None, None, Undef, map[], None, None)

  datatype DefaultMetadata = DefaultMetadata(
    logName: string,
    resource: map<string, Value>,
    labels: map<string, Value>)

  /** The private fields the constructor sets, read-only afterwards. */
  datatype Config = Config(
    defaultMetadata: DefaultMetadata,
    errorKey: string,
    httpRequestKey: string,
    messageKey: string,
    metadataKey: string,
    redirectToStdout: bool,
    serviceContext: Value,
    severityTable: SeverityTable)

  const DefaultLabels: map<string, Value> :=
    map["logger" := Str("pino"), "agent" := Str("pino-google-logging")]

  const DefaultResource: map<string, Value> := map["type" := Str("global")]

  function GetOr<T>(o: Option<T>, default: T): T
  {
    if o.Some? then o.value else default
  }

  /** The constructor's settings: each `??` default, the default labels and
      resource overlaid by the options, the severity table overlaid by
      `pinoLevelSeverity`. */
  function Configure(options: Options): Config
  {
    Config(
      DefaultMetadata(
        GetOr(options.logName, "pino_log"),
        Assign(DefaultResource, OwnEnumerable(options.resource)),
        Assign(DefaultLabels, OwnEnumerable(options.labels))),
      GetOr(options.errorKey, "err"),
      GetOr(options.httpRequestKey, "httpRequest"),
      GetOr(options.messageKey, "msg"),
      GetOr(options.metadataKey, "metadata"),
      GetOr(options.redirectToStdout, false),
      options.serviceContext,
      SeverityTableOf(options.pinoLevelSeverity))
  }

  /** With no options: log name `pino_log`, keys `err`, `httpRequest`, `msg`
      and `metadata`, the cloud sink, no service context, the default
      severity table, and exactly the default labels and resource. */
  lemma DefaultConfiguration()
    ensures Configure(NoOptions) == Config(
      DefaultMetadata("pino_log", DefaultResource, DefaultLabels),
      "err", "httpRequest", "msg", "metadata", false, Undef, DefaultSeverityMap)
  {
    assert Assign(DefaultResource, map[]) == DefaultResource;
    assert Assign(DefaultLabels, map[]) == DefaultLabels;
    assert SeverityTableOf(map[]) == DefaultSeverityMap;
  }

  /** Labels given as options win over the default labels, which are kept
      otherwise; the same holds of the resource. */
  lemma OptionsOverlayDefaults(options: Options)
    ensures var dm := Configure(options).defaultMetadata;
      var labels, resource := OwnEnumerable(options.labels), OwnEnumerable(options.resource);
      && dm.labels.Keys == DefaultLabels.Keys + labels.Keys
      && (forall k :: k in labels ==> dm.labels[k] == labels[k])
      && (forall k :: k in DefaultLabels && k !in labels ==> dm.labels[k] == DefaultLabels[k])
      && dm.resource.Keys == DefaultResource.Keys + resource.Keys
      && (forall k :: k in resource ==> dm.resource[k] == resource[k])
      && (forall k :: k in DefaultResource && k !in resource ==> dm.resource[k] == DefaultResource[k])
  {
  }
}
