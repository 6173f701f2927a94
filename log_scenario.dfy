/** The record of the "should send log" scenario of tests/logging-log.test.ts,
    followed through the transform of both revisions. */
module LogScenario {
  import opened JsValue
  import opened Severity
  import opened Trace
  import opened Settings
  import opened RecordTransform

  /** The options of the scenario: message key `msg`, error key `err`,
      metadata key `meta`, the cloud sink. */
  const ScenarioOptions: Options :=
    NoOptions.(messageKey := Some("msg"), errorKey := Some("err"),
               metadataKey := Some("meta"), redirectToStdout := Some(false))

  /** The third record of the scenario, at pino's `info` level. */
  const InfoRecord: Record := map[
    "level" := Num(30), "time" := Num(1617955768092), "pid" := Num(2942),
    "hostname" := Str("MacBook-Pro.local"), "msg" := Str("another message"),
    "prop" := Num(42)]

  const ScenarioConfig: Config := Config(
    DefaultMetadata("pino_log", DefaultResource, DefaultLabels),
    "err", "httpRequest", "msg", "meta", false, Undef, DefaultSeverityMap)

  lemma ScenarioConfiguration()
    ensures Configure(ScenarioOptions) == ScenarioConfig
  {
    DefaultConfiguration();
  }

  /** The record once the metadata key is gone and `msg` is `message`. */
  const RenamedRecord: Record := map[
    "level" := Num(30), "time" := Num(1617955768092), "pid" := Num(2942),
    "hostname" := Str("MacBook-Pro.local"), "prop" := Num(42),
    "message" := Str("another message")]

  lemma ScenarioRenamed()
    ensures ExtractMetadata(InfoRecord, ScenarioConfig.metadataKey) == Obj(map[])
    ensures RenameMessage(InfoRecord - {ScenarioConfig.metadataKey}, ScenarioConfig.messageKey) == RenamedRecord
  {
    assert InfoRecord - {"meta"} == InfoRecord;
  }

  lemma ScenarioSeverity(rev: Revision)
    ensures SeverityField(DefaultSeverityMap, rev, Num(30)) == Str(if rev == Src then "info" else "INFO")
  {
    PinoLevelKeys();
    assert UpperCase("info") == "INFO";
  }

  /** The payload the scenario expects: `{level, pid, hostname, message, prop}`. */
  const ExpectedPayload: Record := map[
    "level" := Num(30), "pid" := Num(2942), "hostname" := Str("MacBook-Pro.local"),
    "prop" := Num(42), "message" := Str("another message")]

  function ExpectedEntry(severity: string): Record
  {
    map["labels" := Obj(DefaultLabels), "resource" := Obj(DefaultResource),
        "severity" := Str(severity), "timestamp" := Date(1617955768092),
        "trace" := Null, "spanId" := Undef, "traceSampled" := Bool(false)]
  }

  lemma ScenarioBaseEntry(severity: string)
    ensures BaseEntry(Obj(map[]), ScenarioConfig.defaultMetadata, Str(severity)) == BaseEntryOf(severity)
  {
    AssignEmpty(DefaultLabels);
    AssignEmpty(DefaultResource);
  }

  function BaseEntryOf(severity: string): Record
  {
    map["labels" := Obj(DefaultLabels), "resource" := Obj(DefaultResource),
        "severity" := Str(severity)]
  }

  lemma ScenarioTimed(severity: string)
    ensures PromoteTime(RenamedRecord, BaseEntryOf(severity))
         == (ExpectedPayload, BaseEntryOf(severity)["timestamp" := Date(1617955768092)])
  {
    assert RenamedRecord - {"time"} == ExpectedPayload;
  }

  lemma ScenarioNoErrorNoRequest(severity: string)
    ensures AttachServiceContext(RenamedRecord, "err", Undef) == RenamedRecord
    ensures PromoteHttpRequest(RenamedRecord, BaseEntryOf(severity), "httpRequest")
         == (RenamedRecord, BaseEntryOf(severity))
  {
    assert "httpRequest" !in RenamedRecord;
  }

  lemma ScenarioTraced(severity: string)
    ensures TraceFields(BaseEntryOf(severity)["timestamp" := Date(1617955768092)], Obj(map[]), None)
         == ExpectedEntry(severity)
  {
  }

  lemma ScenarioEntry(severity: string)
    ensures BuildEntry(ScenarioConfig, None, Obj(map[]), RenamedRecord, Str(severity))
         == Outcome(ExpectedPayload, Ok(ExpectedEntry(severity)))
  {
    ScenarioBaseEntry(severity);
    ScenarioNoErrorNoRequest(severity);
    ScenarioTimed(severity);
    ScenarioTraced(severity);
  }

  /** `Transform` on the scenario's record reaches `BuildEntry` with the
      renamed record, no metadata and the severity of level 30. */
  lemma ScenarioTransform(rev: Revision)
    ensures Transform(ScenarioConfig, rev, None, InfoRecord)
         == BuildEntry(ScenarioConfig, None, Obj(map[]), RenamedRecord,
                       Str(if rev == Src then "info" else "INFO"))
  {
    ScenarioRenamed();
    assert Get(RenamedRecord, "level") == Num(30);
    ScenarioSeverity(rev);
    TransformCases(ScenarioConfig, rev, None, InfoRecord);
  }

  /** Without a trace agent the record becomes the payload `{level, pid,
      hostname, message, prop}` and an entry with the default labels and
      resource, the severity of level 30 (`info` in src, `INFO` in the
      compiled revision), the record's time as a Date, a null trace and an
      unsampled span. */
  lemma ShouldSendLog(rev: Revision)
    ensures Transform(Configure(ScenarioOptions), rev, None, InfoRecord)
         == Outcome(ExpectedPayload, Ok(ExpectedEntry(if rev == Src then "info" else "INFO")))
  {
    ScenarioConfiguration();
    ScenarioTransform(rev);
    ScenarioEntry(if rev == Src then "info" else "INFO");
  }
}
