/** The body of `LoggingCommon.log` after its initialisation check: one pino
    record, changed in place, becomes the metadata and payload of a Cloud
    Logging entry. `Transform` states the result step by step as values;
    `Normalize` does the same work on the mutable record and is proved to
    agree with it; the lemmas below state what each step promises. */
module RecordTransform {
  import opened JsValue
  import opened Severity
  import opened Trace
  import opened Settings

  type Record = map<string, Value>

  /** The two revisions of the class: src/LoggingCommon.ts and the compiled
      dist/src/LoggingCommon.js. They differ only in the severity written
      into the entry. */
  datatype Revision = Src | Dist

  datatype LogError =
    | NotInitialized   // "Transport not init() yet"
    | TypeError        // reading `labels` of a `null` metadata value

  datatype Result<+T> = Ok(value: T) | Err(error: LogError)

  /** The record as `log` leaves it, with the entry metadata it built or the
      error it threw part-way through. */
  datatype Outcome = Outcome(payload: Record, entryMetadata: Result<Record>)

  /** A pino record, which `log` changes in place. */
  class LogObject {
    var fields: Record

    constructor (fields: Record)
      ensures this.fields == fields
    {
      this.fields := fields;
    }
  }

  /** What the `LogObject` type declares of `level`: a string or a number,
      when present. */
  predicate LevelTyped(rec: Record)
  {
    var level := Get(rec, "level");
    level.Num? || level.Str? || level.Undef? || level.Null?
  }

  /** The metadata sub-object: the value at the metadata key when its
      `typeof` is `"object"`, an empty object otherwise. */
  function ExtractMetadata(rec: Record, metadataKey: string): Value
  {
    var v := Get(rec, metadataKey);
    if TypeofObject(v) then v else Obj(map[])
  }

  /** Move the message to `message` unless the message key is empty or
      already `message`. */
  function RenameMessage(rec: Record, messageKey: string): Record
  {
    if messageKey != "" && messageKey != "message" then
      rec["message" := Get(rec, messageKey)] - {messageKey}
    else
      rec
  }

  /** The entry's `severity`: src looks up `level ?? "info"`, the compiled
      revision looks up the raw level and upper-cases the name. */
  function SeverityField(table: SeverityTable, rev: Revision, level: Value): Value
    requires level.Num? || level.Str? || level.Undef? || level.Null?
  {
    match rev
    case Src => Str(Name(MapSeverity(table, if level.Undef? || level.Null? then Str("info") else level)))
    case Dist => Str(UpperCase(MapSeverityDist(table, level)))
  }

  /** `{...metadata, labels, resource, severity}`. */
  function BaseEntry(metadata: Value, dm: DefaultMetadata, severity: Value): Record
  {
    OwnEnumerable(metadata)
      ["labels" := Obj(Assign(dm.labels, OwnEnumerable(Prop(metadata, "labels"))))]
      ["resource" := Obj(Assign(dm.resource, OwnEnumerable(Prop(metadata, "resource"))))]
      ["severity" := severity]
  }

  function AttachServiceContext(rec: Record, errorKey: string, serviceContext: Value): Record
  {
    if Truthy(Get(rec, errorKey)) && Truthy(serviceContext) then
      rec["serviceContext" := serviceContext]
    else
      rec
  }

  /** A truthy object at the http-request key moves into the entry. */
  function PromoteHttpRequest(rec: Record, entry: Record, httpRequestKey: string): (Record, Record)
  {
    var v := Get(rec, httpRequestKey);
    if Truthy(v) && TypeofObject(v) then (rec - {httpRequestKey}, entry["httpRequest" := v])
    else (rec, entry)
  }

  /** A truthy `time` moves into the entry's `timestamp`, a number as the
      `Date` of those epoch milliseconds, anything else as it is. */
  function PromoteTime(rec: Record, entry: Record): (Record, Record)
  {
    var t := Get(rec, "time");
    if Truthy(t) then (rec - {"time"}, entry["timestamp" := if t.Num? then Date(t.n) else t])
    else (rec, entry)
  }

  function TraceFields(entry: Record, metadata: Value, agent: Option<TraceAgent>): Record
  {
    entry
      ["trace" := ResolveTrace(Prop(metadata, "trace"), agent)]
      ["spanId" := Prop(metadata, "spanId")]
      ["traceSampled" := Bool(Truthy(Prop(metadata, "traceSampled")))]
  }

  /** Deleting the metadata key and renaming the message leave `level` as
      it was or remove it. */
  lemma LevelKept(rec: Record, metadataKey: string, messageKey: string)
    requires LevelTyped(rec)
    ensures LevelTyped(RenameMessage(rec - {metadataKey}, messageKey))
  {
  }

  /** The whole transform of `log`, in the source's order. */
  function Transform(cfg: Config, rev: Revision, agent: Option<TraceAgent>, rec: Record): Outcome
    requires LevelTyped(rec)
  {
    var metadata := ExtractMetadata(rec, cfg.metadataKey);
    var renamed := RenameMessage(rec - {cfg.metadataKey}, cfg.messageKey);
    if metadata.Null? then
      Outcome(renamed, Err(TypeError))
    else
      LevelKept(rec, cfg.metadataKey, cfg.messageKey);
      BuildEntry(cfg, agent, metadata, renamed, SeverityField(cfg.severityTable, rev, Get(renamed, "level")))
  }

  /** The steps after the metadata lookup that did not throw. */
  function BuildEntry(cfg: Config, agent: Option<TraceAgent>, metadata: Value, renamed: Record, severity: Value): Outcome
  {
    var e1 := BaseEntry(metadata, cfg.defaultMetadata, severity);
    var r3 := AttachServiceContext(renamed, cfg.errorKey, cfg.serviceContext);
    var promoted := PromoteHttpRequest(r3, e1, cfg.httpRequestKey);
    var timed := PromoteTime(promoted.0, promoted.1);
    Outcome(timed.0, Ok(TraceFields(timed.1, metadata, agent)))
  }

  /** `Transform` either throws right after the rename or builds the entry. */
  lemma TransformCases(cfg: Config, rev: Revision, agent: Option<TraceAgent>, rec: Record)
    requires LevelTyped(rec)
    ensures var metadata := ExtractMetadata(rec, cfg.metadataKey);
      var renamed := RenameMessage(rec - {cfg.metadataKey}, cfg.messageKey);
      && LevelTyped(renamed)
      && (metadata.Null? ==> Transform(cfg, rev, agent, rec) == Outcome(renamed, Err(TypeError)))
      && (!metadata.Null? ==>
            Transform(cfg, rev, agent, rec) ==
            BuildEntry(cfg, agent, metadata, renamed, SeverityField(cfg.severityTable, rev, Get(renamed, "level"))))
  {
    LevelKept(rec, cfg.metadataKey, cfg.messageKey);
  }

  /** `log`'s transform on the record itself: deletes and assigns keys of
      `obj` in the source's order and fills the entry metadata field by
      field. */
  method Normalize(obj: LogObject, cfg: Config, rev: Revision, agent: Option<TraceAgent>)
    returns (entryMetadata: Result<Record>)
    requires LevelTyped(obj.fields)
    modifies obj
    ensures Outcome(obj.fields, entryMetadata) == Transform(cfg, rev, agent, old(obj.fields))
  {
    ghost var rec := obj.fields;
    TransformCases(cfg, rev, agent, rec);
    var metadata := Get(obj.fields, cfg.metadataKey);
    if !TypeofObject(metadata) {
      metadata := Obj(map[]);
    }
    obj.fields := obj.fields - {cfg.metadataKey};

    if cfg.messageKey != "" && cfg.messageKey != "message" {
      obj.fields := obj.fields["message" := Get(obj.fields, cfg.messageKey)];
      obj.fields := obj.fields - {cfg.messageKey};
    }

    if metadata.Null? {
      return Err(TypeError);
    }
    // The entry's `severity`, read before anything else changes `obj`.
    var severity := SeverityField(cfg.severityTable, rev, Get(obj.fields, "level"));
    var entry := FillEntry(obj, cfg, agent, metadata, severity);
    return Ok(entry);
  }

  /** The part of `log` after the metadata proved non-null: builds the
      entry metadata and moves the http request and time out of `obj`. */
  method FillEntry(obj: LogObject, cfg: Config, agent: Option<TraceAgent>, metadata: Value, severity: Value)
    returns (entry: Record)
    modifies obj
    ensures Outcome(obj.fields, Ok(entry)) == BuildEntry(cfg, agent, metadata, old(obj.fields), severity)
  {
    // The object literal `{...metadata, labels, resource, severity}`.
    entry := BaseEntry(metadata, cfg.defaultMetadata, severity);

    if Truthy(Get(obj.fields, cfg.errorKey)) && Truthy(cfg.serviceContext) {
      obj.fields := obj.fields["serviceContext" := cfg.serviceContext];
    }

    var httpRequest := Get(obj.fields, cfg.httpRequestKey);
    if Truthy(httpRequest) && TypeofObject(httpRequest) {
      entry := entry["httpRequest" := httpRequest];
      obj.fields := obj.fields - {cfg.httpRequestKey};
    }

    var time := Get(obj.fields, "time");
    if Truthy(time) {
      entry := entry["timestamp" := if time.Num? then Date(time.n) else time];
      obj.fields := obj.fields - {"time"};
    }

    entry := entry["trace" := ResolveTrace(Prop(metadata, "trace"), agent)];
    entry := entry["spanId" := Prop(metadata, "spanId")];
    entry := entry["traceSampled" := Bool(Truthy(Prop(metadata, "traceSampled")))];
  }

  // ---------------------------------------------------------------------
  // What each stage leaves alone

  /** The entry keys written after the object literal. */
  const LateEntryKeys: set<string> := {"httpRequest", "timestamp", "trace", "spanId", "traceSampled"}

  /** Deleting the metadata key and renaming the message touch only those
      two keys and `message`. */
  lemma RenameKeeps(rec: Record, metadataKey: string, messageKey: string, k: string)
    requires k != metadataKey && k != messageKey && k != "message"
    ensures var renamed := RenameMessage(rec - {metadataKey}, messageKey);
      (k in renamed <==> k in rec) && Get(renamed, k) == Get(rec, k)
  {
  }

  /** The object literal copies the metadata's own fields other than the
      three it sets. */
  lemma BaseEntryKeeps(metadata: Value, dm: DefaultMetadata, severity: Value, k: string)
    requires k != "labels" && k != "resource" && k != "severity"
    ensures var e1 := BaseEntry(metadata, dm, severity);
      (k in e1 <==> k in OwnEnumerable(metadata)) && Get(e1, k) == Get(OwnEnumerable(metadata), k)
  {
  }

  /** The object literal's labels and resource are the overlays. */
  lemma BaseEntryMerges(metadata: Value, dm: DefaultMetadata, severity: Value)
    ensures var e1 := BaseEntry(metadata, dm, severity);
      && Get(e1, "labels") == Obj(Assign(dm.labels, OwnEnumerable(Prop(metadata, "labels"))))
      && Get(e1, "resource") == Obj(Assign(dm.resource, OwnEnumerable(Prop(metadata, "resource"))))
  {
  }

  /** Attaching the service context touches `serviceContext` only. */
  lemma AttachKeeps(rec: Record, errorKey: string, serviceContext: Value, k: string)
    requires k != "serviceContext"
    ensures var attached := AttachServiceContext(rec, errorKey, serviceContext);
      (k in attached <==> k in rec) && Get(attached, k) == Get(rec, k)
  {
  }

  /** The steps after the object literal change only their own entry keys. */
  lemma LateStepsKeepEntry(cfg: Config, agent: Option<TraceAgent>, metadata: Value, renamed: Record, severity: Value, k: string)
    requires k !in LateEntryKeys
    ensures var o := BuildEntry(cfg, agent, metadata, renamed, severity);
      var e1 := BaseEntry(metadata, cfg.defaultMetadata, severity);
      && o.entryMetadata.Ok?
      && (k in o.entryMetadata.value <==> k in e1)
      && Get(o.entryMetadata.value, k) == Get(e1, k)
  {
  }

  /** The entry holds the object literal's keys and the late keys, no more. */
  lemma EntryKeysBound(cfg: Config, agent: Option<TraceAgent>, metadata: Value, renamed: Record, severity: Value)
    ensures var o := BuildEntry(cfg, agent, metadata, renamed, severity);
      var e1 := BaseEntry(metadata, cfg.defaultMetadata, severity);
      && o.entryMetadata.Ok?
      && o.entryMetadata.value.Keys <= e1.Keys + LateEntryKeys
  {
  }

  /** After `serviceContext` is attached, only the http-request key and
      `time` can leave the payload. */
  lemma LateStepsKeepPayload(cfg: Config, agent: Option<TraceAgent>, metadata: Value, renamed: Record, severity: Value, k: string)
    requires k != cfg.httpRequestKey && k != "time"
    ensures var o := BuildEntry(cfg, agent, metadata, renamed, severity);
      var attached := AttachServiceContext(renamed, cfg.errorKey, cfg.serviceContext);
      (k in o.payload <==> k in attached) && Get(o.payload, k) == Get(attached, k)
  {
  }

  /** The http-request stage, seen from the finished entry: a truthy
      object leaves the payload for the entry's `httpRequest`. */
  lemma HttpRequestStage(cfg: Config, agent: Option<TraceAgent>, metadata: Value, renamed: Record, severity: Value)
    requires cfg.httpRequestKey != "time"
    ensures var o := BuildEntry(cfg, agent, metadata, renamed, severity);
      var e1 := BaseEntry(metadata, cfg.defaultMetadata, severity);
      var v := Get(AttachServiceContext(renamed, cfg.errorKey, cfg.serviceContext), cfg.httpRequestKey);
      && o.entryMetadata.Ok?
      && (Truthy(v) && TypeofObject(v) ==>
            cfg.httpRequestKey !in o.payload && Get(o.entryMetadata.value, "httpRequest") == v)
      && (!(Truthy(v) && TypeofObject(v)) ==>
            Get(o.payload, cfg.httpRequestKey) == v
            && Get(o.entryMetadata.value, "httpRequest") == Get(e1, "httpRequest"))
  {
  }

  /** The time stage, seen from the finished entry: a truthy `time` leaves
      the payload for the entry's `timestamp`. */
  lemma TimeStage(cfg: Config, agent: Option<TraceAgent>, metadata: Value, renamed: Record, severity: Value)
    requires cfg.httpRequestKey != "time"
    ensures var o := BuildEntry(cfg, agent, metadata, renamed, severity);
      var e1 := BaseEntry(metadata, cfg.defaultMetadata, severity);
      var t := Get(AttachServiceContext(renamed, cfg.errorKey, cfg.serviceContext), "time");
      && o.entryMetadata.Ok?
      && (Truthy(t) ==>
            "time" !in o.payload
            && Get(o.entryMetadata.value, "timestamp") == (if t.Num? then Date(t.n) else t))
      && (!Truthy(t) ==>
            Get(o.payload, "time") == t
            && Get(o.entryMetadata.value, "timestamp") == Get(e1, "timestamp"))
  {
  }

  /** The trace stage writes the entry's last three keys. */
  lemma TraceStage(cfg: Config, agent: Option<TraceAgent>, metadata: Value, renamed: Record, severity: Value)
    ensures var o := BuildEntry(cfg, agent, metadata, renamed, severity);
      && o.entryMetadata.Ok?
      && Get(o.entryMetadata.value, "trace") == ResolveTrace(Prop(metadata, "trace"), agent)
      && Get(o.entryMetadata.value, "spanId") == Prop(metadata, "spanId")
      && Get(o.entryMetadata.value, "traceSampled") == Bool(Truthy(Prop(metadata, "traceSampled")))
  {
  }

  /** The payload keys other than those the later steps write are the
      renamed record's, whether or not `log` throws. */
  lemma PayloadAfterRename(cfg: Config, rev: Revision, agent: Option<TraceAgent>, rec: Record, k: string)
    requires LevelTyped(rec) && k != "serviceContext" && k != cfg.httpRequestKey && k != "time"
    ensures var o := Transform(cfg, rev, agent, rec);
      var renamed := RenameMessage(rec - {cfg.metadataKey}, cfg.messageKey);
      (k in o.payload <==> k in renamed) && Get(o.payload, k) == Get(renamed, k)
  {
    var metadata := ExtractMetadata(rec, cfg.metadataKey);
    var renamed := RenameMessage(rec - {cfg.metadataKey}, cfg.messageKey);
    TransformCases(cfg, rev, agent, rec);
    if !metadata.Null? {
      LateStepsKeepPayload(cfg, agent, metadata, renamed, SeverityField(cfg.severityTable, rev, Get(renamed, "level")), k);
    }
  }

  /** The entry keys the late steps do not write come from the object
      literal `{...metadata, labels, resource, severity}`. */
  lemma EntryAfterBase(cfg: Config, rev: Revision, agent: Option<TraceAgent>, rec: Record, k: string)
    requires LevelTyped(rec) && Get(rec, cfg.metadataKey) != Null && k !in LateEntryKeys
    requires LevelTyped(RenameMessage(rec - {cfg.metadataKey}, cfg.messageKey))
    ensures var o := Transform(cfg, rev, agent, rec);
      var metadata := ExtractMetadata(rec, cfg.metadataKey);
      var renamed := RenameMessage(rec - {cfg.metadataKey}, cfg.messageKey);
      var e1 := BaseEntry(metadata, cfg.defaultMetadata,
                          SeverityField(cfg.severityTable, rev, Get(renamed, "level")));
      && o.entryMetadata.Ok?
      && (k in o.entryMetadata.value <==> k in e1)
      && Get(o.entryMetadata.value, k) == Get(e1, k)
  {
    var metadata := ExtractMetadata(rec, cfg.metadataKey);
    var renamed := RenameMessage(rec - {cfg.metadataKey}, cfg.messageKey);
    TransformCases(cfg, rev, agent, rec);
    LateStepsKeepEntry(cfg, agent, metadata, renamed, SeverityField(cfg.severityTable, rev, Get(renamed, "level")), k);
  }

  // ---------------------------------------------------------------------
  // Properties of the transform

  /** Configured keys that neither collide with each other nor with the
      keys the transform writes or reads (`message`, `serviceContext`,
      `time`, `level`). The message key may be `message` or empty. */
  predicate DistinctKeys(cfg: Config)
  {
    var fixed := {"message", "serviceContext", "time", "level"};
    && cfg.metadataKey !in fixed && cfg.errorKey !in fixed && cfg.httpRequestKey !in fixed
    && cfg.messageKey !in {"serviceContext", "time", "level"}
    && cfg.metadataKey != cfg.messageKey && cfg.metadataKey != cfg.errorKey
    && cfg.metadataKey != cfg.httpRequestKey && cfg.messageKey != cfg.errorKey
    && cfg.messageKey != cfg.httpRequestKey && cfg.errorKey != cfg.httpRequestKey
  }

  /** The keys of the entry metadata that `log` sets itself. */
  const EntryKeys: set<string> :=
    {"labels", "resource", "severity", "httpRequest", "timestamp", "trace", "spanId", "traceSampled"}

  /** The default settings keep their keys apart. */
  lemma DefaultKeysDistinct()
    ensures DistinctKeys(Configure(NoOptions))
  {
    DefaultConfiguration();
  }

  /** Only a `null` metadata value makes `log` throw, after the metadata key
      is deleted and the message renamed and before anything else. */
  lemma NullMetadataThrows(cfg: Config, rev: Revision, agent: Option<TraceAgent>, rec: Record)
    requires LevelTyped(rec)
    ensures var o := Transform(cfg, rev, agent, rec);
      && (o.entryMetadata.Err? <==> Get(rec, cfg.metadataKey) == Null)
      && (o.entryMetadata.Err? ==>
            o.entryMetadata.error == TypeError
            && o.payload == RenameMessage(rec - {cfg.metadataKey}, cfg.messageKey))
  {
    TransformCases(cfg, rev, agent, rec);
  }

  /** The metadata key leaves the record, and the entry metadata carries the
      extracted metadata's own fields except those `log` sets itself; a
      value that is not object-typed counts as `{}`. */
  lemma MetadataExtracted(cfg: Config, rev: Revision, agent: Option<TraceAgent>, rec: Record)
    requires LevelTyped(rec)
    requires cfg.metadataKey != "message" && cfg.metadataKey != "serviceContext"
    ensures var o := Transform(cfg, rev, agent, rec);
      var metadata := ExtractMetadata(rec, cfg.metadataKey);
      && cfg.metadataKey !in o.payload
      && (o.entryMetadata.Ok? ==>
            && (forall k :: k in OwnEnumerable(metadata) && k !in EntryKeys ==>
                  k in o.entryMetadata.value && o.entryMetadata.value[k] == OwnEnumerable(metadata)[k])
            && (!TypeofObject(Get(rec, cfg.metadataKey)) ==> o.entryMetadata.value.Keys <= EntryKeys))
  {
    var metadata := ExtractMetadata(rec, cfg.metadataKey);
    var renamed := RenameMessage(rec - {cfg.metadataKey}, cfg.messageKey);
    TransformCases(cfg, rev, agent, rec);
    if !metadata.Null? {
      forall k | k in OwnEnumerable(metadata) && k !in EntryKeys
        ensures k in Transform(cfg, rev, agent, rec).entryMetadata.value
        ensures Transform(cfg, rev, agent, rec).entryMetadata.value[k] == OwnEnumerable(metadata)[k]
      {
        EntryAfterBase(cfg, rev, agent, rec, k);
      }
      EntryKeysBound(cfg, agent, metadata, renamed, SeverityField(cfg.severityTable, rev, Get(renamed, "level")));
    }
  }

  /** A message key other than `message` (and not empty) is renamed to
      `message`; otherwise the message field is left as it was. */
  lemma MessageRenamed(cfg: Config, rev: Revision, agent: Option<TraceAgent>, rec: Record)
    requires LevelTyped(rec)
    requires cfg.metadataKey != "message" && cfg.httpRequestKey != "message"
    requires cfg.messageKey != "serviceContext" && cfg.messageKey != cfg.metadataKey
    ensures var o := Transform(cfg, rev, agent, rec);
      && (cfg.messageKey != "" && cfg.messageKey != "message" ==>
            && "message" in o.payload && o.payload["message"] == Get(rec, cfg.messageKey)
            && cfg.messageKey !in o.payload)
      && (cfg.messageKey == "" || cfg.messageKey == "message" ==>
            Get(o.payload, "message") == Get(rec, "message"))
  {
    PayloadAfterRename(cfg, rev, agent, rec, "message");
    if cfg.messageKey != cfg.httpRequestKey && cfg.messageKey != "time" {
      PayloadAfterRename(cfg, rev, agent, rec, cfg.messageKey);
    } else {
      TransformCases(cfg, rev, agent, rec);
    }
  }

  /** Labels are the default labels overlaid by the metadata's labels, and
      resource the default resource overlaid by the metadata's resource
      (`Assign` states the overlay). */
  lemma LabelsAndResourceMerged(cfg: Config, rev: Revision, agent: Option<TraceAgent>, rec: Record)
    requires LevelTyped(rec) && Get(rec, cfg.metadataKey) != Null
    ensures var o := Transform(cfg, rev, agent, rec);
      var metadata := ExtractMetadata(rec, cfg.metadataKey);
      var dm := cfg.defaultMetadata;
      && o.entryMetadata.Ok?
      && Get(o.entryMetadata.value, "labels")
           == Obj(Assign(dm.labels, OwnEnumerable(Prop(metadata, "labels"))))
      && Get(o.entryMetadata.value, "resource")
           == Obj(Assign(dm.resource, OwnEnumerable(Prop(metadata, "resource"))))
  {
    var metadata := ExtractMetadata(rec, cfg.metadataKey);
    var renamed := RenameMessage(rec - {cfg.metadataKey}, cfg.messageKey);
    LevelKept(rec, cfg.metadataKey, cfg.messageKey);
    var sev := SeverityField(cfg.severityTable, rev, Get(renamed, "level"));
    var e1 := BaseEntry(metadata, cfg.defaultMetadata, sev);
    BaseEntryMerges(metadata, cfg.defaultMetadata, sev);
    EntryAfterBase(cfg, rev, agent, rec, "labels");
    EntryAfterBase(cfg, rev, agent, rec, "resource");
  }

  /** Without per-record metadata the labels and resource are exactly the
      configured defaults. */
  lemma DefaultsWithoutMetadata(cfg: Config, rev: Revision, agent: Option<TraceAgent>, rec: Record)
    requires LevelTyped(rec) && cfg.metadataKey !in rec
    ensures var o := Transform(cfg, rev, agent, rec);
      && o.entryMetadata.Ok?
      && Get(o.entryMetadata.value, "labels") == Obj(cfg.defaultMetadata.labels)
      && Get(o.entryMetadata.value, "resource") == Obj(cfg.defaultMetadata.resource)
  {
    LabelsAndResourceMerged(cfg, rev, agent, rec);
    var metadata := ExtractMetadata(rec, cfg.metadataKey);
    assert metadata == Obj(map[]);
    AssignEmpty(cfg.defaultMetadata.labels);
    AssignEmpty(cfg.defaultMetadata.resource);
  }

  /** The entry's severity is the mapping of the record's level: src maps
      `level ?? "info"`, the compiled revision upper-cases the mapping of
      the raw level. */
  lemma SeverityFromLevel(cfg: Config, rev: Revision, agent: Option<TraceAgent>, rec: Record)
    requires LevelTyped(rec) && Get(rec, cfg.metadataKey) != Null
    requires cfg.metadataKey != "level" && cfg.messageKey != "level"
    ensures var o := Transform(cfg, rev, agent, rec);
      var level := Get(rec, "level");
      && o.entryMetadata.Ok?
      && (rev == Src ==>
            Get(o.entryMetadata.value, "severity") ==
              Str(Name(MapSeverity(cfg.severityTable, if level.Undef? || level.Null? then Str("info") else level))))
      && (rev == Dist ==>
            Get(o.entryMetadata.value, "severity") == Str(UpperCase(MapSeverityDist(cfg.severityTable, level))))
  {
    LevelKept(rec, cfg.metadataKey, cfg.messageKey);
    RenameKeeps(rec, cfg.metadataKey, cfg.messageKey, "level");
    EntryAfterBase(cfg, rev, agent, rec, "severity");
  }

  /** `serviceContext` is set to the configured service context exactly
      when the error key holds a truthy value and one was configured; the
      error itself stays in the payload. */
  lemma ServiceContextOnError(cfg: Config, rev: Revision, agent: Option<TraceAgent>, rec: Record)
    requires LevelTyped(rec) && Get(rec, cfg.metadataKey) != Null
    requires cfg.errorKey !in {cfg.metadataKey, cfg.messageKey, cfg.httpRequestKey, "message", "serviceContext", "time"}
    requires "serviceContext" !in {cfg.metadataKey, cfg.messageKey, cfg.httpRequestKey}
    ensures var o := Transform(cfg, rev, agent, rec);
      var attached := Truthy(Get(rec, cfg.errorKey)) && Truthy(cfg.serviceContext);
      && (attached ==> "serviceContext" in o.payload && o.payload["serviceContext"] == cfg.serviceContext)
      && (!attached ==> Get(o.payload, "serviceContext") == Get(rec, "serviceContext"))
      && Get(o.payload, cfg.errorKey) == Get(rec, cfg.errorKey)
  {
    var metadata := ExtractMetadata(rec, cfg.metadataKey);
    var renamed := RenameMessage(rec - {cfg.metadataKey}, cfg.messageKey);
    TransformCases(cfg, rev, agent, rec);
    RenameKeeps(rec, cfg.metadataKey, cfg.messageKey, cfg.errorKey);
    RenameKeeps(rec, cfg.metadataKey, cfg.messageKey, "serviceContext");
    LateStepsKeepPayload(cfg, agent, metadata, renamed, SeverityField(cfg.severityTable, rev, Get(renamed, "level")), "serviceContext");
    LateStepsKeepPayload(cfg, agent, metadata, renamed, SeverityField(cfg.severityTable, rev, Get(renamed, "level")), cfg.errorKey);
  }

  /** A truthy object at the http-request key moves to the entry's
      `httpRequest` and leaves the payload; any other value stays, and
      `httpRequest` is then whatever the metadata carried. */
  lemma HttpRequestPromoted(cfg: Config, rev: Revision, agent: Option<TraceAgent>, rec: Record)
    requires LevelTyped(rec) && Get(rec, cfg.metadataKey) != Null
    requires cfg.httpRequestKey !in {cfg.metadataKey, cfg.messageKey, "message", "serviceContext", "time"}
    ensures var o := Transform(cfg, rev, agent, rec);
      var v := Get(rec, cfg.httpRequestKey);
      && o.entryMetadata.Ok?
      && (Truthy(v) && TypeofObject(v) ==>
            cfg.httpRequestKey !in o.payload && Get(o.entryMetadata.value, "httpRequest") == v)
      && (!(Truthy(v) && TypeofObject(v)) ==>
            Get(o.payload, cfg.httpRequestKey) == v
            && Get(o.entryMetadata.value, "httpRequest")
                 == Get(OwnEnumerable(ExtractMetadata(rec, cfg.metadataKey)), "httpRequest"))
  {
    var metadata := ExtractMetadata(rec, cfg.metadataKey);
    var renamed := RenameMessage(rec - {cfg.metadataKey}, cfg.messageKey);
    TransformCases(cfg, rev, agent, rec);
    var severity := SeverityField(cfg.severityTable, rev, Get(renamed, "level"));
    RenameKeeps(rec, cfg.metadataKey, cfg.messageKey, cfg.httpRequestKey);
    AttachKeeps(renamed, cfg.errorKey, cfg.serviceContext, cfg.httpRequestKey);
    BaseEntryKeeps(metadata, cfg.defaultMetadata, severity, "httpRequest");
    HttpRequestStage(cfg, agent, metadata, renamed, SeverityField(cfg.severityTable, rev, Get(renamed, "level")));
  }

  /** A truthy `time` becomes the entry's `timestamp` (a number as the Date
      of that epoch-ms, a string verbatim) and leaves the payload; a falsy
      one such as `0` stays in the payload. */
  lemma TimePromoted(cfg: Config, rev: Revision, agent: Option<TraceAgent>, rec: Record)
    requires LevelTyped(rec) && Get(rec, cfg.metadataKey) != Null
    requires "time" !in {cfg.metadataKey, cfg.messageKey, cfg.httpRequestKey}
    ensures var o := Transform(cfg, rev, agent, rec);
      var t := Get(rec, "time");
      && o.entryMetadata.Ok?
      && (Truthy(t) ==>
            "time" !in o.payload
            && Get(o.entryMetadata.value, "timestamp") == (if t.Num? then Date(t.n) else t))
      && (!Truthy(t) ==>
            Get(o.payload, "time") == t
            && Get(o.entryMetadata.value, "timestamp")
                 == Get(OwnEnumerable(ExtractMetadata(rec, cfg.metadataKey)), "timestamp"))
  {
    var metadata := ExtractMetadata(rec, cfg.metadataKey);
    var renamed := RenameMessage(rec - {cfg.metadataKey}, cfg.messageKey);
    TransformCases(cfg, rev, agent, rec);
    var severity := SeverityField(cfg.severityTable, rev, Get(renamed, "level"));
    RenameKeeps(rec, cfg.metadataKey, cfg.messageKey, "time");
    AttachKeeps(renamed, cfg.errorKey, cfg.serviceContext, "time");
    BaseEntryKeeps(metadata, cfg.defaultMetadata, severity, "timestamp");
    TimeStage(cfg, agent, metadata, renamed, SeverityField(cfg.severityTable, rev, Get(renamed, "level")));
  }

  /** `trace` is the metadata's trace when truthy, else the agent's
      `projects/P/traces/T` when it has both methods and non-empty ids,
      else null; `spanId` is copied; `traceSampled` is the boolean of the
      metadata's flag, false by default. */
  lemma TraceFieldsResolved(cfg: Config, rev: Revision, agent: Option<TraceAgent>, rec: Record)
    requires LevelTyped(rec) && Get(rec, cfg.metadataKey) != Null
    ensures var o := Transform(cfg, rev, agent, rec);
      var metadata := ExtractMetadata(rec, cfg.metadataKey);
      var trace := Prop(metadata, "trace");
      var agentTrace := CurrentTraceFromAgent(agent);
      && o.entryMetadata.Ok?
      && (Truthy(trace) ==> Get(o.entryMetadata.value, "trace") == trace)
      && (!Truthy(trace) && agentTrace.Some? ==> Get(o.entryMetadata.value, "trace") == Str(agentTrace.value))
      && (!Truthy(trace) && agentTrace.None? ==> Get(o.entryMetadata.value, "trace") == Null)
      && Get(o.entryMetadata.value, "spanId") == Prop(metadata, "spanId")
      && Get(o.entryMetadata.value, "traceSampled") == Bool(Truthy(Prop(metadata, "traceSampled")))
      && (cfg.metadataKey !in rec ==> Get(o.entryMetadata.value, "traceSampled") == Bool(false))
  {
    var metadata := ExtractMetadata(rec, cfg.metadataKey);
    var renamed := RenameMessage(rec - {cfg.metadataKey}, cfg.messageKey);
    TransformCases(cfg, rev, agent, rec);
    TraceStage(cfg, agent, metadata, renamed, SeverityField(cfg.severityTable, rev, Get(renamed, "level")));
  }

  /** Two entries with the same keys and the same values off `severity`. */
  predicate AgreeOffSeverity(e: Record, f: Record)
  {
    && e.Keys == f.Keys
    && forall k :: k in e && k != "severity" ==> e[k] == f[k]
  }

  lemma AgreeOffSeverityUpdate(e: Record, f: Record, k: string, v: Value)
    requires AgreeOffSeverity(e, f)
    ensures AgreeOffSeverity(e[k := v], f[k := v])
  {
  }

  /** Each step after the object literal keeps two entries that agree off
      `severity` in agreement, and its payload does not depend on them. */
  lemma HttpRequestStepAgrees(r3: Record, e: Record, f: Record, httpRequestKey: string)
    requires AgreeOffSeverity(e, f)
    ensures var pe, pf := PromoteHttpRequest(r3, e, httpRequestKey), PromoteHttpRequest(r3, f, httpRequestKey);
      pe.0 == pf.0 && AgreeOffSeverity(pe.1, pf.1)
  {
    var v := Get(r3, httpRequestKey);
    if Truthy(v) && TypeofObject(v) {
      AgreeOffSeverityUpdate(e, f, "httpRequest", v);
    }
  }

  lemma TimeStepAgrees(r4: Record, e: Record, f: Record)
    requires AgreeOffSeverity(e, f)
    ensures var te, tf := PromoteTime(r4, e), PromoteTime(r4, f);
      te.0 == tf.0 && AgreeOffSeverity(te.1, tf.1)
  {
    var t := Get(r4, "time");
    if Truthy(t) {
      AgreeOffSeverityUpdate(e, f, "timestamp", if t.Num? then Date(t.n) else t);
    }
  }

  lemma TraceStepAgrees(e: Record, f: Record, metadata: Value, agent: Option<TraceAgent>)
    requires AgreeOffSeverity(e, f)
    ensures AgreeOffSeverity(TraceFields(e, metadata, agent), TraceFields(f, metadata, agent))
  {
    var trace := ResolveTrace(Prop(metadata, "trace"), agent);
    var spanId := Prop(metadata, "spanId");
    AgreeOffSeverityUpdate(e, f, "trace", trace);
    AgreeOffSeverityUpdate(e["trace" := trace], f["trace" := trace], "spanId", spanId);
    AgreeOffSeverityUpdate(e["trace" := trace]["spanId" := spanId], f["trace" := trace]["spanId" := spanId],
                           "traceSampled", Bool(Truthy(Prop(metadata, "traceSampled"))));
  }

  /** The severity reaches the entry's `severity` and nothing else. */
  lemma SeverityOnlyInEntry(cfg: Config, agent: Option<TraceAgent>, metadata: Value, renamed: Record, s1: Value, s2: Value)
    ensures var o1, o2 := BuildEntry(cfg, agent, metadata, renamed, s1), BuildEntry(cfg, agent, metadata, renamed, s2);
      && o1.payload == o2.payload
      && o1.entryMetadata.Ok? && o2.entryMetadata.Ok?
      && AgreeOffSeverity(o1.entryMetadata.value, o2.entryMetadata.value)
  {
    var e1 := BaseEntry(metadata, cfg.defaultMetadata, s1);
    var e2 := BaseEntry(metadata, cfg.defaultMetadata, s2);
    assert AgreeOffSeverity(e1, e2);
    var r3 := AttachServiceContext(renamed, cfg.errorKey, cfg.serviceContext);
    HttpRequestStepAgrees(r3, e1, e2, cfg.httpRequestKey);
    var p1, p2 := PromoteHttpRequest(r3, e1, cfg.httpRequestKey), PromoteHttpRequest(r3, e2, cfg.httpRequestKey);
    TimeStepAgrees(p1.0, p1.1, p2.1);
    TraceStepAgrees(PromoteTime(p1.0, p1.1).1, PromoteTime(p2.0, p2.1).1, metadata, agent);
  }

  /** The two revisions transform a record alike except for the entry's
      `severity`: same payload, same error, same entry keys and values. */
  lemma RevisionsDifferOnlyInSeverity(cfg: Config, agent: Option<TraceAgent>, rec: Record)
    requires LevelTyped(rec)
    ensures var s, d := Transform(cfg, Src, agent, rec), Transform(cfg, Dist, agent, rec);
      && s.payload == d.payload
      && s.entryMetadata.Ok? == d.entryMetadata.Ok?
      && (s.entryMetadata.Ok? ==>
            AgreeOffSeverity(s.entryMetadata.value, d.entryMetadata.value))
  {
    var metadata := ExtractMetadata(rec, cfg.metadataKey);
    var renamed := RenameMessage(rec - {cfg.metadataKey}, cfg.messageKey);
    TransformCases(cfg, Src, agent, rec);
    TransformCases(cfg, Dist, agent, rec);
    if !metadata.Null? {
      SeverityOnlyInEntry(cfg, agent, metadata, renamed,
        SeverityField(cfg.severityTable, Src, Get(renamed, "level")),
        SeverityField(cfg.severityTable, Dist, Get(renamed, "level")));
    }
  }

  /** Nothing else changes: every key the transform does not name keeps its
      presence and value, whatever the configuration. */
  lemma OtherFieldsUntouched(cfg: Config, rev: Revision, agent: Option<TraceAgent>, rec: Record, k: string)
    requires LevelTyped(rec)
    requires k !in {cfg.metadataKey, cfg.messageKey, cfg.httpRequestKey, "message", "serviceContext", "time"}
    ensures var o := Transform(cfg, rev, agent, rec);
      && (k in o.payload <==> k in rec)
      && Get(o.payload, k) == Get(rec, k)
  {
    RenameKeeps(rec, cfg.metadataKey, cfg.messageKey, k);
    PayloadAfterRename(cfg, rev, agent, rec, k);
  }

  /** The payload holds no key the record did not have, except `message`
      and `serviceContext`. */
  lemma PayloadKeys(cfg: Config, rev: Revision, agent: Option<TraceAgent>, rec: Record)
    requires LevelTyped(rec)
    ensures Transform(cfg, rev, agent, rec).payload.Keys <= rec.Keys + {"message", "serviceContext"}
  {
  }
}
