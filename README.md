# pino-google-logging: `LoggingCommon` in Dafny

This project models how pino-google-logging's `LoggingCommon` turns a pino
log record into a Cloud Logging entry. A pino record is a string-keyed
JavaScript object such as `{level: 30, time: 1617955768092, msg: "hi"}`.
`log` changes this record in place into the entry's payload. Along the way
it builds the entry metadata: labels, resource, severity, `httpRequest`,
`timestamp`, `trace`, `spanId` and `traceSampled`.

The model covers two revisions of the class:

- **src** is `src/LoggingCommon.ts`. An unmapped level gives `info`, and
  the severity is written in lower case.
- **dist** is `dist/src/LoggingCommon.js`, compiled from another revision.
  An absent, empty or unmapped level gives `default`. The severity is
  upper-cased. Writes to an asynchronous `Log` sink go to a `bottleneck`
  queue that runs one task at a time.

Modules:

- `JsValue` (js_value.dfy) holds the JavaScript values a record holds and
  the semantics `log` relies on:
  - truthiness;
  - `typeof === "object"`;
  - property reads that yield `undefined`;
  - the own enumerable properties that spread and `Object.assign` copy;
  - number-to-property-key conversion;
  - ASCII upper-casing.
- `Severity` (severity.dfy) holds the default severity table and the
  override overlay. It has both revisions of `mapSeverity`, with the Int32
  wrap-around of `~~` written out on exact integers. It also has the lookup as written, which
  also finds members inherited from `Object.prototype` (see Findings).
- `Trace` (trace.dfy) holds `getCurrentTraceFromAgent`. The process-global
  trace agent becomes an optional parameter.
- `Settings` (settings.dfy) holds what the constructor fixes: the `??`
  defaults, the default labels and resource overlaid by the options, and
  the severity table.
- `RecordTransform` (transform.dfy) states the transform of `log` two
  ways:
  - `Transform` is the pure specification, step by step and in the
    source's order.
  - `Normalize` and `FillEntry` do the same work on a mutable `LogObject`.
    `Normalize` is proved equal to `Transform`, and `FillEntry` to
    `BuildEntry`, the part of `Transform` after the metadata lookup.
  - The lemmas state what each step promises.
- `CloudLog`, `SrcLoggingCommon` and `DistLoggingCommon` model the class
  itself:
  - the constructor and `init()`;
  - `log`, which throws before touching the record when no sink is set;
  - src writes one entry list per call;
  - dist queues one task per call for the `Log` sink and writes inline for
    the `LogSync` sink.
- `LogScenario` follows one record of tests/logging-log.test.ts through
  both revisions. The test logs five records, at levels 10 to 50; the
  model follows the third, at level 30. The others differ from it only in
  level, message and `prop`, and the test expects the same shape of entry
  for each.

## Model

| member | source | states |
|---|---|---|
| JsValue.Assign | src/LoggingCommon.ts:121-125 | `Object.assign({}, base, top)`: the keys of both; a key in `top` takes `top`'s value; other keys keep `base`'s |
| JsValue.Decimal | src/LoggingCommon.ts:154 | a number used as a table key becomes a non-empty string of decimal digits, one digit exactly below 10 |
| JsValue.DecimalValue | src/LoggingCommon.ts:154 | the digits of the key read back as the number: `DigitsValue(Decimal(n)) == n` |
| JsValue.DecimalInjective | src/LoggingCommon.ts:154 | distinct numbers become distinct property keys |
| Severity.ToInt32 | src/LoggingCommon.ts:150 | the ToInt32 step of `~~` lands in the signed 32-bit range, differs from its input by a multiple of 2^32, and leaves values already in range unchanged |
| Severity.Bucket | src/LoggingCommon.ts:149-153 | the rounded and clamped level is a multiple of ten in [10, 60], for every integer level |
| Severity.BucketRule | src/LoggingCommon.ts:148-153 | for levels whose tenth fits in Int32: below 20 gives 10; 20 to 69 rounds down to the tens; 60 and above gives 60 |
| Severity.BucketWrapsPastInt32 | src/LoggingCommon.ts:150 | past that range `~~` wraps: level 2^31·10 gives 10 and one less gives 60 |
| Severity.NumericLevelsShareBucket | src/LoggingCommon.ts:148-156 | two levels whose truncated tenth is the same (5 and 7, -3 and 3, 31 and 35) get the same severity, which is the severity of the bucket's decimal string |
| Severity.NumericKeysDistinct | src/LoggingCommon.ts:27-40 | different buckets give different keys, and no numeric key equals a level name |
| Severity.PinoLevelKeys | src/LoggingCommon.ts:148-154 | the levels 10, 20, …, 60 are looked up under "10", …, "60" |
| Severity.DefaultSeverities | src/LoggingCommon.ts:27-40 | with no overrides, 10 and 20 give debug, 30 info, 40 warning, 50 error and 60 critical |
| Severity.DefaultNamedSeverities | src/LoggingCommon.ts:27-40 | with no overrides, trace and debug give debug, info info, warn warning, error error and fatal critical |
| Severity.SeverityTableOf | src/LoggingCommon.ts:121-125 | the default table overlaid by `pinoLevelSeverity`; what the overlay gives is stated by `JsValue.Assign` and `Severity.OverridesWin` |
| Severity.MapSeverity | src/LoggingCommon.ts:148-156 | src's `mapSeverity`; its bucketing is stated by `Severity.BucketRule` and `Severity.NumericLevelsShareBucket`, its lookup and `info` fallback by `Severity.OverridesWin` |
| Severity.MapSeverityDist | dist/src/LoggingCommon.js:112-122 | dist's `mapSeverity`; its `default` fallback and its agreement with src are stated by `Severity.RevisionsAgreeWhenMapped` |
| Severity.OverridesWin | src/LoggingCommon.ts:121-156 | over the overlaid table, a user key wins, a default key is kept otherwise, and a key in neither gives info |
| Severity.RevisionsAgreeWhenMapped | dist/src/LoggingCommon.js:112-122 | dist gives `default` exactly when the level is absent, not a string or number, empty, or unmapped; a mapped level gives the same name as src; an unmapped level gives info in src |
| Severity.DistUpperCaseSeverities | dist/src/LoggingCommon.js:155 | the dist entry severity for 40 is WARNING, for 0 DEBUG, for an absent level DEFAULT and for an unmapped name DEFAULT |
| Severity.MapSeverityAsWritten | src/LoggingCommon.ts:154 | the lookup as written gives an inherited member exactly when the key is not in the table and is an `Object.prototype` key |
| Severity.DistSeverityAsWritten | dist/src/LoggingCommon.js:120 | dist's entry severity as written throws exactly when the key is not in the table and is an `Object.prototype` key; otherwise it is the upper-cased own-property mapping |
| Severity.InheritedMemberEscapesEnumeration | src/LoggingCommon.ts:154 | level "toString" gets the inherited `toString` function as written in src and makes dist's `toUpperCase` throw; the own-property lookup gives info and DEFAULT |
| Severity.AsWrittenAgreesOffPrototype | src/LoggingCommon.ts:154 | away from inherited keys, the as-written lookup and the own-property lookup agree |
| Trace.CurrentTraceFromAgent | src/LoggingCommon.ts:59-77 | a trace name exists exactly when the agent exists, has both methods and returns non-empty ids; it is `projects/P/traces/T` |
| Trace.ResolveTrace | src/LoggingCommon.ts:236 | `metadata.trace` when truthy, else the agent's trace, else null; stated by `RecordTransform.TraceFieldsResolved` |
| Settings.Configure | src/LoggingCommon.ts:104-125 | the constructor's settings; stated by `Settings.DefaultConfiguration` and `Settings.OptionsOverlayDefaults` |
| Settings.DefaultConfiguration | src/LoggingCommon.ts:104-125 | with no options: log name pino_log, keys err, httpRequest, msg and metadata, no stdout redirect, the default table, and exactly the default labels and resource |
| Settings.OptionsOverlayDefaults | src/LoggingCommon.ts:105-113 | option labels and resource win over the defaults, which are kept otherwise |
| RecordTransform.Transform | src/LoggingCommon.ts:186-238 | the whole transform of `log` as values; stated step by step by the `RecordTransform` lemmas below and by `Normalize` |
| RecordTransform.BuildEntry | src/LoggingCommon.ts:199-238 | the steps after the metadata lookup; stated by `FillEntry` and `TransformCases` |
| RecordTransform.ExtractMetadata | src/LoggingCommon.ts:186-190 | the metadata value when object-typed, `{}` otherwise; stated by `RecordTransform.MetadataExtracted` |
| RecordTransform.RenameMessage | src/LoggingCommon.ts:194-197 | the message rename; stated by `RecordTransform.MessageRenamed` |
| RecordTransform.SeverityField | src/LoggingCommon.ts:207 | the entry's severity for each revision; stated by `RecordTransform.SeverityFromLevel` |
| RecordTransform.BaseEntry | src/LoggingCommon.ts:199-208 | the object literal `{...metadata, labels, resource, severity}`; stated by `RecordTransform.LabelsAndResourceMerged`, `RecordTransform.DefaultsWithoutMetadata` and `RecordTransform.MetadataExtracted` |
| RecordTransform.AttachServiceContext | src/LoggingCommon.ts:211-212 | the error-triggered `serviceContext`; stated by `RecordTransform.ServiceContextOnError` |
| RecordTransform.PromoteHttpRequest | src/LoggingCommon.ts:220-226 | the http-request promotion; stated by `RecordTransform.HttpRequestPromoted` |
| RecordTransform.PromoteTime | src/LoggingCommon.ts:230-234 | the time promotion; stated by `RecordTransform.TimePromoted` |
| RecordTransform.TraceFields | src/LoggingCommon.ts:236-238 | trace, spanId and traceSampled; stated by `RecordTransform.TraceFieldsResolved` |
| RecordTransform.TransformCases | src/LoggingCommon.ts:186-208 | `log` either throws right after the metadata key is deleted and the message renamed, or builds the entry |
| RecordTransform.Normalize | src/LoggingCommon.ts:186-238 | the in-place deletes and assignments on the record leave exactly the payload `Transform` gives, and return the same entry metadata or error |
| RecordTransform.FillEntry | src/LoggingCommon.ts:199-238 | the entry-building part of `log`, in place, agrees with `BuildEntry` |
| RecordTransform.NullMetadataThrows | src/LoggingCommon.ts:186-201 | `log` throws a TypeError exactly when the metadata value is `null`, leaving the record with the metadata key deleted and the message renamed |
| RecordTransform.MetadataExtracted | src/LoggingCommon.ts:186-200 | the metadata key is gone from the payload; the entry carries every other metadata field; a value that is not object-typed counts as `{}` |
| RecordTransform.MessageRenamed | src/LoggingCommon.ts:194-197 | a message key other than "" and "message" moves its value to `message` and disappears; otherwise `message` is untouched |
| RecordTransform.LabelsAndResourceMerged | src/LoggingCommon.ts:199-206 | labels and resource are the configured defaults overlaid by the metadata's own enumerable labels and resource, per-record keys winning |
| RecordTransform.DefaultsWithoutMetadata | src/LoggingCommon.ts:199-206 | a record without a metadata key gets exactly the configured default labels and resource |
| RecordTransform.SeverityFromLevel | src/LoggingCommon.ts:207 | the entry severity is src's mapping of `level ?? "info"`, or dist's upper-cased mapping of the raw level |
| RecordTransform.ServiceContextOnError | src/LoggingCommon.ts:211-212 | `serviceContext` is set exactly when the error is truthy and a context is configured; the error stays |
| RecordTransform.HttpRequestPromoted | src/LoggingCommon.ts:220-226 | a truthy object at the http-request key moves to the entry and leaves the payload; any other value stays |
| RecordTransform.TimePromoted | src/LoggingCommon.ts:230-234 | a truthy time moves to `timestamp`, a number as a Date; a falsy time such as 0 stays in the payload |
| RecordTransform.TraceFieldsResolved | src/LoggingCommon.ts:236-238 | trace is the metadata's when truthy, else the agent's name, else null; spanId is copied; traceSampled is a boolean, false by default |
| RecordTransform.RevisionsDifferOnlyInSeverity | dist/src/LoggingCommon.js:151-180 | src and dist give the same payload, the same error and the same entry except for `severity` |
| RecordTransform.OtherFieldsUntouched | src/LoggingCommon.ts:183-238 | any key the transform does not name keeps its presence and value |
| RecordTransform.PayloadKeys | src/LoggingCommon.ts:183-238 | the payload gains no key except `message` and `serviceContext` |
| RecordTransform.DefaultKeysDistinct | src/LoggingCommon.ts:116-119 | the default keys neither collide with each other nor with the keys the transform writes |
| SrcLoggingCommon.LoggingCommon.constructor | src/LoggingCommon.ts:104-146 | the settings are `Configure(options)`, there is no sink and nothing is written |
| SrcLoggingCommon.LoggingCommon.Init | src/LoggingCommon.ts:158-176 | sets the sink chosen by `redirectToStdout` |
| SrcLoggingCommon.LoggingCommon.Log | src/LoggingCommon.ts:183-248 | with no sink: the error, and the record untouched; otherwise the record becomes the payload and exactly one one-entry list is written, unless the metadata is null |
| DistLoggingCommon.LoggingCommon.constructor | dist/src/LoggingCommon.js:72-111 | the same settings, a queue with `maxConcurrent` 1, flush interval `?? 500` and flush timeout `?? 30000` |
| DistLoggingCommon.LoggingCommon.Init | dist/src/LoggingCommon.js:123-133 | sets the sink chosen by `redirectToStdout` |
| DistLoggingCommon.LoggingCommon.Log | dist/src/LoggingCommon.js:138-191 | as src but with dist's severity; a `Log` sink gets one queued task with a one-entry list; a `LogSync` sink is written inline and nothing is queued |
| LogScenario.ScenarioConfiguration | tests/logging-log.test.ts:31-36 | the scenario's options give the default settings with metadata key `meta` |
| LogScenario.ShouldSendLog | tests/logging-log.test.ts:88-109 | the scenario's level-30 record gives the payload `{level, pid, hostname, message, prop}`; the entry has the default labels and resource, severity info (INFO in dist), a Date timestamp, a null trace and traceSampled false |

## Left out

- `init()` builds the `Logging` client, detects the project id and the
  resource, and creates the sink (src/LoggingCommon.ts:158-176). These are
  network calls into a foreign library. `Init` records only which kind of
  sink is created.
- The `entry()` delegation (src/LoggingCommon.ts:250-255) is not modelled.
  `Entry` pairs the entry metadata with the record. The client's own
  additions, such as `insertId`, are not modelled.
- The `write` calls (src/LoggingCommon.ts:243-247) are not modelled: their
  awaiting, their failures, and the difference between an awaited `Log`
  write and a fire-and-forget `LogSync` write. The model records only the
  entry lists handed to `write`, in order.
- dist's `bottleneck` scheduler is left out: how it runs tasks, and what
  `maxConcurrent: 1` means for timing. The `flush()` polling loop over
  `Date.now()`, `sleep` and `bottleneck.counts()`
  (dist/src/LoggingCommon.js:198-209) is left out too. These are timing
  and concurrency inside a library. Queued tasks are a FIFO sequence.
- The client and sink options (src/LoggingCommon.ts:127-145) are sink
  configuration only, so they are left out. This includes the
  `Object.assign` that mutates the module-level default sink options.
- The option schemas in src/options.ts are not modelled. The closed
  severity enumeration (src/options.ts:91-102) becomes `Severity.Severity`.
  The `LogObject` type (src/options.ts:236-241) becomes the `LevelTyped`
  precondition.
- src/index.ts and the stream plumbing are left out. Its close handler
  names `cb` without calling it. It calls `flush()`, which
  src/LoggingCommon.ts does not define.
- `Transform`, `Normalize` and both `Log` methods require `LevelTyped`:
  `level` must be a string, a number, `null` or absent, as `LogObject`
  declares. Records with other values at `level` are not modelled.
- Severity.Bucket: divides the level by 10 exactly. JavaScript divides in
  doubles, and the two differ for integer levels beyond
  `Number.MAX_SAFE_INTEGER` (2^53 - 1). For example, 36028805608898608
  rounds up to the 50 bucket in JavaScript and stays in the 40 bucket
  here. Levels that large are not modelled faithfully.
- `Transform`, `Normalize` and both `Log` methods look the level up in the
  table's own properties only (`MapSeverity`, `MapSeverityDist`). The
  inherited-member lookup as written, and dist's throw on it, appear only
  in `MapSeverityAsWritten` and `DistSeverityAsWritten` (see Findings).
- Numbers are integers. Fractional levels and times, `NaN`, `Infinity`
  and `-0` are not modelled. `Date(n)` is not checked against the valid
  Date range, so an out-of-range time is not shown as an Invalid Date.
- Property reads on the record and on the metadata see own properties
  only. Only the severity-table lookup is also modelled with inherited
  `Object.prototype` members (see Findings). JavaScript key order is not
  modelled: records are maps.
- `UpperCase` upper-cases ASCII letters only. Every severity name and
  `default` is ASCII.
- Aliasing is not modelled. The entry holds the record as it stood when
  `log` built the entry. dist writes a queued entry later, so a change the
  caller makes to the same object in between would show in the real
  write, and the model does not capture this. Metadata sub-objects shared
  by reference are copied as values.
- The trace agent is the process global `_google_trace_agent`. Here it is
  a parameter describing which methods it has and what they return. An
  agent method that throws is not modelled.

## Findings

| source | as written | input that shows it | evidently intended | confidence | as-written member | corrected member |
|---|---|---|---|---|---|---|
| src/LoggingCommon.ts:154 | `this.#severityMap[logLevel] ?? "info"` looks up a plain object, so keys inherited from `Object.prototype` are found too; dist/src/LoggingCommon.js:120 and 155 do the same, then call `toUpperCase` on the result | a record with `level: "toString"` (or `"constructor"`, `"valueOf"`, …) gets a function as its severity in src; in dist `toUpperCase` is not a function, so `log` throws | an unmapped level gives `info` (src) or `default` (dist) | medium, not executed | Severity.InheritedMemberEscapesEnumeration | Severity.OverridesWin |
