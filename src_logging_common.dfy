/** The `LoggingCommon` class of src/LoggingCommon.ts: settings fixed by the
    constructor, a sink set by `init()`, and `log`, which turns each pino
    record into one entry and writes it. */
module SrcLoggingCommon {
  import opened JsValue
  import opened Trace
  import opened Settings
  import opened RecordTransform
  import opened CloudLog

  class LoggingCommon {
    /** The private fields the constructor sets. */
    const config: Config
    /** `#cloudLog`: unset until `init()`. */
    var cloudLog: Option<Sink>
    /** The entry lists passed to the sink's `write`, one per `log` call,
        oldest first. */
    var written: seq<seq<Entry>>

    constructor (options: Options)
      ensures config == Configure(options)
      ensures cloudLog == None && written == []
    {
      config := Configure(options);
      cloudLog := None;
      written := [];
    }

    /** `init()`: a `LogSync` sink when output goes to stdout, a `Log`
        otherwise. */
    method Init()
      modifies this
      ensures cloudLog == Some(SinkFor(config.redirectToStdout))
      ensures written == old(written)
    {
      cloudLog := Some(SinkFor(config.redirectToStdout));
    }

    /** `log(obj)`: throws before touching the record when there is no
        sink; otherwise transforms the record in place and writes exactly
        one entry, unless a `null` metadata value throws part-way. */
    method Log(obj: LogObject, agent: Option<TraceAgent>) returns (r: Result<Entry>)
      requires LevelTyped(obj.fields)
      modifies this, obj
      ensures cloudLog == old(cloudLog)
      ensures old(cloudLog).None? ==>
        r == Err(NotInitialized) && obj.fields == old(obj.fields) && written == old(written)
      ensures old(cloudLog).Some? ==>
        var o := Transform(config, Src, agent, old(obj.fields));
        && obj.fields == o.payload
        && (o.entryMetadata.Err? ==> r == Err(o.entryMetadata.error) && written == old(written))
        && (o.entryMetadata.Ok? ==>
              r == Ok(Entry(o.entryMetadata.value, o.payload))
              && written == old(written) + [[r.value]])
    {
      if cloudLog.None? {
        return Err(NotInitialized);
      }
      var entryMetadata := Normalize(obj, config, Src, agent);
      if entryMetadata.Err? {
        return Err(entryMetadata.error);
      }
      var entry := Entry(entryMetadata.value, obj.fields);
      written := written + [[entry]];
      return Ok(entry);
    }
  }
}
