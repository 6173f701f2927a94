/** The `LoggingCommon` class of dist/src/LoggingCommon.js, compiled from
    a later revision: the entry severity is upper-cased, and writes to a
    `Log` sink are handed to a `bottleneck` queue instead of awaited. */
module DistLoggingCommon {
  import opened JsValue
  import opened Trace
  import opened Settings
  import opened RecordTransform
  import opened CloudLog

  /** A job handed to `bottleneck.schedule`: write these entries to this
      log. */
  datatype Task = Task(log: Sink, entries: seq<Entry>)

  class LoggingCommon {
    const config: Config
    /** The `maxConcurrent` option of the queue: one write at a time. */
    const maxConcurrent: nat
    const flushCheckIntervalMs: int
    const flushTimeoutMs: int
    var cloudLog: Option<Sink>
    /** The tasks handed to the queue, oldest first. */
    var scheduled: seq<Task>
    /** The entry lists written inline to a `LogSync` sink, oldest first. */
    var written: seq<seq<Entry>>

    constructor (options: Options)
      ensures config == Configure(options)
      ensures maxConcurrent == 1
      ensures flushCheckIntervalMs == GetOr(options.flushCheckIntervalMs, 500)
      ensures flushTimeoutMs == GetOr(options.flushTimeoutMs, 30000)
      ensures cloudLog == None && scheduled == [] && written == []
    {
      config := Configure(options);
      maxConcurrent := 1;
      flushCheckIntervalMs := GetOr(options.flushCheckIntervalMs, 500);
      flushTimeoutMs := GetOr(options.flushTimeoutMs, 30000);
      cloudLog := None;
      scheduled := [];
      written := [];
    }

    method Init()
      modifies this
      ensures cloudLog == Some(SinkFor(config.redirectToStdout))
      ensures scheduled == old(scheduled) && written == old(written)
    {
      cloudLog := Some(SinkFor(config.redirectToStdout));
    }

    /** `log(obj)`: as in src, but with the upper-cased severity; a `Log`
        sink gets exactly one queued task carrying a one-entry list, a
        `LogSync` sink is written inline and nothing is queued. */
    method Log(obj: LogObject, agent: Option<TraceAgent>) returns (r: Result<Entry>)
      requires LevelTyped(obj.fields)
      modifies this, obj
      ensures cloudLog == old(cloudLog)
      ensures old(cloudLog).None? ==>
        && r == Err(NotInitialized) && obj.fields == old(obj.fields)
        && scheduled == old(scheduled) && written == old(written)
      ensures old(cloudLog).Some? ==>
        var o := Transform(config, Dist, agent, old(obj.fields));
        && obj.fields == o.payload
        && (o.entryMetadata.Err? ==>
              r == Err(o.entryMetadata.error) && scheduled == old(scheduled) && written == old(written))
        && (o.entryMetadata.Ok? ==>
              && r == Ok(Entry(o.entryMetadata.value, o.payload))
              && (old(cloudLog) == Some(AsyncLog) ==>
                    scheduled == old(scheduled) + [Task(AsyncLog, [r.value])] && written == old(written))
              && (old(cloudLog) == Some(SyncLog) ==>
                    written == old(written) + [[r.value]] && scheduled == old(scheduled)))
    {
      if cloudLog.None? {
        return Err(NotInitialized);
      }
      var entryMetadata := Normalize(obj, config, Dist, agent);
      if entryMetadata.Err? {
        return Err(entryMetadata.error);
      }
      var entry := Entry(entryMetadata.value, obj.fields);
      if cloudLog == Some(AsyncLog) {
        scheduled := scheduled + [Task(AsyncLog, [entry])];
      } else {
        written := written + [[entry]];
      }
      return Ok(entry);
    }
  }
}
