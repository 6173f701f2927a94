/** What `LoggingCommon` hands to the Cloud Logging client: the kind of log
    object `init()` creates, and the entries passed to its `write`. */
module CloudLog {
  import opened RecordTransform

  /** The client's `Log` (asynchronous, over the API) or `LogSync`
      (stdout) object. */
  datatype Sink = AsyncLog | SyncLog

  /** `init()` creates a `LogSync` when output is redirected to stdout and
      a `Log` otherwise. */
  function SinkFor(redirectToStdout: bool): Sink
  {
    if redirectToStdout then SyncLog else AsyncLog
  }

  /** What `this.entry(entryMetadata, obj)` yields: the entry metadata with
      the record as its data, as the record stood when `log` built it. */
  datatype Entry = Entry(metadata: Record, data: Record)
}
