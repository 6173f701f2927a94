/** The trace-context fallback of `LoggingCommon`: the process-wide
    `_google_trace_agent` global, modelled as an optional input. */
module Trace {
  import opened JsValue

  /** What the core can observe of the trace agent: whether it has each of
      the two query methods, and what they return (`null` is `None`). */
  datatype TraceAgent = TraceAgent(
    hasGetCurrentContextId: bool,
    hasGetWriterProjectId: bool,
    currentContextId: Option<string>,
    writerProjectId: Option<string>)

  /** `getCurrentTraceFromAgent()`: the fully qualified trace name, or
      `None` for `null`. */
  function CurrentTraceFromAgent(agent: Option<TraceAgent>): (r: Option<string>)
    ensures r.Some? <==>
      && agent.Some?
      && agent.value.hasGetCurrentContextId && agent.value.hasGetWriterProjectId
      && agent.value.currentContextId.Some? && agent.value.currentContextId.value != ""
      && agent.value.writerProjectId.Some? && agent.value.writerProjectId.value != ""
    ensures r.Some? ==>
      r.value == "projects/" + agent.value.writerProjectId.value + "/traces/" + agent.value.currentContextId.value
  {
    match agent
    case None => None
    case Some(a) =>
      if !a.hasGetCurrentContextId || !a.hasGetWriterProjectId then None
      else if a.currentContextId.None? || a.currentContextId.value == "" then None
      else if a.writerProjectId.None? || a.writerProjectId.value == "" then None
      else Some("projects/" + a.writerProjectId.value + "/traces/" + a.currentContextId.value)
  }

  /** The entry's `trace`: `metadata.trace || getCurrentTraceFromAgent()`.
      A truthy per-record trace wins and the agent is not consulted. */
  function ResolveTrace(recordTrace: Value, agent: Option<TraceAgent>): Value
  {
    if Truthy(recordTrace) then recordTrace
    else match CurrentTraceFromAgent(agent)
      case None => Null
      case Some(s) => Str(s)
  }
}
