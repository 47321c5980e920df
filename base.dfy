/** The base `Pipeline` class (src/pipeline.py:8-18): the injected logger and
    key map, the logging side channel, and the echoing null-object `generate`. */
module Base {
  import opened Wrappers

  /** The reply of the search pipelines to an empty query. */
  const PromptForTerm := "Please specify a search term."

  /** The credential map handed to every pipeline at construction. */
  type Keys = map<string, string>

  /** The diagnostic collaborator passed as `util`; only whether one was
      injected matters to the pipeline. */
  datatype Logger = Logger(id: nat)

  /** One call `util.log(source, message)` that a pipeline hands to its logger. */
  datatype LogRecord = LogRecord(source: string, message: string)

  /** What `log` passes on: a record tagged with the pipeline's class name
      when a logger was injected, and nothing otherwise. */
  function LogCall(util: Option<Logger>, className: string, message: string): (r: Option<LogRecord>)
    ensures r.Some? <==> util.Some?
    ensures r.Some? ==> r.value.source == className && r.value.message == message
  {
    match util
    case None => None
    case Some(_) => Some(LogRecord(className, message))
  }

  class Pipeline {
    const util: Option<Logger>
    const keys: Option<Keys>

    constructor (util: Option<Logger>, keys: Option<Keys>)
      ensures this.util == util && this.keys == keys
    {
      this.util := util;
      this.keys := keys;
    }

    /** `log`: forwards the message to the injected logger under this class's name. */
    function Log(message: string): (r: Option<LogRecord>)
      ensures r.Some? <==> util.Some?
      ensures r.Some? ==> r.value == LogRecord("Pipeline", message)
    {
      LogCall(util, "Pipeline", message)
    }

    /** `generate` of the null-object pipeline: the reply is the message itself. */
    function Generate(message: string): (r: string)
      ensures r == message
    {
      message
    }
  }
}
