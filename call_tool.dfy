/**
 * The guarded `tools/call` handler, stated as a function: input checkpoint, upstream call,
 * output checkpoint(s), response. It is the reference the imperative handler is proved
 * against and the subject of the lemmas in CallToolProperties.
 */
module CallToolPipeline {
  import opened Wrappers
  import opened Json
  import opened Mcp
  import opened Guard

  const InputBlockedPrefix: string := "Input has been blocked by CrowdStrike AIDR.\n\n"
  const OutputBlockedPrefix: string := "Output has been blocked by CrowdStrike AIDR.\n\n"
  const InputFailure: string := "Failed to guard input."
  const OutputFailure: string := "Failed to guard output."

  /** The upstream server's `callTool`, taken as given: a result, or a rejection with a reason. */
  type Upstream = CallToolParams -> Result<CallToolResult, string>

  /** `JSON.stringify(args.params.arguments) ?? ''`. */
  function ArgumentsText(codec: Codec, params: CallToolParams): string {
    if params.arguments.Some? then codec.stringify(params.arguments.value) else ""
  }

  /** The `tool_input` request: the serialized arguments as one user message. */
  function InputRequest(codec: Codec, params: CallToolParams): (check: GuardRequest)
    ensures check.event == ToolInput && check.toolName == Some(params.name) && check.tools.None?
    ensures check.messages == [GuardMessage("user", Some(ArgumentsText(codec, params)))]
  {
    GuardRequest(ToolInput, [GuardMessage("user", Some(ArgumentsText(codec, params)))], None, Some(params.name))
  }

  /** A result holding only the block notice: the prefix, then the verdict's result without `guard_output`. */
  function BlockNotice(codec: Codec, prefix: string, r: GuardResult, isError: Option<bool>): (notice: CallToolResult)
    ensures |notice.content| == 1 && IsText(notice.content[0])
    ensures notice.content[0].text == Some(prefix + codec.pretty(WithoutGuardOutput(r)))
    ensures notice.structuredContent.None? && notice.isError == isError && notice.others == map[]
  {
    CallToolResult([TextItem(Some(prefix + codec.pretty(WithoutGuardOutput(r))))], None, isError, map[])
  }

  /** `JSON.parse(content ?? '{}')`: the arguments substituted by an input transform. */
  function SubstitutedArguments(codec: Codec, content: Option<string>): (args: Result<Json, HandlerError>)
    ensures args.Success? <==> codec.parse(content.GetOr("{}")).Some?
    ensures args.Success? ==> codec.parse(content.GetOr("{}")) == Some(args.value)
    ensures args.Failure? ==> args.error == InvalidJson(content.GetOr("{}"))
  {
    var text := content.GetOr("{}");
    match codec.parse(text)
    case None => Failure(InvalidJson(text))
    case Some(j) => Success(j)
  }

  /** `content.filter((c) => c.type === 'text')`. */
  function TextItems(items: seq<ContentItem>): (texts: seq<ContentItem>)
    ensures |texts| <= |items|
    ensures forall x :: x in texts <==> x in items && IsText(x)
  {
    if items == [] then []
    else (if IsText(items[0]) then [items[0]] else []) + TextItems(items[1..])
  }

  /** One `tool_output` request per text item, in order. */
  function OutputRequests(toolName: string, texts: seq<ContentItem>): (checks: seq<GuardRequest>)
    ensures |checks| == |texts|
    ensures forall i :: 0 <= i < |texts| ==> checks[i] == OutputRequest(toolName, texts[i].text)
  {
    if texts == [] then [] else [OutputRequest(toolName, texts[0].text)] + OutputRequests(toolName, texts[1..])
  }

  /** How the per-item loop over unstructured content ends. */
  datatype TextOutcome =
    | Passed(items: seq<ContentItem>)   // every text item passed; the content, rewritten in place
    | Stopped(notice: CallToolResult)  // a text item was blocked; the notice to return
    | Aborted(error: HandlerError)     // a guard call failed

  /** The end of the per-item loop and the guard calls it made. */
  datatype TextRun = TextRun(outcome: TextOutcome, checks: seq<GuardRequest>)

  /** A run of the loop over a suffix, preceded by already processed items and guard calls. */
  function Resume(done: seq<ContentItem>, checks: seq<GuardRequest>, rest: TextRun): TextRun {
    TextRun(if rest.outcome.Passed? then Passed(done + rest.outcome.items) else rest.outcome, checks + rest.checks)
  }

  /**
   * The unstructured output guard as a short-circuiting fold: each text item is checked in
   * order, consuming one reply; non-text items are skipped; the first block or failure ends it.
   */
  function GuardTextItems(codec: Codec, toolName: string, items: seq<ContentItem>, replies: seq<Verdict>): (run: TextRun)
    ensures run.outcome.Stopped? ==> run.outcome.notice.isError == Some(true) && |run.outcome.notice.content| == 1
    decreases |items|
  {
    if items == [] then TextRun(Passed([]), [])
    else if !IsText(items[0]) then Resume([items[0]], [], GuardTextItems(codec, toolName, items[1..], replies))
    else
      var check := OutputRequest(toolName, items[0].text);
      match Decide(ReplyAt(replies, 0), OutputFailure)
      case Allow =>
        Resume([items[0]], [check], GuardTextItems(codec, toolName, items[1..], replies[1..]))
      case Substitute(c) =>
        Resume([items[0].(text := c)], [check], GuardTextItems(codec, toolName, items[1..], replies[1..]))
      case Block(r) => TextRun(Stopped(BlockNotice(codec, OutputBlockedPrefix, r, Some(true))), [check])
      case Reject(e) => TextRun(Aborted(e), [check])
  }

  /** The text an item has after its checkpoint let it through: unchanged, or the substitute. */
  function Rewritten(item: ContentItem, d: Decision): ContentItem {
    if d.Substitute? then item.(text := d.content) else item
  }

  /** The end of a run at a checkpoint that does not let the item through. */
  function Halt(codec: Codec, d: Decision): TextOutcome
    requires !Continues(d)
  {
    if d.Block? then Stopped(BlockNotice(codec, OutputBlockedPrefix, d.result, Some(true))) else Aborted(d.error)
  }

  /** One step of the fold over a non-text item: skipped without a guard call. */
  lemma SkipStep(codec: Codec, toolName: string, items: seq<ContentItem>, replies: seq<Verdict>)
    requires items != [] && !IsText(items[0])
    ensures GuardTextItems(codec, toolName, items, replies)
         == Resume([items[0]], [], GuardTextItems(codec, toolName, items[1..], replies))
  {
  }

  /** One step of the fold over a text item whose checkpoint lets it through. */
  lemma PassStep(codec: Codec, toolName: string, items: seq<ContentItem>, replies: seq<Verdict>)
    requires items != [] && IsText(items[0])
    requires Continues(Decide(ReplyAt(replies, 0), OutputFailure))
    ensures replies != []
    ensures GuardTextItems(codec, toolName, items, replies)
         == Resume([Rewritten(items[0], Decide(ReplyAt(replies, 0), OutputFailure))],
                   [OutputRequest(toolName, items[0].text)],
                   GuardTextItems(codec, toolName, items[1..], replies[1..]))
  {
  }

  /** One step of the fold over a text item whose checkpoint blocks it or fails. */
  lemma HaltStep(codec: Codec, toolName: string, items: seq<ContentItem>, replies: seq<Verdict>)
    requires items != [] && IsText(items[0])
    requires !Continues(Decide(ReplyAt(replies, 0), OutputFailure))
    ensures GuardTextItems(codec, toolName, items, replies)
         == TextRun(Halt(codec, Decide(ReplyAt(replies, 0), OutputFailure)), [OutputRequest(toolName, items[0].text)])
  {
  }

  /** The end of the output checkpoint(s) and the guard calls they made. */
  datatype OutputRun = OutputRun(outcome: Result<CallToolResult, HandlerError>, checks: seq<GuardRequest>)

  /**
   * The structured output branch: one check of the serialized `structuredContent`. A transform
   * whose substitute parses replaces both `structuredContent` and `content`; one that does not
   * parse replaces `content` only, since the throwing assignment never happens.
   */
  function GuardStructured(codec: Codec, toolName: string, response: CallToolResult, reply: Option<Verdict>): (run: OutputRun)
    requires HasStructured(response)
    ensures run.checks == [OutputRequest(toolName, Some(codec.stringify(response.structuredContent.value)))]
    ensures run.outcome.Failure? <==> Decide(reply, OutputFailure).Reject?
    ensures run.outcome.Failure? ==> run.outcome.error == Decide(reply, OutputFailure).error
    ensures Decide(reply, OutputFailure).Allow? ==> run.outcome == Success(response)
    ensures Decide(reply, OutputFailure).Substitute? ==>
      run.outcome.Success? && run.outcome.value.isError == response.isError && run.outcome.value.others == response.others
  {
    var check := OutputRequest(toolName, Some(codec.stringify(response.structuredContent.value)));
    match Decide(reply, OutputFailure)
    case Reject(e) => OutputRun(Failure(e), [check])
    case Block(r) => OutputRun(Success(BlockNotice(codec, OutputBlockedPrefix, r, None)), [check])
    case Allow => OutputRun(Success(response), [check])
    case Substitute(c) =>
      var parsed := if c.Some? then codec.parse(c.value) else None;
      if parsed.Some? then
        OutputRun(Success(response.(structuredContent := parsed,
                                    content := [TextItem(Some(codec.stringify(parsed.value)))])), [check])
      else
        OutputRun(Success(response.(content := [TextItem(c)])), [check])
  }

  /** The unstructured output branch: the per-item fold, then the rewritten response. */
  function GuardUnstructured(codec: Codec, toolName: string, response: CallToolResult, replies: seq<Verdict>): (run: OutputRun)
    ensures run.outcome.Success? ==>
      (run.outcome.value.isError == Some(true) && |run.outcome.value.content| == 1)
      || run.outcome.value == response.(content := run.outcome.value.content)
  {
    var run := GuardTextItems(codec, toolName, response.content, replies);
    match run.outcome
    case Passed(items) => OutputRun(Success(response.(content := items)), run.checks)
    case Stopped(notice) => OutputRun(Success(notice), run.checks)
    case Aborted(e) => OutputRun(Failure(e), run.checks)
  }

  /** The output checkpoint(s), by branch. */
  function GuardOutput(codec: Codec, toolName: string, response: CallToolResult, replies: seq<Verdict>): OutputRun {
    if HasStructured(response) then GuardStructured(codec, toolName, response, ReplyAt(replies, 0))
    else GuardUnstructured(codec, toolName, response, replies)
  }

  /** One `tools/call` round trip: its outcome, the guard calls made, and the upstream call made, if any. */
  datatype CallRun = CallRun(
    outcome: Result<CallToolResult, HandlerError>,
    checks: seq<GuardRequest>,
    called: Option<CallToolParams>)

  /** The upstream call with the request's params and the chosen arguments, then the output guard. */
  function Forward(codec: Codec, upstream: Upstream, params: CallToolParams, arguments: Option<Json>,
                   inputCheck: GuardRequest, replies: seq<Verdict>): (run: CallRun)
    ensures run.called == Some(params.(arguments := arguments))
    ensures run.checks != [] && run.checks[0] == inputCheck
    ensures upstream(params.(arguments := arguments)).Failure? ==> run.checks == [inputCheck] && run.outcome.Failure?
  {
    var call := params.(arguments := arguments);
    match upstream(call)
    case Failure(e) => CallRun(Failure(UpstreamFailed(e)), [inputCheck], Some(call))
    case Success(response) =>
      var out := GuardOutput(codec, params.name, response, replies);
      CallRun(out.outcome, [inputCheck] + out.checks, Some(call))
  }

  /** The `tools/call` handler, given the upstream tool and the guard's replies in the order asked. */
  function CallTool(codec: Codec, upstream: Upstream, params: CallToolParams, replies: seq<Verdict>): (run: CallRun)
    ensures run.checks != [] && run.checks[0] == InputRequest(codec, params)
    ensures run.called.None? ==> |run.checks| == 1
    ensures run.called.Some? ==> run.called.value.name == params.name && run.called.value.others == params.others
  {
    var check := InputRequest(codec, params);
    match Decide(ReplyAt(replies, 0), InputFailure)
    case Reject(e) => CallRun(Failure(e), [check], None)
    case Block(r) => CallRun(Success(BlockNotice(codec, InputBlockedPrefix, r, None)), [check], None)
    case Allow => Forward(codec, upstream, params, params.arguments, check, replies[1..])
    case Substitute(c) =>
      match SubstitutedArguments(codec, c)
      case Failure(e) => CallRun(Failure(e), [check], None)
      case Success(args) => Forward(codec, upstream, params, Some(args), check, replies[1..])
  }
}
