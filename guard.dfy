/**
 * The guard service as the proxy sees it: the requests it sends for each checkpoint,
 * the verdicts it gets back, and how a verdict is read.
 */
module Guard {
  import opened Wrappers
  import opened Json
  import opened Mcp

  /** The `event_type` of a checkpoint. */
  datatype EventType = ToolListing | ToolInput | ToolOutput

  /** One role-tagged message of `guard_input.messages`, or of `guard_output.messages`. */
  datatype GuardMessage = GuardMessage(role: string, content: Option<string>)

  /**
   * One guard call: the event type, `guard_input.messages`, `guard_input.tools` and
   * `extra_info.tool_name`. It also carries the application id and name, which come from
   * the environment, and the server name, which is the name the upstream server reports;
   * all three are constant for a run.
   */
  datatype GuardRequest = GuardRequest(
    event: EventType,
    messages: seq<GuardMessage>,
    tools: Option<seq<Json>>,
    toolName: Option<string>)

  /** The diagnostic fields of a verdict's `result`: every field but the three the proxy reads. */
  type Diagnostics = m: map<string, Json> | "blocked" !in m && "transformed" !in m && "guard_output" !in m
    witness map[]

  /** A verdict's `result`; `guardOutput` is `guard_output.messages`, None where either is absent. */
  datatype GuardResult = GuardResult(
    blocked: Option<bool>,
    transformed: Option<bool>,
    guardOutput: Option<seq<GuardMessage>>,
    diagnostics: Diagnostics)

  /** The guard's answer to one call: `{ status, result? }`. */
  datatype Verdict = Verdict(status: string, result: Option<GuardResult>)

  /** The test `status !== 'Success'`, negated. */
  predicate IsSuccess(v: Verdict) {
    v.status == "Success"
  }

  /** The test `result?.blocked`. */
  predicate IsBlocked(v: Verdict) {
    v.result.Some? && v.result.value.blocked == Some(true)
  }

  /** The test `result?.transformed`. */
  predicate IsTransformed(v: Verdict) {
    v.result.Some? && v.result.value.transformed == Some(true)
  }

  /** A verdict that lets content through untouched. */
  predicate Allows(v: Verdict) {
    IsSuccess(v) && !IsBlocked(v) && !IsTransformed(v)
  }

  /** The reply to the `i`-th guard call of a run; None once the guard stops answering. */
  function ReplyAt(replies: seq<Verdict>, i: nat): (reply: Option<Verdict>)
    ensures reply.Some? <==> i < |replies|
    ensures reply.Some? ==> reply.value == replies[i]
  {
    if i < |replies| then Some(replies[i]) else None
  }

  /** A boolean flag as an object field, present only when the flag is. */
  function FlagField(key: string, flag: Option<bool>): map<string, Json> {
    if flag.Some? then map[key := JBool(flag.value)] else map[]
  }

  /** `rest` in `const { guard_output, ...rest } = result`: the result without its guard output. */
  function WithoutGuardOutput(r: GuardResult): (rest: Json)
    ensures rest.JObject? && "guard_output" !in rest.fields
    ensures forall k :: k in r.diagnostics ==> k in rest.fields && rest.fields[k] == r.diagnostics[k]
    ensures forall k :: k in rest.fields <==>
      k in r.diagnostics || (k == "blocked" && r.blocked.Some?) || (k == "transformed" && r.transformed.Some?)
    ensures r.blocked.Some? ==> rest.fields["blocked"] == JBool(r.blocked.value)
    ensures r.transformed.Some? ==> rest.fields["transformed"] == JBool(r.transformed.value)
  {
    JObject(r.diagnostics + FlagField("blocked", r.blocked) + FlagField("transformed", r.transformed))
  }

  /** A guard message as JSON. */
  function MessageJson(m: GuardMessage): Json {
    JObject(map["role" := JString(m.role)] + (if m.content.Some? then map["content" := JString(m.content.value)] else map[]))
  }

  /** A list of guard messages as a JSON array. */
  function MessagesJson(ms: seq<GuardMessage>): (r: seq<Json>)
    ensures |r| == |ms|
  {
    if ms == [] then [] else [MessageJson(ms[0])] + MessagesJson(ms[1..])
  }

  /** A whole verdict as JSON, as embedded in the tool-listing failure message. */
  function VerdictJson(v: Verdict): (j: Json)
    ensures j.JObject? && "status" in j.fields && j.fields["status"] == JString(v.status)
    ensures "result" in j.fields <==> v.result.Some?
    ensures v.result.Some? ==>
      j.fields["result"].JObject? && ("guard_output" in j.fields["result"].fields <==> v.result.value.guardOutput.Some?)
  {
    var status := map["status" := JString(v.status)];
    if v.result.None? then JObject(status)
    else
      var r := v.result.value;
      var output := if r.guardOutput.Some?
        then map["guard_output" := JObject(map["messages" := JArray(MessagesJson(r.guardOutput.value))])]
        else map[];
      JObject(status["result" := JObject(WithoutGuardOutput(r).fields + output)])
  }

  /**
   * `(result.guard_output?.messages as { content: string }[])[0].content`: a TypeError when
   * there are no guard output messages, otherwise the first message's content (maybe undefined).
   */
  function FirstContent(r: GuardResult): (c: Result<Option<string>, HandlerError>)
    ensures c.Failure? <==> r.guardOutput.None? || r.guardOutput.value == []
    ensures c.Failure? ==> c.error == MissingGuardOutput
    ensures c.Success? ==> c.value == r.guardOutput.value[0].content
  {
    if r.guardOutput.None? || |r.guardOutput.value| == 0 then Failure(MissingGuardOutput)
    else Success(r.guardOutput.value[0].content)
  }

  /** What a single-content checkpoint does with its verdict. */
  datatype Decision =
    | Allow                              // pass the content on unchanged
    | Substitute(content: Option<string>) // replace the content with the guard's first message
    | Block(result: GuardResult)         // answer with a block notice built from this result
    | Reject(error: HandlerError)        // throw

  /**
   * The reading of one guard reply shared by the input checkpoint and both output branches:
   * the status is tested first, then `blocked`, then `transformed`. `failure` is the message
   * thrown on a status other than 'Success'.
   */
  function Decide(reply: Option<Verdict>, failure: string): (d: Decision)
    ensures reply.None? ==> d == Reject(GuardUnreachable)
    ensures reply.Some? && !IsSuccess(reply.value) ==> d == Reject(GuardFailed(failure))
    ensures d.Allow? <==> reply.Some? && Allows(reply.value)
    ensures d.Block? <==> reply.Some? && IsSuccess(reply.value) && IsBlocked(reply.value)
    ensures d.Block? ==> reply.value.result == Some(d.result)
    ensures d.Substitute? <==>
      reply.Some? && IsSuccess(reply.value) && !IsBlocked(reply.value) && IsTransformed(reply.value)
      && FirstContent(reply.value.result.value).Success?
    ensures d.Substitute? ==> FirstContent(reply.value.result.value) == Success(d.content)
    ensures
      (reply.Some? && IsSuccess(reply.value) && !IsBlocked(reply.value) && IsTransformed(reply.value)
       && FirstContent(reply.value.result.value).Failure?)
      ==> d == Reject(MissingGuardOutput)
  {
    if reply.None? then Reject(GuardUnreachable)
    else
      var v := reply.value;
      if !IsSuccess(v) then Reject(GuardFailed(failure))
      else if IsBlocked(v) then Block(v.result.value)
      else if IsTransformed(v) then
        match FirstContent(v.result.value)
        case Failure(e) => Reject(e)
        case Success(c) => Substitute(c)
      else Allow
  }

  /** True when a decision lets the pipeline go on to the next step. */
  predicate Continues(d: Decision) {
    d.Allow? || d.Substitute?
  }

  /** The `tool_listing` request: no messages, the upstream tools as payload. */
  function ListingRequest(tools: seq<Json>): GuardRequest {
    GuardRequest(ToolListing, [], Some(tools), None)
  }

  /** A `tool_output` request for one piece of tool output. */
  function OutputRequest(toolName: string, content: Option<string>): GuardRequest {
    GuardRequest(ToolOutput, [GuardMessage("tool", content)], None, Some(toolName))
  }
}
