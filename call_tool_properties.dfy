/**
 * Properties of the `tools/call` pipeline: what the input checkpoint decides, what the
 * upstream tool is called with, what each output branch returns, and when the proxy is
 * transparent.
 */
module CallToolProperties {
  import opened Wrappers
  import opened Json
  import opened Mcp
  import opened Guard
  import opened CallToolPipeline
  import opened OutputGuardProperties

  /** The input checkpoint let the call through and the upstream tool answered with `response`. */
  predicate UpstreamAnswered(codec: Codec, upstream: Upstream, params: CallToolParams, replies: seq<Verdict>,
                             response: CallToolResult)
  {
    var run := CallTool(codec, upstream, params, replies);
    run.called.Some? && upstream(run.called.value) == Success(response)
  }

  /** Once the upstream has answered, the outcome and the remaining guard calls are the output guard's, on the later replies. */
  lemma ReachesOutput(codec: Codec, upstream: Upstream, params: CallToolParams, replies: seq<Verdict>,
                      response: CallToolResult)
    requires UpstreamAnswered(codec, upstream, params, replies, response)
    ensures replies != []
    ensures var run := CallTool(codec, upstream, params, replies);
            var out := GuardOutput(codec, params.name, response, replies[1..]);
            run.outcome == out.outcome && run.checks == [InputRequest(codec, params)] + out.checks
  {
  }

  /** A failed or unreachable input checkpoint throws, after exactly one guard call and without calling the tool. */
  lemma InputGuardFailure(codec: Codec, upstream: Upstream, params: CallToolParams, replies: seq<Verdict>)
    requires replies == [] || !IsSuccess(replies[0])
    ensures CallTool(codec, upstream, params, replies)
         == CallRun(Failure(if replies == [] then GuardUnreachable else GuardFailed(InputFailure)),
                    [InputRequest(codec, params)], None)
  {
  }

  /**
   * A blocked input is answered with the input block notice alone, not error-flagged, built
   * from the verdict's result without `guard_output`; the tool is never called and exactly
   * one checkpoint ran.
   */
  lemma InputBlocked(codec: Codec, upstream: Upstream, params: CallToolParams, replies: seq<Verdict>)
    requires replies != [] && IsSuccess(replies[0]) && IsBlocked(replies[0])
    ensures var run := CallTool(codec, upstream, params, replies);
      && run.called.None?
      && run.checks == [InputRequest(codec, params)]
      && run.outcome.Success?
      && run.outcome.value.isError.None?
      && run.outcome.value.structuredContent.None?
      && run.outcome.value.others == map[]
      && run.outcome.value.content
         == [TextItem(Some(InputBlockedPrefix + codec.pretty(WithoutGuardOutput(replies[0].result.value))))]
  {
  }

  /**
   * The upstream tool is called only after a successful, non-blocking input verdict, and with
   * the request's own params but for the arguments; a call that never reached it ran one checkpoint.
   */
  lemma UpstreamCallFollowsCleanInput(codec: Codec, upstream: Upstream, params: CallToolParams, replies: seq<Verdict>)
    ensures var run := CallTool(codec, upstream, params, replies);
      && (run.called.Some? ==>
            replies != [] && IsSuccess(replies[0]) && !IsBlocked(replies[0])
            && run.called.value.name == params.name && run.called.value.others == params.others)
      && (run.called.None? ==> |run.checks| == 1)
  {
  }

  /**
   * The arguments the tool is called with: the original ones unless the input verdict is
   * `transformed`; then the parse of the guard's first message content (`'{}'` when that
   * content is missing), a TypeError when there is no such message, and a parse error,
   * with no tool call, when the substitute is not JSON.
   */
  lemma ArgumentSubstitution(codec: Codec, upstream: Upstream, params: CallToolParams, replies: seq<Verdict>)
    requires replies != [] && IsSuccess(replies[0]) && !IsBlocked(replies[0])
    ensures var run := CallTool(codec, upstream, params, replies);
      && (!IsTransformed(replies[0]) ==> run.called == Some(params))
      && (IsTransformed(replies[0]) ==>
            match FirstContent(replies[0].result.value)
            case Failure(_) => run == CallRun(Failure(MissingGuardOutput), [InputRequest(codec, params)], None)
            case Success(c) =>
              match codec.parse(c.GetOr("{}"))
              case None => run == CallRun(Failure(InvalidJson(c.GetOr("{}"))), [InputRequest(codec, params)], None)
              case Some(args) => run.called == Some(params.(arguments := Some(args))))
  {
  }

  /**
   * Structured output is checked once, as the serialized `structuredContent`; a failed check
   * throws, a blocked one returns the output block notice without the error flag, and an
   * allowing one returns the upstream response unchanged.
   */
  lemma StructuredOutput(codec: Codec, upstream: Upstream, params: CallToolParams, replies: seq<Verdict>,
                         response: CallToolResult)
    requires UpstreamAnswered(codec, upstream, params, replies, response) && HasStructured(response)
    ensures var run := CallTool(codec, upstream, params, replies);
            var d := OutputDecisionAt(replies, 1);
      && run.checks == [InputRequest(codec, params),
                        OutputRequest(params.name, Some(codec.stringify(response.structuredContent.value)))]
      && (d.Reject? ==> run.outcome == Failure(d.error))
      && (d.Block? ==> run.outcome == Success(BlockNotice(codec, OutputBlockedPrefix, d.result, None)))
      && (d.Allow? ==> run.outcome == Success(response))
  {
  }

  /**
   * A transformed structured output: when the substitute parses, `structuredContent` becomes
   * the parsed value and `content` one text item holding its serialization; when it does not,
   * `content` becomes one text item holding the raw substitute and `structuredContent` is left
   * as the upstream sent it. Nothing else in the response changes.
   */
  lemma StructuredTransform(codec: Codec, upstream: Upstream, params: CallToolParams, replies: seq<Verdict>,
                            response: CallToolResult)
    requires UpstreamAnswered(codec, upstream, params, replies, response) && HasStructured(response)
    requires OutputDecisionAt(replies, 1).Substitute?
    ensures var run := CallTool(codec, upstream, params, replies);
            var c := OutputDecisionAt(replies, 1).content;
            var parsed := if c.Some? then codec.parse(c.value) else None;
      && run.outcome.Success?
      && run.outcome.value.isError == response.isError
      && run.outcome.value.others == response.others
      && (parsed.Some? ==>
            run.outcome.value.structuredContent == parsed
            && run.outcome.value.content == [TextItem(Some(codec.stringify(parsed.value)))])
      && (parsed.None? ==>
            run.outcome.value.structuredContent == response.structuredContent
            && run.outcome.value.content == [TextItem(c)])
  {
  }

  /** Unstructured output: the guard calls after the input's are one per text item, in order, and never one for another item. */
  lemma UnstructuredChecksFollowText(codec: Codec, upstream: Upstream, params: CallToolParams, replies: seq<Verdict>,
                                     response: CallToolResult)
    requires UpstreamAnswered(codec, upstream, params, replies, response) && !HasStructured(response)
    ensures var run := CallTool(codec, upstream, params, replies);
      && run.checks != [] && run.checks[0] == InputRequest(codec, params)
      && run.checks[1..] <= OutputRequests(params.name, TextItems(response.content))
  {
    ReachesOutput(codec, upstream, params, replies, response);
    TextRunChecks(codec, params.name, response.content, replies[1..]);
  }

  /**
   * Unstructured output stops at the first text item whose checkpoint does not let it
   * through: exactly 1 + (its text index) + 1 checkpoints ran, later items were not checked,
   * and the result is that item's block notice, error-flagged, or its failure.
   */
  lemma UnstructuredHaltsAtFirst(codec: Codec, upstream: Upstream, params: CallToolParams, replies: seq<Verdict>,
                                 response: CallToolResult, j: nat)
    requires UpstreamAnswered(codec, upstream, params, replies, response) && !HasStructured(response)
    requires j < |TextItems(response.content)|
    requires forall t :: 1 <= t <= j ==> Continues(OutputDecisionAt(replies, t))
    requires !Continues(OutputDecisionAt(replies, j + 1))
    ensures var run := CallTool(codec, upstream, params, replies);
            var d := OutputDecisionAt(replies, j + 1);
      && |run.checks| == j + 2
      && run.checks == [InputRequest(codec, params)] + OutputRequests(params.name, TextItems(response.content))[..j + 1]
      && (d.Block? ==> run.outcome == Success(BlockNotice(codec, OutputBlockedPrefix, d.result, Some(true))))
      && (d.Reject? ==> run.outcome == Failure(d.error))
  {
    ReachesOutput(codec, upstream, params, replies, response);
    forall t | 0 <= t <= j
      ensures OutputDecisionAt(replies[1..], t) == OutputDecisionAt(replies, t + 1)
    {
      DecisionShift(replies, t);
    }
    assert forall t :: 0 <= t < j ==> Continues(OutputDecisionAt(replies[1..], t));
    TextHaltsAtFirst(codec, params.name, response.content, replies[1..], j);
  }

  /**
   * Unstructured output whose every text checkpoint lets its item through: all text items
   * were checked; the response keeps everything but `content`, and `content` keeps its length,
   * its order and its non-text items, a text item changing only by the substitution of its text
   * when its verdict was `transformed`.
   */
  lemma UnstructuredPassed(codec: Codec, upstream: Upstream, params: CallToolParams, replies: seq<Verdict>,
                           response: CallToolResult)
    requires UpstreamAnswered(codec, upstream, params, replies, response) && !HasStructured(response)
    requires forall t :: 1 <= t <= |TextItems(response.content)| ==> Continues(OutputDecisionAt(replies, t))
    ensures var run := CallTool(codec, upstream, params, replies);
            var items := response.content;
      && run.checks == [InputRequest(codec, params)] + OutputRequests(params.name, TextItems(items))
      && run.outcome.Success?
      && run.outcome.value == response.(content := run.outcome.value.content)
      && |run.outcome.value.content| == |items|
      && forall i :: 0 <= i < |items| ==>
           if IsText(items[i])
           then run.outcome.value.content[i] == Rewritten(items[i], OutputDecisionAt(replies, 1 + TextsBefore(items, i)))
           else run.outcome.value.content[i] == items[i]
  {
    ReachesOutput(codec, upstream, params, replies, response);
    var later := replies[1..];
    forall t | 0 <= t < |TextItems(response.content)|
      ensures Continues(OutputDecisionAt(later, t))
    {
      DecisionShift(replies, t);
      assert Continues(OutputDecisionAt(replies, t + 1));
    }
    TextPassedIff(codec, params.name, response.content, later);
    TextPassedItems(codec, params.name, response.content, later);
    TextRunChecks(codec, params.name, response.content, later);
    forall i | 0 <= i < |response.content| && IsText(response.content[i])
      ensures OutputDecisionAt(later, TextsBefore(response.content, i))
           == OutputDecisionAt(replies, 1 + TextsBefore(response.content, i))
    {
      DecisionShift(replies, TextsBefore(response.content, i));
    }
  }

  /**
   * Transparency: when the input verdict and every output verdict allow, the tool is called
   * with the request's own params and its response comes back exactly as the upstream sent it.
   */
  lemma AllowedCallIsTransparent(codec: Codec, upstream: Upstream, params: CallToolParams, replies: seq<Verdict>,
                                 response: CallToolResult)
    requires replies != [] && Allows(replies[0])
    requires upstream(params) == Success(response)
    requires HasStructured(response) ==> 2 <= |replies| && Allows(replies[1])
    requires !HasStructured(response) ==> 1 + |TextItems(response.content)| <= |replies|
    requires !HasStructured(response) ==> forall t :: 1 <= t <= |TextItems(response.content)| ==> Allows(replies[t])
    ensures CallTool(codec, upstream, params, replies).called == Some(params)
    ensures CallTool(codec, upstream, params, replies).outcome == Success(response)
  {
    assert params.(arguments := params.arguments) == params;
    assert UpstreamAnswered(codec, upstream, params, replies, response);
    ReachesOutput(codec, upstream, params, replies, response);
    if HasStructured(response) {
      DecisionShift(replies, 0);
    } else {
      forall t | 0 <= t < |TextItems(response.content)|
        ensures Allows(replies[1..][t])
      {
        assert replies[1..][t] == replies[t + 1] && Allows(replies[t + 1]);
      }
      TextAllAllowed(codec, params.name, response.content, replies[1..]);
    }
  }

  /** A guard that stops answering after the input checkpoint makes the call fail, with no partial result. */
  lemma OutputGuardUnreachable(codec: Codec, upstream: Upstream, params: CallToolParams, replies: seq<Verdict>,
                               response: CallToolResult)
    requires |replies| == 1 && Allows(replies[0])
    requires upstream(params) == Success(response)
    requires HasStructured(response) || TextItems(response.content) != []
    ensures CallTool(codec, upstream, params, replies).outcome == Failure(GuardUnreachable)
  {
    assert params.(arguments := params.arguments) == params;
    assert UpstreamAnswered(codec, upstream, params, replies, response);
    ReachesOutput(codec, upstream, params, replies, response);
    if !HasStructured(response) {
      assert !Continues(OutputDecisionAt(replies[1..], 0));
      TextHaltsAtFirst(codec, params.name, response.content, replies[1..], 0);
    }
  }

  /**
   * Input scenario: arguments `{"ssn": "123-45-6789"}` and the verdict
   * `{status: 'Success', result: {blocked: true, reason: 'pii'}}` give a non-error result whose
   * notice shows `blocked` and `reason`, and the tool is not called.
   */
  lemma BlockedSsnScenario(codec: Codec, upstream: Upstream)
    ensures var params := CallToolParams("lookup", Some(JObject(map["ssn" := JString("123-45-6789")])), map[]);
            var verdict := Verdict("Success", Some(GuardResult(Some(true), None, None, map["reason" := JString("pii")])));
            var run := CallTool(codec, upstream, params, [verdict]);
      && run.called.None?
      && run.outcome == Success(CallToolResult(
           [TextItem(Some(InputBlockedPrefix + codec.pretty(JObject(map["reason" := JString("pii"), "blocked" := JBool(true)]))))],
           None, None, map[]))
  {
    var r := GuardResult(Some(true), None, None, map["reason" := JString("pii")]);
    assert WithoutGuardOutput(r) == JObject(map["reason" := JString("pii"), "blocked" := JBool(true)]);
  }

  /** The replies of that scenario as the per-item loop reads them: allow, then block. */
  lemma AllowThenBlock(allow: Verdict, block: Verdict, later: seq<Verdict>)
    requires Allows(allow) && IsSuccess(block) && IsBlocked(block)
    ensures OutputDecisionAt([allow, block] + later, 0) == Allow
    ensures OutputDecisionAt([allow, block] + later, 1) == Block(block.result.value)
  {
    assert ReplyAt([allow, block] + later, 0) == Some(allow);
    assert ReplyAt([allow, block] + later, 1) == Some(block);
  }

  /** The per-item loop when the first text item passes and the second is blocked: two checkpoints, then its notice. */
  lemma SecondTextBlocked(codec: Codec, toolName: string, items: seq<ContentItem>, replies: seq<Verdict>)
    requires 2 <= |items| && IsText(items[0]) && IsText(items[1])
    requires Continues(OutputDecisionAt(replies, 0)) && OutputDecisionAt(replies, 1).Block?
    ensures GuardTextItems(codec, toolName, items, replies)
         == TextRun(Stopped(BlockNotice(codec, OutputBlockedPrefix, OutputDecisionAt(replies, 1).result, Some(true))),
                    [OutputRequest(toolName, items[0].text), OutputRequest(toolName, items[1].text)])
  {
    PassStep(codec, toolName, items, replies);
    DecisionShift(replies, 0);
    assert items[1..][0] == items[1];
    HaltStep(codec, toolName, items[1..], replies[1..]);
  }

  /**
   * Output scenario: of three text items the second is blocked. Three checkpoints ran (the
   * input and the first two items), the third item was never checked, and the result is the
   * second item's notice alone, error-flagged.
   */
  lemma SecondOfThreeBlocked(codec: Codec, upstream: Upstream, params: CallToolParams, response: CallToolResult,
                             allow: Verdict, block: Verdict, later: seq<Verdict>)
    requires Allows(allow) && IsSuccess(block) && IsBlocked(block)
    requires upstream(params) == Success(response) && !HasStructured(response)
    requires |response.content| == 3 && IsText(response.content[0]) && IsText(response.content[1]) && IsText(response.content[2])
    ensures var run := CallTool(codec, upstream, params, [allow, allow, block] + later);
      && |run.checks| == 3
      && run.checks[2] == OutputRequest(params.name, response.content[1].text)
      && run.outcome == Success(CallToolResult(
           [TextItem(Some(OutputBlockedPrefix + codec.pretty(WithoutGuardOutput(block.result.value))))],
           None, Some(true), map[]))
  {
    var replies := [allow, allow, block] + later;
    assert replies[1..] == [allow, block] + later;
    assert ReplyAt(replies, 0) == Some(allow);
    assert params.(arguments := params.arguments) == params;
    AllowThenBlock(allow, block, later);
    SecondTextBlocked(codec, params.name, response.content, [allow, block] + later);
  }
}
