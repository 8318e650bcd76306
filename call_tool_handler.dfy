/**
 * The `tools/call` handler as the proxy runs it: guard calls consumed one reply at a time,
 * the response rewritten in place, early returns. Each method is proved to compute exactly
 * what the reference pipeline in CallToolPipeline defines.
 */
module CallToolHandler {
  import opened Wrappers
  import opened Json
  import opened Mcp
  import opened Guard
  import opened CallToolPipeline

  /** Prepending processed items and calls to a run that itself resumes another is one resume. */
  lemma ResumeTwice(a: seq<ContentItem>, c: seq<GuardRequest>, b: seq<ContentItem>, d: seq<GuardRequest>, r: TextRun)
    ensures Resume(a, c, Resume(b, d, r)) == Resume(a + b, c + d, r)
  {
    if r.outcome.Passed? {
      assert a + (b + r.outcome.items) == (a + b) + r.outcome.items;
    }
    assert c + (d + r.checks) == (c + d) + r.checks;
  }

  /** The loop's invariant after a text item whose checkpoint lets it through. */
  lemma LoopPass(codec: Codec, toolName: string, content: seq<ContentItem>, i: nat, pending: seq<Verdict>,
                 done: seq<ContentItem>, checks: seq<GuardRequest>, whole: TextRun)
    requires i < |content| && IsText(content[i])
    requires Continues(Decide(ReplyAt(pending, 0), OutputFailure))
    requires Resume(done, checks, GuardTextItems(codec, toolName, content[i..], pending)) == whole
    ensures pending != []
    ensures Resume(done + [Rewritten(content[i], Decide(ReplyAt(pending, 0), OutputFailure))],
                   checks + [OutputRequest(toolName, content[i].text)],
                   GuardTextItems(codec, toolName, content[i + 1..], pending[1..])) == whole
  {
    var suffix := content[i..];
    assert suffix[0] == content[i] && suffix[1..] == content[i + 1..];
    PassStep(codec, toolName, suffix, pending);
    ResumeTwice(done, checks, [Rewritten(content[i], Decide(ReplyAt(pending, 0), OutputFailure))],
                [OutputRequest(toolName, content[i].text)], GuardTextItems(codec, toolName, content[i + 1..], pending[1..]));
  }

  /** The loop's invariant after a non-text item, which is skipped without a guard call. */
  lemma LoopSkip(codec: Codec, toolName: string, content: seq<ContentItem>, i: nat, pending: seq<Verdict>,
                 done: seq<ContentItem>, checks: seq<GuardRequest>, whole: TextRun)
    requires i < |content| && !IsText(content[i])
    requires Resume(done, checks, GuardTextItems(codec, toolName, content[i..], pending)) == whole
    ensures Resume(done + [content[i]], checks, GuardTextItems(codec, toolName, content[i + 1..], pending)) == whole
  {
    var suffix := content[i..];
    assert suffix[0] == content[i] && suffix[1..] == content[i + 1..];
    SkipStep(codec, toolName, suffix, pending);
    ResumeTwice(done, checks, [content[i]], [], GuardTextItems(codec, toolName, content[i + 1..], pending));
    assert checks + [] == checks;
  }

  /** A run that reaches a halting text item ends there, with that item's guard call last. */
  lemma LoopHalt(codec: Codec, toolName: string, content: seq<ContentItem>, i: nat, pending: seq<Verdict>,
                 done: seq<ContentItem>, checks: seq<GuardRequest>, whole: TextRun)
    requires i < |content| && IsText(content[i])
    requires !Continues(Decide(ReplyAt(pending, 0), OutputFailure))
    requires Resume(done, checks, GuardTextItems(codec, toolName, content[i..], pending)) == whole
    ensures whole == TextRun(Halt(codec, Decide(ReplyAt(pending, 0), OutputFailure)),
                             checks + [OutputRequest(toolName, content[i].text)])
  {
    var suffix := content[i..];
    assert suffix[0] == content[i];
    HaltStep(codec, toolName, suffix, pending);
  }

  /**
   * The reading of the next guard reply, as written out at each checkpoint: no reply, then the
   * status, then `blocked`, then `transformed` with its first guard message.
   */
  method ReadVerdict(pending: seq<Verdict>, failure: string) returns (d: Decision)
    ensures d == Decide(ReplyAt(pending, 0), failure)
  {
    if |pending| == 0 {
      return Reject(GuardUnreachable);
    }
    var guarded := pending[0];
    if guarded.status != "Success" {
      return Reject(GuardFailed(failure));
    }
    if IsBlocked(guarded) {
      return Block(guarded.result.value);
    }
    if IsTransformed(guarded) {
      var first := FirstContent(guarded.result.value);
      if first.Failure? {
        return Reject(first.error);
      }
      return Substitute(first.value);
    }
    return Allow;
  }

  /**
   * The loop over the text items of unstructured content (the `for ... of content.filter(...)`):
   * one guard call per text item, in order; a transformed item has its text replaced in place;
   * the first block or failed call returns at once.
   */
  method GuardTextContent(codec: Codec, toolName: string, content: seq<ContentItem>, replies: seq<Verdict>)
    returns (outcome: TextOutcome, checks: seq<GuardRequest>)
    ensures TextRun(outcome, checks) == GuardTextItems(codec, toolName, content, replies)
  {
    var items := new ContentItem[|content|](k requires 0 <= k < |content| => content[k]);
    var pending := replies;
    checks := [];
    ghost var whole := GuardTextItems(codec, toolName, content, replies);
    var i := 0;
    while i < items.Length
      invariant 0 <= i <= items.Length == |content|
      invariant items[i..] == content[i..]
      invariant Resume(items[..i], checks, GuardTextItems(codec, toolName, content[i..], pending)) == whole
    {
      var item := items[i];
      ghost var before := items[..i];
      assert item == content[i];
      if IsText(item) {
        var check := OutputRequest(toolName, item.text);
        var d := ReadVerdict(pending, OutputFailure);
        if !Continues(d) {
          LoopHalt(codec, toolName, content, i, pending, before, checks, whole);
          outcome := Halt(codec, d);
          checks := checks + [check];
          return;
        }
        LoopPass(codec, toolName, content, i, pending, before, checks, whole);
        if d.Substitute? {
          items[i] := item.(text := d.content);
        }
        checks := checks + [check];
        pending := pending[1..];
      } else {
        LoopSkip(codec, toolName, content, i, pending, before, checks, whole);
      }
      assert items[..i + 1] == before + [items[i]];
      i := i + 1;
    }
    assert items[..i] == items[..];
    assert content[i..] == [];
    outcome := Passed(items[..]);
  }

  /**
   * The `tools/call` handler: input guard, upstream call with the possibly substituted
   * arguments, then the structured or the per-item output guard.
   */
  method HandleCallTool(codec: Codec, upstream: Upstream, params: CallToolParams, replies: seq<Verdict>)
    returns (outcome: Result<CallToolResult, HandlerError>, checks: seq<GuardRequest>, called: Option<CallToolParams>)
    ensures CallRun(outcome, checks, called) == CallTool(codec, upstream, params, replies)
  {
    checks := [InputRequest(codec, params)];
    called := None;
    if |replies| == 0 {
      outcome := Failure(GuardUnreachable);
      return;
    }
    var guardedInput := replies[0];
    var pending := replies[1..];
    if guardedInput.status != "Success" {
      outcome := Failure(GuardFailed(InputFailure));
      return;
    }
    if IsBlocked(guardedInput) {
      outcome := Success(BlockNotice(codec, InputBlockedPrefix, guardedInput.result.value, None));
      return;
    }
    var newArgs := params.arguments;
    if IsTransformed(guardedInput) {
      var first := FirstContent(guardedInput.result.value);
      if first.Failure? {
        outcome := Failure(first.error);
        return;
      }
      var text := first.value.GetOr("{}");
      var parsed := codec.parse(text);
      if parsed.None? {
        outcome := Failure(InvalidJson(text));
        return;
      }
      newArgs := parsed;
    }
    var call := params.(arguments := newArgs);
    called := Some(call);
    var reply := upstream(call);
    if reply.Failure? {
      outcome := Failure(UpstreamFailed(reply.error));
      return;
    }
    var response := reply.value;
    if HasStructured(response) {
      checks := checks + [OutputRequest(params.name, Some(codec.stringify(response.structuredContent.value)))];
      if |pending| == 0 {
        outcome := Failure(GuardUnreachable);
        return;
      }
      var guardedOutput := pending[0];
      if guardedOutput.status != "Success" {
        outcome := Failure(GuardFailed(OutputFailure));
        return;
      }
      if IsBlocked(guardedOutput) {
        outcome := Success(BlockNotice(codec, OutputBlockedPrefix, guardedOutput.result.value, None));
        return;
      }
      if IsTransformed(guardedOutput) {
        var first := FirstContent(guardedOutput.result.value);
        if first.Failure? {
          outcome := Failure(first.error);
          return;
        }
        var contentText := first.value;
        var parsed := if contentText.Some? then codec.parse(contentText.value) else None;
        if parsed.Some? {
          response := response.(structuredContent := parsed);
          response := response.(content := [TextItem(Some(codec.stringify(response.structuredContent.value)))]);
        } else {
          response := response.(content := [TextItem(contentText)]);
        }
      }
    } else {
      var textOutcome, textChecks := GuardTextContent(codec, params.name, response.content, pending);
      checks := checks + textChecks;
      match textOutcome
      case Aborted(e) =>
        outcome := Failure(e);
        return;
      case Stopped(notice) =>
        outcome := Success(notice);
        return;
      case Passed(items) =>
        response := response.(content := items);
    }
    outcome := Success(response);
  }
}
