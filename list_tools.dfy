/** The guarded `tools/list` handler: one `tool_listing` checkpoint over the upstream listing. */
module ListToolsHandler {
  import opened Wrappers
  import opened Json
  import opened Mcp
  import opened Guard

  /** The outcome of one `tools/list` request and the guard calls it made. */
  datatype ListRun = ListRun(outcome: Result<ListToolsResult, HandlerError>, checks: seq<GuardRequest>)

  /** The text of the error thrown when the listing verdict's status is not 'Success'. */
  function ListingFailure(codec: Codec, v: Verdict): (message: string)
    ensures |message| == |"Failed to guard tools list. "| + |codec.pretty(VerdictJson(v))|
    ensures message[..|"Failed to guard tools list. "|] == "Failed to guard tools list. "
    ensures message[|"Failed to guard tools list. "|..] == codec.pretty(VerdictJson(v))
  {
    "Failed to guard tools list. " + codec.pretty(VerdictJson(v))
  }

  /**
   * The handler, given the upstream's answer to the forwarded `tools/list` and the guard's
   * replies. A blocked listing keeps every field but `tools`, which becomes empty;
   * `transformed` has no effect here.
   */
  function ListTools(codec: Codec, listing: Result<ListToolsResult, string>, replies: seq<Verdict>): (run: ListRun)
    ensures listing.Failure? ==> run == ListRun(Failure(UpstreamFailed(listing.error)), [])
    ensures listing.Success? ==> run.checks == [ListingRequest(listing.value.tools)]
    ensures run.outcome.Success? <==> listing.Success? && |replies| > 0 && IsSuccess(replies[0])
    ensures listing.Success? && |replies| == 0 ==> run.outcome == Failure(GuardUnreachable)
    ensures listing.Success? && |replies| > 0 && !IsSuccess(replies[0]) ==>
      run.outcome == Failure(GuardFailed(ListingFailure(codec, replies[0])))
    ensures run.outcome.Success? ==>
      run.outcome.value.nextCursor == listing.value.nextCursor && run.outcome.value.others == listing.value.others
    ensures run.outcome.Success? && IsBlocked(replies[0]) ==> run.outcome.value.tools == []
    ensures run.outcome.Success? && !IsBlocked(replies[0]) ==> run.outcome.value == listing.value
  {
    match listing
    case Failure(e) => ListRun(Failure(UpstreamFailed(e)), [])
    case Success(response) =>
      var checks := [ListingRequest(response.tools)];
      if |replies| == 0 then ListRun(Failure(GuardUnreachable), checks)
      else if !IsSuccess(replies[0]) then ListRun(Failure(GuardFailed(ListingFailure(codec, replies[0]))), checks)
      else if IsBlocked(replies[0]) then ListRun(Success(response.(tools := [])), checks)
      else ListRun(Success(response), checks)
  }
}
