# A verified model of the AIDR MCP stdio proxy

The proxy sits between a Model Context Protocol (MCP) client and an MCP server that it
launches as a subprocess. It mirrors the upstream server's capabilities on its own
downstream server. It forwards prompts, resources, completions and logging verbatim. It
routes `tools/list` and `tools/call` through a remote content guard, the CrowdStrike AIDR
service.

This project models the three pieces of decision logic in `src/proxy.ts`:

- **Capability mirror** (`capability_mirror.dfy`). A `Server` class holds the downstream
  handler table. `MirrorCapabilities` makes the same registrations as `run`, in the same
  order, and is proved to build the table `MirrorTable`. The lemmas prove that a handler
  exists exactly for the operations of advertised features:
  - subscriptions need both `resources` and `resources.subscribe`;
  - only the tool handlers go through the guard.
- **List-tools guard** (`list_tools.dfy`). This is a pure function of the upstream listing
  and the guard's reply:
  - a non-`Success` status throws;
  - `blocked` empties `tools` and keeps every other field;
  - anything else, `transformed` included, returns the listing unchanged.
- **Call-tool pipeline**. It runs input guard → upstream call → output guard → respond.
  - `call_tool.dfy` defines it as a function, `CallTool`. The unstructured output guard
    there is a short-circuiting fold, `GuardTextItems`.
  - `call_tool_handler.dfy` holds the handler as the source runs it. It consumes guard
    replies one by one, rewrites the response, and loops over an array of content items
    that it updates in place, with early returns. `HandleCallTool` and
    `GuardTextContent` are proved to compute exactly the reference function.
  - `output_guard_properties.dfy` and `call_tool_properties.dfy` prove the behaviour.

How the outside world is represented:

- **The guard** is the sequence of verdicts it returns, consumed in the order the calls are
  made. Once the sequence runs out, the guard is unreachable: the call rejects. Every guard
  request a run makes is logged in `checks`, so `|checks|` is the checkpoint count.
- **The upstream tool** is a function parameter (`Upstream`). A run records in `called` the
  params it was invoked with, if it was invoked.
- **The JSON codec** is a `Codec` value:
  - `parse` models `JSON.parse`, with `None` where it throws;
  - `stringify` models `JSON.stringify(v)`;
  - `pretty` models `JSON.stringify(v, null, 2)`.
- **A thrown error** is a `Failure(HandlerError)` outcome.

A transformed structured output whose substitute is not valid JSON keeps its original
`structuredContent`. The right-hand side of the assignment at `src/proxy.ts:236` throws
before anything is assigned, and the `catch` replaces only `content`.
`StructuredTransform` states this behaviour.

## Model

| member | source | states |
|---|---|---|
| `CapabilityMirror.MirrorTableExact` | src/proxy.ts:70-110 | An operation has a handler iff its feature is advertised. Subscribe, unsubscribe and resource-updated need both `resources` and `resources.subscribe`. A handler is guarded iff it is a tool handler; every other handler relays. |
| `CapabilityMirror.MirrorCapabilities` | src/proxy.ts:66-309 | A new server whose handler table, after the conditional registrations, is exactly `MirrorTable(caps)`. |
| `CapabilityMirror.Server.SetRequestHandler` | src/proxy.ts:77-82 | Registering a request handler sets that operation's entry and leaves the rest of the table unchanged. |
| `CapabilityMirror.Server.SetNotificationHandler` | src/proxy.ts:71-73 | Registering a notification handler sets that operation's entry to a relay and leaves the rest unchanged. |
| `CapabilityMirror.MirrorTable` | src/proxy.ts:70-309 | An absent capability record registers nothing. |
| `CapabilityMirror.Server.constructor` | src/proxy.ts:66-68 | A new downstream server starts with no handlers. |
| `CapabilityMirror.ToolsOnlyMirror` | src/proxy.ts:110-140 | A server that advertises only `tools` gets exactly the guarded `tools/list` and `tools/call` handlers. |
| `CapabilityMirror.SubscriptionsExtendResources` | src/proxy.ts:85-107 | A subscribe handler never exists without the resource list and read handlers. |
| `ListToolsHandler.ListTools` | src/proxy.ts:116-138 | An upstream failure throws with no guard call; otherwise one `tool_listing` call with the tools as payload. Success iff the status is 'Success'. The cursor and other fields are always kept. `blocked` gives empty `tools`. Any other verdict returns the listing unchanged. |
| `Guard.VerdictJson` | src/proxy.ts:129-133 | The whole verdict as embedded in the listing failure: its `status`, and a `result` object exactly when the verdict has one, which holds `guard_output` exactly when the verdict does. |
| `ListToolsHandler.ListingFailure` | src/proxy.ts:129-133 | The thrown message is "Failed to guard tools list. " followed by the pretty-printed verdict. |
| `Guard.WithoutGuardOutput` | src/proxy.ts:164 | The notice payload has exactly the result's keys other than `guard_output`: every diagnostic field with its value, and `blocked`/`transformed` exactly when the verdict had them, with their values. |
| `Guard.FirstContent` | src/proxy.ts:179-182 | A TypeError iff there is no `guard_output.messages[0]`; otherwise that message's content, which may be undefined. |
| `Guard.Decide` | src/proxy.ts:159-297 | The reading of one verdict shared by the input checkpoint (159-184), the structured output (212-233) and each text item (274-297). Unreachable or non-'Success' gives an error. Blocked (checked before transformed) gives a block with the verdict's result. `transformed` gives a substitute (the first guard message content), or the TypeError `MissingGuardOutput` when there is no first message. Anything else allows. |
| `CallToolPipeline.SubstitutedArguments` | src/proxy.ts:175-184 | The parse of the substitute, defaulting to `'{}'` when the content is missing; a parse error on that same text iff it does not parse. |
| `CallToolPipeline.TextItems` | src/proxy.ts:255 | An item is kept iff it is a text item of the content. |
| `OutputGuardProperties.TextItemsAppend` | src/proxy.ts:255 | The filter keeps the content's order: filtering two consecutive parts gives the filtered first part followed by the filtered second part. |
| `CallToolPipeline.InputRequest` | src/proxy.ts:141-157 | The input checkpoint is one `tool_input` request with the tool's name and the serialized arguments as its single user message. |
| `CallToolPipeline.BlockNotice` | src/proxy.ts:164-289 | A block notice is a single text item: the prefix, then the pretty-printed result without `guard_output`. It has no structured content and no other fields, and `isError` only as given. |
| `CallToolPipeline.GuardTextItems` | src/proxy.ts:255-298 | A loop over the text items that ends on a block returns a single-item notice flagged `isError: true`. The rest of its behaviour is stated by the `OutputGuardProperties` lemmas. |
| `CallToolPipeline.GuardStructured` | src/proxy.ts:192-252 | Exactly one checkpoint, on the serialized `structuredContent`. It throws iff the verdict rejects, with that error. An allowing verdict returns the response unchanged. A transform keeps `isError` and the other fields. |
| `CallToolPipeline.GuardUnstructured` | src/proxy.ts:255-301 | A successful unstructured result is either a single-item notice flagged `isError: true`, or the response with only `content` changed. |
| `CallToolPipeline.Forward` | src/proxy.ts:186-190 | The upstream tool is called with the request's params and the chosen arguments, after the input checkpoint. An upstream failure throws with no output checkpoint. |
| `CallToolPipeline.CallTool` | src/proxy.ts:140-302 | Every run starts with the input checkpoint. A run that does not call the tool makes only that checkpoint. A call keeps the request's name and other params. |
| `CallToolPipeline.OutputRequests` | src/proxy.ts:256-272 | One `tool_output` request per text item, carrying that item's text, in order. |
| `CallToolHandler.ReadVerdict` | src/proxy.ts:274-297 | The chain of tests on the next reply, written out as the loop runs it, computes exactly `Decide`. |
| `CallToolHandler.GuardTextContent` | src/proxy.ts:255-298 | The in-place loop returns exactly the outcome and guard calls of the reference fold `GuardTextItems`. |
| `CallToolHandler.HandleCallTool` | src/proxy.ts:140-302 | The handler's outcome, guard calls and upstream call are exactly those of the reference `CallTool`. |
| `OutputGuardProperties.TextRunChecks` | src/proxy.ts:255-272 | The guard calls are a prefix of one call per text item, in order, and non-text items are never checked. When every item passes, all text items are checked and the length is kept. A stopped loop made at least one call. |
| `OutputGuardProperties.TextHaltsAtFirst` | src/proxy.ts:274-289 | At the first text item that is not let through, the loop stops after exactly index+1 calls. It returns that item's notice with `isError: true`, or its failure. |
| `OutputGuardProperties.TextPassedIff` | src/proxy.ts:255-298 | The loop gets through the content iff every text item's checkpoint lets it through. |
| `OutputGuardProperties.TextPassedItemAt` | src/proxy.ts:291-297 | After a full pass, the item at one position is unchanged if it is not a text item. A text item was let through by its own checkpoint and rewritten only by that checkpoint's verdict. |
| `OutputGuardProperties.TextPassedItems` | src/proxy.ts:291-297 | After a full pass: same length and order, non-text items unchanged. A text item changes only its text, and only to its verdict's substitute. |
| `OutputGuardProperties.TextAllAllowed` | src/proxy.ts:255-298 | If every text verdict allows, the content comes back unchanged and every text item was checked. |
| `CallToolProperties.ReachesOutput` | src/proxy.ts:186-192 | Once the upstream has answered, the result and the remaining guard calls are those of the output guard on the later replies. |
| `CallToolProperties.InputGuardFailure` | src/proxy.ts:141-161 | An unreachable or non-'Success' input verdict throws after exactly one checkpoint, without calling the tool. |
| `CallToolProperties.InputBlocked` | src/proxy.ts:163-173 | A blocked input gives only the "Input has been blocked" notice built from the result without `guard_output`. There is no `isError`, no structured content and no other field, one checkpoint ran, and the tool is not called. |
| `CallToolProperties.UpstreamCallFollowsCleanInput` | src/proxy.ts:159-189 | The tool is called only after a successful, non-blocking input verdict, with the request's name and other params. A run that does not call it makes one guard call. |
| `CallToolProperties.ArgumentSubstitution` | src/proxy.ts:175-189 | Without `transformed`, the tool gets the original params. With `transformed`, it gets the parse of the first guard message content (or `'{}'`). A missing message is a TypeError and unparsable text is a parse error; either way the tool is not called. |
| `CallToolProperties.StructuredOutput` | src/proxy.ts:192-227 | Exactly one output checkpoint, on the serialized `structuredContent`. Failure throws. Blocked gives the "Output has been blocked" notice without `isError`. Allow returns the response unchanged. |
| `CallToolProperties.StructuredTransform` | src/proxy.ts:228-252 | If the substitute parses: `structuredContent` := the parsed value and `content` := one text item holding its serialization. If not: `content` := the raw substitute and `structuredContent` stays as upstream sent it. `isError` and the other fields are kept. |
| `CallToolProperties.UnstructuredChecksFollowText` | src/proxy.ts:255-272 | After the input check, the guard calls are a prefix of one call per text item in order; non-text items are never checked. |
| `CallToolProperties.UnstructuredHaltsAtFirst` | src/proxy.ts:274-289 | At the first halting text item, exactly 1 + index + 1 checkpoints ran. The result is that item's notice with `isError: true`, or its failure. |
| `CallToolProperties.UnstructuredPassed` | src/proxy.ts:255-301 | If every text item passes: all text items are checked and only `content` changes. Its length, order and non-text items are kept; each text item is changed only by its verdict's substitution. |
| `CallToolProperties.AllowedCallIsTransparent` | src/proxy.ts:140-301 | If the input and every output verdict allow, the tool is called with the original params and its response is returned unchanged. |
| `CallToolProperties.OutputGuardUnreachable` | src/proxy.ts:194-276 | A guard that stops answering after an allowing input check makes a call with output to guard fail with `GuardUnreachable`, with no partial result. This holds on both the structured and the per-item path. |
| `CallToolProperties.BlockedSsnScenario` | src/proxy.ts:163-173 | For `{"ssn": ...}` with the verdict `{blocked: true, reason: 'pii'}`: a non-error notice showing `reason` and `blocked`, and no tool call. |
| `CallToolProperties.SecondTextBlocked` | src/proxy.ts:255-289 | When the first text item passes and the second is blocked, the loop makes exactly those two checkpoints and returns the second item's notice with `isError: true`. |
| `CallToolProperties.SecondOfThreeBlocked` | src/proxy.ts:255-289 | If the second of three text items is blocked: three checkpoints ran, the last on item two, and the result is item two's notice alone with `isError: true`. |

## Left out

- Process bootstrap (`src/proxy.ts:28-44`, `315`): the environment-variable checks, `process.exit` and the command runner. They only fail at start-up when configuration is missing.
- Transports and connections (`src/proxy.ts:46-68`, `311`): spawning the subprocess, stdio framing, `connect`, and reading the upstream version. The upstream capability record is an input of the mirror.
- The guard client (`src/proxy.ts:111-114`) and its network calls. The guard is the sequence of verdicts it returns. `app_id` and `app_name` come from the environment, and `mcp_server_name` is the name the upstream server reports (`src/proxy.ts:65`). All three are the same for every request of a run, so guard requests do not carry them.
- The pass-through handlers (`src/proxy.ts:71-73`, `77-107`, `306-308`): only their registration is modelled. What they forward is SDK behaviour that is not part of this model.
- The MCP SDK's own handlers (initialize, ping), its capability assertion in `setRequestHandler`, and its validation of tool results. The upstream function stands for whatever the SDK's `callTool` resolves or rejects with.
- JSON: the text that `JSON.parse`/`JSON.stringify` read and write is abstract, so object key order and pretty-printing layout are not modelled. Numbers are integers; floating point and the truthiness of `NaN` are left out.
- Verdict shapes: `blocked`/`transformed` are modelled as booleans that may be absent, not as arbitrary truthy values. `guard_output.messages` is either absent/empty, giving a TypeError, or a list of messages whose content may be absent. Other malformed shapes are not modelled.
- Aliasing: the response and its items are owned by one invocation. The response is a value that the handler rebuilds. The items are array elements that the loop updates in place, so sharing of item objects between `response.content` and the filtered list is not modelled separately.
- Concurrency: each handler invocation runs sequentially. Interleaving between invocations at `await` points is not modelled.
- Determinism of repeated identical calls holds by construction, because `CallTool` is a function, so there is no lemma for it.
- `tsdown.config.ts` is build configuration and is not part of this model.
