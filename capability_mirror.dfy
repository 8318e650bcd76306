/**
 * The capability mirror: at start-up the proxy registers, on its downstream server, a
 * handler for each operation of every feature the upstream server advertises, and none other.
 */
module CapabilityMirror {
  import opened Wrappers
  import opened Mcp

  /** The downstream operations the mirror may register a handler for. */
  datatype Method =
    | LoggingMessage         // notifications/message
    | GetPrompt              // prompts/get
    | ListPrompts            // prompts/list
    | ListResources          // resources/list
    | ListResourceTemplates  // resources/templates/list
    | ReadResource           // resources/read
    | ResourceUpdated        // notifications/resources/updated
    | Subscribe              // resources/subscribe
    | Unsubscribe            // resources/unsubscribe
    | ListTools              // tools/list
    | CallTool               // tools/call
    | Complete               // completion/complete

  /** The operations registered with `setNotificationHandler` rather than `setRequestHandler`. */
  predicate IsNotification(m: Method) {
    m == LoggingMessage || m == ResourceUpdated
  }

  /** The capability flags, with resource subscriptions as a feature of their own. */
  datatype Feature = Logging | Prompts | Resources | ResourceSubscriptions | Tools | Completions

  /** The feature an operation belongs to. */
  function FeatureOf(m: Method): Feature {
    match m
    case LoggingMessage => Logging
    case GetPrompt | ListPrompts => Prompts
    case ListResources | ListResourceTemplates | ReadResource => Resources
    case ResourceUpdated | Subscribe | Unsubscribe => ResourceSubscriptions
    case ListTools | CallTool => Tools
    case Complete => Completions
  }

  /**
   * Whether the capability record (None when the upstream advertised none) has the feature;
   * subscriptions need both `resources` and `resources.subscribe`.
   */
  predicate Advertises(caps: Option<ServerCapabilities>, f: Feature) {
    caps.Some? &&
    match f
    case Logging => caps.value.logging
    case Prompts => caps.value.prompts
    case Resources => caps.value.resources.Some?
    case ResourceSubscriptions => caps.value.resources.Some? && caps.value.resources.value.subscribe
    case Tools => caps.value.tools
    case Completions => caps.value.completions
  }

  /** How a registered handler treats a message: forwarded verbatim, or through the guard pipeline. */
  datatype Route = Relay | Guarded

  /** The handler table `run` builds from the capability record, in registration order. */
  function MirrorTable(caps: Option<ServerCapabilities>): (table: map<Method, Route>)
    ensures caps.None? ==> table == map[]
  {
    if caps.None? then map[]
    else
      var c := caps.value;
      var t0: map<Method, Route> := map[];
      var t1 := if c.logging then t0[LoggingMessage := Relay] else t0;
      var t2 := if c.prompts then t1[GetPrompt := Relay][ListPrompts := Relay] else t1;
      var t3 := if c.resources.Some?
        then t2[ListResources := Relay][ListResourceTemplates := Relay][ReadResource := Relay]
        else t2;
      var t4 := if c.resources.Some? && c.resources.value.subscribe
        then t3[ResourceUpdated := Relay][Subscribe := Relay][Unsubscribe := Relay]
        else t3;
      var t5 := if c.tools then t4[ListTools := Guarded][CallTool := Guarded] else t4;
      if c.completions then t5[Complete := Relay] else t5
  }

  /**
   * A handler is registered exactly for the operations of advertised features, and only
   * the tool handlers go through the guard.
   */
  lemma MirrorTableExact(caps: Option<ServerCapabilities>, m: Method)
    ensures m in MirrorTable(caps) <==> Advertises(caps, FeatureOf(m))
    ensures m in MirrorTable(caps) ==> (MirrorTable(caps)[m] == Guarded <==> FeatureOf(m) == Tools)
  {
  }

  /** The downstream server's handler table, keyed by operation. */
  class Server {
    var handlers: map<Method, Route>

    /** A server with no handler registered. */
    constructor ()
      ensures handlers == map[]
    {
      handlers := map[];
    }

    /** `server.setRequestHandler(schema, handler)`: registers (or replaces) one request handler. */
    method SetRequestHandler(m: Method, route: Route)
      requires !IsNotification(m)
      modifies this
      ensures handlers == old(handlers)[m := route]
    {
      handlers := handlers[m := route];
    }

    /** `server.setNotificationHandler(schema, handler)`: registers a notification relay. */
    method SetNotificationHandler(m: Method)
      requires IsNotification(m)
      modifies this
      ensures handlers == old(handlers)[m := Relay]
    {
      handlers := handlers[m := Relay];
    }
  }

  /** The registrations `run` performs on a new server, one capability test at a time. */
  method MirrorCapabilities(caps: Option<ServerCapabilities>) returns (server: Server)
    ensures fresh(server)
    ensures server.handlers == MirrorTable(caps)
  {
    server := new Server();
    if caps.None? {
      return;
    }
    var c := caps.value;
    if c.logging {
      server.SetNotificationHandler(LoggingMessage);
    }
    if c.prompts {
      server.SetRequestHandler(GetPrompt, Relay);
      server.SetRequestHandler(ListPrompts, Relay);
    }
    if c.resources.Some? {
      server.SetRequestHandler(ListResources, Relay);
      server.SetRequestHandler(ListResourceTemplates, Relay);
      server.SetRequestHandler(ReadResource, Relay);
      if c.resources.value.subscribe {
        server.SetNotificationHandler(ResourceUpdated);
        server.SetRequestHandler(Subscribe, Relay);
        server.SetRequestHandler(Unsubscribe, Relay);
      }
    }
    if c.tools {
      server.SetRequestHandler(ListTools, Guarded);
      server.SetRequestHandler(CallTool, Guarded);
    }
    if c.completions {
      server.SetRequestHandler(Complete, Relay);
    }
  }

  /** A server that advertises only tools gets exactly the two guarded tool handlers. */
  lemma ToolsOnlyMirror()
    ensures MirrorTable(Some(ServerCapabilities(false, false, None, true, false)))
         == map[ListTools := Guarded, CallTool := Guarded]
  {
  }

  /** Subscription handlers never appear without the resource handlers they extend. */
  lemma SubscriptionsExtendResources(caps: Option<ServerCapabilities>)
    ensures Subscribe in MirrorTable(caps) ==> ReadResource in MirrorTable(caps) && ListResources in MirrorTable(caps)
  {
  }
}
