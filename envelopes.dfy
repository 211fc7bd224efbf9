/**
 * The routing-relevant view of a telemetry envelope (sonde-go's events.Envelope)
 * and of a subscription request (plumbing.SubscriptionRequest).
 */
module Envelopes {
  import opened Wrappers

  type Bytes = seq<bv8>

  /** The event types an envelope may declare. */
  datatype EventType =
    | HttpStartStop
    | LogMessage
    | ValueMetric
    | CounterEvent
    | Error
    | ContainerMetric

  /** The router only looks at the origin and the (possibly unset) event type. */
  datatype Envelope = Envelope(origin: Option<string>, eventType: Option<EventType>)

  /** Coarse kind used by type filters. */
  datatype Kind = Log | Metric

  /** The kind of an envelope; `None` for an envelope that declares no event type. */
  function Classify(e: Envelope): (k: Option<Kind>)
    ensures k.None? <==> e.eventType.None?
    ensures k == Some(Log) <==> e.eventType == Some(LogMessage)
  {
    match e.eventType
    case None => None
    case Some(LogMessage) => Some(Log)
    case Some(_) => Some(Metric)
  }

  /** `Filter.Message`: the log or metric narrowing of a stream. */
  datatype MessageFilter = LogFilter | MetricFilter

  /** `plumbing.Filter`: an app id and an optional message-type narrowing. */
  datatype Filter = Filter(appID: string, message: Option<MessageFilter>)

  /** `plumbing.SubscriptionRequest`: a shard id and an optional filter. */
  datatype SubscriptionRequest = SubscriptionRequest(shardID: string, filter: Option<Filter>)

  /**
   * Where a registered subscription listens: an app id ("" listens to every
   * app), an optional kind, and a shard id ("" for a plain stream).
   */
  datatype Route = Route(appID: string, kind: Option<Kind>, shard: string)
  {
    /** A stream fans out to every member; a shard group hands each envelope to one member. */
    predicate IsStream() { shard == "" }
  }

  /** The route a request registers under. */
  function RouteOf(req: SubscriptionRequest): (r: Route)
    ensures r.shard == req.shardID
    ensures req.filter.None? ==> r.appID == "" && r.kind.None?
    ensures req.filter.Some? ==> r.appID == req.filter.value.appID
    ensures r.kind == Some(Log) <==> req.filter.Some? && req.filter.value.message == Some(LogFilter)
    ensures r.kind == Some(Metric) <==> req.filter.Some? && req.filter.value.message == Some(MetricFilter)
  {
    match req.filter
    case None => Route("", None, req.shardID)
    case Some(f) =>
      var kind := match f.message
        case None => None
        case Some(LogFilter) => Some(Log)
        case Some(MetricFilter) => Some(Metric);
      Route(f.appID, kind, req.shardID)
  }

  /** Whether a subscription on route `r` wants an envelope of kind `k` sent to `appID`. */
  predicate Matches(r: Route, appID: string, k: Kind)
  {
    (r.appID == "" || r.appID == appID) && (r.kind.None? || r.kind == Some(k))
  }

  /**
   * A request's route accepts an envelope exactly when its filter's app id is
   * absent or equal and its message filter, if any, names the envelope's kind.
   */
  lemma RequestMatches(req: SubscriptionRequest, appID: string, e: Envelope)
    requires Classify(e).Some?
    ensures Matches(RouteOf(req), appID, Classify(e).value) <==>
      match req.filter
      case None => true
      case Some(f) =>
        && (f.appID == "" || f.appID == appID)
        && (f.message != Some(LogFilter) || e.eventType == Some(LogMessage))
        && (f.message != Some(MetricFilter) || e.eventType != Some(LogMessage))
  {
  }
}
