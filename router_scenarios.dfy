/**
 * The router's test scenarios replayed against the model: seven subscriptions
 * (three plain streams, three firehose members in two shard groups, one
 * log-only stream), then sends, cleanups, and what each setter was given.
 */
module RouterScenarios {
  import opened Wrappers
  import opened Envelopes
  import opened Routing
  import opened RoutingProperties

  const CounterEnvelope: Envelope := Envelope(Some("some-origin"), Some(CounterEvent))
  const LogEnvelope: Envelope := Envelope(Some("some-origin"), Some(LogMessage))
  const UntypedEnvelope: Envelope := Envelope(None, None)

  /** Requests A to G: streams of two apps, firehose members of two shard groups, a log-only stream. */
  const Requests: seq<SubscriptionRequest> := [
    SubscriptionRequest("", Some(Filter("some-app-id", None))),
    SubscriptionRequest("", Some(Filter("some-app-id", None))),
    SubscriptionRequest("", Some(Filter("some-other-app-id", None))),
    SubscriptionRequest("some-sub-id", None),
    SubscriptionRequest("some-sub-id", None),
    SubscriptionRequest("some-other-sub-id", None),
    SubscriptionRequest("", Some(Filter("some-app-id", Some(LogFilter))))
  ]

  const A := 0
  const B := 1
  const C := 2
  const D := 3
  const E := 4
  const F := 5
  const G := 6

  /** A fresh router with request `Requests[i]` registered for setter `s[i]` under handle `h[i]`. */
  method Populate() returns (router: Router, s: seq<DataSetter>, h: seq<SubId>)
    ensures fresh(router) && router.Valid()
    ensures |s| == 7 && |h| == 7
    ensures forall i :: 0 <= i < 7 ==> fresh(s[i]) && s[i].setInput == []
    ensures forall i, j :: 0 <= i < j < 7 ==> s[i] != s[j] && h[i] != h[j]
    ensures forall j :: j in router.subscriptions <==> j in h
    ensures forall i :: 0 <= i < 7 ==> router.subscriptions[h[i]] == Subscription(RouteOf(Requests[i]), s[i])
  {
    router := new Router();
    s, h := [], [];
    for i := 0 to 7
      invariant router.Valid()
      invariant |s| == i && |h| == i
      invariant forall k :: 0 <= k < i ==> fresh(s[k]) && s[k].setInput == []
      invariant router.nextId == i && forall k :: 0 <= k < i ==> h[k] == k
      invariant forall k, j :: 0 <= k < j < i ==> s[k] != s[j]
      invariant forall j :: j in router.subscriptions <==> 0 <= j < i
      invariant forall k :: 0 <= k < i ==> router.subscriptions[h[k]] == Subscription(RouteOf(Requests[k]), s[k])
    {
      var setter := new DataSetter();
      var handle := router.Register(Requests[i], setter);
      s, h := s + [setter], h + [handle];
    }
    forall j ensures j in h <==> 0 <= j < 7 {
      if 0 <= j < 7 {
        assert h[j] == j;
      }
    }
  }

  /** `subs` holds request `Requests[i]` for setter `s[i]` under handle `h[i]`, and nothing else. */
  ghost predicate Populated(subs: Registry, s: seq<DataSetter>, h: seq<SubId>)
  {
    && |s| == 7 && |h| == 7
    && (forall k, j :: 0 <= k < j < 7 ==> s[k] != s[j] && h[k] != h[j])
    && (forall j :: j in subs <==> j in h)
    && (forall k :: 0 <= k < 7 ==> subs[h[k]] == Subscription(RouteOf(Requests[k]), s[k]))
  }

  lemma OnlyUserOfPopulated(subs: Registry, s: seq<DataSetter>, h: seq<SubId>, i: nat)
    requires Populated(subs, s, h) && i < 7
    ensures OnlyUser(subs, h[i])
  {
    forall j | j in subs && subs[j].setter == subs[h[i]].setter ensures j == h[i] {
      var k :| 0 <= k < 7 && h[k] == j;
      assert s[k] == s[i];
    }
  }

  lemma SettersOfPopulated(subs: Registry, s: seq<DataSetter>, h: seq<SubId>)
    requires Populated(subs, s, h)
    ensures forall i :: 0 <= i < 7 ==> s[i] in SettersOf(subs)
  {
    forall i | 0 <= i < 7 ensures s[i] in SettersOf(subs) {
      assert h[i] in h && h[i] in subs && subs[h[i]].setter == s[i];
    }
  }

  lemma LogOutcome(subs: Registry, s: seq<DataSetter>, h: seq<SubId>, payload: Bytes, sent: seq<Delivery>)
    requires Populated(subs, s, h)
    requires IsDispatch(subs, "some-app-id", LogEnvelope, payload, sent)
    ensures Received(sent, s[A]) == [payload] && Received(sent, s[B]) == [payload]
    ensures Received(sent, s[G]) == [payload]
  {
    OnlyUserOfPopulated(subs, s, h, A);
    OnlyUserOfPopulated(subs, s, h, B);
    OnlyUserOfPopulated(subs, s, h, G);
    StreamReceivesOnce(subs, "some-app-id", LogEnvelope, payload, sent, h[A]);
    StreamReceivesOnce(subs, "some-app-id", LogEnvelope, payload, sent, h[B]);
    StreamReceivesOnce(subs, "some-app-id", LogEnvelope, payload, sent, h[G]);
  }

  /** A log envelope for "some-app-id" reaches A, B and the log-only G, each once, as the same bytes. */
  method SendsToRegisteredSetters(marshal: Envelope -> Bytes) returns (toA: seq<Bytes>, toB: seq<Bytes>, toG: seq<Bytes>)
    ensures toA == [marshal(LogEnvelope)] && toB == [marshal(LogEnvelope)] && toG == [marshal(LogEnvelope)]
  {
    var router, s, h := Populate();
    SettersOfPopulated(router.subscriptions, s, h);
    var sent := router.SendTo("some-app-id", LogEnvelope, marshal);
    LogOutcome(router.subscriptions, s, h, marshal(LogEnvelope), sent);
    toA, toB, toG := s[A].setInput, s[B].setInput, s[G].setInput;
  }

  lemma CounterOutcome(subs: Registry, s: seq<DataSetter>, h: seq<SubId>, payload: Bytes, sent: seq<Delivery>)
    requires Populated(subs, s, h)
    requires IsDispatch(subs, "some-app-id", CounterEnvelope, payload, sent)
    ensures Received(sent, s[A]) == [payload]
    ensures Received(sent, s[C]) == [] && Received(sent, s[G]) == []
  {
    OnlyUserOfPopulated(subs, s, h, A);
    OnlyUserOfPopulated(subs, s, h, C);
    OnlyUserOfPopulated(subs, s, h, G);
    StreamReceivesOnce(subs, "some-app-id", CounterEnvelope, payload, sent, h[A]);
    UnmatchedReceivesNothing(subs, "some-app-id", CounterEnvelope, payload, sent, h[C]);
    UnmatchedReceivesNothing(subs, "some-app-id", CounterEnvelope, payload, sent, h[G]);
  }

  /** A counter envelope for "some-app-id" reaches A exactly once, and neither C (another app) nor G (logs only). */
  method SendsOnceAndOnlyToMatching(marshal: Envelope -> Bytes) returns (toA: seq<Bytes>, toC: seq<Bytes>, toG: seq<Bytes>)
    ensures toA == [marshal(CounterEnvelope)] && toC == [] && toG == []
  {
    var router, s, h := Populate();
    SettersOfPopulated(router.subscriptions, s, h);
    var sent := router.SendTo("some-app-id", CounterEnvelope, marshal);
    CounterOutcome(router.subscriptions, s, h, marshal(CounterEnvelope), sent);
    toA, toC, toG := s[A].setInput, s[C].setInput, s[G].setInput;
  }

  lemma FirehoseOutcome(subs: Registry, s: seq<DataSetter>, h: seq<SubId>, payload: Bytes, sent: seq<Delivery>)
    requires Populated(subs, s, h)
    requires IsDispatch(subs, "some-app-id", CounterEnvelope, payload, sent)
    ensures |Received(sent, s[D])| + |Received(sent, s[E])| == 1
    ensures Received(sent, s[F]) == [payload]
  {
    OnlyUserOfPopulated(subs, s, h, D);
    OnlyUserOfPopulated(subs, s, h, E);
    OnlyUserOfPopulated(subs, s, h, F);
    forall j | j in subs && subs[j].route == subs[h[D]].route ensures j == h[D] || j == h[E] {
      var k :| 0 <= k < 7 && h[k] == j;
    }
    forall j | j in subs && subs[j].route == subs[h[F]].route ensures j == h[F] {
      var k :| 0 <= k < 7 && h[k] == j;
    }
    PairGroupReceivesOnce(subs, "some-app-id", CounterEnvelope, payload, sent, h[D], h[E]);
    SoleMemberReceives(subs, "some-app-id", CounterEnvelope, payload, sent, h[F]);
  }

  /** Of the shard group D, E exactly one is given the envelope; F, alone in its group, is given it. */
  method SendsToRandomFirehose(marshal: Envelope -> Bytes) returns (toD: nat, toE: nat, toF: seq<Bytes>)
    ensures toD + toE == 1 && toF == [marshal(CounterEnvelope)]
  {
    var router, s, h := Populate();
    SettersOfPopulated(router.subscriptions, s, h);
    var sent := router.SendTo("some-app-id", CounterEnvelope, marshal);
    FirehoseOutcome(router.subscriptions, s, h, marshal(CounterEnvelope), sent);
    toD, toE, toF := |s[D].setInput|, |s[E].setInput|, s[F].setInput;
  }

  /** An envelope without an event type reaches neither stream A nor firehoses D and E. */
  method DropsBadEnvelope(marshal: Envelope -> Bytes) returns (toA: seq<Bytes>, toD: seq<Bytes>, toE: seq<Bytes>)
    ensures toA == [] && toD == [] && toE == []
  {
    var router, s, h := Populate();
    SettersOfPopulated(router.subscriptions, s, h);
    var sent := router.SendTo("some-app-id", UntypedEnvelope, marshal);
    var subs := router.subscriptions;
    UntypedEnvelopeDropped(subs, "some-app-id", UntypedEnvelope, marshal(UntypedEnvelope), sent, s[A]);
    UntypedEnvelopeDropped(subs, "some-app-id", UntypedEnvelope, marshal(UntypedEnvelope), sent, s[D]);
    UntypedEnvelopeDropped(subs, "some-app-id", UntypedEnvelope, marshal(UntypedEnvelope), sent, s[E]);
    toA, toD, toE := s[A].setInput, s[D].setInput, s[E].setInput;
  }

  lemma CleanupOutcome(subs: Registry, s: seq<DataSetter>, h: seq<SubId>, payload: Bytes, sent: seq<Delivery>)
    requires Populated(subs, s, h)
    requires IsDispatch(subs - {h[A]}, "some-app-id", CounterEnvelope, payload, sent)
    ensures Unused(subs - {h[A]}, s[A])
    ensures Received(sent, s[B]) == [payload]
  {
    OnlyUserOfPopulated(subs, s, h, A);
    OnlyUserOfPopulated(subs, s, h, B);
    assert subs[h[B]].route == Route("some-app-id", None, "");
    CleanupKeepsOthers(subs, "some-app-id", CounterEnvelope, payload, sent, h[A], h[B]);
  }

  /** After A's cleanup, A is given nothing and B, the other stream of the app, is still given the bytes. */
  method StreamCleanup(marshal: Envelope -> Bytes) returns (toA: seq<Bytes>, toB: seq<Bytes>)
    ensures toA == [] && toB == [marshal(CounterEnvelope)]
  {
    var router, s, h := Populate();
    ghost var subs := router.subscriptions;
    ghost var setterA, setterB := s[A], s[B];
    assert setterA.setInput == [] && h[B] != h[A] && subs[h[B]].setter == setterB;
    router.Cleanup(h[A]);
    assert h[B] in router.subscriptions && router.subscriptions[h[B]].setter == setterB;
    var sent := router.SendTo("some-app-id", CounterEnvelope, marshal);
    CleanupOutcome(subs, s, h, marshal(CounterEnvelope), sent);
    assert setterA !in router.Setters();
    toA, toB := s[A].setInput, s[B].setInput;
  }

  /** After the cleanup of D (one of two members) or of F (the only member), that setter is given nothing. */
  method FirehoseCleanup(marshal: Envelope -> Bytes, which: nat) returns (toGone: seq<Bytes>)
    requires which == D || which == F
    ensures toGone == []
  {
    var router, s, h := Populate();
    ghost var subs := router.subscriptions;
    OnlyUserOfPopulated(subs, s, h, which);
    router.Cleanup(h[which]);
    var sent := router.SendTo("some-app-id", CounterEnvelope, marshal);
    assert Unused(subs - {h[which]}, s[which]);
    UnusedReceivesNothing(subs - {h[which]}, "some-app-id", CounterEnvelope, marshal(CounterEnvelope), sent, s[which]);
    toGone := s[which].setInput;
  }

  /**
   * A cleaned-up handle is never handed out again, so running that cleanup a
   * second time leaves a later registration in place.
   */
  method StaleCleanupHarmless() returns (reused: bool, kept: bool)
    ensures !reused && kept
  {
    var router := new Router();
    var setter1 := new DataSetter();
    var setter2 := new DataSetter();
    var h1 := router.Register(Requests[A], setter1);
    router.Cleanup(h1);
    var h2 := router.Register(Requests[B], setter2);
    router.Cleanup(h1);
    reused := h1 == h2;
    kept := h2 in router.subscriptions;
  }
}
