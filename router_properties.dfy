/**
 * What the router's dispatch rule guarantees to individual data setters:
 * the outcomes the router's behaviour is pinned to, derived from `IsDispatch`.
 */
module RoutingProperties {
  import opened Wrappers
  import opened Envelopes
  import opened Routing

  /** Subscription `id` is the only live subscription writing to its setter. */
  ghost predicate OnlyUser(subs: Registry, id: SubId)
  {
    id in subs && forall j :: j in subs && subs[j].setter == subs[id].setter ==> j == id
  }

  /** No live subscription writes to `s`. */
  ghost predicate Unused(subs: Registry, s: DataSetter)
  {
    forall j :: j in subs ==> subs[j].setter != s
  }

  lemma {:induction false} ReceivedNone(sent: seq<Delivery>, s: DataSetter)
    requires forall i :: 0 <= i < |sent| ==> sent[i].setter != s
    ensures Received(sent, s) == []
  {
    if sent != [] {
      ReceivedNone(sent[..|sent| - 1], s);
    }
  }

  lemma {:induction false} ReceivedOne(sent: seq<Delivery>, s: DataSetter, k: nat)
    requires k < |sent| && sent[k].setter == s
    requires forall i :: 0 <= i < |sent| && i != k ==> sent[i].setter != s
    ensures Received(sent, s) == [sent[k].data]
  {
    var init := sent[..|sent| - 1];
    if k == |sent| - 1 {
      ReceivedNone(init, s);
    } else {
      ReceivedOne(init, s, k);
    }
  }

  /** Two setters that share exactly one delivery of `sent` between them. */
  lemma {:induction false} ReceivedShared(sent: seq<Delivery>, a: DataSetter, b: DataSetter, k: nat)
    requires a != b
    requires k < |sent| && sent[k].setter in {a, b}
    requires forall i :: 0 <= i < |sent| && i != k ==> sent[i].setter != a && sent[i].setter != b
    ensures |Received(sent, a)| + |Received(sent, b)| == 1
  {
    if sent[k].setter == a {
      ReceivedOne(sent, a, k);
      ReceivedNone(sent, b);
    } else {
      ReceivedNone(sent, a);
      ReceivedOne(sent, b, k);
    }
  }

  /**
   * Every shard group with a matching member is served exactly once: exactly
   * one delivery goes to a subscription of that group.
   */
  lemma GroupServedOnce(subs: Registry, appID: string, e: Envelope, payload: Bytes, sent: seq<Delivery>, id: SubId)
    requires IsDispatch(subs, appID, e, payload, sent)
    requires Classify(e).Some?
    requires id in subs && !subs[id].route.IsStream() && Matches(subs[id].route, appID, Classify(e).value)
    ensures exists k ::
      && 0 <= k < |sent| && subs[sent[k].id].route == subs[id].route
      && forall i :: 0 <= i < |sent| && subs[sent[i].id].route == subs[id].route ==> i == k
  {
    var r := subs[id].route;
    assert r in MatchingGroups(subs, appID, Classify(e).value);
    var k :| 0 <= k < |sent| && subs[sent[k].id].route == r;
    forall i | 0 <= i < |sent| && i != k
      ensures subs[sent[i].id].route != r
    {
      if i < k {
        assert subs[sent[i].id].route.IsStream() || subs[sent[i].id].route != subs[sent[k].id].route;
      } else {
        assert subs[sent[k].id].route != subs[sent[i].id].route;
      }
    }
    assert forall i :: 0 <= i < |sent| && subs[sent[i].id].route == r ==> i == k;
  }

  /**
   * A matching stream subscription that alone writes to its setter is given the
   * payload exactly once (the marshalled envelope, one `Set` call).
   */
  lemma StreamReceivesOnce(subs: Registry, appID: string, e: Envelope, payload: Bytes, sent: seq<Delivery>, id: SubId)
    requires IsDispatch(subs, appID, e, payload, sent)
    requires Classify(e).Some?
    requires OnlyUser(subs, id) && subs[id].route.IsStream()
    requires Matches(subs[id].route, appID, Classify(e).value)
    ensures Received(sent, subs[id].setter) == [payload]
  {
    assert id in Ids(sent);
    var k :| 0 <= k < |sent| && sent[k].id == id;
    forall i | 0 <= i < |sent| && i != k
      ensures sent[i].setter != subs[id].setter
    {
      if i < k { assert sent[i].id != sent[k].id; } else { assert sent[k].id != sent[i].id; }
    }
    ReceivedOne(sent, subs[id].setter, k);
  }

  /**
   * A setter written to only by a subscription that does not match (another
   * app, another kind), or by any subscription when the envelope declares no
   * event type, is given nothing.
   */
  lemma UnmatchedReceivesNothing(subs: Registry, appID: string, e: Envelope, payload: Bytes, sent: seq<Delivery>, id: SubId)
    requires IsDispatch(subs, appID, e, payload, sent)
    requires OnlyUser(subs, id)
    requires Classify(e).None? || !Matches(subs[id].route, appID, Classify(e).value)
    ensures Received(sent, subs[id].setter) == []
  {
    forall i | 0 <= i < |sent|
      ensures sent[i].setter != subs[id].setter
    {
      assert sent[i].id != id;
    }
    ReceivedNone(sent, subs[id].setter);
  }

  /** An envelope with no event type reaches no setter at all. */
  lemma UntypedEnvelopeDropped(subs: Registry, appID: string, e: Envelope, payload: Bytes, sent: seq<Delivery>, s: DataSetter)
    requires IsDispatch(subs, appID, e, payload, sent)
    requires e.eventType.None?
    ensures Received(sent, s) == []
  {
  }

  /** A setter no live subscription writes to (for one, after its cleanup ran) is given nothing. */
  lemma UnusedReceivesNothing(subs: Registry, appID: string, e: Envelope, payload: Bytes, sent: seq<Delivery>, s: DataSetter)
    requires IsDispatch(subs, appID, e, payload, sent)
    requires Unused(subs, s)
    ensures Received(sent, s) == []
  {
    forall i | 0 <= i < |sent|
      ensures sent[i].setter != s
    {
      assert sent[i].id in subs;
    }
    ReceivedNone(sent, s);
  }

  /**
   * A shard group of two members with setters of their own: between them they
   * are given exactly one payload per send.
   */
  lemma PairGroupReceivesOnce(subs: Registry, appID: string, e: Envelope, payload: Bytes, sent: seq<Delivery>,
                              a: SubId, b: SubId)
    requires IsDispatch(subs, appID, e, payload, sent)
    requires Classify(e).Some?
    requires a != b && OnlyUser(subs, a) && OnlyUser(subs, b)
    requires subs[a].route == subs[b].route && !subs[a].route.IsStream()
    requires Matches(subs[a].route, appID, Classify(e).value)
    requires forall j :: j in subs && subs[j].route == subs[a].route ==> j == a || j == b
    ensures |Received(sent, subs[a].setter)| + |Received(sent, subs[b].setter)| == 1
  {
    GroupServedOnce(subs, appID, e, payload, sent, a);
    var k :| 0 <= k < |sent| && subs[sent[k].id].route == subs[a].route &&
      forall i :: 0 <= i < |sent| && subs[sent[i].id].route == subs[a].route ==> i == k;
    forall i | 0 <= i < |sent| && i != k
      ensures sent[i].setter != subs[a].setter && sent[i].setter != subs[b].setter
    {
      assert sent[i].id != a && sent[i].id != b;
    }
    ReceivedShared(sent, subs[a].setter, subs[b].setter, k);
  }

  /** The only member of a matching shard group is given the payload on every send. */
  lemma SoleMemberReceives(subs: Registry, appID: string, e: Envelope, payload: Bytes, sent: seq<Delivery>, id: SubId)
    requires IsDispatch(subs, appID, e, payload, sent)
    requires Classify(e).Some?
    requires OnlyUser(subs, id) && !subs[id].route.IsStream()
    requires Matches(subs[id].route, appID, Classify(e).value)
    requires forall j :: j in subs && subs[j].route == subs[id].route ==> j == id
    ensures Received(sent, subs[id].setter) == [payload]
  {
    GroupServedOnce(subs, appID, e, payload, sent, id);
    var k :| 0 <= k < |sent| && subs[sent[k].id].route == subs[id].route &&
      forall i :: 0 <= i < |sent| && subs[sent[i].id].route == subs[id].route ==> i == k;
    forall i | 0 <= i < |sent| && i != k
      ensures sent[i].setter != subs[id].setter
    {
      assert sent[i].id != id;
    }
    ReceivedOne(sent, subs[id].setter, k);
  }

  /** A firehose request (a shard id, no filter) matches every app id and every kind. */
  lemma FirehoseMatchesEveryApp(shardID: string, appID: string, k: Kind)
    ensures Matches(RouteOf(SubscriptionRequest(shardID, None)), appID, k)
  {
  }

  /**
   * Cleaning up one stream subscription: its setter is given nothing, and
   * another matching stream of the same app is still given the payload once.
   */
  lemma CleanupKeepsOthers(subs: Registry, appID: string, e: Envelope, payload: Bytes, sent: seq<Delivery>,
                           gone: SubId, kept: SubId)
    requires IsDispatch(subs - {gone}, appID, e, payload, sent)
    requires Classify(e).Some?
    requires gone != kept && OnlyUser(subs, gone) && OnlyUser(subs, kept)
    requires subs[kept].route.IsStream() && Matches(subs[kept].route, appID, Classify(e).value)
    ensures Received(sent, subs[gone].setter) == []
    ensures Received(sent, subs[kept].setter) == [payload]
  {
    var rest := subs - {gone};
    assert Unused(rest, subs[gone].setter);
    UnusedReceivesNothing(rest, appID, e, payload, sent, subs[gone].setter);
    assert OnlyUser(rest, kept);
    StreamReceivesOnce(rest, appID, e, payload, sent, kept);
  }
}
