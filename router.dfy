/**
 * The v1 gRPC router of the Doppler node: a registry of subscriptions and the
 * rule that decides, for each envelope, which registered data setters receive
 * its marshalled bytes.
 */
module Routing {
  import opened Wrappers
  import opened Envelopes

  /** A data setter: the sink a subscription writes to. It records every payload it is given. */
  class DataSetter {
    var setInput: seq<Bytes>

    constructor ()
      ensures setInput == []
    {
      setInput := [];
    }

    /** Accept one payload. */
    method Set(data: Bytes)
      modifies this
      ensures setInput == old(setInput) + [data]
    {
      setInput := setInput + [data];
    }
  }

  /** The identity of one successful registration; it doubles as the cleanup handle. */
  type SubId = nat

  datatype Subscription = Subscription(route: Route, setter: DataSetter)

  /** One call of `Set` made by a send: which subscription, which setter, which bytes. */
  datatype Delivery = Delivery(id: SubId, setter: DataSetter, data: Bytes)

  type Registry = map<SubId, Subscription>

  /** The setters written to by the subscriptions of a registry. */
  function SettersOf(subs: Registry): set<DataSetter>
  {
    set id | id in subs :: subs[id].setter
  }

  /** The ids of a sequence of deliveries. */
  function Ids(sent: seq<Delivery>): set<SubId>
  {
    set i | 0 <= i < |sent| :: sent[i].id
  }

  lemma IdsSnoc(sent: seq<Delivery>, d: Delivery)
    ensures Ids(sent + [d]) == Ids(sent) + {d.id}
  {
    var sent' := sent + [d];
    forall x | x in Ids(sent') ensures x in Ids(sent) + {d.id} {
      var i :| 0 <= i < |sent'| && sent'[i].id == x;
      if i < |sent| { assert sent[i].id == x; }
    }
    forall x | x in Ids(sent) ensures x in Ids(sent') {
      var i :| 0 <= i < |sent| && sent[i].id == x;
      assert sent'[i].id == x;
    }
    assert sent'[|sent|].id == d.id;
  }

  /** The payloads a setter was given by `sent`, in order. */
  function Received(sent: seq<Delivery>, s: DataSetter): seq<Bytes>
  {
    if sent == [] then []
    else
      var last := sent[|sent| - 1];
      Received(sent[..|sent| - 1], s) + (if last.setter == s then [last.data] else [])
  }

  lemma ReceivedSnoc(sent: seq<Delivery>, d: Delivery)
    ensures forall s :: Received(sent + [d], s) == Received(sent, s) + (if d.setter == s then [d.data] else [])
  {
    assert (sent + [d])[..|sent|] == sent;
  }

  /** The shard groups that have a member wanting an envelope of kind `k` sent to `appID`. */
  ghost function MatchingGroups(subs: Registry, appID: string, k: Kind): set<Route>
  {
    set id | id in subs && !subs[id].route.IsStream() && Matches(subs[id].route, appID, k) :: subs[id].route
  }

  /**
   * What one send to `appID` of an envelope whose marshalled form is `payload`
   * may deliver when the registry is `subs`: nothing for an envelope without an
   * event type; otherwise each delivery goes to a matching subscription's own
   * setter with the payload, no subscription twice, every matching stream
   * subscription receives it, and every shard group with a matching member
   * receives it through exactly one of its members.
   */
  ghost predicate IsDispatch(subs: Registry, appID: string, e: Envelope, payload: Bytes, sent: seq<Delivery>)
  {
    match Classify(e)
    case None => sent == []
    case Some(k) =>
      && (forall i :: 0 <= i < |sent| ==> Sound(subs, appID, k, payload, sent[i]))
      && (forall i, j :: 0 <= i < j < |sent| ==> sent[i].id != sent[j].id)
      && (forall id :: id in subs && subs[id].route.IsStream() && Matches(subs[id].route, appID, k) ==>
            id in Ids(sent))
      && (forall r :: r in MatchingGroups(subs, appID, k) ==>
            exists i :: 0 <= i < |sent| && subs[sent[i].id].route == r)
      && (forall i, j :: 0 <= i < j < |sent| && !subs[sent[i].id].route.IsStream() ==>
            subs[sent[i].id].route != subs[sent[j].id].route)
  }

  /** A delivery that `IsDispatch` allows for an envelope of kind `k`. */
  ghost predicate Sound(subs: Registry, appID: string, k: Kind, payload: Bytes, d: Delivery)
  {
    && d.id in subs
    && d.setter == subs[d.id].setter
    && d.data == payload
    && Matches(subs[d.id].route, appID, k)
  }

  /**
   * The state of a matching pass that has looked at every subscription of
   * `subs` except `pending` and has served the shard groups in `served`.
   */
  ghost predicate Progress(subs: Registry, appID: string, k: Kind, payload: Bytes,
                           pending: set<SubId>, served: set<Route>, sent: seq<Delivery>)
  {
    && pending <= subs.Keys
    && (forall i :: 0 <= i < |sent| ==> Sound(subs, appID, k, payload, sent[i]))
    && (forall i, j :: 0 <= i < j < |sent| ==> sent[i].id != sent[j].id)
    && (forall i :: 0 <= i < |sent| && subs[sent[i].id].route.IsStream() ==> sent[i].id !in pending)
    && (forall id ::
          (id in subs && id !in pending && subs[id].route.IsStream() && Matches(subs[id].route, appID, k))
          ==> id in Ids(sent))
    && (forall i :: 0 <= i < |sent| && !subs[sent[i].id].route.IsStream() ==> subs[sent[i].id].route in served)
    && (forall r :: r in served ==> exists i :: 0 <= i < |sent| && subs[sent[i].id].route == r)
    && (forall id ::
          (id in subs && id !in pending && !subs[id].route.IsStream() && Matches(subs[id].route, appID, k))
          ==> subs[id].route in served)
    && (forall i, j :: 0 <= i < j < |sent| && !subs[sent[i].id].route.IsStream() ==>
          subs[sent[i].id].route != subs[sent[j].id].route)
  }

  lemma ProgressInit(subs: Registry, appID: string, k: Kind, payload: Bytes)
    ensures Progress(subs, appID, k, payload, subs.Keys, {}, [])
  {
  }

  /** Serving a matching stream subscription. */
  lemma ProgressStream(subs: Registry, appID: string, k: Kind, payload: Bytes,
                       pending: set<SubId>, served: set<Route>, sent: seq<Delivery>, id: SubId)
    requires Progress(subs, appID, k, payload, pending, served, sent)
    requires id in pending && subs[id].route.IsStream() && Matches(subs[id].route, appID, k)
    ensures Progress(subs, appID, k, payload, pending - {id}, served,
                     sent + [Delivery(id, subs[id].setter, payload)])
  {
    var sent' := sent + [Delivery(id, subs[id].setter, payload)];
    assert forall i :: 0 <= i < |sent| ==> sent'[i] == sent[i];
    IdsSnoc(sent, Delivery(id, subs[id].setter, payload));
  }

  /** Serving the first matching member met of a shard group, through member `pick`. */
  lemma ProgressGroup(subs: Registry, appID: string, k: Kind, payload: Bytes,
                      pending: set<SubId>, served: set<Route>, sent: seq<Delivery>, id: SubId, pick: SubId)
    requires Progress(subs, appID, k, payload, pending, served, sent)
    requires id in pending && !subs[id].route.IsStream() && Matches(subs[id].route, appID, k)
    requires subs[id].route !in served
    requires pick in subs && subs[pick].route == subs[id].route
    ensures Progress(subs, appID, k, payload, pending - {id}, served + {subs[id].route},
                     sent + [Delivery(pick, subs[pick].setter, payload)])
  {
    var sent' := sent + [Delivery(pick, subs[pick].setter, payload)];
    assert forall i :: 0 <= i < |sent| ==> sent'[i] == sent[i];
    IdsSnoc(sent, Delivery(pick, subs[pick].setter, payload));
    assert subs[sent'[|sent|].id].route == subs[id].route;
  }

  /** Passing over a subscription that does not match, or whose group is already served. */
  lemma ProgressSkip(subs: Registry, appID: string, k: Kind, payload: Bytes,
                     pending: set<SubId>, served: set<Route>, sent: seq<Delivery>, id: SubId)
    requires Progress(subs, appID, k, payload, pending, served, sent)
    requires id in pending
    requires !Matches(subs[id].route, appID, k) || (!subs[id].route.IsStream() && subs[id].route in served)
    ensures Progress(subs, appID, k, payload, pending - {id}, served, sent)
  {
  }

  /** A finished pass is a dispatch. */
  lemma ProgressDone(subs: Registry, appID: string, e: Envelope, payload: Bytes,
                     served: set<Route>, sent: seq<Delivery>)
    requires Classify(e).Some?
    requires Progress(subs, appID, Classify(e).value, payload, {}, served, sent)
    ensures IsDispatch(subs, appID, e, payload, sent)
  {
  }

  /** Give one delivery to its setter, keeping every setter's record in step with `sent + [d]`. */
  method Hand(d: Delivery, ghost sent: seq<Delivery>, ghost setters: set<DataSetter>,
              ghost before: map<DataSetter, seq<Bytes>>)
    requires d.setter in setters && setters <= before.Keys
    requires forall s :: s in setters ==> s.setInput == before[s] + Received(sent, s)
    modifies d.setter
    ensures forall s :: s in setters ==> s.setInput == before[s] + Received(sent + [d], s)
  {
    d.setter.Set(d.data);
    ReceivedSnoc(sent, d);
  }

  class Router {
    var subscriptions: Registry
    var nextId: SubId

    /** Every live id was handed out before, so a fresh id is never a live one. */
    ghost predicate Valid()
      reads this
    {
      forall id :: id in subscriptions ==> id < nextId
    }

    /** The setters of the live subscriptions. */
    function Setters(): set<DataSetter>
      reads this
    {
      SettersOf(subscriptions)
    }

    /** `NewRouter`: an empty registry. */
    constructor ()
      ensures Valid()
      ensures subscriptions == map[] && nextId == 0
    {
      subscriptions := map[];
      nextId := 0;
    }

    /**
     * `Register(req, setter)`: add a subscription for `setter` under the
     * request's route; the returned handle undoes exactly this registration.
     */
    method Register(req: SubscriptionRequest, setter: DataSetter) returns (handle: SubId)
      requires Valid()
      modifies this
      ensures Valid()
      ensures handle !in old(subscriptions)
      ensures handle == old(nextId) && nextId == old(nextId) + 1
      ensures subscriptions == old(subscriptions)[handle := Subscription(RouteOf(req), setter)]
    {
      handle := nextId;
      subscriptions := subscriptions[handle := Subscription(RouteOf(req), setter)];
      nextId := nextId + 1;
    }

    /**
     * The cleanup returned by `Register`: remove that one subscription. Running
     * it again, or after the id is gone, changes nothing.
     */
    method Cleanup(handle: SubId)
      requires Valid()
      modifies this
      ensures Valid()
      ensures subscriptions == old(subscriptions) - {handle}
      ensures handle !in old(subscriptions) ==> subscriptions == old(subscriptions)
      ensures nextId == old(nextId)
    {
      subscriptions := subscriptions - {handle};
    }

    /**
     * `SendTo(appID, e)`: deliver the envelope's marshalled bytes to every
     * matching stream and to one member, picked arbitrarily, of every matching
     * shard group. Each setter's record grows by exactly what `sent` gives it.
     */
    method SendTo(appID: string, e: Envelope, marshal: Envelope -> Bytes) returns (sent: seq<Delivery>)
      modifies Setters()
      ensures IsDispatch(subscriptions, appID, e, marshal(e), sent)
      ensures forall s :: s in Setters() ==> s.setInput == old(s.setInput) + Received(sent, s)
    {
      sent := [];
      var kind := Classify(e);
      if kind.None? {
        return;
      }
      var k := kind.value;
      var payload := marshal(e);
      var subs := subscriptions;
      ghost var setters := Setters();
      ghost var before := map s | s in setters :: s.setInput;
      var pending := subs.Keys;
      var served: set<Route> := {};
      ProgressInit(subs, appID, k, payload);
      while pending != {}
        invariant Progress(subs, appID, k, payload, pending, served, sent)
        invariant forall s :: s in setters ==> s.setInput == before[s] + Received(sent, s)
        decreases pending
      {
        var id :| id in pending;
        var sub := subs[id];
        if Matches(sub.route, appID, k) && sub.route.IsStream() {
          var d := Delivery(id, sub.setter, payload);
          ProgressStream(subs, appID, k, payload, pending, served, sent, id);
          Hand(d, sent, setters, before);
          sent := sent + [d];
        } else if Matches(sub.route, appID, k) && sub.route !in served {
          var members := set j | j in subs && subs[j].route == sub.route;
          assert id in members;
          var pick :| pick in members;
          var d := Delivery(pick, subs[pick].setter, payload);
          ProgressGroup(subs, appID, k, payload, pending, served, sent, id, pick);
          Hand(d, sent, setters, before);
          sent := sent + [d];
          served := served + {sub.route};
        } else {
          ProgressSkip(subs, appID, k, payload, pending, served, sent, id);
        }
        pending := pending - {id};
      }
      ProgressDone(subs, appID, e, payload, served, sent);
    }
  }
}
