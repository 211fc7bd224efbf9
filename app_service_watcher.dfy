/**
 * The app-service store watcher as a state machine: it keeps the cache and
 * pushes each announcement onto the add output and each withdrawal onto the
 * remove output, two queues standing in for its channels.
 */
module AppServiceWatcher {
  import opened AppServiceCache

  /** No service appears twice. */
  predicate NoRepeats(xs: seq<AppService>)
  {
    forall i, j :: 0 <= i < j < |xs| ==> xs[i] != xs[j]
  }

  /** A list without repeats is exactly as long as the set it lists. */
  lemma {:induction false} NoRepeatsCount(xs: seq<AppService>)
    requires NoRepeats(xs)
    ensures |Elems(xs)| == |xs|
  {
    if xs != [] {
      var init := xs[..|xs| - 1];
      var last := xs[|xs| - 1];
      assert NoRepeats(init);
      NoRepeatsCount(init);
      assert Elems(xs) == Elems(init) + {last};
      assert last !in Elems(init);
    }
  }

  /** A list without repeats of one service is that service alone. */
  lemma ListsOne(xs: seq<AppService>, s: AppService)
    requires NoRepeats(xs) && Elems(xs) == {s}
    ensures xs == [s]
  {
    NoRepeatsCount(xs);
    assert xs[0] in Elems(xs);
  }

  /** A list without repeats of two services holds them in one order or the other. */
  lemma ListsTwo(xs: seq<AppService>, s: AppService, t: AppService)
    requires NoRepeats(xs) && Elems(xs) == {s, t} && s != t
    ensures xs == [s, t] || xs == [t, s]
  {
    NoRepeatsCount(xs);
    assert xs[0] in Elems(xs) && xs[1] in Elems(xs);
  }

  datatype Output = AddOutput | RemoveOutput

  class AppServiceStoreWatcher {
    var cache: Cache
    /** What has been sent on the add channel and not yet received. */
    var addQueue: seq<AppService>
    /** What has been sent on the remove channel and not yet received. */
    var removeQueue: seq<AppService>

    ghost predicate Valid()
      reads this
    {
      Filed(cache)
    }

    /** `NewAppServiceStoreWatcher` over `NewAppServiceCache()`: an empty cache, empty outputs. */
    constructor ()
      ensures Valid()
      ensures cache == map[] && addQueue == [] && removeQueue == []
    {
      cache := map[];
      addQueue := [];
      removeQueue := [];
    }

    /**
     * Start-up: walk the store's listing and announce every listed service not
     * yet cached, in listing order; nothing is withdrawn.
     */
    method Bootstrap(stored: seq<AppService>)
      requires Valid()
      modifies this
      ensures Valid()
      ensures cache == Load(old(cache), stored).0
      ensures addQueue == old(addQueue) + Load(old(cache), stored).1
      ensures removeQueue == old(removeQueue)
    {
      ghost var c0 := cache;
      ghost var q0 := addQueue;
      for i := 0 to |stored|
        invariant Filed(cache)
        invariant cache == Load(c0, stored[..i]).0
        invariant addQueue == q0 + Load(c0, stored[..i]).1
        invariant removeQueue == old(removeQueue)
      {
        var s := stored[i];
        LoadStep(c0, stored, i);
        if !Cached(cache, s) {
          cache := Add(cache, s);
          addQueue := addQueue + [s];
        }
      }
      assert stored[..|stored|] == stored;
    }

    /**
     * React to one store event: the cache becomes `Next`'s, `adds` (pushed on
     * the add output) lists each announced service once, and `removes` (pushed
     * on the remove output) each withdrawn service once.
     */
    method Handle(e: StoreEvent) returns (adds: seq<AppService>, removes: seq<AppService>)
      requires Valid()
      modifies this
      ensures Valid()
      ensures cache == Next(old(cache), e).cache
      ensures NoRepeats(adds) && Elems(adds) == Next(old(cache), e).adds
      ensures NoRepeats(removes) && Elems(removes) == Next(old(cache), e).removes
      ensures addQueue == old(addQueue) + adds
      ensures removeQueue == old(removeQueue) + removes
    {
      adds, removes := [], [];
      match e {
        case Create(ServiceNode(s)) =>
          if !Cached(cache, s) {
            cache := Add(cache, s);
            adds := [s];
          }
        case Update(ServiceNode(s)) =>
          if !Cached(cache, s) {
            cache := Add(cache, s);
            adds := [s];
          }
        case Create(AppDir(_)) =>
        case Update(AppDir(_)) =>
        case Delete(ServiceNode(s)) =>
          if Cached(cache, s) {
            cache := Remove(cache, s);
            removes := [s];
          }
        case Expire(ServiceNode(s)) =>
          if Cached(cache, s) {
            cache := Remove(cache, s);
            removes := [s];
          }
        case Delete(AppDir(a)) =>
          removes := RemoveApp(a);
        case Expire(AppDir(a)) =>
          removes := RemoveApp(a);
      }
      addQueue := addQueue + adds;
      removeQueue := removeQueue + removes;
    }

    /** Drop an app from the cache and list its services, each once, in some order. */
    method RemoveApp(a: string) returns (removed: seq<AppService>)
      requires Valid()
      modifies this`cache
      ensures Valid()
      ensures cache == old(cache) - {a}
      ensures NoRepeats(removed)
      ensures Elems(removed) == if a in old(cache) then old(cache)[a] else {}
    {
      var rest := if a in cache then cache[a] else {};
      removed := [];
      while rest != {}
        invariant NoRepeats(removed)
        invariant Elems(removed) !! rest
        invariant Elems(removed) + rest == if a in cache then cache[a] else {}
        decreases rest
      {
        var s :| s in rest;
        removed := removed + [s];
        rest := rest - {s};
      }
      cache := cache - {a};
    }

    /**
     * `drainOutgoingChannel`: receive `count` services from one output, in the
     * order they were sent. When fewer are waiting, receive all of them and
     * report the shortfall.
     */
    method Drain(output: Output, count: nat) returns (received: seq<AppService>, ok: bool)
      modifies this`addQueue, this`removeQueue
      ensures var before := if output == AddOutput then old(addQueue) else old(removeQueue);
              var after := if output == AddOutput then addQueue else removeQueue;
              && ok == (count <= |before|)
              && received == before[..if ok then count else |before|]
              && after == before[|received|..]
      ensures output == AddOutput ==> removeQueue == old(removeQueue)
      ensures output == RemoveOutput ==> addQueue == old(addQueue)
    {
      received := [];
      ok := true;
      var i := 0;
      while i < count
        invariant 0 <= i <= count
        invariant |received| == i
        invariant output == AddOutput ==> old(addQueue) == received + addQueue && removeQueue == old(removeQueue)
        invariant output == RemoveOutput ==> old(removeQueue) == received + removeQueue && addQueue == old(addQueue)
        invariant !ok ==> i < count && (if output == AddOutput then addQueue else removeQueue) == []
      {
        if output == AddOutput {
          if addQueue == [] {
            ok := false;
            break;
          }
          received := received + [addQueue[0]];
          addQueue := addQueue[1..];
        } else {
          if removeQueue == [] {
            ok := false;
            break;
          }
          received := received + [removeQueue[0]];
          removeQueue := removeQueue[1..];
        }
        i := i + 1;
      }
    }
  }
}
