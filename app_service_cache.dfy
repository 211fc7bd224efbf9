/**
 * The diff rule of the app-service store watcher: a cache of the syslog drain
 * services known per app, and for each store event the services it announces
 * on the add output and withdraws on the remove output.
 */
module AppServiceCache {

  /** A drain service of an app, identified by its app id and its drain URL. */
  datatype AppService = AppService(appId: string, url: string)

  /** App id to the services cached for that app. */
  type Cache = map<string, set<AppService>>

  /** Every service is filed under its own app id. */
  predicate Filed(c: Cache)
  {
    forall a :: a in c ==> forall s :: s in c[a] ==> s.appId == a
  }

  predicate Cached(c: Cache, s: AppService)
  {
    s.appId in c && s in c[s.appId]
  }

  /** All cached services. */
  ghost function Services(c: Cache): set<AppService>
  {
    set a, s | a in c && s in c[a] :: s
  }

  /** The services a sequence lists. */
  function Elems(xs: seq<AppService>): set<AppService>
  {
    set x | x in xs
  }

  /** A store node an event is about: one service key, or an app's directory. */
  datatype Node = ServiceNode(service: AppService) | AppDir(appId: string)

  /** A watch event of the store: a key created, set, deleted, or expired by its TTL. */
  datatype StoreEvent = Create(node: Node) | Update(node: Node) | Delete(node: Node) | Expire(node: Node)

  /** The cache after an event and the services announced and withdrawn. */
  datatype Effect = Effect(cache: Cache, adds: set<AppService>, removes: set<AppService>)

  function Add(c: Cache, s: AppService): (r: Cache)
    requires Filed(c)
    ensures Filed(r)
    ensures forall x :: Cached(r, x) <==> Cached(c, x) || x == s
  {
    c[s.appId := (if s.appId in c then c[s.appId] else {}) + {s}]
  }

  function Remove(c: Cache, s: AppService): (r: Cache)
    requires Filed(c) && Cached(c, s)
    ensures Filed(r)
    ensures forall x :: Cached(r, x) <==> Cached(c, x) && x != s
  {
    c[s.appId := c[s.appId] - {s}]
  }

  /** The effect of a create or set: a service not yet cached is cached and announced. */
  function Announce(c: Cache, n: Node): Effect
    requires Filed(c)
  {
    match n
    case AppDir(_) => Effect(c, {}, {})
    case ServiceNode(s) => if Cached(c, s) then Effect(c, {}, {}) else Effect(Add(c, s), {s}, {})
  }

  /**
   * The effect of a delete or expiry: a cached service is dropped and
   * withdrawn; an app directory takes every cached service of the app with it.
   */
  function Withdraw(c: Cache, n: Node): Effect
    requires Filed(c)
  {
    match n
    case AppDir(a) => if a in c then Effect(c - {a}, {}, c[a]) else Effect(c, {}, {})
    case ServiceNode(s) => if Cached(c, s) then Effect(Remove(c, s), {}, {s}) else Effect(c, {}, {})
  }

  /**
   * The watcher's reaction to one event. Announced are exactly the services
   * that became cached, withdrawn exactly those that stopped being cached.
   */
  function Next(c: Cache, e: StoreEvent): (r: Effect)
    requires Filed(c)
    ensures Filed(r.cache)
    ensures forall s :: s in r.adds <==> Cached(r.cache, s) && !Cached(c, s)
    ensures forall s :: s in r.removes <==> Cached(c, s) && !Cached(r.cache, s)
  {
    match e
    case Create(n) => Announce(c, n)
    case Update(n) => Announce(c, n)
    case Delete(n) => Withdraw(c, n)
    case Expire(n) => Withdraw(c, n)
  }

  lemma CachedIsService(c: Cache, s: AppService)
    requires Filed(c)
    ensures s in Services(c) <==> Cached(c, s)
  {
    if s in Services(c) {
      var a :| a in c && s in c[a];
    }
  }

  /**
   * Someone who applies each event's withdrawals and then its announcements to
   * the services they knew holds exactly the cache's services afterwards.
   */
  lemma NotificationsTrackCache(c: Cache, e: StoreEvent)
    requires Filed(c)
    ensures Services(Next(c, e).cache) == (Services(c) - Next(c, e).removes) + Next(c, e).adds
  {
    var r := Next(c, e);
    forall s ensures s in Services(r.cache) <==> s in (Services(c) - r.removes) + r.adds {
      CachedIsService(c, s);
      CachedIsService(r.cache, s);
    }
  }

  /** The cache after a run of events. */
  function Replay(c: Cache, es: seq<StoreEvent>): (r: Cache)
    requires Filed(c)
    ensures Filed(r)
    decreases |es|
  {
    if es == [] then c else Replay(Next(c, es[0]).cache, es[1..])
  }

  /** What a consumer of both outputs knows after a run of events, starting from `view`. */
  function Follow(view: set<AppService>, c: Cache, es: seq<StoreEvent>): set<AppService>
    requires Filed(c)
    decreases |es|
  {
    if es == [] then view
    else
      var r := Next(c, es[0]);
      Follow((view - r.removes) + r.adds, r.cache, es[1..])
  }

  /** A consumer that starts in step with the cache stays in step through any run of events. */
  lemma {:induction false} FollowTracksReplay(view: set<AppService>, c: Cache, es: seq<StoreEvent>)
    requires Filed(c) && view == Services(c)
    ensures Follow(view, c, es) == Services(Replay(c, es))
    decreases |es|
  {
    if es != [] {
      NotificationsTrackCache(c, es[0]);
      FollowTracksReplay((view - Next(c, es[0]).removes) + Next(c, es[0]).adds, Next(c, es[0]).cache, es[1..]);
    }
  }

  /**
   * Loading the store's listing at start-up: each listed service is cached and
   * announced unless already cached, in listing order.
   */
  function Load(c: Cache, stored: seq<AppService>): (r: (Cache, seq<AppService>))
    requires Filed(c)
    ensures Filed(r.0)
    ensures forall x :: Cached(r.0, x) <==> Cached(c, x) || x in stored
  {
    if stored == [] then (c, [])
    else
      var (c', announced) := Load(c, stored[..|stored| - 1]);
      var last := stored[|stored| - 1];
      var eff := Next(c', Create(ServiceNode(last)));
      assert stored == stored[..|stored| - 1] + [last];
      (eff.cache, announced + (if last in eff.adds then [last] else []))
  }

  /** Loading one more listed service. */
  lemma LoadStep(c: Cache, stored: seq<AppService>, i: nat)
    requires Filed(c) && i < |stored|
    ensures var (c', announced) := Load(c, stored[..i]);
            var s := stored[i];
            Load(c, stored[..i + 1]) ==
              if Cached(c', s) then (c', announced) else (Add(c', s), announced + [s])
  {
    var prefix := stored[..i + 1];
    assert prefix != [] && prefix[..|prefix| - 1] == stored[..i] && prefix[|prefix| - 1] == stored[i];
    var c' := Load(c, stored[..i]).0;
    var announced := Load(c, stored[..i]).1;
    var eff := Next(c', Create(ServiceNode(stored[i])));
    assert eff == Announce(c', ServiceNode(stored[i]));
    assert Load(c, prefix) == (eff.cache, announced + (if stored[i] in eff.adds then [stored[i]] else []));
    if Cached(c', stored[i]) {
      assert eff.cache == c' && eff.adds == {};
      assert announced + [] == announced;
    } else {
      assert eff.cache == Add(c', stored[i]) && eff.adds == {stored[i]};
    }
  }

  /** Starting from an empty cache, a listing without repeats is announced in full and in order. */
  lemma {:induction false} LoadAnnouncesAll(stored: seq<AppService>)
    requires forall i, j :: 0 <= i < j < |stored| ==> stored[i] != stored[j]
    ensures Load(map[], stored).1 == stored
  {
    var c: Cache := map[];
    if stored != [] {
      var init := stored[..|stored| - 1];
      var last := stored[|stored| - 1];
      LoadAnnouncesAll(init);
      assert last !in init by {
        forall i | 0 <= i < |init| ensures init[i] != last {
          assert init[i] == stored[i];
        }
      }
      assert !Cached(Load(c, init).0, last);
    }
  }

  /**
   * Starting from an empty cache, a listing without repeats is announced in
   * full and in order, and the cache then holds exactly the listed services.
   */
  lemma LoadFromEmpty(stored: seq<AppService>)
    requires forall i, j :: 0 <= i < j < |stored| ==> stored[i] != stored[j]
    ensures Load(map[], stored).1 == stored
    ensures Services(Load(map[], stored).0) == Elems(stored)
  {
    LoadAnnouncesAll(stored);
    var c := Load(map[], stored).0;
    forall s ensures s in Services(c) <==> s in Elems(stored) {
      CachedIsService(c, s);
    }
  }

  /** Creating or setting a service that is already cached changes nothing and announces nothing. */
  lemma KnownServiceIgnored(c: Cache, s: AppService)
    requires Filed(c) && Cached(c, s)
    ensures Next(c, Create(ServiceNode(s))) == Effect(c, {}, {})
    ensures Next(c, Update(ServiceNode(s))) == Effect(c, {}, {})
  {
  }

  /** A second identical create or set is a no-op: the operation is idempotent. */
  lemma AnnounceIdempotent(c: Cache, n: Node)
    requires Filed(c)
    ensures Next(Next(c, Create(n)).cache, Create(n)) == Effect(Next(c, Create(n)).cache, {}, {})
    ensures Next(Next(c, Update(n)).cache, Update(n)) == Effect(Next(c, Update(n)).cache, {}, {})
  {
  }

  /** A service not yet cached, created or set, is announced once and nothing is withdrawn. */
  lemma NewServiceAnnounced(c: Cache, s: AppService)
    requires Filed(c) && !Cached(c, s)
    ensures Next(c, Create(ServiceNode(s))).adds == {s} && Next(c, Create(ServiceNode(s))).removes == {}
    ensures Next(c, Update(ServiceNode(s))).adds == {s} && Next(c, Update(ServiceNode(s))).removes == {}
  {
  }

  /** The services of an app never seen before are announced, exactly those, and nothing is withdrawn. */
  lemma NewAppAnnounced(c: Cache, s1: AppService, s2: AppService)
    requires Filed(c) && s1.appId !in c && s2.appId == s1.appId && s1 != s2
    ensures var r1 := Next(c, Create(ServiceNode(s1)));
            var r2 := Next(r1.cache, Create(ServiceNode(s2)));
            r1.adds + r2.adds == {s1, s2} && r1.removes == {} && r2.removes == {}
  {
  }

  /** Deleting one service key withdraws exactly that service and announces nothing. */
  lemma DeletedServiceWithdrawn(c: Cache, s: AppService)
    requires Filed(c) && Cached(c, s)
    ensures Next(c, Delete(ServiceNode(s))) == Effect(Remove(c, s), {}, {s})
  {
  }

  /**
   * Deleting or expiring an app's directory withdraws every cached service of
   * that app, announces nothing, and leaves none of them cached, so creating one
   * of them again announces it again.
   */
  lemma AppDirWithdrawn(c: Cache, a: string, s: AppService)
    requires Filed(c) && s.appId == a
    ensures Next(c, Expire(AppDir(a))) == Next(c, Delete(AppDir(a)))
    ensures var r := Next(c, Delete(AppDir(a)));
            && r.adds == {}
            && (forall x :: x in r.removes <==> Cached(c, x) && x.appId == a)
            && Next(r.cache, Create(ServiceNode(s))).adds == {s}
  {
    var r := Next(c, Delete(AppDir(a)));
    assert !Cached(r.cache, s);
  }

  /**
   * Delete, create, delete on the services of one app: a withdrawal, then an
   * announcement, then a withdrawal, each with the other output left empty.
   */
  lemma DeleteCreateDelete(c: Cache, s1: AppService, s2: AppService)
    requires Filed(c) && Cached(c, s1) && Cached(c, s2) && s1 != s2
    ensures var r1 := Next(c, Delete(ServiceNode(s2)));
            var r2 := Next(r1.cache, Create(ServiceNode(s2)));
            var r3 := Next(r2.cache, Delete(ServiceNode(s1)));
            && r1.removes == {s2} && r1.adds == {}
            && r2.adds == {s2} && r2.removes == {}
            && r3.removes == {s1} && r3.adds == {}
  {
  }
}
