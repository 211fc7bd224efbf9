/**
 * The store watcher's test scenarios replayed against the model: what each
 * output carries after start-up and after a run of store events.
 */
module WatcherScenarios {
  import opened AppServiceCache
  import opened AppServiceWatcher

  const App1Service1: AppService := AppService("app-1", "syslog://example.com:12345")
  const App1Service2: AppService := AppService("app-1", "syslog://example.com:12346")
  const App2Service1: AppService := AppService("app-2", "syslog://example.com:12345")

  /** A watcher started over a store holding the three services, with the start-up announcements drained. */
  method Bootstrapped() returns (w: AppServiceStoreWatcher)
    ensures fresh(w) && w.Valid()
    ensures w.addQueue == [] && w.removeQueue == []
    ensures forall s :: Cached(w.cache, s) <==> s in {App1Service1, App1Service2, App2Service1}
  {
    w := new AppServiceStoreWatcher();
    w.Bootstrap([App1Service1, App1Service2, App2Service1]);
    LoadFromEmpty([App1Service1, App1Service2, App2Service1]);
    var received, ok := w.Drain(AddOutput, 3);
  }

  /** Start-up over an empty store sends nothing on either output. */
  method EmptyStoreSendsNothing() returns (added: seq<AppService>, removed: seq<AppService>)
    ensures added == [] && removed == []
  {
    var w := new AppServiceStoreWatcher();
    w.Bootstrap([]);
    added, removed := w.addQueue, w.removeQueue;
  }

  /** Start-up over a populated store sends every stored service on the add output and nothing on the remove output. */
  method StartupAnnouncesStore() returns (received: seq<AppService>, ok: bool, removed: seq<AppService>)
    ensures ok && received == [App1Service1, App1Service2, App2Service1] && removed == []
  {
    var w := new AppServiceStoreWatcher();
    w.Bootstrap([App1Service1, App1Service2, App2Service1]);
    LoadFromEmpty([App1Service1, App1Service2, App2Service1]);
    received, ok := w.Drain(AddOutput, 3);
    removed := w.removeQueue;
  }

  /**
   * Deleting app-1's second service, creating it again, then deleting the
   * first: remove, add, remove, each time with the other output empty.
   */
  method UpdatesInOrder()
    returns (adds1: seq<AppService>, removes1: seq<AppService>,
             adds2: seq<AppService>, removes2: seq<AppService>,
             adds3: seq<AppService>, removes3: seq<AppService>)
    ensures adds1 == [] && removes1 == [App1Service2]
    ensures adds2 == [App1Service2] && removes2 == []
    ensures adds3 == [] && removes3 == [App1Service1]
  {
    var w := Bootstrapped();
    DeleteCreateDelete(w.cache, App1Service1, App1Service2);
    adds1, removes1 := w.Handle(Delete(ServiceNode(App1Service2)));
    ListsOne(removes1, App1Service2);
    adds2, removes2 := w.Handle(Create(ServiceNode(App1Service2)));
    ListsOne(adds2, App1Service2);
    adds3, removes3 := w.Handle(Delete(ServiceNode(App1Service1)));
    ListsOne(removes3, App1Service1);
    NoRepeatsCount(adds1);
    NoRepeatsCount(removes2);
    NoRepeatsCount(adds3);
  }

  /**
   * Deleting app-1's directory withdraws both of its services and announces
   * nothing; creating them again announces both and withdraws nothing.
   */
  method AppDirectoryDeleted()
    returns (removed: seq<AppService>, added: seq<AppService>,
             readded: seq<AppService>, removedAfter: seq<AppService>)
    ensures removed == [App1Service1, App1Service2] || removed == [App1Service2, App1Service1]
    ensures added == [] && readded == [App1Service1, App1Service2] && removedAfter == []
  {
    var w := Bootstrapped();
    ghost var c := w.cache;
    AppDirWithdrawn(c, "app-1", App1Service1);
    added, removed := w.Handle(Delete(AppDir("app-1")));
    NoRepeatsCount(added);
    assert Elems(removed) == {App1Service1, App1Service2};
    ListsTwo(removed, App1Service1, App1Service2);
    var adds1, removes1 := w.Handle(Create(ServiceNode(App1Service1)));
    ListsOne(adds1, App1Service1);
    NoRepeatsCount(removes1);
    var adds2, removes2 := w.Handle(Create(ServiceNode(App1Service2)));
    ListsOne(adds2, App1Service2);
    NoRepeatsCount(removes2);
    readded, removedAfter := adds1 + adds2, removes1 + removes2;
  }

  /** Creating or updating keys already processed sends nothing on either output. */
  method AlreadyProcessedIgnored()
    returns (adds: seq<AppService>, removes: seq<AppService>)
    ensures adds == [] && removes == []
  {
    var w := Bootstrapped();
    var adds1, removes1 := w.Handle(Create(ServiceNode(App1Service1)));
    var adds2, removes2 := w.Handle(Create(ServiceNode(App1Service2)));
    var adds3, removes3 := w.Handle(Update(ServiceNode(App2Service1)));
    adds, removes := w.addQueue, w.removeQueue;
    NoRepeatsCount(adds1);
    NoRepeatsCount(adds2);
    NoRepeatsCount(adds3);
    NoRepeatsCount(removes1);
    NoRepeatsCount(removes2);
    NoRepeatsCount(removes3);
  }

  /** A new service of a known app, by a create or by an update, is sent on the add output alone. */
  method NewServiceAdded(viaUpdate: bool)
    returns (adds: seq<AppService>, removes: seq<AppService>)
    ensures adds == [AppService("app-2", "syslog://new.example.com:12345")] && removes == []
  {
    var w := Bootstrapped();
    var s := AppService("app-2", "syslog://new.example.com:12345");
    if viaUpdate {
      adds, removes := w.Handle(Update(ServiceNode(s)));
    } else {
      adds, removes := w.Handle(Create(ServiceNode(s)));
    }
    ListsOne(adds, s);
    NoRepeatsCount(removes);
  }

  /** Both services of an app not seen before are sent on the add output, nothing on the remove output. */
  method NewAppAdded() returns (adds: seq<AppService>, removes: seq<AppService>)
    ensures adds == [AppService("app-3", "syslog://app3.example.com:12345"),
                     AppService("app-3", "syslog://app3.example.com:12346")]
    ensures removes == []
  {
    var w := Bootstrapped();
    var s1 := AppService("app-3", "syslog://app3.example.com:12345");
    var s2 := AppService("app-3", "syslog://app3.example.com:12346");
    var adds1, removes1 := w.Handle(Create(ServiceNode(s1)));
    ListsOne(adds1, s1);
    var adds2, removes2 := w.Handle(Create(ServiceNode(s2)));
    ListsOne(adds2, s2);
    NoRepeatsCount(removes1);
    NoRepeatsCount(removes2);
    adds, removes := adds1 + adds2, removes1 + removes2;
  }

  /**
   * A service added to app-2, then app-2's directory expiring: the new service
   * is announced, then both of app-2's services are withdrawn, and creating the
   * new one again announces it again.
   */
  method AppServiceExpires()
    returns (added: seq<AppService>, removed: seq<AppService>, readded: seq<AppService>)
    ensures added == [AppService("app-2", "syslog://foo/a")]
    ensures removed == [App2Service1, AppService("app-2", "syslog://foo/a")]
         || removed == [AppService("app-2", "syslog://foo/a"), App2Service1]
    ensures readded == [AppService("app-2", "syslog://foo/a")]
  {
    var w := Bootstrapped();
    var s := AppService("app-2", "syslog://foo/a");
    var none1, none2, none3;
    added, none1 := w.Handle(Create(ServiceNode(s)));
    ListsOne(added, s);
    ghost var c := w.cache;
    AppDirWithdrawn(c, "app-2", s);
    none2, removed := w.Handle(Expire(AppDir("app-2")));
    assert Elems(removed) == {App2Service1, s};
    ListsTwo(removed, App2Service1, s);
    readded, none3 := w.Handle(Create(ServiceNode(s)));
    ListsOne(readded, s);
  }
}
