# Doppler routing and app-service watching, modelled in Dafny

This project models two pieces of Loggregator's Doppler.

**The v1 Router** (`doppler/internal/grpcmanager/v1`) is a subscription registry plus a dispatch rule applied to every envelope.
- `Register(request, setter)` inserts a subscription and hands back a way to remove it.
- `SendTo(appID, envelope)` first classifies the envelope.
  - An envelope with no event type is dropped.
  - Otherwise the envelope's marshalled bytes go to every matching app stream, once each.
  - They also go to exactly one member of every matching firehose shard group. That member is picked at random, whatever the app id.
- A stream may be narrowed to log messages by a log filter.

The model:
- `Routing.Router` is a class holding a map from subscription id to subscription.
- A setter (`Routing.DataSetter`) records every payload it is given, like the test's mock `SetInput`.
- `SendTo` walks the registry and delivers through `Set`.
  - It also returns the list of deliveries it made.
  - Its contract ties that list to the dispatch rule `IsDispatch`, and the setters' new logs to that list.
- The random pick is a nondeterministic choice among the group's members. So "exactly one member per group" holds for every possible pick.

**The app-service store watcher** (`doppler/store/v1`) keeps a cache: app id → set of services, each service a drain URL of that app. It turns store events into notifications on two outputs:
- an add output for services it had not cached before;
- a remove output for cached services that disappeared.

Which events have which effect:
- Start-up announces everything already in the store.
- Creating or setting a service key that is already cached announces nothing.
- Deleting a service key withdraws that service.
- Deleting or expiring an app directory withdraws every cached service of that app.
- A re-created service is announced again.

The model has two layers:
- The diff is a pure function `AppServiceCache.Next` from a cache and an event to a new cache and the sets announced and withdrawn.
- `AppServiceWatcher.AppServiceStoreWatcher` is a class with the cache and two queues standing in for the channels. Its methods are proved against that function.
- `Drain` models the test helper `drainOutgoingChannel`.
- `StorePaths` models the `key` helper and the key layout `/loggregator/services/<app>/<service>`.

Every test of both suites, except the three listed under "## Left out" (the race test, the watch-again test and the shutdown test), is replayed as a scenario method (`RouterScenarios`, `WatcherScenarios`). The method's `ensures` states what the test expects to see.

## Model

| member | source | states |
|---|---|---|
| Envelopes.Classify | src/doppler/internal/grpcmanager/v1/router_test.go:46-54 | an envelope is unclassified exactly when it has no event type; it is a log exactly when its event type is LogMessage |
| Envelopes.RouteOf | src/doppler/internal/grpcmanager/v1/router_test.go:73-110 | a request with a shard id and no filter is a firehose member for every app; a filtered request is a stream of its filter's app; a log filter restricts it to logs, no message filter leaves every kind |
| Envelopes.RequestMatches | src/doppler/internal/grpcmanager/v1/router_test.go:126-160 | a request matches an envelope for an app iff its app id is empty or that app, and its kind filter is absent or equal to the envelope's kind |
| Routing.DataSetter.Set | src/doppler/internal/grpcmanager/v1/router_test.go:129-139 | a setter's log grows by exactly the payload given |
| Routing.Router.constructor | src/doppler/internal/grpcmanager/v1/router_test.go:62 | a new router has an empty registry and has issued no handle yet |
| Routing.Router.Register | src/doppler/internal/grpcmanager/v1/router_test.go:113-123 | the returned handle is the next never-issued id, so it was not in use and is never handed out again; the registry gains exactly that handle, mapped to the request's route and the setter |
| Routing.Router.Cleanup | src/doppler/internal/grpcmanager/v1/router_test.go:188-191 | the registry loses exactly that handle; a second cleanup changes nothing, and no later registration can be given that handle |
| Routing.Router.SendTo | src/doppler/internal/grpcmanager/v1/router_test.go:126-186 | the deliveries satisfy the dispatch rule: none for an untyped envelope; otherwise every delivery is to a live matching subscription with the marshalled bytes, no subscription twice, every matching stream served, every matching shard group served by exactly one member; each setter's log grows by exactly the payloads delivered to it, in order |
| RoutingProperties.StreamReceivesOnce | src/doppler/internal/grpcmanager/v1/router_test.go:142-148 | a matching stream's setter is given the payload exactly once |
| RoutingProperties.UnmatchedReceivesNothing | src/doppler/internal/grpcmanager/v1/router_test.go:150-160 | a setter whose subscription is for another app or another kind is given nothing |
| RoutingProperties.GroupServedOnce | src/doppler/internal/grpcmanager/v1/router_test.go:162-166 | every matching shard group receives exactly one delivery |
| RoutingProperties.PairGroupReceivesOnce | src/doppler/internal/grpcmanager/v1/router_test.go:162-166 | the two members of a group are given one payload between them |
| RoutingProperties.SoleMemberReceives | src/doppler/internal/grpcmanager/v1/router_test.go:167-169 | the only member of a group is always given the payload |
| RoutingProperties.FirehoseMatchesEveryApp | src/doppler/internal/grpcmanager/v1/router_test.go:91-101 | a firehose request matches every app id and every kind |
| RoutingProperties.UntypedEnvelopeDropped | src/doppler/internal/grpcmanager/v1/router_test.go:172-186 | an envelope without event type reaches no setter |
| RoutingProperties.UnusedReceivesNothing | src/doppler/internal/grpcmanager/v1/router_test.go:210-236 | a setter with no live subscription (one that was cleaned up) is given nothing |
| RoutingProperties.CleanupKeepsOthers | src/doppler/internal/grpcmanager/v1/router_test.go:188-208 | after one stream's cleanup, its setter is given nothing and the other stream of the app still gets the payload once |
| RouterScenarios.Populate | src/doppler/internal/grpcmanager/v1/router_test.go:113-123 | registering requests A to G gives seven distinct handles, each mapped to its request's route and its own setter |
| RouterScenarios.SendsToRegisteredSetters | src/doppler/internal/grpcmanager/v1/router_test.go:126-140 | a log envelope for some-app-id gives A, B and G exactly its bytes |
| RouterScenarios.SendsOnceAndOnlyToMatching | src/doppler/internal/grpcmanager/v1/router_test.go:142-160 | a counter envelope gives A its bytes once and C and G nothing |
| RouterScenarios.SendsToRandomFirehose | src/doppler/internal/grpcmanager/v1/router_test.go:162-170 | D and E together receive one payload; F receives the counter bytes |
| RouterScenarios.DropsBadEnvelope | src/doppler/internal/grpcmanager/v1/router_test.go:172-186 | an envelope without event type reaches neither A, D nor E |
| RouterScenarios.StreamCleanup | src/doppler/internal/grpcmanager/v1/router_test.go:188-208 | after A's cleanup, A receives nothing and B receives the counter bytes |
| RouterScenarios.StaleCleanupHarmless | src/doppler/internal/grpcmanager/v1/router_test.go:113-123 | a handle that was cleaned up is not issued again, so running its cleanup a second time leaves a later registration in place |
| RouterScenarios.FirehoseCleanup | src/doppler/internal/grpcmanager/v1/router_test.go:210-236 | after D's or F's cleanup, that setter receives nothing |
| StorePaths.KeyRoundTrip | src/doppler/store/v1/app_service_store_watcher_test.go:301-303 | the app id and service id can be read back from a service key |
| StorePaths.KeyUnderAppDir | src/doppler/store/v1/app_service_store_watcher_test.go:233-234 | a service key is its app's directory key followed by the service id, and the directory key is the services root followed by the app id |
| StorePaths.AppDirBase | src/doppler/store/v1/app_service_store_watcher_test.go:282 | the last element of an app's directory key is the app id |
| AppServiceCache.Add | src/doppler/store/v1/app_service_store_watcher_test.go:157-173 | after adding, exactly the previously cached services and the new one are cached |
| AppServiceCache.Remove | src/doppler/store/v1/app_service_store_watcher_test.go:218-229 | after removing, exactly the previously cached services other than that one are cached |
| AppServiceCache.Next | src/doppler/store/v1/app_service_store_watcher_test.go:149-297 | the announced set is exactly what became cached and the withdrawn set exactly what stopped being cached; the cache stays well filed |
| AppServiceCache.NotificationsTrackCache | src/doppler/store/v1/app_service_store_watcher_test.go:149-297 | the services after an event are those before, minus the withdrawn, plus the announced |
| AppServiceCache.FollowTracksReplay | src/doppler/store/v1/app_service_store_watcher_test.go:248-270 | a listener that applies every notification of a run of events ends with exactly the cached services |
| AppServiceCache.Load | src/doppler/store/v1/app_service_store_watcher_test.go:105-133 | after start-up, exactly what was cached plus what is stored is cached |
| AppServiceCache.LoadAnnouncesAll | src/doppler/store/v1/app_service_store_watcher_test.go:115-133 | start-up from an empty cache announces a listing without repeats in full and in listing order |
| AppServiceCache.LoadFromEmpty | src/doppler/store/v1/app_service_store_watcher_test.go:115-133 | start-up from an empty cache announces the stored services, each once, in listing order |
| AppServiceCache.KnownServiceIgnored | src/doppler/store/v1/app_service_store_watcher_test.go:149-155 | creating or setting a cached service changes nothing and notifies nothing |
| AppServiceCache.AnnounceIdempotent | src/doppler/store/v1/app_service_store_watcher_test.go:209-215 | repeating a create or a set notifies nothing the second time |
| AppServiceCache.NewServiceAnnounced | src/doppler/store/v1/app_service_store_watcher_test.go:157-190 | a new service, by create or by set, is announced alone and nothing is withdrawn |
| AppServiceCache.NewAppAnnounced | src/doppler/store/v1/app_service_store_watcher_test.go:192-206 | the two services of a new app are announced, exactly those, and nothing is withdrawn |
| AppServiceCache.DeletedServiceWithdrawn | src/doppler/store/v1/app_service_store_watcher_test.go:218-229 | deleting a service key withdraws exactly that service and announces nothing |
| AppServiceCache.AppDirWithdrawn | src/doppler/store/v1/app_service_store_watcher_test.go:231-245 | expiring a directory acts like deleting it; deleting withdraws exactly the app's cached services, announces nothing, and re-creating a service announces it again |
| AppServiceCache.DeleteCreateDelete | src/doppler/store/v1/app_service_store_watcher_test.go:248-270 | delete, create, delete gives a withdrawal, an announcement, a withdrawal, with nothing on the other side each time |
| AppServiceWatcher.AppServiceStoreWatcher.constructor | src/doppler/store/v1/app_service_store_watcher_test.go:59-60 | a new watcher has an empty cache and empty outputs |
| AppServiceWatcher.AppServiceStoreWatcher.Bootstrap | src/doppler/store/v1/app_service_store_watcher_test.go:105-133 | the cache becomes start-up's cache and the add output gains start-up's announcements; the remove output is untouched |
| AppServiceWatcher.AppServiceStoreWatcher.Handle | src/doppler/store/v1/app_service_store_watcher_test.go:149-297 | the cache becomes the diff's cache; each output gains exactly the diff's announced or withdrawn services, each once |
| AppServiceWatcher.AppServiceStoreWatcher.RemoveApp | src/doppler/store/v1/app_service_store_watcher_test.go:231-236 | the app leaves the cache and every one of its cached services is listed once |
| AppServiceWatcher.AppServiceStoreWatcher.Drain | src/doppler/store/v1/app_service_store_watcher_test.go:305-314 | receives the first `count` queued services in order and leaves the rest queued; when fewer are queued, receives all of them and reports the shortfall |
| WatcherScenarios.EmptyStoreSendsNothing | src/doppler/store/v1/app_service_store_watcher_test.go:105-113 | start-up over an empty store leaves both outputs empty |
| WatcherScenarios.StartupAnnouncesStore | src/doppler/store/v1/app_service_store_watcher_test.go:115-133 | start-up over three stored services sends all three on add, and the remove output stays empty |
| WatcherScenarios.AlreadyProcessedIgnored | src/doppler/store/v1/app_service_store_watcher_test.go:149-155 | re-creating and re-setting known services leaves both outputs empty |
| WatcherScenarios.NewServiceAdded | src/doppler/store/v1/app_service_store_watcher_test.go:157-190 | a new service of app-2, by create or by set, is sent on add alone |
| WatcherScenarios.NewAppAdded | src/doppler/store/v1/app_service_store_watcher_test.go:192-206 | app-3's two services are sent on add, nothing on remove |
| WatcherScenarios.AppDirectoryDeleted | src/doppler/store/v1/app_service_store_watcher_test.go:231-245 | deleting app-1's directory sends both its services on remove, nothing on add; re-creating them sends both on add and nothing on remove |
| WatcherScenarios.UpdatesInOrder | src/doppler/store/v1/app_service_store_watcher_test.go:248-270 | delete, create, delete sends remove, add, remove of the right service, the other output empty each time |
| WatcherScenarios.AppServiceExpires | src/doppler/store/v1/app_service_store_watcher_test.go:272-297 | a new app-2 service is announced; app-2's directory expiring withdraws both app-2 services; re-creating the new one announces it again |

## Left out

- Concurrency and locking. The race-detector test (`router_test.go:238-247`) has no counterpart. `Register`, cleanup and `SendTo` are atomic sequential steps.
- Uniformity of the random pick is not modelled. The pick is a nondeterministic choice, and only "exactly one member of each matching group" is proved.
- Envelope marshalling (protobuf `Marshal`, `router_test.go:56-60`) is not modelled. `SendTo` takes it as a function from envelope to bytes. An envelope keeps its origin and an optional event type; the origin has no effect on routing in this model.
- Routing.Router.Register has no error path. The design describes a request with neither app id nor shard id as a registration error. But the test's call site (`router_test.go:113`) takes a single return value, the cleanup, so the model follows the code: such a request becomes a firehose member with an empty shard, i.e. a stream for every app.
- Routing.Router.Register returns a handle instead of the cleanup closure. `Cleanup(handle)` plays the closure's part and is idempotent.
- Shard groups are formed from the whole route (app id, kind filter, shard id), not the shard id alone. The tests register shard requests only without a filter (`router_test.go:91-101`), and for those the two groupings coincide. A filtered shard request forms its own group in this model. The design instead groups by shard id and then drops the members whose filter does not match, which would serve only one of two such members.
- A filter's app id is read as "every app" when it is empty. That is also how a firehose is independent of the app id.
- The metric filter (`MetricFilter`) comes from the documented filter shapes. No test exercises it.
- The watcher's etcd plumbing is not modelled:
  - adapter connect and disconnect, and the work pool (`app_service_store_watcher_test.go:47-57`);
  - watching again after a watch error (76-91);
  - closing the outputs on shutdown (93-103);
  - real TTL timing (282-286): expiry is an `Expire` event on the app's directory.
- Channels are unbounded queues. Blocking sends and `Eventually`/`Consistently` timing are not modelled; `Drain` reports a shortfall instead of failing after a timeout.
- A service's identity is its app id and drain URL. How a service's id (`Id()`) is derived from it lies outside the files modelled; `StorePaths.Key` takes the service id as given.
- StorePaths.KeyRoundTrip: `path.Join` is modelled as joining the non-empty elements with single slashes; the `path.Clean` step (removing `.` and `..`) is not modelled, so the round trip is stated only for ids free of slashes.
- `dopplerservice/announcer_test.go` is not part of this model: what it tests is etcd I/O, and its only pure part is two format strings.
- `monitor/uptime_monitor.go` is not part of this model: it is a ticker loop that reports a floating-point uptime metric through a foreign metrics call.
