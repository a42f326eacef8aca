# Verified model of kcp-dev/multicluster-provider

The provider keeps several derived views in step with sources that change under them. This project models the
parts that do so and proves that the views are right, for all inputs and all runs.

| file | what it models |
|---|---|
| `Engagement.dfy` | logical clusters engaged and disengaged from one endpoint's delayed watch notifications |
| `RecorderManager.dfy` | the manager with one event recorder provider per logical cluster |
| `RecorderShutdown.dfy` | one recorder provider: first use, emitting recorders and `Stop`, interleaved |
| `EndpointSlices.dfy` | reconciling watched endpoints against the URLs of the endpoint slice |
| `EndpointWorker.dfy` | the worker and its rate-limited queue, interleaved with slice changes |
| `AggregateProtocol.dfy` | the aggregate cache's locks and critical sections, interleaved |
| `AggregateCallers.dfy` | what callers get for their calls across interleavings, failing ones included |
| `AggregateRegistrations.dfy` | how often handlers are registered with each cache across interleavings |
| `AggregateCaches.dfy` | the aggregate cache's operations one at a time, with failures and clean-up |
| `Keys.dfy`, `CacheReader.dfy` | store and index keys; `Get`, `List` and field selection against a plain scan |
| `AggregateList.dfy` | listing across all shard caches |
| `ScopedInformer.dfy` | the handler filter of a scoped informer |
| `Arguments.dfy` | overridable command line arguments, rendered and read back |
| `ClusterClient.dfy`, `IndexTracker.dfy` | double-checked client creation, tracked field indexes |
| `Spread.dfy` | round-robin placement of workspaces |
| `Totals.dfy` | what goroutines have left to do, added up: the measure of the results about every schedule |

How it is put together:

- Objects whose methods change fields are classes. Each method is tied to a function of its inputs and the old
  state, or states its result outright; the lemmas are about those functions.
- Go walks maps in an arbitrary order. So do the methods here: they pick keys with `:|`, and their contracts hold
  for every choice.
- A concurrent protocol is a state machine whose steps are its critical sections, or parts of them. `After(steps)`
  is the state after a sequence of steps; a step that is not possible in a state leaves it alone, so a statement
  about every `steps` is a statement about every interleaving.
- Calls that can fail take their outcome as a parameter: `up` says which attempts to watch an endpoint succeed,
  `faults`, `lookup` and `failed` say which lookups and registrations do not, and so on. Filters, object contents
  and label selectors are arbitrary.

What is taken from libraries as a contract:

- An informer updates its store first and sends notifications later, in order, and keys objects by cluster, namespace
  and name.
- The work queue keeps a key that is added while it is being processed and hands it out again afterwards; a delayed
  key comes back eventually; after shutdown nothing is added.
- An index yields each stored object whose index function yields the value, once, in some order. The reading cache
  emits field index values for the object's namespace and for no namespace. The index names and key functions of
  `github.com/kcp-dev/apimachinery` are not part of this model; they are taken to agree with those in
  `pkg/cache/indexes.go`.
- Go's read-write lock admits no new reader while a writer waits; `sync.Once` runs once and makes others wait.

Where the code does not do what one might expect, the exact condition is proved:

- A delete whose index lookup fails leaves its cluster engaged with nothing queued to mend that
  (`FailedLookupStrandsCluster`, `DrainedSoundIffNoneMissed`).
- A pass over the slice can report an error although every URL is watched, when a duplicated URL fails first
  (`DuplicateMayRecover`, `ReportedYetWatched`, `CleanPass`).
- A field selection over the namespace `__all_namespaces` answers for all namespaces
  (`RouteIsScanUnlessReserved`, `ReservedNamespaceAnswersForOthers`).
- A scoped handler goes stale exactly when an event speaks of another cluster than the stored object
  (`ViewsRightIffClustersKept`).
- Flags can be read back exactly when no rendered key contains `=` (`RoundTrip`).
- `IndexField` can succeed without an index: a second call returns at once, although the first one failed or is
  still at work (`SecondCallHidesFailure`, `SecondCallOvertakesFirst`). The index is there iff the one call of the
  base cache for its key has come back and did not fail (`IndexedIffCallSettled`).
- Stopping a recorder provider whose first use could not start recording or its watcher calls a stop function that
  was never set (`StopCanCrash`). A run can still come to that iff the provider owns its broadcasters and no
  watcher has been started (`CrashesIffNeverWatching`).
- A handler added between a cache's publication and the visit to its informer is registered with that cache twice,
  and its entry forgets the first registration (`RegisteredTwiceIffLate`, `LateIffAppendedWhileComing`).

## Model

| member | source | states |
|---|---|---|
| Engagement.WatchedEndpoint.Update | pkg/provider/provider.go:536-560 | engages an unengaged cluster with its recorder provider unless a step fails, and reports whether the cluster is engaged |
| Engagement.WatchedEndpoint.OnUpsert | pkg/provider/provider.go:448-483 | add and update handlers: nothing unless the filter accepts, then the update path |
| Engagement.WatchedEndpoint.OnDelete | pkg/provider/provider.go:484-520 | disengages the object's or the tombstone's cluster iff the index lookup works and finds no key; other payloads change nothing |
| Engagement.EngagementConverges | pkg/provider/provider.go:448-520 | over every interleaving without filters and failures: a present unengaged cluster has an add or update waiting, an engaged absent one a delete, and drained means engaged equals present |
| Engagement.FilteredEngagementIsSound | pkg/provider/provider.go:448-520 | with any filters and update failures: drained means engaged is within present, and an object whose latest notification was accepted, with no call failing, has its cluster engaged |
| Engagement.EngagedIffAccepted | pkg/provider/provider.go:453-483 | a step engages a cluster iff it delivers an add or update about it, the filter accepts and no call fails |
| Engagement.EngagedIffAcceptedSince | pkg/provider/provider.go:448-520 | in every run exactly those clusters are engaged that had such a delivery since a delete last disengaged them |
| Engagement.RecorderRegisteredIff | pkg/provider/provider.go:507-560 | when a step leaves a recorder provider registered for a cluster, failing updates included |
| Engagement.SettledIffLatestAccepted | pkg/provider/provider.go:448-483 | the objects of the result above are those whose latest delivered notification was an accepted add or update with no call failing |
| Engagement.DrainedSoundIffNoneMissed | pkg/provider/provider.go:501-515 | with failing lookups as well: drained is sound iff no cluster that missed its check is absent |
| Engagement.UncheckedIffMissedSince | pkg/provider/provider.go:501-511 | and those clusters are the ones with a delivered delete whose lookup failed since they were last disengaged |
| Engagement.FailedLookupStrandsCluster | pkg/provider/provider.go:501-511 | a run in which a failed lookup leaves an absent cluster engaged with nothing waiting |
| Engagement.OnlyAbsentClustersAreDisengaged | pkg/provider/provider.go:484-520 | in every reachable state a step disengages an engaged cluster iff it delivers a delete about it, the lookups work and it has no object in the store; its recorder provider is then told to stop and forgotten |
| Engagement.EngagedClustersHoldLiveRecorders | pkg/provider/provider.go:517-555 | every engaged cluster holds the provider registered for it, not told to stop and shared with no other |
| Engagement.EngagementCatchesUp | pkg/provider/provider.go:448-520 | wherever a run has got to, delivering what is waiting engages exactly the clusters present |
| Engagement.RunKeepsInv | pkg/provider/provider.go:448-520 | the store is the delivered state plus the waiting notifications, with the accounting the results above rest on, in every run |
| RecorderManager.Manager.GetProvider | pkg/events/recorder/provider_manager.go:73-101 | returns the registered provider or registers a new one; a failing build changes nothing |
| RecorderManager.Manager.StopProvider | pkg/events/recorder/provider_manager.go:136-145 | tells the registered provider to stop and forgets it |
| RecorderManager.Manager.Stop | pkg/events/recorder/provider_manager.go:126-133 | tells every registered provider once, in any order, and forgets them |
| RecorderManager.NeverHandsOutAStoppedProvider | pkg/events/recorder/provider_manager.go:73-145 | after any calls a provider handed out is untold, the same on asking again, and no other cluster's |
| RecorderManager.ToldExactlyOnce | pkg/events/recorder/provider_manager.go:73-145 | every provider built is registered and untold, or unregistered and told exactly once |
| RecorderManager.RegisteredIffAskedSince | pkg/events/recorder/provider_manager.go:73-145 | after any calls a cluster has a provider iff it was asked for, with building working, since it was last stopped; a failing build leaves no trace, and no more are built than needed |
| RecorderManager.RefusedIffBuildFails | pkg/events/recorder/provider_manager.go:73-101 | a call is refused iff none is registered and building fails, for the reason it fails; a registered one is handed out as it is |
| RecorderShutdown.NoEventAfterShutdown | pkg/events/recorder/forked_recorder.go:79-208 | under every interleaving a recorder about to send finds both broadcasters made and up and nobody stopping them |
| RecorderShutdown.DroppedOnlyAfterStop | pkg/events/recorder/forked_recorder.go:200-208 | an event is dropped only once both broadcasters are down |
| RecorderShutdown.StopReturnsStopped | pkg/events/recorder/forked_recorder.go:79-104 | in every run a goroutine whose last job was to stop and that is done has left both of the provider's own broadcasters down |
| RecorderShutdown.EmitReturnsSentOrDown | pkg/events/recorder/forked_recorder.go:193-208 | one whose job was to emit and that is done was about to send to the broadcaster it was meant for, unless both were down |
| RecorderShutdown.EveryStopFinishes | pkg/events/recorder/forked_recorder.go:79-104 | a begun stop ends with both down under every schedule that keeps letting goroutines go on that can, as long as starting works |
| RecorderShutdown.SomebodyCanMove | pkg/events/recorder/forked_recorder.go:79-208 | and somebody always can, with a waiting stop holding emits off |
| RecorderShutdown.ShutdownIsFinal | pkg/events/recorder/forked_recorder.go:82-147 | however a run goes on, what is down stays down, and the broadcasters are made once |
| RecorderShutdown.SharedBroadcastersStayUp | pkg/events/recorder/forked_recorder.go:87-96 | broadcasters that are not to be stopped with the provider never are |
| RecorderShutdown.CrashesIffNeverWatching | pkg/events/recorder/forked_recorder.go:88-143 | from every reachable state some continuation crashes iff the broadcasters are the provider's own and no watcher has been started, which after the first use means that it failed to start one |
| RecorderShutdown.CrashesOnlyUnwatched | pkg/events/recorder/forked_recorder.go:88-143 | in every run a crash means own broadcasters made without a watcher, and without one no stop ever completes |
| RecorderShutdown.StopCanCrash | pkg/events/recorder/forked_recorder.go:88-143 | a run in which the first use fails to start recording and a later stop crashes |
| EndpointSlices.Provider.EndpointSliceUpdate | pkg/provider/provider.go:339-376 | the watched endpoints, aggregate cache, starts and cancels of one pass, and its outcome; keeps the invariant |
| EndpointSlices.Provider.StopAllWatchedEndpoints | pkg/provider/provider.go:378-384 | cancels and unregisters every endpoint, once each |
| EndpointSlices.PassWatches | pkg/provider/provider.go:345-373 | watched after a pass: the slice's URLs that were watched before or started at one of their positions; survivors are the same endpoints; the aggregate cache agrees |
| EndpointSlices.FailuresReported | pkg/provider/provider.go:355-359 | a URL is reported iff it was not watched and its first position failed |
| EndpointSlices.FailuresInOrder | pkg/provider/provider.go:345-359 | the report has the URLs of the failing positions in order, one for each |
| EndpointSlices.CleanPass | pkg/provider/provider.go:345-375 | no error iff the first position of every unwatched URL succeeded; then the watched URLs are exactly the slice's, duplicates included |
| EndpointSlices.DuplicateMayRecover | pkg/provider/provider.go:346-361 | a pass that reports an error and still watches the whole slice |
| EndpointSlices.ReportedYetWatched | pkg/provider/provider.go:346-361 | a URL is reported although the pass watches it iff it was not watched, its first position failed and a later one succeeded |
| EndpointSlices.PassMakesProgress | pkg/provider/provider.go:336-376 | the missing URLs shrink strictly iff a missing one was started; no watched one is lost or restarted |
| EndpointSlices.RetriesConverge | pkg/provider/provider.go:336-376 | after any number of passes over one slice a URL is watched iff it was at first or some pass started it |
| EndpointSlices.StartsAndCancelsBalance | pkg/provider/provider.go:345-384 | in every run: starts minus cancels of a URL is 1 if watched and 0 otherwise, no endpoint is cancelled twice, none cancelled stays watched or registered |
| EndpointSlices.CancelledIffDropped | pkg/provider/provider.go:339-384 | in every run an endpoint is cancelled iff it is watched and the slice is deleted or a pass over extracted URLs lacks its own |
| EndpointSlices.ExtractionErrorChangesNothing | pkg/provider/provider.go:340-343 | URLs that cannot be extracted are reported and nothing changes |
| EndpointWorker.Worker.ProcessNextEndpointSlice | pkg/provider/provider.go:302-334 | one turn: what is watched afterwards, when the key is retried, that it is released; invalid keys and shutdown |
| EndpointWorker.NeverStranded | pkg/provider/provider.go:254-334 | until shutdown, if the watched URLs are not the current slice's, a notification is due or the key is queued, delayed or in a pass |
| EndpointWorker.CancelledIffSeenWithout | pkg/provider/provider.go:302-384 | in every interleaving an endpoint is cancelled iff it is watched and a turn applies a read of a slice that is gone or lacks its URL |
| EndpointWorker.WatchChangesOnlyBySight | pkg/provider/provider.go:302-334 | nothing about the watched endpoints changes otherwise, failed reads and extraction errors included |
| EndpointWorker.SeenWasRead | pkg/provider/provider.go:317-322 | what a turn goes by is what its own last read returned |
| EndpointWorker.RetriedIffFailed | pkg/provider/provider.go:318-333 | a turn has its key delayed for another one iff the read, the extraction or the first position of an unwatched URL failed |
| EndpointWorker.ValidIffAtMostOneSlash | pkg/provider/provider.go:310-315 | keys that are not taken up are those with more than one slash |
| EndpointWorker.UndisturbedTurn | pkg/provider/provider.go:302-334 | an undisturbed turn of the interleaved worker is the method's turn, and leaves the slice reflected or delayed |
| EndpointWorker.EveryScheduleCatchesUp | pkg/provider/provider.go:302-334 | from every reachable state, once the slice stays, can be read and its endpoints can be watched, every schedule that keeps taking possible steps comes to watch exactly its endpoints, and then always does |
| EndpointWorker.UnsettledCanMove | pkg/provider/provider.go:302-334 | until shutdown, while there is anything left to do, such a step is possible |
| EndpointWorker.CatchesUp | pkg/provider/provider.go:302-334 | under the same conditions eight steps of informer, queue and worker can be enough |
| AggregateProtocol.HandlersCoverCaches | pkg/cache/aggregate_informer.go:75-151 | under every interleaving, with no cache change under way and none that failed to notify, every handler is registered for exactly the current caches |
| AggregateProtocol.OnlyFailedOrDueRegistrationsAreOff | pkg/cache/aggregate_informer.go:123-151 | at any time only failed registrations, or those of the one id being changed at entries not visited yet, can be off |
| AggregateProtocol.EntriesStay | pkg/cache/aggregate_informer.go:104 | however a run goes on, a handler keeps its entry and its place |
| AggregateCallers.HandlersAreThoseAdded | pkg/cache/aggregate_informer.go:75-110 | under every interleaving an informer tracks exactly the handlers of the completed registrations, in order, one entry each |
| AggregateCallers.RegistrationEnds | pkg/cache/aggregate_informer.go:75-121 | a registration ends with its handler appended, registered for all caches there are, or, if one with a cache failed, with the tracked handlers as they were |
| AggregateCallers.NothingLeftBehind | pkg/cache/aggregate_informer.go:88-121 | and then its goroutine holds no registration that it has not taken back or passed to the entry |
| AggregateCallers.CachesAreThoseAdded | pkg/cache/aggregate.go:59-84 | between operations the caches are what the operations begun so far come to |
| AggregateCallers.InformerIsThere | pkg/cache/aggregate.go:89-105 | who asked for an informer finds it there |
| AggregateCallers.ScansSeeOneState | pkg/cache/aggregate.go:113-136 | a list or sync check ends only after it has held the caches, and they do not change meanwhile |
| AggregateCallers.ChecksSeeOneState | pkg/cache/aggregate_informer.go:186-196 | the same for a registration's sync check and the entries of its informer |
| AggregateCallers.FailedNotificationChangesNothing | pkg/cache/aggregate_informer.go:124-141 | a failing lookup or registration while a cache is added changes no entry |
| AggregateProtocol.NeverDeadlocks | pkg/cache/aggregate.go:59-105 | while an operation is unfinished some goroutine can take its next step, with waiting writers holding readers off |
| AggregateProtocol.EveryOperationEnds | pkg/cache/aggregate.go:59-105 | once no operations begin, every schedule that keeps taking possible steps finishes them all |
| AggregateProtocol.RunKeepsInv | pkg/cache/aggregate.go:59-105 | mutual exclusion, the progress of each goroutine and the coverage above, in every run |
| AggregateRegistrations.RegisteredTwiceIffLate | pkg/cache/aggregate_informer.go:88-141 | under every interleaving a handler whose informer was told of a cache is registered with it once, or twice iff its slot is late |
| AggregateRegistrations.LateIffAppendedWhileComing | pkg/cache/aggregate.go:59-70 | a slot turns late iff its handler is added after the cache was published and before its entry is visited |
| AggregateRegistrations.SomeSlotIsLate | pkg/cache/aggregate.go:59-70 | for every cache there is a run in which that happens |
| AggregateRegistrations.RemovedCachesAreForgotten | pkg/cache/aggregate_informer.go:144-151 | a removed cache is forgotten by every handler whose informer was told, whatever failed before |
| AggregateCaches.AggregateCache.AddEventHandler | pkg/cache/aggregate_informer.go:75-110 | fails iff a lookup or registration does, and is then atomic up to what could not be taken back; else one registration per cache |
| AggregateCaches.AggregateCache.CleanupRegistrations | pkg/cache/aggregate_informer.go:113-121 | takes back exactly the recorded registrations for which that works |
| AggregateCaches.AggregateCache.OnCacheAdded | pkg/cache/aggregate_informer.go:124-141 | registers every entry with the new cache except those that fail; a failing lookup changes nothing |
| AggregateCaches.AggregateCache.OnCacheRemoved | pkg/cache/aggregate_informer.go:144-151 | forgets the id in every entry |
| AggregateCaches.AggregateCache.AddCache | pkg/cache/aggregate.go:59-70 | publishes the cache and notifies every informer, in any order |
| AggregateCaches.AggregateCache.RemoveCache | pkg/cache/aggregate.go:73-84 | unpublishes the cache and notifies every informer, in any order |
| AggregateCaches.AggregateCache.GetAggregateInformer | pkg/cache/aggregate.go:89-105 | the informer of a kind is made once |
| AggregateCaches.AddedHandlerKeepsComplete | pkg/cache/aggregate_informer.go:88-104 | adding a handler keeps every handler registered exactly once with exactly the current caches |
| AggregateCaches.AddedCacheKeepsComplete | pkg/cache/aggregate.go:59-70 | adding a new cache keeps every handler registered exactly once with exactly the current caches |
| AggregateCaches.RemovedCacheKeepsComplete | pkg/cache/aggregate.go:73-84 | removing a cache keeps every handler registered exactly once with exactly the current caches |
| AggregateCaches.AddedCacheKeepsHonest | pkg/cache/aggregate_informer.go:124-141 | whatever fails while a cache is added, what entries record stays backed by live registrations |
| AggregateCaches.AddedHandlerKeepsHonest | pkg/cache/aggregate_informer.go:88-104 | the same when a handler is added |
| AggregateCaches.RemovedCacheKeepsHonest | pkg/cache/aggregate_informer.go:144-151 | the same when a cache is removed |
| AggregateList.List | pkg/cache/aggregate.go:110-143 | one contribution per successful cache, one error per failing one, whatever the order; a cache fails by a refusal, a missing index, or a failing copy, informer lookup or extraction |
| AggregateList.UnlimitedIsUnion | pkg/cache/aggregate.go:114-136 | without a limit an object occurs once per successful cache it matches in |
| AggregateList.LimitPerCache | pkg/cache/aggregate.go:114-136 | a limit applies to each cache, so the total is at most the limit times the number of caches that succeed |
| Keys.StoreKeyIsUnambiguous | pkg/cache/forked_cache_reader.go:83-85 | store keys identify cluster, namespace and name |
| Keys.ClusterAndNamespaceKeyIsUnambiguous | pkg/cache/indexes.go:51-53 | cluster and namespace keys identify both |
| Keys.ClusteredKeyIsUnambiguous | pkg/cache/forked_cache_reader.go:294-308 | a key asked for equals a key emitted iff all parts agree, whatever slashes the values have |
| Keys.SlashInClusterIsAmbiguous | pkg/cache/forked_cache_reader.go:303-308 | a question shares its key with one about another cluster, whose name has no slash, iff its own cluster name has a slash |
| Keys.QuestionsShareAKeyIff | pkg/cache/forked_cache_reader.go:303-308 | exactly which pairs of questions about one namespace share a key |
| CacheReader.FillWithCluster | pkg/cache/wildcard.go:221-227 | the doubled keys: each value under the object's cluster and under the wildcard |
| CacheReader.ByIndexes | pkg/cache/forked_cache_reader.go:222-270 | lists exactly the objects whose index values meet all requirements; fails iff an index is missing and something is left to look at |
| CacheReader.Collect | pkg/cache/forked_cache_reader.go:184-218 | the first label-matching candidates in order: all of them, or as many as the limit says |
| CacheReader.List | pkg/cache/forked_cache_reader.go:132-220 | which refusal iff what was asked, in order: a continue token, no cluster, an empty or inexact field selector; index errors; and otherwise a listing of what the indexes yield |
| CacheReader.Get | pkg/cache/forked_cache_reader.go:69-99 | the object under the scoped key, or the reason there is none |
| CacheReader.MeetsIffAskedAbout | pkg/cache/wildcard.go:220-228 | an object is indexed under a question's key iff cluster, namespace and value fit |
| CacheReader.RouteIsScan | pkg/cache/forked_cache_reader.go:147-175 | the indexes yield exactly the objects a full scan selects by cluster, namespace and what each requirement asks |
| CacheReader.ListIsScan | pkg/cache/forked_cache_reader.go:132-220 | without a limit a list has exactly the scanned objects whose labels match, each once |
| CacheReader.LimitedListing | pkg/cache/forked_cache_reader.go:184-192 | with a limit it has the smaller of the limit and the number of matches |
| CacheReader.RouteIsScanUnlessReserved | pkg/cache/forked_cache_reader.go:290-308 | right for the namespace as written unless a field selection over the reserved one matches elsewhere |
| CacheReader.ReservedNamespaceAnswersForOthers | pkg/cache/forked_cache_reader.go:290-308 | a field selection over the reserved namespace that is answered with an object of another one |
| CacheReader.GetAgreesWithList | pkg/cache/forked_cache_reader.go:69-175 | a scoped get finds exactly the object the scoped list has under that name |
| CacheReader.GetFailsIff | pkg/cache/forked_cache_reader.go:69-95 | which error a get gives, and exactly when |
| CacheReader.UnawareRouteIsScan | pkg/cache/forked_cache_reader.go:147-175 | without cluster indexes a read by namespace is a scan |
| CacheReader.UnawareMeets | pkg/cache/forked_cache_reader.go:222-308 | and a field requirement is met by values with a cluster already in front |
| CacheReader.UnawareGet | pkg/cache/forked_cache_reader.go:69-95 | and a get finds the one object of that namespace and name |
| CacheReader.ScopedListsPartition | pkg/cache/forked_cache_reader.go:147-175 | the scoped lists partition the wildcard list by cluster |
| ScopedInformer.ScopedViewIsRestriction | pkg/cache/cache.go:134-158 | replaying the delivered events rebuilds the store restricted to the cluster |
| ScopedInformer.ViewsRightIffClustersKept | pkg/cache/cache.go:134-158 | all handlers are right after every prefix iff events keep clusters, tombstones included |
| ScopedInformer.MovedObjectGoesStale | pkg/cache/cache.go:141-145 | an event about another cluster leaves the old cluster's handler with a stale object |
| ScopedInformer.DeliveredOnceInOrder | pkg/cache/cache.go:134-158 | every event reaches exactly the handlers of its cluster, once and in order |
| Arguments.Arguments.AsStrings | envtest/internal/process/arguments.go:115-145 | renders the keys of defaults and values in ascending order, each by its rule, whatever the map order |
| Arguments.RenderingIsUnique | envtest/internal/process/arguments.go:116-127 | there is one rendering |
| Arguments.RenderingInKeyOrder | envtest/internal/process/arguments.go:126-127 | the flags come in the order of their keys |
| Arguments.LessIsLexicographic | envtest/internal/process/arguments.go:126 | and that order is the lexicographic one |
| Arguments.RoundTrip | envtest/internal/process/arguments.go:129-144 | reading flags back at the first `=` recovers keys and values iff no rendered key contains one |
| Arguments.AppendsAccumulate | envtest/internal/process/arguments.go:64-97 | any number of appends, with or without defaults, are one append of all their values to what the key started from |
| Arguments.ResetsForget | envtest/internal/process/arguments.go:160-201 | set, enable and disable forget what came before |
| Arguments.HistoryDecides | envtest/internal/process/arguments.go:62-97 | for every history of a key: exactly when it is left out, given by name only or given values, and which, in order |
| Arguments.HistoryIsRendered | envtest/internal/process/arguments.go:115-201 | after any calls on the object each key is rendered as its own history decides |
| Arguments.Arguments.Append | envtest/internal/process/arguments.go:176-183 | starts from the defaults if the key was unset |
| Arguments.Arguments.AppendNoDefaults | envtest/internal/process/arguments.go:187-194 | starts from nothing if the key was unset |
| Arguments.Arguments.Set | envtest/internal/process/arguments.go:198-201 | replaces the key's argument |
| Arguments.Arguments.Enable | envtest/internal/process/arguments.go:160-163 | makes the key name-only |
| Arguments.Arguments.Disable | envtest/internal/process/arguments.go:166-169 | leaves the key out |
| ClusterClient.OneClientPerPath | client/client.go:53-77 | no two clients are built for a path, and calls for a path return the one built for it |
| ClusterClient.SameClientForever | client/client.go:53-77 | a later call returns the same client as any earlier one for the path |
| ClusterClient.AnswersItsCall | client/client.go:53-77 | a call is answered for the path it was made for |
| ClusterClient.PanicsIffBuildFails | client/client.go:66-75 | a call panics iff building its client fails, storing nothing and freeing the lock |
| ClusterClient.LookedUpUnderLock | client/client.go:54-59 | a lookup and a change of the clients never overlap |
| ClusterClient.KnownPathOnlyReads | client/client.go:54-59 | a call for a path that has a client takes no write lock |
| ClusterClient.SomebodyCanMove | client/client.go:53-77 | while a call is unfinished some goroutine can go on, with waiting writers holding readers off |
| ClusterClient.EveryCallReturns | client/client.go:53-77 | once no calls begin, every schedule that keeps letting goroutines go on that can finishes them all |
| IndexTracker.AtMostOneCallPerKey | pkg/cache/wildcard.go:210-220 | the base cache is asked at most once per kind and field, and was asked for every key a call returned for |
| IndexTracker.TrackerKeyIsUnambiguous | pkg/cache/wildcard.go:211 | the tracker key identifies kind and field |
| IndexTracker.IndexedIffCallSettled | pkg/cache/wildcard.go:210-220 | in every run a key asked for is indexed iff its one base call has come back and did not fail; only that call returns an error |
| IndexTracker.AnswersItsCall | pkg/cache/wildcard.go:204-220 | a call is answered for the key it was made for |
| IndexTracker.ErrorIffOwnInvocationFails | pkg/cache/wildcard.go:212-220 | a call returns an error iff its own invocation of the base cache failed |
| IndexTracker.SomebodyCanMove | pkg/cache/wildcard.go:210-220 | while a call is unfinished some goroutine can go on |
| IndexTracker.EveryCallReturns | pkg/cache/wildcard.go:210-220 | once no calls begin, every schedule that keeps letting goroutines go on that can finishes them all |
| IndexTracker.SecondCallHidesFailure | pkg/cache/wildcard.go:212-220 | a run in which the second call succeeds although the first failed and nothing is indexed |
| IndexTracker.SecondCallOvertakesFirst | pkg/cache/wildcard.go:217-220 | a run without failures in which the second call returns before the index is there |
| Spread.Spreader.Place | envtest/workspaces.go:91-106 | located workspaces stay, others take the shard of the counter, which advances |
| Spread.PlacedInTurn | envtest/workspaces.go:91-106 | the workspaces without a location go round the shards in the order they come |
| Spread.LoadsAreEven | envtest/workspaces.go:103-105 | after n such workspaces position i of k has been dealt n/k, plus one if i is below n mod k |
| Spread.ShardsReceiveEvenly | envtest/workspaces.go:91-106 | with distinct shard names, that many of the workspaces without a location end up on shard i |

## Left out

- Lifecycle hooks (`RunOnAdd`, `RunOnUpdate`, `RunOnDelete`) and logging: user code and output.
- Clusters seen through two endpoints at once, and clusters left engaged when an endpoint is dropped: the code does not tie endpoints together, so engagement is about one endpoint's life.
- Building configurations, clients, REST mappers and schemes, and kind lookup: library calls, represented by whether they succeed.
- Deep copies and reflection in `Get` and `List`; objects are immutable values of one kind.
- Backoff times and `Forget`: a delayed key only comes back at some point.
- The endpoint slice's namespace and name once a key has been split, and notifications for objects without a key.
- `HasSynced` of informers and registrations beyond the locks they take, and starting a wildcard cache once: single loops and a once-guard.
- Errors from setting the aggregated list on the caller's object.
- RecorderShutdown.NoEventAfterShutdown: the once-guard of each recorder is merged into the provider's; the context given to `Stop`, which only bounds the wait, is left out.
- AggregateProtocol.HandlersCoverCaches: `AddCache` and `RemoveCache` come from one goroutine, as the provider calls them.
- AggregateCaches.AggregateCache.OnCacheAdded: entries are values replaced in the informer's list, so sharing of an entry between the informer and a registration is not modelled.
- Spread.LoadsAreEven: the counter does not wrap around.
- Arguments: custom kinds of arguments, functions as arguments, and sharing of slice storage between appends; strings are ordered by character.
- URL extraction, endpoint slice conditions, the path store and the path-aware provider: single loops and map wrappers.
- Processes, certificates, ports, file locks and the rest of the test environment.
