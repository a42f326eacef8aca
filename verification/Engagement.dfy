/** Engaging and disengaging logical clusters from one endpoint's watch stream.

    The informer changes its store first and notifies later, in order. The handlers below run on those
    delayed notifications, and the delete handler consults the store as it is *then*, which may already be
    several notifications ahead. */
module Engagement {
  import R = RecorderManager

  type Cluster = string

  /** The identity of a watched object; the informer's store key carries the logical cluster, so an object
      never changes cluster under one key. */
  datatype Key = Key(cluster: Cluster, namespace: string, name: string)

  datatype Verdict = Accept | Reject | FilterError

  /** Which call of the update path fails, if any. */
  datatype UpdateFault = NoFault | RecorderFault(fault: R.BuildFault) | NewClusterFault | AddClusterFault

  /** `engaged` gives for each engaged cluster the recorder provider it was built with. */
  datatype Endpoint = Endpoint(engaged: map<Cluster, R.ProviderId>, recorders: R.State)

  // ----- the handlers -----

  function BuildOf(fault: UpdateFault): R.BuildOutcome {
    if fault.RecorderFault? then R.Fails(fault.fault) else R.Builds
  }

  function Updated(e: Endpoint, c: Cluster, fault: UpdateFault): Endpoint {
    if c in e.engaged then e
    else
      var handout := R.HandedOut(e.recorders, c, BuildOf(fault));
      var e' := e.(recorders := R.Got(e.recorders, c, BuildOf(fault)));
      if handout.Refused? || fault.NewClusterFault? || fault.AddClusterFault? then e'
      else e'.(engaged := e.engaged[c := handout.id])
  }

  function Upserted(e: Endpoint, c: Cluster, verdict: Verdict, fault: UpdateFault): Endpoint {
    if verdict.Accept? then Updated(e, c, fault) else e
  }

  /** The two lookups of the delete handler: the shared informer, then the keys indexed under the cluster. */
  datatype IndexLookup = Keys(keys: set<Key>) | InformerError | IndexError

  function Deleted(e: Endpoint, c: Cluster, lookup: IndexLookup): Endpoint {
    if lookup.Keys? && lookup.keys == {} then
      Endpoint(e.engaged - {c}, R.StoppedOne(e.recorders, c))
    else e
  }

  /** What an informer may hand to the delete handler. */
  datatype DeletePayload = Object(key: Key) | Tombstone(last: Key) | EmptyTombstone | Garbage

  class WatchedEndpoint {
    const recorders: R.Manager
    var engaged: map<Cluster, R.ProviderId>

    ghost function Abs(): Endpoint reads this, recorders { Endpoint(engaged, recorders.Abs()) }

    constructor ()
      ensures fresh(recorders) && Abs() == START.endpoint
    {
      recorders := new R.Manager();
      engaged := map[];
    }

    method Update(c: Cluster, fault: UpdateFault) returns (ok: bool)
      modifies this, recorders
      ensures Abs() == Updated(old(Abs()), c, fault)
      ensures ok <==> c in engaged
    {
      if c in engaged {
        return true;
      }
      var handout := recorders.GetProvider(c, BuildOf(fault));
      if handout.Refused? || fault.NewClusterFault? || fault.AddClusterFault? {
        return false;
      }
      engaged := engaged[c := handout.id];
      ok := true;
    }

    /** Both the add and the update handler; each has its own filter. */
    method OnUpsert(key: Key, verdict: Verdict, fault: UpdateFault)
      modifies this, recorders
      ensures Abs() == Upserted(old(Abs()), key.cluster, verdict, fault)
    {
      if !verdict.Accept? {
        return;
      }
      var _ := Update(key.cluster, fault);
    }

    method OnDelete(payload: DeletePayload, lookup: Cluster -> IndexLookup)
      modifies this, recorders
      ensures payload.Object? ==> Abs() == Deleted(old(Abs()), payload.key.cluster, lookup(payload.key.cluster))
      ensures payload.Tombstone? ==> Abs() == Deleted(old(Abs()), payload.last.cluster, lookup(payload.last.cluster))
      ensures payload.EmptyTombstone? || payload.Garbage? ==> Abs() == old(Abs())
    {
      var c;
      match payload {
        case Object(key) => c := key.cluster;
        case Tombstone(last) => c := last.cluster;
        case EmptyTombstone => return;
        case Garbage => return;
      }
      var found := lookup(c);
      if !found.Keys? || found.keys != {} {
        return;
      }
      recorders.StopProvider(c);
      engaged := engaged - {c};
    }
  }

  // ----- the endpoint together with its informer -----

  datatype Event = Add(key: Key, value: int) | Update(key: Key, value: int) | Delete(key: Key)

  /** `seen` replays the delivered notifications. The last two fields are history only:
      `settled` holds the keys whose latest delivered notification was an accepted add or update that no call
      failed for, and
      `unchecked` the engaged clusters for which the lookup of a delivered delete failed. */
  datatype System = System(
    store: map<Key, int>,
    pending: seq<Event>,
    seen: map<Key, int>,
    endpoint: Endpoint,
    settled: set<Key>,
    unchecked: set<Cluster>)

  const START := System(map[], [], map[], Endpoint(map[], R.EMPTY), {}, {})

  /** The watch reports an event, or the informer resyncs a key, or the head notification is delivered. A
      step that is not possible in a state leaves it alone, so every sequence of steps is a run. */
  datatype Step =
    | Watch(event: Event)
    | Resync(key: Key)
    | Deliver(verdict: Verdict, fault: UpdateFault, lookupFails: bool)

  predicate Applies(store: map<Key, int>, event: Event) {
    if event.Add? then event.key !in store else event.key in store
  }

  function Store(store: map<Key, int>, event: Event): map<Key, int> {
    match event
    case Add(k, v) => store[k := v]
    case Update(k, v) => store[k := v]
    case Delete(k) => store - {k}
  }

  function Replay(store: map<Key, int>, events: seq<Event>): map<Key, int>
    decreases |events|
  {
    if events == [] then store else Replay(Store(store, events[0]), events[1..])
  }

  function IndexKeys(store: map<Key, int>, c: Cluster): set<Key> {
    set k | k in store && k.cluster == c
  }

  function Present(store: map<Key, int>): set<Cluster> {
    set k | k in store :: k.cluster
  }

  /** No call of the update path fails: either none is made because the cluster is engaged already, or they all
      succeed. A recorder provider is only built if there is none. */
  predicate GoesThrough(e: Endpoint, c: Cluster, fault: UpdateFault) {
    c in e.engaged || fault.NoFault? || (fault.RecorderFault? && c in e.recorders.providers)
  }

  function Delivered(s: System, step: Step): System
    requires s.pending != [] && step.Deliver?
  {
    var event, c := s.pending[0], s.pending[0].key.cluster;
    var s' := s.(pending := s.pending[1..], seen := Store(s.seen, event));
    if event.Delete? then
      var lookup := if step.lookupFails then IndexError else Keys(IndexKeys(s.store, c));
      var e' := Deleted(s.endpoint, c, lookup);
      s'.(endpoint := e',
          settled := s.settled - {event.key},
          unchecked := if step.lookupFails && c in s.endpoint.engaged then s.unchecked + {c}
                       else s.unchecked * e'.engaged.Keys)
    else
      var e' := Upserted(s.endpoint, c, step.verdict, step.fault);
      s'.(endpoint := e',
          settled := if step.verdict.Accept? && GoesThrough(s.endpoint, c, step.fault) then s.settled + {event.key}
                     else s.settled - {event.key})
  }

  function Next(s: System, step: Step): System {
    match step
    case Watch(event) =>
      if Applies(s.store, event) then s.(store := Store(s.store, event), pending := s.pending + [event]) else s
    case Resync(k) =>
      if k in s.store then s.(pending := s.pending + [Update(k, s.store[k])]) else s
    case Deliver(_, _, _) =>
      if s.pending == [] then s else Delivered(s, step)
  }

  function After(steps: seq<Step>): System {
    if steps == [] then START else Next(After(steps[..|steps| - 1]), steps[|steps| - 1])
  }

  // ----- invariants -----

  /** A notification of the given kind about cluster `c` is waiting. */
  ghost predicate AwaitsUpsert(s: System, k: Key) {
    exists i :: 0 <= i < |s.pending| && s.pending[i].key == k && !s.pending[i].Delete?
  }

  ghost predicate AwaitsDelete(s: System, c: Cluster) {
    exists i :: 0 <= i < |s.pending| && s.pending[i].key.cluster == c && s.pending[i].Delete?
  }

  ghost predicate Awaits(s: System, k: Key) {
    exists i :: 0 <= i < |s.pending| && s.pending[i].key == k
  }

  /** The store is the delivered state plus the waiting notifications. */
  ghost predicate InStep(s: System) {
    Replay(s.seen, s.pending) == s.store
  }

  /** Whatever the filters and failures: an engaged cluster is present, or is about to be checked, or missed
      its check. */
  ghost predicate EngagedAccounted(s: System) {
    forall c :: c in s.endpoint.engaged ==>
      c in Present(s.store) || AwaitsDelete(s, c) || c in s.unchecked
  }

  /** A stored object with nothing waiting has been delivered, and its cluster is engaged if that went through. */
  ghost predicate SettledEngaged(s: System) {
    forall k :: k in s.store && !Awaits(s, k) && k in s.settled ==> k.cluster in s.endpoint.engaged
  }

  ghost predicate UncheckedEngaged(s: System) {
    s.unchecked <= s.endpoint.engaged.Keys
  }

  /** Engaged clusters use the provider the manager has for them. */
  ghost predicate RecordersLive(e: Endpoint) {
    && R.Valid(e.recorders)
    && forall c :: c in e.engaged ==> c in e.recorders.providers && e.recorders.providers[c] == e.engaged[c]
  }

  ghost predicate Inv(s: System) {
    InStep(s) && EngagedAccounted(s) && SettledEngaged(s) && UncheckedEngaged(s) && RecordersLive(s.endpoint)
  }

  lemma {:induction false} ReplayAppend(store: map<Key, int>, events: seq<Event>, e: Event)
    ensures Replay(store, events + [e]) == Store(Replay(store, events), e)
    decreases |events|
  {
    if events != [] {
      assert (events + [e])[1..] == events[1..] + [e];
      ReplayAppend(Store(store, events[0]), events[1..], e);
    }
  }

  /** A key that replay loses is deleted by one of the events. */
  lemma {:induction false} LostKeyIsDeleted(store: map<Key, int>, events: seq<Event>, k: Key)
    requires k in store && k !in Replay(store, events)
    ensures exists i :: 0 <= i < |events| && events[i] == Delete(k)
    decreases |events|
  {
    if events[0] != Delete(k) {
      LostKeyIsDeleted(Store(store, events[0]), events[1..], k);
      var i :| 0 <= i < |events[1..]| && events[1..][i] == Delete(k);
      assert events[i + 1] == Delete(k);
    }
  }

  /** A key that replay gains is added or updated by one of the events. */
  lemma {:induction false} GainedKeyIsUpserted(store: map<Key, int>, events: seq<Event>, k: Key)
    requires k !in store && k in Replay(store, events)
    ensures exists i :: 0 <= i < |events| && events[i].key == k && !events[i].Delete?
    decreases |events|
  {
    if events[0].key != k || events[0].Delete? {
      GainedKeyIsUpserted(Store(store, events[0]), events[1..], k);
      var i :| 0 <= i < |events[1..]| && events[1..][i].key == k && !events[1..][i].Delete?;
      assert events[i + 1].key == k;
    }
  }

  /** Appending a notification keeps what was waiting, and the new one waits too. */
  lemma AppendedAwaits(s: System, s': System, e: Event)
    requires s'.pending == s.pending + [e]
    ensures forall k :: Awaits(s, k) || e.key == k ==> Awaits(s', k)
    ensures forall k :: AwaitsUpsert(s, k) || (e.key == k && !e.Delete?) ==> AwaitsUpsert(s', k)
    ensures forall c :: AwaitsDelete(s, c) || (e.key.cluster == c && e.Delete?) ==> AwaitsDelete(s', c)
  {
    assert s'.pending[|s.pending|] == e;
    forall i | 0 <= i < |s.pending| ensures s'.pending[i] == s.pending[i] {}
  }

  lemma EmitKeepsInv(s: System, step: Step)
    requires Inv(s) && !step.Deliver?
    ensures Inv(Next(s, step))
  {
    var s' := Next(s, step);
    if s' != s {
      var e := if step.Watch? then step.event else Update(step.key, s.store[step.key]);
      ReplayAppend(s.seen, s.pending, e);
      AppendedAwaits(s, s', e);
      forall c | c in s.endpoint.engaged ensures c in Present(s'.store) || AwaitsDelete(s', c) || c in s'.unchecked {
        if c in Present(s.store) {
          var k :| k in s.store && k.cluster == c;
          assert k in s'.store || e == Delete(k);
        }
      }
    }
  }

  /** What is waiting behind the head stays waiting once the head is delivered. */
  lemma TailStillAwaits(s: System, s': System)
    requires s.pending != [] && s'.pending == s.pending[1..]
    ensures forall k :: Awaits(s, k) && s.pending[0].key != k ==> Awaits(s', k)
    ensures forall k :: AwaitsUpsert(s, k) && (s.pending[0].key != k || s.pending[0].Delete?) ==> AwaitsUpsert(s', k)
    ensures forall c :: AwaitsDelete(s, c) && (s.pending[0].key.cluster != c || !s.pending[0].Delete?) ==> AwaitsDelete(s', c)
  {}

  lemma UpsertKeepsRecordersLive(e: Endpoint, c: Cluster, verdict: Verdict, fault: UpdateFault)
    requires RecordersLive(e)
    ensures RecordersLive(Upserted(e, c, verdict, fault))
  {}

  lemma DeleteKeepsRecordersLive(e: Endpoint, c: Cluster, lookup: IndexLookup)
    requires RecordersLive(e)
    ensures RecordersLive(Deleted(e, c, lookup))
  {}

  lemma UpsertKeepsEngagedAccounted(s: System, step: Step)
    requires InStep(s) && EngagedAccounted(s)
    requires step.Deliver? && s.pending != [] && !s.pending[0].Delete?
    ensures EngagedAccounted(Next(s, step))
  {
    var s', k := Next(s, step), s.pending[0].key;
    TailStillAwaits(s, s');
    if k.cluster !in Present(s.store) {
      assert k in s'.seen && k !in s'.store;
      LostKeyIsDeleted(s'.seen, s'.pending, k);
      assert AwaitsDelete(s', k.cluster);
    }
  }

  lemma DeleteKeepsEngagedAccounted(s: System, step: Step)
    requires EngagedAccounted(s)
    requires step.Deliver? && s.pending != [] && s.pending[0].Delete?
    ensures EngagedAccounted(Next(s, step))
  {}

  lemma DeliverKeepsSettledEngaged(s: System, step: Step)
    requires SettledEngaged(s) && step.Deliver? && s.pending != []
    ensures SettledEngaged(Next(s, step))
  {}

  lemma DeliverKeepsInv(s: System, step: Step)
    requires Inv(s) && step.Deliver? && s.pending != []
    ensures Inv(Next(s, step))
  {
    DeliverKeepsSettledEngaged(s, step);
    var c := s.pending[0].key.cluster;
    if s.pending[0].Delete? {
      DeleteKeepsEngagedAccounted(s, step);
      DeleteKeepsRecordersLive(s.endpoint, c, if step.lookupFails then IndexError else Keys(IndexKeys(s.store, c)));
    } else {
      UpsertKeepsEngagedAccounted(s, step);
      UpsertKeepsRecordersLive(s.endpoint, c, step.verdict, step.fault);
    }
  }

  lemma {:induction false} RunKeepsInv(steps: seq<Step>)
    ensures Inv(After(steps))
  {
    if steps != [] {
      var s, step := After(steps[..|steps| - 1]), steps[|steps| - 1];
      RunKeepsInv(steps[..|steps| - 1]);
      if !step.Deliver? {
        EmitKeepsInv(s, step);
      } else if s.pending != [] {
        DeliverKeepsInv(s, step);
      }
    }
  }

  // ----- results over every run -----

  /** Filters accept everything and no call fails. */
  ghost predicate Smooth(step: Step) {
    step.Deliver? ==> step.verdict.Accept? && step.fault.NoFault? && !step.lookupFails
  }

  ghost predicate LookupsSucceed(steps: seq<Step>) {
    forall i :: 0 <= i < |steps| && steps[i].Deliver? ==> !steps[i].lookupFails
  }

  ghost predicate EveryObjectEngagedOrWaiting(s: System) {
    forall k :: k in s.store ==> k.cluster in s.endpoint.engaged || AwaitsUpsert(s, k)
  }

  lemma SmoothDeliveryKeepsEngaging(s: System, step: Step)
    requires Smooth(step) && EveryObjectEngagedOrWaiting(s) && step.Deliver? && s.pending != []
    ensures EveryObjectEngagedOrWaiting(Next(s, step))
  {
    var s' := Next(s, step);
    TailStillAwaits(s, s');
    forall k | k in s.store ensures k.cluster in s'.endpoint.engaged || AwaitsUpsert(s', k) {
      assert k in IndexKeys(s.store, k.cluster);
    }
  }

  lemma EmitKeepsEngaging(s: System, step: Step)
    requires EveryObjectEngagedOrWaiting(s) && !step.Deliver?
    ensures EveryObjectEngagedOrWaiting(Next(s, step))
  {
    var s' := Next(s, step);
    if s' != s {
      AppendedAwaits(s, s', if step.Watch? then step.event else Update(step.key, s.store[step.key]));
    }
  }

  lemma {:induction false} UncheckedNeedsAFailedLookup(steps: seq<Step>)
    requires LookupsSucceed(steps)
    ensures After(steps).unchecked == {}
  {
    if steps != [] { UncheckedNeedsAFailedLookup(steps[..|steps| - 1]); }
  }

  lemma {:induction false} SmoothRunsKeepEngaging(steps: seq<Step>)
    requires forall i :: 0 <= i < |steps| ==> Smooth(steps[i])
    ensures EveryObjectEngagedOrWaiting(After(steps))
  {
    if steps != [] {
      SmoothRunsKeepEngaging(steps[..|steps| - 1]);
      var s, step := After(steps[..|steps| - 1]), steps[|steps| - 1];
      if !step.Deliver? {
        EmitKeepsEngaging(s, step);
      } else if s.pending != [] {
        SmoothDeliveryKeepsEngaging(s, step);
      }
    }
  }

  /** Without filters and failures the engaged clusters converge to the clusters with an object in the store:
      at any time each discrepancy has the notification that will mend it waiting, so there is none once the
      queue is drained. */
  lemma EngagementConverges(steps: seq<Step>)
    requires forall i :: 0 <= i < |steps| ==> Smooth(steps[i])
    ensures var s := After(steps);
            && (forall k :: k in s.store && k.cluster !in s.endpoint.engaged ==> AwaitsUpsert(s, k))
            && (forall c :: c in s.endpoint.engaged && c !in Present(s.store) ==> AwaitsDelete(s, c))
            && (s.pending == [] ==> s.endpoint.engaged.Keys == Present(s.store))
  {
    SmoothRunsKeepEngaging(steps);
    RunKeepsInv(steps);
    UncheckedNeedsAFailedLookup(steps);
    var s := After(steps);
    if s.pending == [] {
      forall c ensures c in s.endpoint.engaged.Keys <==> c in Present(s.store) {
        if c in Present(s.store) {
          var k :| k in s.store && k.cluster == c;
          assert !AwaitsUpsert(s, k);
        }
      }
    }
  }

  /** Whatever the filters answer and the update path does: once drained, engaged clusters are present, and
      an object whose latest notification went through has its cluster engaged. */
  lemma FilteredEngagementIsSound(steps: seq<Step>)
    requires LookupsSucceed(steps) && After(steps).pending == []
    ensures var s := After(steps);
            && s.endpoint.engaged.Keys <= Present(s.store)
            && (forall k :: k in s.store && k in s.settled ==> k.cluster in s.endpoint.engaged)
  {
    RunKeepsInv(steps);
    UncheckedNeedsAFailedLookup(steps);
    var s := After(steps);
    assert forall c :: !AwaitsDelete(s, c);
    assert forall k :: !Awaits(s, k);
  }

  /** With failing lookups too, a drained endpoint is right exactly when no cluster that missed its check is
      absent. */
  lemma DrainedSoundIffNoneMissed(steps: seq<Step>)
    requires After(steps).pending == []
    ensures var s := After(steps);
            s.endpoint.engaged.Keys <= Present(s.store) <==> s.unchecked <= Present(s.store)
  {
    RunKeepsInv(steps);
    var s := After(steps);
    assert forall c :: !AwaitsDelete(s, c);
  }

  /** A failed lookup really does leave a cluster engaged for good: nothing is waiting to remove it. */
  lemma FailedLookupStrandsCluster()
    ensures var k := Key("c", "", "b");
            var s := After([Watch(Add(k, 0)), Deliver(Accept, NoFault, false),
                            Watch(Delete(k)), Deliver(Accept, NoFault, true)]);
            s.store == map[] && s.pending == [] && "c" in s.endpoint.engaged
  {
    var k := Key("c", "", "b");
    var w, d, x, f := Watch(Add(k, 0)), Deliver(Accept, NoFault, false), Watch(Delete(k)), Deliver(Accept, NoFault, true);
    assert [w, d, x, f][..3] == [w, d, x] && [w, d, x][..2] == [w, d] && [w, d][..1] == [w] && [w][..0] == [];
    assert After([w]) == Next(START, w);
    assert After([w, d]) == Next(After([w]), d);
    assert After([w, d, x]) == Next(After([w, d]), x);
  }

  /** The notification that a step delivers, if it delivers one, is an add or update about `c`. */
  ghost predicate DeliversUpsert(s: System, step: Step, c: Cluster) {
    step.Deliver? && s.pending != [] && s.pending[0].key.cluster == c && !s.pending[0].Delete?
  }

  /** A delete about `c` is delivered, its lookups work, and nothing of `c` is left in the store. */
  ghost predicate DeliversLastDelete(s: System, step: Step, c: Cluster) {
    && step.Deliver? && s.pending != [] && s.pending[0].key.cluster == c && s.pending[0].Delete?
    && !step.lookupFails && c !in Present(s.store)
  }

  lemma NothingIndexedIffAbsent(store: map<Key, int>, c: Cluster)
    ensures IndexKeys(store, c) == {} <==> c !in Present(store)
  {
    if c in Present(store) {
      var k :| k in store && k.cluster == c;
      assert k in IndexKeys(store, c);
    }
  }

  /** A cluster becomes engaged iff an add or update about it is delivered, the filter accepts it and no call
      fails. */
  lemma EngagedIffAccepted(s: System, step: Step, c: Cluster)
    requires c !in s.endpoint.engaged
    ensures c in Next(s, step).endpoint.engaged <==>
            && DeliversUpsert(s, step, c) && step.verdict == Accept
            && (step.fault == NoFault || (step.fault.RecorderFault? && c in s.endpoint.recorders.providers))
  {}

  lemma DisengagedIffLastDelete(s: System, step: Step, c: Cluster)
    requires c in s.endpoint.engaged
    ensures c !in Next(s, step).endpoint.engaged <==> DeliversLastDelete(s, step, c)
    ensures c in Next(s, step).endpoint.engaged ==> Next(s, step).endpoint.engaged[c] == s.endpoint.engaged[c]
  {
    NothingIndexedIffAbsent(s.store, c);
  }

  lemma DisengagingStopsRecorder(s: System, step: Step, c: Cluster)
    requires RecordersLive(s.endpoint) && c in s.endpoint.engaged && DeliversLastDelete(s, step, c)
    ensures var after := Next(s, step).endpoint.recorders;
            after.Signals(s.endpoint.engaged[c]) == 1 && c !in after.providers
  {
    NothingIndexedIffAbsent(s.store, c);
  }

  /** An engaged cluster is disengaged iff a delete about it is delivered, the lookups work, and it has no object
      in the store any more; otherwise it stays engaged just as it is. Its recorder provider is then told to
      stop and is no longer registered. */
  lemma OnlyAbsentClustersAreDisengaged(steps: seq<Step>, step: Step, c: Cluster)
    requires c in After(steps).endpoint.engaged
    ensures var s, s' := After(steps), Next(After(steps), step);
            && (c !in s'.endpoint.engaged <==> DeliversLastDelete(s, step, c))
            && (c in s'.endpoint.engaged ==> s'.endpoint.engaged[c] == s.endpoint.engaged[c])
            && (c !in s'.endpoint.engaged ==>
                  && s'.endpoint.recorders.Signals(s.endpoint.engaged[c]) == 1
                  && c !in s'.endpoint.recorders.providers)
  {
    var s := After(steps);
    DisengagedIffLastDelete(s, step, c);
    if DeliversLastDelete(s, step, c) {
      RunKeepsInv(steps);
      DisengagingStopsRecorder(s, step, c);
    }
  }

  /** A recorder provider is registered for a cluster iff it was and no last delete is delivered, or an accepted
      add or update of an unengaged cluster gets past building one, whatever fails afterwards. */
  lemma RecorderRegisteredIff(s: System, step: Step, c: Cluster)
    ensures c in Next(s, step).endpoint.recorders.providers <==>
            || (c in s.endpoint.recorders.providers && !DeliversLastDelete(s, step, c))
            || (&& DeliversUpsert(s, step, c) && step.verdict == Accept && c !in s.endpoint.engaged
                && (!step.fault.RecorderFault? || c in s.endpoint.recorders.providers))
  {
    NothingIndexedIffAbsent(s.store, c);
  }

  // ----- what the history of a run decides -----

  /** Whether step `i` of a run did `a`. */
  ghost predicate Did(steps: seq<Step>, i: nat, a: (System, Step) -> bool) {
    i < |steps| && a(After(steps[..i]), steps[i])
  }

  /** The places where a run did something. */
  ghost function Places(steps: seq<Step>, a: (System, Step) -> bool): (places: set<nat>)
    ensures forall i: nat :: i in places <==> Did(steps, i, a)
  {
    set i: nat | i < |steps| && Did(steps, i, a)
  }

  /** Some step of the run did `a`, and no later one `b`. */
  ghost predicate Since(steps: seq<Step>, a: (System, Step) -> bool, b: (System, Step) -> bool) {
    Leads(Places(steps, a), Places(steps, b))
  }

  /** Some element of `p` is followed by none of `q`. */
  ghost predicate Leads(p: set<nat>, q: set<nat>) {
    exists i :: i in p && forall j :: j in q ==> j <= i
  }

  lemma LeadsSnoc(p: set<nat>, q: set<nat>, n: nat, a: bool, b: bool)
    requires (forall i :: i in p ==> i < n) && forall i :: i in q ==> i < n
    ensures Leads(p + (if a then {n} else {}), q + if b then {n} else {}) <==> a || (Leads(p, q) && !b)
  {
    var p', q' := p + (if a then {n} else {}), q + if b then {n} else {};
    if a {
      assert n in p';
    } else if b {
      assert n in q' && p' == p;
      assert forall i :: i in p' ==> !(n <= i);
    } else {
      assert p' == p && q' == q;
    }
  }

  lemma PlacesSnoc(steps: seq<Step>, a: (System, Step) -> bool)
    requires steps != []
    ensures var front, n := steps[..|steps| - 1], |steps| - 1;
            Places(steps, a) == Places(front, a) + if a(After(front), steps[n]) then {n} else {}
  {
    var front, n := steps[..|steps| - 1], |steps| - 1;
    forall i: nat | i < n ensures Did(steps, i, a) == Did(front, i, a) {
      assert steps[..i] == front[..i];
    }
  }

  lemma SinceSnoc(steps: seq<Step>, a: (System, Step) -> bool, b: (System, Step) -> bool)
    requires steps != []
    ensures var front, last := steps[..|steps| - 1], steps[|steps| - 1];
            Since(steps, a, b) <==> a(After(front), last) || (Since(front, a, b) && !b(After(front), last))
  {
    var front, n := steps[..|steps| - 1], |steps| - 1;
    PlacesSnoc(steps, a);
    PlacesSnoc(steps, b);
    LeadsSnoc(Places(front, a), Places(front, b), n, a(After(front), steps[n]), b(After(front), steps[n]));
  }

  /** An add or update about `c` is delivered and accepted, and no call that it takes fails. */
  ghost predicate Engages(s: System, step: Step, c: Cluster) {
    && DeliversUpsert(s, step, c) && step.verdict == Accept
    && (step.fault == NoFault || (step.fault.RecorderFault? && c in s.endpoint.recorders.providers))
  }

  /** In every run exactly those clusters are engaged that had an accepted add or update, with no call failing,
      since the last time a delete disengaged them. */
  lemma {:induction false} EngagedIffAcceptedSince(steps: seq<Step>, c: Cluster)
    ensures c in After(steps).endpoint.engaged <==>
            Since(steps, (s, step) => Engages(s, step, c), (s, step) => DeliversLastDelete(s, step, c))
  {
    if steps != [] {
      var front, last := steps[..|steps| - 1], steps[|steps| - 1];
      EngagedIffAcceptedSince(front, c);
      SinceSnoc(steps, (s, step) => Engages(s, step, c), (s, step) => DeliversLastDelete(s, step, c));
      if c in After(front).endpoint.engaged {
        DisengagedIffLastDelete(After(front), last, c);
      } else {
        EngagedIffAccepted(After(front), last, c);
      }
    }
  }

  ghost predicate Delivers(s: System, step: Step, k: Key) {
    step.Deliver? && s.pending != [] && s.pending[0].key == k
  }

  /** An add or update about `k` is delivered and accepted, and its cluster is engaged already or no call fails. */
  ghost predicate Accepts(s: System, step: Step, k: Key) {
    && Delivers(s, step, k) && !s.pending[0].Delete? && step.verdict == Accept
    && (k.cluster in s.endpoint.engaged || Engages(s, step, k.cluster))
  }

  /** `settled` is what it is said to be: the latest notification delivered about the key was accepted. */
  lemma {:induction false} SettledIffLatestAccepted(steps: seq<Step>, k: Key)
    ensures k in After(steps).settled <==>
            Since(steps, (s, step) => Accepts(s, step, k), (s, step) => Delivers(s, step, k))
  {
    if steps != [] {
      SettledIffLatestAccepted(steps[..|steps| - 1], k);
      SinceSnoc(steps, (s, step) => Accepts(s, step, k), (s, step) => Delivers(s, step, k));
    }
  }

  /** A delete about an engaged cluster is delivered, and its lookup fails. */
  ghost predicate MissesCheck(s: System, step: Step, c: Cluster) {
    && step.Deliver? && s.pending != [] && s.pending[0].key.cluster == c && s.pending[0].Delete?
    && step.lookupFails && c in s.endpoint.engaged
  }

  /** And so is `unchecked`: such a delivery has happened since the cluster was last disengaged. */
  lemma {:induction false} UncheckedIffMissedSince(steps: seq<Step>, c: Cluster)
    ensures c in After(steps).unchecked <==>
            Since(steps, (s, step) => MissesCheck(s, step, c), (s, step) => DeliversLastDelete(s, step, c))
  {
    if steps != [] {
      var front, last := steps[..|steps| - 1], steps[|steps| - 1];
      UncheckedIffMissedSince(front, c);
      SinceSnoc(steps, (s, step) => MissesCheck(s, step, c), (s, step) => DeliversLastDelete(s, step, c));
      RunKeepsInv(front);
      if c in After(front).endpoint.engaged { DisengagedIffLastDelete(After(front), last, c); }
      UncheckedStep(After(front), last, c);
    }
  }

  lemma UncheckedStep(s: System, step: Step, c: Cluster)
    requires UncheckedEngaged(s)
    ensures c in Next(s, step).unchecked <==>
            MissesCheck(s, step, c) || (c in s.unchecked && c in Next(s, step).endpoint.engaged)
  {}

  /** Between events every engaged cluster holds the recorder provider registered for it, which has not been
      told to stop, and no two clusters share one. */
  lemma EngagedClustersHoldLiveRecorders(steps: seq<Step>, c: Cluster)
    requires c in After(steps).endpoint.engaged
    ensures var e := After(steps).endpoint;
            && e.recorders.Signals(e.engaged[c]) == 0
            && R.HandedOut(e.recorders, c, R.Builds) == R.Given(e.engaged[c])
            && (forall d :: d in e.engaged && e.engaged[d] == e.engaged[c] ==> d == c)
  {
    RunKeepsInv(steps);
  }

  /** Delivering what is waiting, without filters and failures. */
  function Deliveries(n: nat): seq<Step> { seq(n, _ => Deliver(Accept, NoFault, false)) }

  lemma AfterOneMore(steps: seq<Step>, step: Step)
    ensures After(steps + [step]) == Next(After(steps), step)
  {
    assert (steps + [step])[..|steps|] == steps;
  }

  function Drained(s: System, n: nat): System {
    if n == 0 then s else Next(Drained(s, n - 1), Deliver(Accept, NoFault, false))
  }

  lemma OneMoreDelivery(steps: seq<Step>, n: nat)
    ensures steps + Deliveries(n + 1) == steps + Deliveries(n) + [Deliver(Accept, NoFault, false)]
  {}

  lemma {:induction false} AfterDeliveries(steps: seq<Step>, n: nat)
    ensures After(steps + Deliveries(n)) == Drained(After(steps), n)
  {
    if n == 0 {
      assert steps + Deliveries(0) == steps;
    } else {
      AfterDeliveries(steps, n - 1);
      AfterOneMore(steps + Deliveries(n - 1), Deliver(Accept, NoFault, false));
      OneMoreDelivery(steps, n - 1);
    }
  }

  lemma DeliveryPops(s: System, n: nat, t: System)
    requires n < |s.pending| && t.store == s.store && t.pending == s.pending[n..]
    ensures var t' := Next(t, Deliver(Accept, NoFault, false)); t'.store == s.store && t'.pending == s.pending[n + 1..]
  {}

  lemma {:induction false} DeliveriesDrain(s: System, n: nat)
    requires n <= |s.pending|
    ensures Drained(s, n).store == s.store && Drained(s, n).pending == s.pending[n..]
  {
    if n > 0 {
      DeliveriesDrain(s, n - 1);
      DeliveryPops(s, n - 1, Drained(s, n - 1));
    }
  }

  /** When the watch goes quiet, delivering the waiting notifications engages exactly the present clusters,
      wherever the run had got to. */
  lemma EngagementCatchesUp(steps: seq<Step>)
    requires forall i :: 0 <= i < |steps| ==> Smooth(steps[i])
    ensures var s' := After(steps + Deliveries(|After(steps).pending|));
            s'.pending == [] && s'.endpoint.engaged.Keys == Present(After(steps).store)
  {
    var s := After(steps);
    var drained := steps + Deliveries(|s.pending|);
    AfterDeliveries(steps, |s.pending|);
    DeliveriesDrain(s, |s.pending|);
    EngagementConverges(drained);
  }
}
