/** The aggregate cache's operations one at a time: what each does to the tracked handlers and to the handler
    sets of the shards' informers, failures included. */
module AggregateCaches {
  import opened P = AggregateProtocol

  /** One registration made with the informer of `cache`, on behalf of cache id `id`. */
  datatype Registration = Registration(id: CacheId, cache: Cache, gvk: Gvk, handler: Handler)

  /** How many of the first `n` entries carry handler `h`, leaving out the positions in `failed`. */
  function Carrying(entries: seq<Entry>, h: Handler, failed: set<nat>, n: nat): nat
    requires n <= |entries|
  {
    if n == 0 then 0
    else Carrying(entries, h, failed, n - 1) + if entries[n - 1].handler == h && n - 1 !in failed then 1 else 0
  }

  /** Every entry of an informer told about an operation; `failed` are the positions where that fails. */
  function NotifiedAll(entries: seq<Entry>, op: Op, failed: set<nat>): seq<Entry> {
    seq(|entries|, i requires 0 <= i < |entries| => Notified(entries[i], op, i !in failed))
  }

  lemma {:induction false} NotifyingKeepsHandlers(entries: seq<Entry>, op: Op, failed: set<nat>, h: Handler, n: nat)
    requires n <= |entries|
    ensures Carrying(NotifiedAll(entries, op, failed), h, {}, n) == Carrying(entries, h, {}, n)
  {
    if n > 0 { NotifyingKeepsHandlers(entries, op, failed, h, n - 1); }
  }

  lemma {:induction false} CarryingPrefix(entries: seq<Entry>, e: Entry, h: Handler, n: nat)
    requires n <= |entries|
    ensures Carrying(entries + [e], h, {}, n) == Carrying(entries, h, {}, n)
  {
    if n > 0 { CarryingPrefix(entries, e, h, n - 1); }
  }

  /** Which entries of `g` fail to register. */
  function FailedOf(failed: map<Gvk, set<nat>>, g: Gvk): set<nat> { if g in failed then failed[g] else {} }

  /** All informers but those in `skip` told about an operation. */
  function NotifiedInformers(informers: map<Gvk, seq<Entry>>, op: Op, skip: set<Gvk>, failed: map<Gvk, set<nat>>): map<Gvk, seq<Entry>> {
    map g | g in informers :: if g in skip then informers[g] else NotifiedAll(informers[g], op, FailedOf(failed, g))
  }

  /** How often telling the entries of `g` about a new cache makes the registration `x`. */
  function MadeBy(entries: seq<Entry>, g: Gvk, x: Registration, id: CacheId, c: Cache, failed: set<nat>): nat {
    if x.id == id && x.cache == c && x.gvk == g then Carrying(entries, x.handler, failed, |entries|) else 0
  }

  /** The same for all informers but those in `skip`. */
  function Made(informers: map<Gvk, seq<Entry>>, x: Registration, id: CacheId, c: Cache, skip: set<Gvk>, failed: map<Gvk, set<nat>>): nat {
    if x.gvk in informers && x.gvk !in skip then MadeBy(informers[x.gvk], x.gvk, x, id, c, FailedOf(failed, x.gvk)) else 0
  }

  /** Telling one more informer. */
  lemma NotifyOneMore(informers: map<Gvk, seq<Entry>>, op: Op, skip: set<Gvk>, failed: map<Gvk, set<nat>>, g: Gvk)
    requires g in informers && g in skip
    ensures NotifiedInformers(informers, op, skip, failed)[g := NotifiedAll(informers[g], op, FailedOf(failed, g))] ==
            NotifiedInformers(informers, op, skip - {g}, failed)
  {}

  lemma MakeOneMore(informers: map<Gvk, seq<Entry>>, id: CacheId, c: Cache, skip: set<Gvk>, failed: map<Gvk, set<nat>>, g: Gvk)
    requires g in informers && g in skip
    ensures forall x: Registration :: Made(informers, x, id, c, skip - {g}, failed) ==
              Made(informers, x, id, c, skip, failed) + MadeBy(informers[g], g, x, id, c, FailedOf(failed, g))
  {}

  /** 1 if `x` is the registration of handler `h` of `g` that `regs` records, and 0 otherwise. */
  function Recorded(x: Registration, g: Gvk, h: Handler, regs: map<CacheId, Cache>): nat {
    if x.gvk == g && x.handler == h && x.id in regs && regs[x.id] == x.cache then 1 else 0
  }

  function Among(caches: map<CacheId, Cache>, ids: set<CacheId>): map<CacheId, Cache> {
    map id | id in caches && id in ids :: caches[id]
  }

  /** `lookup` and `register` are the cache ids for which that call fails while the handler is being added, and
      `cleanup` those for which taking a registration back fails. */
  datatype HandlerFaults = HandlerFaults(lookup: set<CacheId>, register: set<CacheId>, cleanup: set<CacheId>)

  datatype Added = Tracked | FailedAt(id: CacheId)

  /** `live` holds the registrations the shards' informers have. */
  datatype Aggregate = Aggregate(caches: map<CacheId, Cache>, informers: map<Gvk, seq<Entry>>, live: multiset<Registration>)

  /** Each handler is registered for exactly the current caches, exactly once with each of them. */
  ghost predicate Complete(a: Aggregate) {
    && (forall g, i :: g in a.informers && 0 <= i < |a.informers[g]| ==> a.informers[g][i].regs == a.caches)
    && (forall x: Registration :: x.id in a.caches && a.caches[x.id] == x.cache ==>
          a.live[x] == Made(a.informers, x, x.id, x.cache, {}, map[]))
  }

  ghost predicate HandlerAdded(a: Aggregate, b: Aggregate, g: Gvk, h: Handler)
    requires g in a.informers
  {
    && b.caches == a.caches
    && b.informers == a.informers[g := a.informers[g] + [Entry(h, a.caches)]]
    && forall x: Registration :: b.live[x] == a.live[x] + Recorded(x, g, h, a.caches)
  }

  ghost predicate CacheAdded(a: Aggregate, b: Aggregate, id: CacheId, c: Cache, lookup: set<Gvk>, failed: map<Gvk, set<nat>>) {
    && b.caches == a.caches[id := c]
    && b.informers == NotifiedInformers(a.informers, Add(id, c), lookup, failed)
    && forall x: Registration :: b.live[x] == a.live[x] + Made(a.informers, x, id, c, lookup, failed)
  }

  ghost predicate CacheRemoved(a: Aggregate, b: Aggregate, id: CacheId) {
    && b.caches == a.caches - {id}
    && b.informers == NotifiedInformers(a.informers, Remove(id), {}, map[])
    && b.live == a.live
  }

  lemma NotifyingKeepsMade(informers: map<Gvk, seq<Entry>>, op: Op, x: Registration)
    ensures Made(NotifiedInformers(informers, op, {}, map[]), x, x.id, x.cache, {}, map[]) == Made(informers, x, x.id, x.cache, {}, map[])
  {
    if x.gvk in informers {
      NotifyingKeepsHandlers(informers[x.gvk], op, {}, x.handler, |informers[x.gvk]|);
    }
  }

  lemma AddedHandlerKeepsComplete(a: Aggregate, b: Aggregate, g: Gvk, h: Handler)
    requires Complete(a) && g in a.informers && HandlerAdded(a, b, g, h)
    ensures Complete(b)
  {
    forall x: Registration | x.id in b.caches && b.caches[x.id] == x.cache
      ensures b.live[x] == Made(b.informers, x, x.id, x.cache, {}, map[])
    {
      CarryingPrefix(a.informers[g], Entry(h, a.caches), x.handler, |a.informers[g]|);
    }
  }

  /** Adding a cache that nobody is registered with yet, without failures, registers every tracked handler with
      it exactly once and for exactly the new set of caches. */
  lemma AddedCacheKeepsComplete(a: Aggregate, b: Aggregate, id: CacheId, c: Cache)
    requires Complete(a) && CacheAdded(a, b, id, c, {}, map[])
    requires forall g, h :: a.live[Registration(id, c, g, h)] == 0
    ensures Complete(b)
  {
    forall x: Registration | x.id in b.caches && b.caches[x.id] == x.cache
      ensures b.live[x] == Made(b.informers, x, x.id, x.cache, {}, map[])
    {
      assert x == Registration(x.id, x.cache, x.gvk, x.handler);
      NotifyingKeepsMade(a.informers, Add(id, c), x);
    }
  }

  lemma RemovedCacheKeepsComplete(a: Aggregate, b: Aggregate, id: CacheId)
    requires Complete(a) && CacheRemoved(a, b, id)
    ensures Complete(b)
  {
    forall x: Registration | x.id in b.caches && b.caches[x.id] == x.cache
      ensures b.live[x] == Made(b.informers, x, x.id, x.cache, {}, map[])
    {
      NotifyingKeepsMade(a.informers, Remove(id), x);
    }
  }

  // ----- with failures -----

  predicate Records(e: Entry, x: Registration) {
    e.handler == x.handler && x.id in e.regs && e.regs[x.id] == x.cache
  }

  /** How many of the first `n` entries record `x`. */
  function Recording(entries: seq<Entry>, x: Registration, n: nat): nat
    requires n <= |entries|
  {
    if n == 0 then 0 else Recording(entries, x, n - 1) + if Records(entries[n - 1], x) then 1 else 0
  }

  function RecordingIn(informers: map<Gvk, seq<Entry>>, x: Registration): nat {
    if x.gvk in informers then Recording(informers[x.gvk], x, |informers[x.gvk]|) else 0
  }

  /** What the entries record is there: each has a live registration of its own. */
  ghost predicate Honest(a: Aggregate) {
    forall x: Registration :: RecordingIn(a.informers, x) <= a.live[x]
  }

  lemma {:induction false} RecordingPrefix(entries: seq<Entry>, e: Entry, x: Registration, n: nat)
    requires n <= |entries|
    ensures Recording(entries + [e], x, n) == Recording(entries, x, n)
  {
    if n > 0 { RecordingPrefix(entries, e, x, n - 1); }
  }

  /** Telling the entries about a new cache adds no more records than registrations. */
  lemma {:induction false} RecordingNotified(entries: seq<Entry>, op: Op, failed: set<nat>, x: Registration, n: nat)
    requires n <= |entries|
    ensures Recording(NotifiedAll(entries, op, failed), x, n) <= Recording(entries, x, n) +
              if op == Add(x.id, x.cache) then Carrying(entries, x.handler, failed, n) else 0
  {
    if n > 0 { RecordingNotified(entries, op, failed, x, n - 1); }
  }

  lemma AddedHandlerKeepsHonest(a: Aggregate, b: Aggregate, g: Gvk, h: Handler)
    requires Honest(a) && g in a.informers && HandlerAdded(a, b, g, h)
    ensures Honest(b)
  {
    forall x: Registration ensures RecordingIn(b.informers, x) <= b.live[x] {
      RecordingPrefix(a.informers[g], Entry(h, a.caches), x, |a.informers[g]|);
      assert RecordingIn(a.informers, x) <= a.live[x];
    }
  }

  /** Whatever lookups and registrations fail while a cache is added, no entry comes to record a registration that
      was not made. */
  lemma AddedCacheKeepsHonest(a: Aggregate, b: Aggregate, id: CacheId, c: Cache, lookup: set<Gvk>, failed: map<Gvk, set<nat>>)
    requires Honest(a) && CacheAdded(a, b, id, c, lookup, failed)
    ensures Honest(b)
  {
    forall x: Registration ensures RecordingIn(b.informers, x) <= b.live[x] {
      assert RecordingIn(a.informers, x) <= a.live[x];
      if x.gvk in a.informers {
        var entries := a.informers[x.gvk];
        RecordingNotified(entries, Add(id, c), FailedOf(failed, x.gvk), x, |entries|);
      }
    }
  }

  lemma RemovedCacheKeepsHonest(a: Aggregate, b: Aggregate, id: CacheId)
    requires Honest(a) && CacheRemoved(a, b, id)
    ensures Honest(b)
  {
    forall x: Registration ensures RecordingIn(b.informers, x) <= b.live[x] {
      assert RecordingIn(a.informers, x) <= a.live[x];
      if x.gvk in a.informers {
        RecordingNotified(a.informers[x.gvk], Remove(id), {}, x, |a.informers[x.gvk]|);
      }
    }
  }

  class AggregateCache {
    var caches: map<CacheId, Cache>
    var informers: map<Gvk, seq<Entry>>
    var live: multiset<Registration>

    ghost function Abs(): Aggregate reads this { Aggregate(caches, informers, live) }

    constructor ()
      ensures Abs() == Aggregate(map[], map[], multiset{}) && Complete(Abs())
    {
      caches, informers, live := map[], map[], multiset{};
    }

    method GetAggregateInformer(g: Gvk)
      modifies this`informers
      ensures informers == if g in old(informers) then old(informers) else old(informers)[g := []]
      ensures old(Complete(Abs())) ==> Complete(Abs())
    {
      if g in informers {
        return;
      }
      informers := informers[g := []];
    }

    /** Takes back what an entry registered, as far as that works. */
    method CleanupRegistrations(g: Gvk, entry: Entry, cleanup: set<CacheId>)
      requires entry.regs.Keys <= caches.Keys
      requires forall id :: id in entry.regs ==> live[Registration(id, entry.regs[id], g, entry.handler)] > 0
      modifies this`live
      ensures forall x: Registration :: live[x] == old(live[x]) - Recorded(x, g, entry.handler, entry.regs - cleanup)
    {
      var todo := entry.regs.Keys;
      while todo != {}
        invariant todo <= entry.regs.Keys
        invariant forall x: Registration :: live[x] == old(live[x]) - Recorded(x, g, entry.handler, entry.regs - cleanup - todo)
        decreases todo
      {
        var id :| id in todo;
        todo := todo - {id};
        if id in caches && id !in cleanup {
          live := live - multiset{Registration(id, entry.regs[id], g, entry.handler)};
        }
      }
    }

    /** Whatever order the cache map is walked in: the call fails iff some lookup or registration would. It then
        leaves the tracked handlers alone and adds exactly the registrations it had tried and could not take
        back. A succeeding call tracks the handler, with exactly one registration per current cache. */
    method AddEventHandler(g: Gvk, h: Handler, faults: HandlerFaults) returns (r: Added)
      requires g in informers
      modifies this`informers, this`live
      ensures r.Tracked? <==> caches.Keys !! faults.lookup + faults.register
      ensures r.Tracked? ==> HandlerAdded(old(Abs()), Abs(), g, h)
      ensures r.FailedAt? ==> r.id in caches && r.id in faults.lookup + faults.register
      ensures r.FailedAt? ==> informers == old(informers)
      ensures r.FailedAt? ==> exists tried: set<CacheId> ::
                && tried <= caches.Keys - {r.id} && tried !! faults.lookup + faults.register
                && forall x: Registration :: live[x] == old(live[x]) + Recorded(x, g, h, Among(caches, tried * faults.cleanup))
      ensures r.FailedAt? && faults.cleanup !! caches.Keys ==> live == old(live)
      ensures r.Tracked? && old(Complete(Abs())) ==> Complete(Abs())
    {
      var regs: map<CacheId, Cache> := map[];
      var todo := caches.Keys;
      while todo != {}
        invariant todo !! regs.Keys && todo + regs.Keys == caches.Keys
        invariant regs.Keys !! faults.lookup + faults.register
        invariant forall id :: id in regs ==> regs[id] == caches[id]
        invariant informers == old(informers)
        invariant forall x: Registration :: live[x] == old(live[x]) + Recorded(x, g, h, regs)
        decreases todo
      {
        var id :| id in todo;
        if id in faults.lookup || id in faults.register {
          CleanupRegistrations(g, Entry(h, regs), faults.cleanup);
          assert forall x: Registration ::
              live[x] == old(live[x]) + Recorded(x, g, h, Among(caches, regs.Keys * faults.cleanup));
          return FailedAt(id);
        }
        live := live + multiset{Registration(id, caches[id], g, h)};
        regs := regs[id := caches[id]];
        todo := todo - {id};
      }
      assert regs == caches;
      informers := informers[g := informers[g] + [Entry(h, regs)]];
      r := Tracked;
      if old(Complete(Abs())) {
        AddedHandlerKeepsComplete(old(Abs()), Abs(), g, h);
      }
    }

    /** Registers every tracked handler of `g` with the new cache; `failed` are the entries where that fails. */
    method OnCacheAdded(g: Gvk, id: CacheId, c: Cache, lookupFails: bool, failed: set<nat>)
      requires g in informers
      modifies this`informers, this`live
      ensures lookupFails ==> informers == old(informers) && live == old(live)
      ensures !lookupFails ==> informers == old(informers)[g := NotifiedAll(old(informers[g]), Add(id, c), failed)]
      ensures !lookupFails ==> forall x: Registration ::
                live[x] == old(live[x]) + MadeBy(old(informers[g]), g, x, id, c, failed)
    {
      if lookupFails {
        return;
      }
      var before := informers[g];
      ghost var live0 := live;
      var entries := before;
      for i := 0 to |before|
        invariant |entries| == |before| && informers == old(informers)
        invariant forall j :: 0 <= j < i ==> entries[j] == Notified(before[j], Add(id, c), j !in failed)
        invariant forall j :: i <= j < |before| ==> entries[j] == before[j]
        invariant forall h :: live[Registration(id, c, g, h)] == live0[Registration(id, c, g, h)] + Carrying(before, h, failed, i)
        invariant forall x: Registration :: x != Registration(id, c, g, x.handler) ==> live[x] == live0[x]
      {
        if i in failed {
          continue;
        }
        live := live + multiset{Registration(id, c, g, entries[i].handler)};
        entries := entries[i := entries[i].(regs := entries[i].regs[id := c])];
      }
      informers := informers[g := entries];
      assert entries == NotifiedAll(before, Add(id, c), failed);
      forall x: Registration ensures live[x] == live0[x] + MadeBy(before, g, x, id, c, failed) {
        assert x == Registration(x.id, x.cache, x.gvk, x.handler);
      }
    }

    method OnCacheRemoved(g: Gvk, id: CacheId)
      requires g in informers
      modifies this`informers
      ensures informers == old(informers)[g := NotifiedAll(old(informers[g]), Remove(id), {})]
    {
      var entries := informers[g];
      for i := 0 to |entries|
        invariant |entries| == |old(informers[g])|
        invariant forall j :: 0 <= j < |entries| ==>
                    entries[j] == if j < i then Notified(old(informers[g])[j], Remove(id), true) else old(informers[g])[j]
      {
        entries := entries[i := entries[i].(regs := entries[i].regs - {id})];
      }
      informers := informers[g := entries];
      assert entries == NotifiedAll(old(informers[g]), Remove(id), {});
    }

    /** Publishes the cache, then notifies the informers in an arbitrary order. */
    method AddCache(id: CacheId, c: Cache, lookup: set<Gvk>, failed: map<Gvk, set<nat>>)
      modifies this
      ensures CacheAdded(old(Abs()), Abs(), id, c, lookup, failed)
    {
      caches := caches[id := c];
      var todo := informers.Keys;
      while todo != {}
        invariant todo <= informers.Keys == old(informers.Keys)
        invariant caches == old(caches)[id := c]
        invariant informers == NotifiedInformers(old(informers), Add(id, c), lookup + todo, failed)
        invariant forall x: Registration :: live[x] == old(live[x]) + Made(old(informers), x, id, c, lookup + todo, failed)
        decreases todo
      {
        var g :| g in todo;
        if g in lookup {
          assert lookup + (todo - {g}) == lookup + todo;
        } else {
          assert lookup + (todo - {g}) == lookup + todo - {g};
          NotifyOneMore(old(informers), Add(id, c), lookup + todo, failed, g);
          MakeOneMore(old(informers), id, c, lookup + todo, failed, g);
        }
        OnCacheAdded(g, id, c, g in lookup, FailedOf(failed, g));
        todo := todo - {g};
      }
      assert lookup + todo == lookup;
    }

    /** Unpublishes the cache, then forgets its registrations; the shard's informer goes away with its cache, so
        they are not taken back there. */
    method RemoveCache(id: CacheId)
      modifies this`caches, this`informers
      ensures CacheRemoved(old(Abs()), Abs(), id)
    {
      caches := caches - {id};
      var todo := informers.Keys;
      while todo != {}
        invariant todo <= informers.Keys == old(informers.Keys)
        invariant caches == old(caches) - {id}
        invariant informers == NotifiedInformers(old(informers), Remove(id), todo, map[])
        decreases todo
      {
        var g :| g in todo;
        NotifyOneMore(old(informers), Remove(id), todo, map[], g);
        OnCacheRemoved(g, id);
        todo := todo - {g};
      }
    }
  }
}
