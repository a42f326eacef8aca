/** The aggregate cache and its informers under concurrency: one goroutine adds and removes caches, any number
    of others add handlers, ask for informers and check whether they have synced.

    Three kinds of lock are involved: the one on the cache map, the one on the informer map, and one per
    informer. Who holds or waits for a lock is read off the program counters. `AddCache` publishes the cache in
    one critical section and notifies the informers in later ones, so handlers can be added in between. */
module AggregateProtocol {
  import T = Totals

  type CacheId = string
  type Gvk = string
  type Tid = nat

  /** Caches and handlers are opaque references. */
  type Cache = nat
  type Handler = nat

  /** A handler and, per cache id, the cache it is registered with. */
  datatype Entry = Entry(handler: Handler, regs: map<CacheId, Cache>)

  datatype Op = Add(id: CacheId, cache: Cache) | Remove(id: CacheId)

  /** The goroutine that changes the set of caches. */
  datatype Mutator =
    | Idle
    | WantsCaches(op: Op)
    | HoldsCaches(op: Op)
    | Published(op: Op)                                              // wants to read the informer map
    | Walking(op: Op, todo: set<Gvk>)                                // reads the informer map
    | WantsInformer(op: Op, todo: set<Gvk>, gvk: Gvk)
    | Visiting(op: Op, todo: set<Gvk>, gvk: Gvk, at: nat)            // holds one informer as well

  /** Any other goroutine. */
  datatype Caller =
    | Resting
    | WantsToRegister(gvk: Gvk, handler: Handler)                    // wants to read the caches
    | WantsHandlers(gvk: Gvk, handler: Handler)                      // reads the caches, wants the informer
    | Registering(gvk: Gvk, handler: Handler, todo: set<CacheId>, regs: map<CacheId, Cache>)
    | Undoing(gvk: Gvk, handler: Handler, todo: set<CacheId>)
    | WantsInformerMap(gvk: Gvk)
    | HoldsInformerMap(gvk: Gvk)
    | WantsToScan                                                    // HasSynced of an informer, or List
    | Scanning
    | WantsToCheck(gvk: Gvk)                                         // HasSynced of a registration
    | Checking(gvk: Gvk)

  /** `gaps` is history: the registrations that failed while the cache in question was being added. */
  datatype System = System(
    caches: map<CacheId, Cache>,
    informers: map<Gvk, seq<Entry>>,
    mutator: Mutator,
    callers: map<Tid, Caller>,
    gaps: set<(Gvk, nat, CacheId)>)
  {
    function At(t: Tid): Caller { if t in callers then callers[t] else Resting }

    function To(t: Tid, c: Caller): System { this.(callers := callers[t := c]) }
  }

  const START := System(map[], map[], Idle, map[], {})

  // ----- who holds what -----

  predicate ReadsCaches(c: Caller) { c.WantsHandlers? || c.Registering? || c.Undoing? || c.Scanning? }
  predicate WritesInformer(c: Caller, g: Gvk) { (c.Registering? || c.Undoing?) && c.gvk == g }
  predicate UsesInformer(c: Caller, g: Gvk) { WritesInformer(c, g) || (c.Checking? && c.gvk == g) }

  predicate MutatorReadsInformerMap(m: Mutator) { m.Walking? || m.WantsInformer? || m.Visiting? }
  predicate MutatorHolds(m: Mutator, g: Gvk) { m.Visiting? && m.gvk == g }

  predicate NobodyReadsCaches(s: System) { forall t :: t in s.callers ==> !ReadsCaches(s.callers[t]) }
  predicate NobodyUses(s: System, g: Gvk) {
    !MutatorHolds(s.mutator, g) && forall t :: t in s.callers ==> !UsesInformer(s.callers[t], g)
  }
  predicate NobodyWrites(s: System, g: Gvk) {
    !MutatorHolds(s.mutator, g) && forall t :: t in s.callers ==> !WritesInformer(s.callers[t], g)
  }
  predicate NobodyHoldsInformerMap(s: System) { forall t :: t in s.callers ==> !s.callers[t].HoldsInformerMap? }

  // ----- steps -----

  datatype Step =
    | Begin(op: Op) | LockCaches | Publish | ReadInformerMap | Pick(g: Gvk) | LockInformer
    | LookupFails | Notify(ok: bool) | Leave | Finish
    | Caller(t: Tid, act: Act)

  datatype Act =
    | StartRegister(g: Gvk, h: Handler) | ReadCaches | LockHandlers | Register(id: CacheId, ok: bool) | Append
    | Undo(id: CacheId) | GiveUp
    | StartGet(g: Gvk) | LockInformerMap | Create
    | StartScan | Scan | EndScan
    | StartCheck(g: Gvk) | Check | EndCheck

  predicate Guard(s: System, step: Step) {
    match step
    case Begin(_) => s.mutator.Idle?
    case LockCaches => s.mutator.WantsCaches? && NobodyReadsCaches(s)
    case Publish => s.mutator.HoldsCaches?
    case ReadInformerMap => s.mutator.Published? && NobodyHoldsInformerMap(s)
    case Pick(g) => s.mutator.Walking? && g in s.mutator.todo
    case LockInformer => s.mutator.WantsInformer? && NobodyUses(s, s.mutator.gvk)
    case LookupFails => s.mutator.Visiting? && s.mutator.op.Add? && s.mutator.at == 0
    case Notify(_) => s.mutator.Visiting? && s.mutator.gvk in s.informers && s.mutator.at < |s.informers[s.mutator.gvk]|
    case Leave => s.mutator.Visiting? && s.mutator.gvk in s.informers && s.mutator.at == |s.informers[s.mutator.gvk]|
    case Finish => s.mutator.Walking? && s.mutator.todo == {}
    case Caller(t, act) => CallerGuard(s, s.At(t), act)
  }

  predicate CallerGuard(s: System, c: Caller, act: Act) {
    match act
    case StartRegister(g, _) => c.Resting? && g in s.informers
    case ReadCaches => c.WantsToRegister? && !s.mutator.HoldsCaches?
    case LockHandlers => c.WantsHandlers? && NobodyUses(s, c.gvk)
    case Register(id, _) => c.Registering? && id in c.todo && id in s.caches
    case Append => c.Registering? && c.todo == {} && c.gvk in s.informers
    case Undo(id) => c.Undoing? && id in c.todo
    case GiveUp => c.Undoing? && c.todo == {}
    case StartGet(_) => c.Resting?
    case LockInformerMap => c.WantsInformerMap? && !MutatorReadsInformerMap(s.mutator) && NobodyHoldsInformerMap(s)
    case Create => c.HoldsInformerMap?
    case StartScan => c.Resting?
    case Scan => c.WantsToScan? && !s.mutator.HoldsCaches?
    case EndScan => c.Scanning?
    case StartCheck(g) => c.Resting? && g in s.informers
    case Check => c.WantsToCheck? && NobodyWrites(s, c.gvk)
    case EndCheck => c.Checking?
  }

  /** What notifying one handler entry does. */
  function Notified(e: Entry, op: Op, ok: bool): Entry {
    match op
    case Add(id, cache) => if ok then e.(regs := e.regs[id := cache]) else e
    case Remove(id) => e.(regs := e.regs - {id})
  }

  /** Steps whose guard fails leave the state alone. */
  function Next(s: System, step: Step): System {
    if !Guard(s, step) then s
    else
      var m := s.mutator;
      match step
      case Begin(op) => s.(mutator := WantsCaches(op))
      case LockCaches => s.(mutator := HoldsCaches(m.op))
      case Publish =>
        s.(mutator := Published(m.op),
           caches := match m.op case Add(id, cache) => s.caches[id := cache] case Remove(id) => s.caches - {id},
           gaps := set p | p in s.gaps && p.2 != m.op.id)
      case ReadInformerMap => s.(mutator := Walking(m.op, s.informers.Keys))
      case Pick(g) => s.(mutator := WantsInformer(m.op, m.todo - {g}, g))
      case LockInformer => s.(mutator := Visiting(m.op, m.todo, m.gvk, 0))
      case LookupFails =>
        s.(mutator := Walking(m.op, m.todo),
           gaps := s.gaps + if m.gvk in s.informers then set i | 0 <= i < |s.informers[m.gvk]| :: (m.gvk, i, m.op.id) else {})
      case Notify(ok) =>
        var entries := s.informers[m.gvk];
        s.(mutator := Visiting(m.op, m.todo, m.gvk, m.at + 1),
           informers := s.informers[m.gvk := entries[m.at := Notified(entries[m.at], m.op, ok)]],
           gaps := if m.op.Add? && !ok then s.gaps + {(m.gvk, m.at, m.op.id)} else s.gaps)
      case Leave => s.(mutator := Walking(m.op, m.todo))
      case Finish => s.(mutator := Idle)
      case Caller(t, act) => Acted(s, t, s.At(t), act)
  }

  function Acted(s: System, t: Tid, c: Caller, act: Act): System
    requires CallerGuard(s, c, act)
  {
    match act
    case StartRegister(g, h) => s.To(t, WantsToRegister(g, h))
    case ReadCaches => s.To(t, WantsHandlers(c.gvk, c.handler))
    case LockHandlers => s.To(t, Registering(c.gvk, c.handler, s.caches.Keys, map[]))
    case Register(id, ok) =>
      if ok then s.To(t, Registering(c.gvk, c.handler, c.todo - {id}, c.regs[id := s.caches[id]]))
      else s.To(t, Undoing(c.gvk, c.handler, c.regs.Keys))
    case Append =>
      s.To(t, Resting).(informers := s.informers[c.gvk := s.informers[c.gvk] + [Entry(c.handler, c.regs)]])
    case Undo(id) => s.To(t, Undoing(c.gvk, c.handler, c.todo - {id}))
    case GiveUp => s.To(t, Resting)
    case StartGet(g) => s.To(t, WantsInformerMap(g))
    case LockInformerMap => s.To(t, HoldsInformerMap(c.gvk))
    case Create =>
      s.To(t, Resting).(informers := if c.gvk in s.informers then s.informers else s.informers[c.gvk := []])
    case StartScan => s.To(t, WantsToScan)
    case Scan => s.To(t, Scanning)
    case EndScan => s.To(t, Resting)
    case StartCheck(g) => s.To(t, WantsToCheck(g))
    case Check => s.To(t, Checking(c.gvk))
    case EndCheck => s.To(t, Resting)
  }

  function After(steps: seq<Step>): System {
    if steps == [] then START else Next(After(steps[..|steps| - 1]), steps[|steps| - 1])
  }

  // ----- invariants -----

  ghost predicate Exclusive(s: System) {
    && (s.mutator.HoldsCaches? ==> NobodyReadsCaches(s))
    && (MutatorReadsInformerMap(s.mutator) ==> NobodyHoldsInformerMap(s))
    && (forall t :: t in s.callers && s.mutator.Visiting? ==> !UsesInformer(s.callers[t], s.mutator.gvk))
    && (forall t, u :: t in s.callers && u in s.callers && t != u && (s.callers[t].Registering? || s.callers[t].Undoing?) ==>
          !UsesInformer(s.callers[u], s.callers[t].gvk))
    && (forall t, u :: t in s.callers && u in s.callers && t != u && s.callers[t].HoldsInformerMap? ==>
          !s.callers[u].HoldsInformerMap?)
  }

  /** The cache map reflects an operation once it has been published. */
  ghost predicate Effected(caches: map<CacheId, Cache>, op: Op) {
    match op
    case Add(id, cache) => id in caches && caches[id] == cache
    case Remove(id) => id !in caches
  }

  ghost predicate MutatorInv(s: System) {
    && (s.mutator.Published? || MutatorReadsInformerMap(s.mutator) ==> Effected(s.caches, s.mutator.op))
    && match s.mutator
    case Walking(_, todo) => todo <= s.informers.Keys
    case WantsInformer(_, todo, g) => todo <= s.informers.Keys && g in s.informers && g !in todo
    case Visiting(_, todo, g, at) => todo <= s.informers.Keys && g in s.informers && g !in todo && at <= |s.informers[g]|
    case _ => true
  }

  /** A goroutine registering a handler has done the caches that are no longer on its list, and only those. */
  ghost predicate CallerOk(s: System, c: Caller) {
    && (c.WantsToRegister? || c.WantsHandlers? || c.Registering? || c.Undoing? ==> c.gvk in s.informers)
    && (c.Registering? ==>
          && c.regs.Keys !! c.todo && c.regs.Keys + c.todo == s.caches.Keys
          && forall id :: id in c.regs ==> id in s.caches && c.regs[id] == s.caches[id])
  }

  ghost predicate CallersInv(s: System) {
    forall t :: t in s.callers ==> CallerOk(s, s.callers[t])
  }

  /** An entry is registered for `id` iff there is such a cache, and then with that very cache. */
  ghost predicate Right(caches: map<CacheId, Cache>, e: Entry, id: CacheId) {
    && (id in e.regs <==> id in caches)
    && (id in e.regs ==> id in caches && e.regs[id] == caches[id])
  }

  /** The mutator has published a change to `id` that entry `i` of `g` has not been told of yet. */
  ghost predicate Due(m: Mutator, g: Gvk, i: nat, id: CacheId) {
    match m
    case Published(op) => op.id == id
    case Walking(op, todo) => op.id == id && g in todo
    case WantsInformer(op, todo, h) => op.id == id && (g in todo || g == h)
    case Visiting(op, todo, h, at) => op.id == id && (g in todo || (g == h && i >= at))
    case _ => false
  }

  ghost predicate Covered(s: System) {
    forall g, i, id :: g in s.informers && 0 <= i < |s.informers[g]| && !Due(s.mutator, g, i, id) && (g, i, id) !in s.gaps ==>
      Right(s.caches, s.informers[g][i], id)
  }

  ghost predicate Inv(s: System) {
    Exclusive(s) && MutatorInv(s) && CallersInv(s) && Covered(s)
  }

  lemma PublishKeepsInv(s: System)
    requires Inv(s) && Guard(s, Publish)
    ensures Inv(Next(s, Publish))
  {}

  lemma NotifyKeepsInv(s: System, ok: bool)
    requires Inv(s) && Guard(s, Notify(ok))
    ensures Inv(Next(s, Notify(ok)))
  {}

  lemma LookupFailureKeepsInv(s: System)
    requires Inv(s) && Guard(s, LookupFails)
    ensures Inv(Next(s, LookupFails))
  {}

  lemma OtherMutatorStepsKeepInv(s: System, step: Step)
    requires Inv(s) && Guard(s, step)
    requires step.Begin? || step.LockCaches? || step.ReadInformerMap? || step.Pick? || step.LockInformer? || step.Leave? || step.Finish?
    ensures Inv(Next(s, step))
  {}

  /** What a step of goroutine `t` can newly hold was free. */
  lemma TakesOnlyWhatIsFree(s: System, t: Tid, act: Act)
    requires CallerGuard(s, s.At(t), act)
    ensures var c, c' := s.At(t), Acted(s, t, s.At(t), act).At(t);
            && (ReadsCaches(c') ==> ReadsCaches(c) || !s.mutator.HoldsCaches?)
            && (c'.HoldsInformerMap? ==> NobodyHoldsInformerMap(s) && !MutatorReadsInformerMap(s.mutator))
            && (forall g :: WritesInformer(c', g) ==> WritesInformer(c, g) || NobodyUses(s, g))
            && (forall g :: UsesInformer(c', g) ==> WritesInformer(c, g) || NobodyWrites(s, g))
    ensures forall u :: u in s.callers && u != t ==> Acted(s, t, s.At(t), act).callers[u] == s.callers[u]
    ensures Acted(s, t, s.At(t), act).callers.Keys == s.callers.Keys + {t}
    ensures Acted(s, t, s.At(t), act).mutator == s.mutator
  {}

  lemma CallerKeepsExclusive(s: System, s': System, t: Tid)
    requires Exclusive(s) && s'.mutator == s.mutator && s'.callers.Keys == s.callers.Keys + {t}
    requires forall u :: u in s.callers && u != t ==> s'.callers[u] == s.callers[u]
    requires ReadsCaches(s'.callers[t]) ==> ReadsCaches(s.At(t)) || !s.mutator.HoldsCaches?
    requires s'.callers[t].HoldsInformerMap? ==> NobodyHoldsInformerMap(s) && !MutatorReadsInformerMap(s.mutator)
    requires forall g :: WritesInformer(s'.callers[t], g) ==> WritesInformer(s.At(t), g) || NobodyUses(s, g)
    requires forall g :: UsesInformer(s'.callers[t], g) ==> WritesInformer(s.At(t), g) || NobodyWrites(s, g)
    ensures Exclusive(s')
  {
    forall u, v | u in s'.callers && v in s'.callers && u != v && (s'.callers[u].Registering? || s'.callers[u].Undoing?)
      ensures !UsesInformer(s'.callers[v], s'.callers[u].gvk)
    {
      assert WritesInformer(s'.callers[u], s'.callers[u].gvk);
    }
  }

  lemma CallerKeepsMutatorInv(s: System, t: Tid, act: Act)
    requires MutatorInv(s) && CallerGuard(s, s.At(t), act)
    ensures MutatorInv(Acted(s, t, s.At(t), act))
  {}

  lemma CallerKeepsCallersInv(s: System, t: Tid, act: Act)
    requires CallersInv(s) && CallerGuard(s, s.At(t), act)
    ensures CallersInv(Acted(s, t, s.At(t), act))
  {}

  lemma CallerKeepsCovered(s: System, t: Tid, act: Act)
    requires Inv(s) && CallerGuard(s, s.At(t), act)
    ensures Covered(Acted(s, t, s.At(t), act))
  {}

  lemma StepKeepsInv(s: System, step: Step)
    requires Inv(s)
    ensures Inv(Next(s, step))
  {
    if Guard(s, step) {
      match step {
        case Publish => PublishKeepsInv(s);
        case Notify(ok) => NotifyKeepsInv(s, ok);
        case LookupFails => LookupFailureKeepsInv(s);
        case Caller(t, act) =>
          TakesOnlyWhatIsFree(s, t, act);
          CallerKeepsExclusive(s, Acted(s, t, s.At(t), act), t);
          CallerKeepsMutatorInv(s, t, act);
          CallerKeepsCallersInv(s, t, act);
          CallerKeepsCovered(s, t, act);
        case _ => OtherMutatorStepsKeepInv(s, step);
      }
    }
  }

  lemma {:induction false} RunKeepsInv(steps: seq<Step>)
    ensures Inv(After(steps))
  {
    if steps != [] {
      RunKeepsInv(steps[..|steps| - 1]);
      StepKeepsInv(After(steps[..|steps| - 1]), steps[|steps| - 1]);
    }
  }

  // ----- results over every interleaving -----

  /** Steps in which a lookup or a registration made while adding a cache fails. */
  predicate MutatorFault(step: Step) {
    step.LookupFails? || (step.Notify? && !step.ok)
  }

  lemma FaultlessStepOpensNoGap(s: System, step: Step)
    requires s.gaps == {} && !MutatorFault(step)
    ensures Next(s, step).gaps == {}
  {}

  lemma {:induction false} GapsNeedFaults(steps: seq<Step>)
    requires forall i :: 0 <= i < |steps| ==> !MutatorFault(steps[i])
    ensures After(steps).gaps == {}
  {
    if steps != [] {
      GapsNeedFaults(steps[..|steps| - 1]);
      FaultlessStepOpensNoGap(After(steps[..|steps| - 1]), steps[|steps| - 1]);
    }
  }

  /** Whenever no `AddCache` or `RemoveCache` is under way and none has failed to notify, every handler of every
      informer is registered for exactly the current cache ids, each with that id's current cache, whatever the
      other goroutines are in the middle of and however often adding a handler failed. */
  lemma HandlersCoverCaches(steps: seq<Step>, g: Gvk, i: nat)
    requires forall j :: 0 <= j < |steps| ==> !MutatorFault(steps[j])
    requires var s := After(steps); s.mutator.Idle? && g in s.informers && i < |s.informers[g]|
    ensures After(steps).informers[g][i].regs == After(steps).caches
  {
    RunKeepsInv(steps);
    GapsNeedFaults(steps);
    var s := After(steps);
    var e := s.informers[g][i];
    forall id
      ensures id in e.regs <==> id in s.caches
      ensures id in e.regs ==> e.regs[id] == s.caches[id]
    {
      assert !Due(s.mutator, g, i, id) && (g, i, id) !in s.gaps;
      assert Right(s.caches, e, id);
    }
  }

  /** With failures, only the registrations that failed since their cache id was last added or removed can be
      off, and mid-operation only the one id that is being changed, at entries not visited yet. */
  lemma OnlyFailedOrDueRegistrationsAreOff(steps: seq<Step>, g: Gvk, i: nat, id: CacheId)
    requires var s := After(steps); g in s.informers && i < |s.informers[g]| && !Right(s.caches, s.informers[g][i], id)
    ensures var s := After(steps); (g, i, id) in s.gaps || Due(s.mutator, g, i, id)
  {
    RunKeepsInv(steps);
  }

  lemma StepKeepsEntry(s: System, step: Step, g: Gvk, i: nat)
    requires g in s.informers && i < |s.informers[g]|
    ensures var s' := Next(s, step);
            g in s'.informers && i < |s'.informers[g]| && s'.informers[g][i].handler == s.informers[g][i].handler
  {}

  /** However a run goes on, a handler never loses its entry and never changes place: entries are only appended. */
  lemma {:induction false} EntriesStay(steps: seq<Step>, more: seq<Step>, g: Gvk, i: nat)
    requires var s := After(steps); g in s.informers && i < |s.informers[g]|
    ensures var s, s' := After(steps), After(steps + more);
            g in s'.informers && i < |s'.informers[g]| && s'.informers[g][i].handler == s.informers[g][i].handler
  {
    if more == [] {
      assert steps + more == steps;
    } else {
      var front := steps + more[..|more| - 1];
      assert (steps + more)[..|steps + more| - 1] == front;
      EntriesStay(steps, more[..|more| - 1], g, i);
      StepKeepsEntry(After(front), more[|more| - 1], g, i);
    }
  }

  // ----- progress -----

  ghost predicate Unfinished(s: System) {
    !s.mutator.Idle? || exists t :: t in s.callers && !s.callers[t].Resting?
  }

  /** Steps that continue an operation rather than begin one. */
  predicate Continues(step: Step) {
    match step
    case Begin(_) => false
    case Caller(_, act) => !act.StartRegister? && !act.StartGet? && !act.StartScan? && !act.StartCheck?
    case _ => true
  }

  /** Go's read-write locks let no new reader in while a writer waits. */
  predicate Polite(s: System, step: Step) {
    match step
    case ReadInformerMap => forall t :: t in s.callers ==> !s.callers[t].WantsInformerMap?
    case Caller(t, ReadCaches) => !s.mutator.WantsCaches?
    case Caller(t, Scan) => !s.mutator.WantsCaches?
    case Caller(t, Check) => NobodyWantsToWrite(s, s.At(t))
    case _ => true
  }

  predicate NobodyWantsToWrite(s: System, c: Caller) {
    c.WantsToCheck? ==>
      && !(s.mutator.WantsInformer? && s.mutator.gvk == c.gvk)
      && forall u :: u in s.callers ==> !(s.callers[u].WantsHandlers? && s.callers[u].gvk == c.gvk)
  }

  ghost predicate CanMove(s: System, step: Step) {
    Guard(s, step) && Polite(s, step) && Continues(step)
  }

  /** Whoever holds an informer's lock can go on: it needs nothing else. */
  lemma HolderCanMove(s: System, t: Tid) returns (step: Step)
    requires Inv(s) && t in s.callers
    requires var c := s.callers[t]; c.Registering? || c.Undoing? || c.Checking? || c.Scanning? || c.HoldsInformerMap?
    ensures CanMove(s, step)
  {
    var c := s.callers[t];
    match c {
      case Registering(_, _, todo, _) =>
        if id :| id in todo { step := Caller(t, Register(id, true)); } else { step := Caller(t, Append); }
      case Undoing(_, _, todo) =>
        if id :| id in todo { step := Caller(t, Undo(id)); } else { step := Caller(t, GiveUp); }
      case Checking(_) => step := Caller(t, EndCheck);
      case Scanning => step := Caller(t, EndScan);
      case HoldsInformerMap(_) => step := Caller(t, Create);
    }
  }

  ghost predicate Holder(c: Caller) {
    c.Registering? || c.Undoing? || c.Checking? || c.Scanning? || c.HoldsInformerMap?
  }

  /** A mutator that is not waiting for a lock can go on. */
  lemma MutatorCanMove(s: System) returns (step: Step)
    requires Inv(s) && (s.mutator.HoldsCaches? || s.mutator.Walking? || s.mutator.Visiting?)
    ensures CanMove(s, step)
  {
    match s.mutator {
      case HoldsCaches(_) => step := Publish;
      case Walking(_, todo) => if g :| g in todo { step := Pick(g); } else { step := Finish; }
      case Visiting(_, _, g, at) => step := if at == |s.informers[g]| then Leave else Notify(true);
      case _ =>
    }
  }

  /** With no lock held that could block it, somebody waiting gets in: waiting writers first. */
  lemma SomeWaiterCanMove(s: System) returns (step: Step)
    requires Inv(s) && Unfinished(s)
    requires !s.mutator.HoldsCaches? && !s.mutator.Walking? && !s.mutator.Visiting?
    requires forall t :: t in s.callers ==> !Holder(s.callers[t])
    ensures CanMove(s, step)
  {
    if s.mutator.WantsInformer? {
      step := LockInformer;
    } else if t :| t in s.callers && s.callers[t].WantsHandlers? {
      step := Caller(t, LockHandlers);
    } else if s.mutator.WantsCaches? {
      step := LockCaches;
    } else if t :| t in s.callers && s.callers[t].WantsInformerMap? {
      step := Caller(t, LockInformerMap);
    } else if s.mutator.Published? {
      step := ReadInformerMap;
    } else {
      var t :| t in s.callers && !s.callers[t].Resting?;
      match s.callers[t] {
        case WantsToRegister(_, _) => step := Caller(t, ReadCaches);
        case WantsToScan => step := Caller(t, Scan);
        case WantsToCheck(_) => step := Caller(t, Check);
        case _ =>
      }
    }
  }

  /** The locking never deadlocks, even with waiting writers holding readers off: as long as an operation is
      unfinished, some goroutine can take the next step of its operation, and that step changes the state. */
  lemma NeverDeadlocks(steps: seq<Step>)
    requires Unfinished(After(steps))
    ensures exists step :: CanMove(After(steps), step) && Next(After(steps), step) != After(steps)
  {
    RunKeepsInv(steps);
    var s := After(steps);
    var step;
    if s.mutator.HoldsCaches? || s.mutator.Walking? || s.mutator.Visiting? {
      step := MutatorCanMove(s);
    } else if t :| t in s.callers && Holder(s.callers[t]) {
      step := HolderCanMove(s, t);
    } else {
      step := SomeWaiterCanMove(s);
    }
    assert CanMove(s, step);
    MovesChange(s, step);
  }

  lemma MovesChange(s: System, step: Step)
    requires CanMove(s, step)
    ensures Next(s, step) != s
  {}

  // ----- termination -----

  /** Steps a goroutine has left at most, with `n` caches published. */
  function Work(c: Caller, n: nat): nat {
    match c
    case Resting => 0
    case WantsToRegister(_, _) => 2 * n + 4
    case WantsHandlers(_, _) => 2 * n + 3
    case Registering(_, _, todo, _) => n + |todo| + 2
    case Undoing(_, _, todo) => |todo| + 1
    case WantsInformerMap(_) => 2
    case HoldsInformerMap(_) => 1
    case WantsToScan => 2
    case Scanning => 1
    case WantsToCheck(_) => 2
    case Checking(_) => 1
  }

  ghost function TotalWork(callers: map<Tid, Caller>, n: nat): nat { T.Total(callers, c => Work(c, n)) }

  /** How far the mutator is from publishing. */
  function Unpublished(m: Mutator): nat { if m.WantsCaches? then 2 else if m.HoldsCaches? then 1 else 0 }

  /** How many informers the mutator still has to pick. */
  function Unpicked(s: System): nat {
    match s.mutator
    case Published(_) => |s.informers| + 1
    case Walking(_, todo) => |todo|
    case WantsInformer(_, todo, _) => |todo|
    case Visiting(_, todo, _, _) => |todo|
    case _ => 0
  }

  /** How many steps the mutator has left at the informer it has picked. */
  function Unvisited(s: System): nat {
    match s.mutator
    case Walking(_, _) => 1
    case WantsInformer(_, _, g) => Entries(s, g) + 3
    case Visiting(_, _, g, at) => if at <= Entries(s, g) then Entries(s, g) - at + 2 else 0
    case _ => 0
  }

  function Entries(s: System, g: Gvk): nat { if g in s.informers then |s.informers[g]| else 0 }

  /** Registering with one cache fewer, or undoing what has been registered so far, is less work. */
  lemma RegisteringWorksOff(s: System, t: Tid, id: CacheId, ok: bool)
    requires CallerGuard(s, s.At(t), Register(id, ok)) && CallerOk(s, s.At(t))
    ensures Work(Acted(s, t, s.At(t), Register(id, ok)).At(t), |s.caches|) < Work(s.At(t), |s.caches|)
  {
    var c := s.At(t);
    assert |c.todo - {id}| < |c.todo|;
    assert |c.regs.Keys + c.todo| == |c.regs.Keys| + |c.todo|;
  }

  lemma HoldingWorksOff(s: System, t: Tid, act: Act)
    requires CallerGuard(s, s.At(t), act) && (act.LockHandlers? || act.Undo?)
    ensures Work(Acted(s, t, s.At(t), act).At(t), |s.caches|) < Work(s.At(t), |s.caches|)
  {
    if act.LockHandlers? {
      assert |s.caches.Keys| == |s.caches|;
    } else {
      assert |s.At(t).todo - {act.id}| < |s.At(t).todo|;
    }
  }

  lemma WaitingWorksOff(s: System, t: Tid, act: Act, n: nat)
    requires CallerGuard(s, s.At(t), act) && Continues(Caller(t, act))
    requires !act.Register? && !act.LockHandlers? && !act.Undo?
    ensures Work(Acted(s, t, s.At(t), act).At(t), n) < Work(s.At(t), n)
  {}

  lemma OneStepLess(s: System, t: Tid, act: Act)
    requires CallerGuard(s, s.At(t), act) && CallerOk(s, s.At(t)) && Continues(Caller(t, act))
    ensures Work(Acted(s, t, s.At(t), act).At(t), |s.caches|) < Work(s.At(t), |s.caches|)
  {
    if act.Register? {
      RegisteringWorksOff(s, t, act.id, act.ok);
    } else if act.LockHandlers? || act.Undo? {
      HoldingWorksOff(s, t, act);
    } else {
      WaitingWorksOff(s, t, act, |s.caches|);
    }
  }

  /** A step of a goroutine leaves less work, and never undoes what the mutator has published. */
  lemma CallerWorksOff(s: System, t: Tid, act: Act)
    requires Inv(s) && CallerGuard(s, s.At(t), act) && Continues(Caller(t, act))
    ensures var s' := Acted(s, t, s.At(t), act);
            && s'.mutator == s.mutator
            && TotalWork(s'.callers, |s'.caches|) < TotalWork(s.callers, |s.caches|)
  {
    OneStepLess(s, t, act);
    TakesOnlyWhatIsFree(s, t, act);
    var n := |s.caches|;
    T.LessForOne(s.callers, Acted(s, t, s.At(t), act).callers, c => Work(c, n), t);
  }

  /** A step of the mutator either publishes or brings it closer to its end, and leaves the callers alone. */
  lemma MutatorWorksOff(s: System, step: Step)
    requires Inv(s) && Guard(s, step) && Continues(step) && !step.Caller?
    ensures var s' := Next(s, step);
            || Unpublished(s'.mutator) < Unpublished(s.mutator)
            || (&& Unpublished(s'.mutator) == Unpublished(s.mutator) && s'.callers == s.callers && s'.caches == s.caches
                && (Unpicked(s') < Unpicked(s) || (Unpicked(s') == Unpicked(s) && Unvisited(s') < Unvisited(s))))
  {
    if step.ReadInformerMap? {
      assert |s.informers.Keys| == |s.informers|;
    } else if step.Pick? {
      assert |s.mutator.todo - {step.g}| < |s.mutator.todo|;
    }
  }

  /** The state after the first `n` steps of an unending schedule. */
  function Run(s: System, schedule: nat -> Step, n: nat): System {
    if n == 0 then s else Next(Run(s, schedule, n - 1), schedule(n - 1))
  }

  lemma {:induction false} Finishes(s: System, schedule: nat -> Step, from: nat, r: System) returns (n: nat)
    requires r == Run(s, schedule, from) && Inv(r)
    requires forall i :: Unfinished(Run(s, schedule, i)) ==> CanMove(Run(s, schedule, i), schedule(i))
    ensures !Unfinished(Run(s, schedule, n))
    decreases Unpublished(r.mutator), TotalWork(r.callers, |r.caches|), Unpicked(r), Unvisited(r)
  {
    if !Unfinished(r) {
      return from;
    }
    var step := schedule(from);
    StepKeepsInv(r, step);
    if step.Caller? {
      CallerWorksOff(r, step.t, step.act);
    } else {
      MutatorWorksOff(r, step);
    }
    n := Finishes(s, schedule, from + 1, Next(r, step));
  }

  /** Every operation ends: once no new ones begin, any schedule that keeps taking possible steps reaches, after
      finitely many, a state in which nothing is unfinished. */
  lemma EveryOperationEnds(steps: seq<Step>, schedule: nat -> Step)
    requires var s := After(steps);
             forall i :: Unfinished(Run(s, schedule, i)) ==> CanMove(Run(s, schedule, i), schedule(i))
    ensures exists n :: !Unfinished(Run(After(steps), schedule, n))
  {
    RunKeepsInv(steps);
    var n := Finishes(After(steps), schedule, 0, After(steps));
  }
}
