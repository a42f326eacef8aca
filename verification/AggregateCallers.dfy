/** What callers of the aggregate cache get for their calls, however they are interleaved: the handlers tracked are
    the ones added, the caches the ones of the last operations, and a registration that fails leaves nothing
    behind. An observer notes what was asked for and which registrations were made; the results compare this with
    what is there. */
module AggregateCallers {
  import opened AggregateProtocol

  /** `jobs` is what each goroutine started last and `refused` those for which a registration failed since;
      `held` are the registrations a goroutine has made for its handler, `added` the handlers of completed
      registrations in order, `begun` the operations on the set of caches. */
  datatype Observed = Observed(
    sys: System,
    jobs: map<Tid, Act>, refused: set<Tid>, held: map<Tid, map<CacheId, Cache>>,
    added: map<Gvk, seq<Handler>>, begun: seq<Op>)
  {
    function Held(t: Tid): map<CacheId, Cache> { if t in held then held[t] else map[] }

    function Added(g: Gvk): seq<Handler> { if g in added then added[g] else [] }

    predicate Does(t: Tid, job: Act) { t in jobs && jobs[t] == job }
  }

  const NOTHING := Observed(START, map[], {}, map[], map[], [])

  predicate Starts(act: Act) { act.StartRegister? || act.StartGet? || act.StartScan? || act.StartCheck? }

  /** Only possible steps leave a trace. */
  function Observe(o: Observed, step: Step): Observed {
    if !Guard(o.sys, step) then o
    else
      var o' := o.(sys := Next(o.sys, step));
      match step
      case Begin(op) => o'.(begun := o.begun + [op])
      case Caller(t, act) => Noted(o, o', t, act)
      case _ => o'
  }

  function Noted(o: Observed, o': Observed, t: Tid, act: Act): Observed {
    match act
    case Register(id, ok) =>
      if ok && id in o.sys.caches then o'.(held := o.held[t := o.Held(t)[id := o.sys.caches[id]]])
      else o'.(refused := o.refused + {t})
    case Undo(id) => o'.(held := o.held[t := o.Held(t) - {id}])
    case Append =>
      if t in o.jobs && o.jobs[t].StartRegister? then
        o'.(held := o.held[t := map[]], added := o.added[o.jobs[t].g := o.Added(o.jobs[t].g) + [o.jobs[t].h]])
      else o'
    case _ => if Starts(act) then o'.(jobs := o.jobs[t := act], refused := o.refused - {t}) else o'
  }

  function AfterObserved(steps: seq<Step>): Observed {
    if steps == [] then NOTHING else Observe(AfterObserved(steps[..|steps| - 1]), steps[|steps| - 1])
  }

  function Handlers(entries: seq<Entry>): seq<Handler> {
    seq(|entries|, i requires 0 <= i < |entries| => entries[i].handler)
  }

  /** The caches after these operations, one after the other. */
  function Replayed(ops: seq<Op>): map<CacheId, Cache> {
    if ops == [] then map[]
    else match ops[|ops| - 1]
      case Add(id, cache) => Replayed(ops[..|ops| - 1])[id := cache]
      case Remove(id) => Replayed(ops[..|ops| - 1]) - {id}
  }

  // ----- invariants -----

  /** A goroutine does what it started, and has in hand what it has registered. */
  ghost predicate Tied(o: Observed, t: Tid) {
    match o.sys.At(t)
    case Resting => o.Held(t) == map[] && forall g :: o.Does(t, StartGet(g)) ==> g in o.sys.informers
    case WantsToRegister(g, h) => o.Does(t, StartRegister(g, h)) && t !in o.refused && o.Held(t) == map[]
    case WantsHandlers(g, h) => o.Does(t, StartRegister(g, h)) && t !in o.refused && o.Held(t) == map[]
    case Registering(g, h, _, regs) => o.Does(t, StartRegister(g, h)) && t !in o.refused && o.Held(t) == regs
    case Undoing(g, h, todo) => o.Does(t, StartRegister(g, h)) && t in o.refused && o.Held(t).Keys == todo
    case WantsInformerMap(g) => o.Does(t, StartGet(g)) && o.Held(t) == map[]
    case HoldsInformerMap(g) => o.Does(t, StartGet(g)) && o.Held(t) == map[]
    case WantsToScan => o.Does(t, StartScan) && o.Held(t) == map[]
    case Scanning => o.Does(t, StartScan) && o.Held(t) == map[]
    case WantsToCheck(g) => o.Does(t, StartCheck(g)) && o.Held(t) == map[]
    case Checking(g) => o.Does(t, StartCheck(g)) && o.Held(t) == map[]
  }

  ghost predicate HandlersTied(o: Observed) {
    && (forall g :: g in o.sys.informers ==> Handlers(o.sys.informers[g]) == o.Added(g))
    && (forall g :: g !in o.sys.informers ==> o.Added(g) == [])
  }

  /** The caches are those of the operations begun, the last one left out until it is published. */
  ghost predicate CachesTied(o: Observed) {
    var m, n := o.sys.mutator, |o.begun|;
    if m.Idle? then o.sys.caches == Replayed(o.begun)
    else
      && n > 0 && o.begun[n - 1] == m.op
      && o.sys.caches == Replayed(if m.WantsCaches? || m.HoldsCaches? then o.begun[..n - 1] else o.begun)
  }

  lemma BeginKeepsCaches(o: Observed, op: Op)
    requires CachesTied(o)
    ensures CachesTied(Observe(o, Begin(op)))
  {
    assert (o.begun + [op])[..|o.begun|] == o.begun;
  }

  lemma PublishKeepsCaches(o: Observed)
    requires CachesTied(o)
    ensures CachesTied(Observe(o, Publish))
  {}

  /** A step that neither begins nor publishes an operation. */
  lemma OtherStepsKeepCaches(s: System, step: Step)
    requires !step.Begin? && !step.Publish?
    ensures var m, m' := s.mutator, Next(s, step).mutator;
            && Next(s, step).caches == s.caches
            && (m.Idle? ==> m' == m) && (!m.Idle? && !m'.Idle? ==> m'.op == m.op)
            && (!m.Idle? && m'.Idle? ==> !m.WantsCaches? && !m.HoldsCaches?)
            && (!m'.Idle? ==> (m.WantsCaches? || m.HoldsCaches? <==> m'.WantsCaches? || m'.HoldsCaches?))
  {}

  lemma StepKeepsCaches(o: Observed, step: Step)
    requires CachesTied(o)
    ensures CachesTied(Observe(o, step))
  {
    if step.Begin? {
      BeginKeepsCaches(o, step.op);
    } else if step.Publish? {
      PublishKeepsCaches(o);
    } else {
      OtherStepsKeepCaches(o.sys, step);
      assert Observe(o, step).begun == o.begun;
    }
  }

  lemma InformersStay(s: System, step: Step)
    ensures s.informers.Keys <= Next(s, step).informers.Keys
  {}

  /** Nobody moves another goroutine. */
  lemma OthersStayPut(s: System, step: Step, t: Tid)
    requires !step.Caller? || step.t != t
    ensures Next(s, step).At(t) == s.At(t)
  {}

  lemma NotedOnlyForSelf(o: Observed, o': Observed, u: Tid, act: Act, t: Tid)
    requires u != t
    ensures var n := Noted(o, o'.(held := o.held, jobs := o.jobs, refused := o.refused), u, act);
            && n.Held(t) == o.Held(t) && (t in n.refused <==> t in o.refused)
            && (t in n.jobs <==> t in o.jobs) && (t in o.jobs ==> n.jobs[t] == o.jobs[t])
  {}

  lemma NotesOfOthers(o: Observed, step: Step, t: Tid)
    requires step.Caller? ==> step.t != t
    ensures var o' := Observe(o, step);
            && o'.Held(t) == o.Held(t) && (t in o'.refused <==> t in o.refused)
            && (t in o'.jobs <==> t in o.jobs) && (t in o.jobs ==> o'.jobs[t] == o.jobs[t])
  {
    if step.Caller? { NotedOnlyForSelf(o, o.(sys := Next(o.sys, step)), step.t, step.act, t); }
  }

  lemma UntouchedStaysTied(o: Observed, o': Observed, t: Tid)
    requires Tied(o, t) && o'.sys.At(t) == o.sys.At(t) && o.sys.informers.Keys <= o'.sys.informers.Keys
    requires o'.Held(t) == o.Held(t) && (t in o'.refused <==> t in o.refused)
    requires (t in o'.jobs <==> t in o.jobs) && (t in o.jobs ==> o'.jobs[t] == o.jobs[t])
    ensures Tied(o', t)
  {
    assert forall job :: o'.Does(t, job) == o.Does(t, job);
  }

  lemma OthersStayTied(o: Observed, step: Step, t: Tid)
    requires Tied(o, t) && (step.Caller? ==> step.t != t)
    ensures Tied(Observe(o, step), t)
  {
    InformersStay(o.sys, step);
    OthersStayPut(o.sys, step, t);
    NotesOfOthers(o, step, t);
    ObservingFollows(o, step);
    UntouchedStaysTied(o, Observe(o, step), t);
  }

  predicate Registers(act: Act) { act.Register? || act.Undo? || act.Append? || act.GiveUp? || act.LockHandlers? || act.ReadCaches? }

  lemma RegisterStaysTied(o: Observed, t: Tid, id: CacheId, ok: bool)
    requires Tied(o, t)
    ensures Tied(Observe(o, Caller(t, Register(id, ok))), t)
  {}

  lemma RegisteringStaysTied(o: Observed, t: Tid, act: Act)
    requires Tied(o, t) && Registers(act) && !act.Register?
    ensures Tied(Observe(o, Caller(t, act)), t)
  {}

  lemma OtherActsStayTied(o: Observed, t: Tid, act: Act)
    requires Tied(o, t) && !Registers(act)
    ensures Tied(Observe(o, Caller(t, act)), t)
  {}

  lemma SelfStaysTied(o: Observed, t: Tid, act: Act)
    requires Tied(o, t)
    ensures Tied(Observe(o, Caller(t, act)), t)
  {
    if act.Register? {
      RegisterStaysTied(o, t, act.id, act.ok);
    } else if Registers(act) {
      RegisteringStaysTied(o, t, act);
    } else {
      OtherActsStayTied(o, t, act);
    }
  }

  lemma MutatorKeepsHandlers(o: Observed, step: Step)
    requires Inv(o.sys) && HandlersTied(o) && !step.Caller?
    ensures HandlersTied(Observe(o, step))
  {}

  lemma AppendKeepsHandlers(o: Observed, t: Tid)
    requires HandlersTied(o) && Tied(o, t)
    ensures HandlersTied(Observe(o, Caller(t, Append)))
  {}

  /** Other steps of a caller make at most an informer without handlers. */
  lemma OtherActsKeepEntries(s: System, t: Tid, act: Act)
    requires !act.Append?
    ensures var s' := Next(s, Caller(t, act));
            && (forall g :: g in s.informers ==> g in s'.informers && s'.informers[g] == s.informers[g])
            && (forall g :: g in s'.informers && g !in s.informers ==> s'.informers[g] == [])
  {}

  lemma SameEntriesKeepHandlers(o: Observed, o': Observed)
    requires HandlersTied(o) && o'.added == o.added
    requires forall g :: g in o.sys.informers ==> g in o'.sys.informers && o'.sys.informers[g] == o.sys.informers[g]
    requires forall g :: g in o'.sys.informers && g !in o.sys.informers ==> o'.sys.informers[g] == []
    ensures HandlersTied(o')
  {}

  lemma OnlyAppendsAdd(o: Observed, t: Tid, act: Act)
    requires !act.Append?
    ensures Observe(o, Caller(t, act)).added == o.added
  {}

  lemma CallerKeepsHandlers(o: Observed, t: Tid, act: Act)
    requires HandlersTied(o) && Tied(o, t)
    ensures HandlersTied(Observe(o, Caller(t, act)))
  {
    if act.Append? {
      AppendKeepsHandlers(o, t);
    } else {
      OtherActsKeepEntries(o.sys, t, act);
      OnlyAppendsAdd(o, t, act);
      ObservingFollows(o, Caller(t, act));
      SameEntriesKeepHandlers(o, Observe(o, Caller(t, act)));
    }
  }

  ghost predicate ObservedInv(o: Observed) { HandlersTied(o) && CachesTied(o) && forall t :: Tied(o, t) }

  lemma StepKeepsObserved(o: Observed, step: Step)
    requires Inv(o.sys) && ObservedInv(o)
    ensures ObservedInv(Observe(o, step))
  {
    StepKeepsCaches(o, step);
    if step.Caller? { CallerKeepsHandlers(o, step.t, step.act); } else { MutatorKeepsHandlers(o, step); }
    forall t ensures Tied(Observe(o, step), t) {
      if step.Caller? && step.t == t { SelfStaysTied(o, t, step.act); } else { OthersStayTied(o, step, t); }
    }
  }

  lemma {:induction false} RunKeepsObserved(steps: seq<Step>)
    ensures AfterObserved(steps).sys == After(steps) && ObservedInv(AfterObserved(steps))
  {
    if steps == [] {
      assert AfterObserved(steps) == NOTHING;
    } else {
      var o := AfterObserved(steps[..|steps| - 1]);
      RunKeepsObserved(steps[..|steps| - 1]);
      RunKeepsInv(steps[..|steps| - 1]);
      ObservingFollows(o, steps[|steps| - 1]);
      StepKeepsObserved(o, steps[|steps| - 1]);
    }
  }

  lemma ObservingFollows(o: Observed, step: Step)
    ensures Observe(o, step).sys == Next(o.sys, step)
  {}

  // ----- results over every interleaving -----

  /** The handlers an informer tracks are exactly those of the completed registrations, in order, one entry each. */
  lemma HandlersAreThoseAdded(steps: seq<Step>, g: Gvk)
    requires g in After(steps).informers
    ensures Handlers(After(steps).informers[g]) == AfterObserved(steps).Added(g)
  {
    RunKeepsObserved(steps);
  }

  /** A registration ends in one of two ways. If one with a cache failed, the tracked handlers are as they were;
      otherwise the handler that was to be added is appended, registered for all caches there are. */
  lemma RegistrationEnds(steps: seq<Step>, t: Tid, act: Act, g: Gvk, h: Handler)
    requires var o := AfterObserved(steps); o.Does(t, StartRegister(g, h)) && !o.sys.At(t).Resting?
    requires Next(AfterObserved(steps).sys, Caller(t, act)).At(t).Resting?
    ensures var o := AfterObserved(steps); var s' := Next(o.sys, Caller(t, act));
            && s'.caches == o.sys.caches && g in o.sys.informers
            && s'.informers == if t in o.refused then o.sys.informers
                               else o.sys.informers[g := o.sys.informers[g] + [Entry(h, o.sys.caches)]]
  {
    RunKeepsObserved(steps);
    RunKeepsInv(steps);
    var o := AfterObserved(steps);
    assert Tied(o, t) && CallerOk(o.sys, o.sys.At(t));
    EndsOnce(o, t, act, g, h);
  }

  lemma EndsOnce(o: Observed, t: Tid, act: Act, g: Gvk, h: Handler)
    requires Tied(o, t) && CallerOk(o.sys, o.sys.At(t)) && o.Does(t, StartRegister(g, h)) && !o.sys.At(t).Resting?
    requires Next(o.sys, Caller(t, act)).At(t).Resting?
    ensures var s' := Next(o.sys, Caller(t, act));
            && s'.caches == o.sys.caches && g in o.sys.informers
            && s'.informers == if t in o.refused then o.sys.informers
                               else o.sys.informers[g := o.sys.informers[g] + [Entry(h, o.sys.caches)]]
  {
    if act.Append? && o.sys.At(t).Registering? {
      AllRegistered(o.sys.At(t).regs, o.sys.caches);
    }
  }

  lemma AllRegistered(regs: map<CacheId, Cache>, caches: map<CacheId, Cache>)
    ensures regs.Keys == caches.Keys && (forall id :: id in regs ==> regs[id] == caches[id]) ==> regs == caches
  {}

  /** A goroutine at rest has no registrations of its own: they passed to the entry, or were taken back. */
  lemma NothingLeftBehind(steps: seq<Step>, t: Tid)
    requires After(steps).At(t).Resting?
    ensures AfterObserved(steps).Held(t) == map[]
  {
    RunKeepsObserved(steps);
    assert Tied(AfterObserved(steps), t);
  }

  lemma HeldCachesStay(s: System, step: Step, t: Tid)
    requires Exclusive(s) && s.At(t).Scanning?
    ensures Next(s, step).caches == s.caches && !s.mutator.HoldsCaches?
  {
    assert t in s.callers && ReadsCaches(s.callers[t]);
  }

  lemma CheckedEntriesStay(s: System, step: Step, t: Tid)
    requires Exclusive(s) && s.At(t).Checking? && s.At(t).gvk in s.informers
    ensures var g := s.At(t).gvk; g in Next(s, step).informers && Next(s, step).informers[g] == s.informers[g]
  {}

  lemma EndsFromHold(s: System, step: Step, t: Tid)
    requires Next(s, step).At(t).Resting?
    ensures !s.At(t).WantsToScan? && !s.At(t).WantsToCheck?
  {}

  /** A list, or a check whether an informer has synced, is done while it holds the caches: it ends only after it
      has got hold of them, and until it ends no step changes them. */
  lemma ScansSeeOneState(steps: seq<Step>, step: Step, t: Tid)
    requires AfterObserved(steps).Does(t, StartScan) && !After(steps).At(t).Resting?
    ensures Next(After(steps), step).At(t).Resting? ==> After(steps).At(t).Scanning?
    ensures After(steps).At(t).Scanning? ==> Next(After(steps), step).caches == After(steps).caches
  {
    RunKeepsObserved(steps);
    RunKeepsInv(steps);
    var s := After(steps);
    assert Tied(AfterObserved(steps), t);
    if Next(s, step).At(t).Resting? { EndsFromHold(s, step, t); }
    if s.At(t).Scanning? { HeldCachesStay(s, step, t); }
  }

  lemma CheckerChecks(o: Observed, t: Tid, g: Gvk)
    requires Tied(o, t) && o.Does(t, StartCheck(g)) && !o.sys.At(t).Resting?
    ensures o.sys.At(t) == WantsToCheck(g) || o.sys.At(t) == Checking(g)
  {}

  /** The same for a registration that is asked whether it has synced, and the entries of its informer. */
  lemma ChecksSeeOneState(steps: seq<Step>, step: Step, t: Tid, g: Gvk)
    requires AfterObserved(steps).Does(t, StartCheck(g)) && !After(steps).At(t).Resting?
    ensures Next(After(steps), step).At(t).Resting? ==> After(steps).At(t).Checking?
    ensures var s, s' := After(steps), Next(After(steps), step);
            s.At(t).Checking? && g in s.informers ==> g in s'.informers && s'.informers[g] == s.informers[g]
  {
    RunKeepsObserved(steps);
    RunKeepsInv(steps);
    CheckerChecks(AfterObserved(steps), t, g);
    var s := After(steps);
    if s.At(t) == WantsToCheck(g) {
      if Next(s, step).At(t).Resting? { EndsFromHold(s, step, t); }
    } else if g in s.informers {
      CheckedEntriesStay(s, step, t);
    }
  }

  /** Between operations the caches are those that the operations begun so far come to, one after the other. */
  lemma CachesAreThoseAdded(steps: seq<Step>)
    requires After(steps).mutator.Idle?
    ensures After(steps).caches == Replayed(AfterObserved(steps).begun)
  {
    RunKeepsObserved(steps);
  }

  /** Who asked for an informer finds it there. */
  lemma InformerIsThere(steps: seq<Step>, t: Tid, g: Gvk)
    requires After(steps).At(t).Resting? && AfterObserved(steps).Does(t, StartGet(g))
    ensures g in After(steps).informers
  {
    RunKeepsObserved(steps);
    assert Tied(AfterObserved(steps), t);
  }

  /** A failing notification changes no entry: what is not registered is not recorded. */
  lemma FailedNotificationChangesNothing(s: System, step: Step)
    requires MutatorFault(step) && (step.Notify? ==> s.mutator.Visiting? && s.mutator.op.Add?)
    ensures Next(s, step).informers == s.informers && Next(s, step).caches == s.caches
  {
    if step.Notify? && Guard(s, step) {
      var entries, at := s.informers[s.mutator.gvk], s.mutator.at;
      assert entries[at := entries[at]] == entries;
    }
  }
}
