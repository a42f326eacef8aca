/** How often a handler is registered with a cache.

    The entries of an informer remember one registration per cache id. This module also counts the registrations
    each entry has with the cache now published under each id: a handler that is added after a cache was
    published, but before its informer is told of it, ends up registered with that cache twice, and its entry
    only remembers the second registration. */
module AggregateRegistrations {
  import opened AggregateProtocol

  /** An entry of an informer, and a cache id. */
  type Slot = (Gvk, nat, CacheId)

  /** `live` counts the registrations with the cache published under the id, `late` are the slots whose entry was
      appended while its informer had yet to be told of that cache. */
  datatype Counted = Counted(sys: System, live: map<Slot, nat>, late: set<Slot>) {
    function Live(p: Slot): nat { if p in live then live[p] else 0 }
  }

  const NONE := Counted(START, map[], {})

  /** The mutator has published a new cache under the id and has not visited the entry yet. */
  ghost predicate Coming(m: Mutator, p: Slot) {
    !m.Idle? && m.op.Add? && Due(m, p.0, p.1, p.2)
  }

  function SlotsOf(g: Gvk, i: nat, ids: set<CacheId>): set<Slot> { set id | id in ids :: (g, i, id) }

  /** Publishing starts afresh for the id; a notification and an appended entry bring registrations. */
  ghost function Tick(c: Counted, step: Step): Counted {
    var s, m, c' := c.sys, c.sys.mutator, c.(sys := Next(c.sys, step));
    if !Guard(s, step) then c
    else match step
      case Publish =>
        c'.(live := map p | p in c.live && p.2 != m.op.id :: c.live[p], late := set p | p in c.late && p.2 != m.op.id)
      case Notify(ok) =>
        var p := (m.gvk, m.at, m.op.id);
        if ok && m.op.Add? then c'.(live := c.live[p := c.Live(p) + 1]) else c'
      case Caller(t, Append) => Appended(c, c', s.At(t).gvk, |s.informers[s.At(t).gvk]|, s.At(t).regs.Keys)
      case _ => c'
  }

  ghost function Appended(c: Counted, c': Counted, g: Gvk, i: nat, ids: set<CacheId>): Counted {
    var slots := SlotsOf(g, i, ids);
    c'.(live := map p | p in c.live.Keys + slots :: c.Live(p) + if p in slots then 1 else 0,
        late := c.late + set p | p in slots && Coming(c.sys.mutator, p))
  }

  ghost function AfterCounted(steps: seq<Step>): Counted {
    if steps == [] then NONE else Tick(AfterCounted(steps[..|steps| - 1]), steps[|steps| - 1])
  }

  // ----- invariants -----

  ghost predicate Exists(s: System, p: Slot) { p.0 in s.informers && p.1 < |s.informers[p.0]| }

  ghost predicate SlotsExist(c: Counted) {
    && (forall p :: p in c.live ==> Exists(c.sys, p))
    && (forall p :: p in c.late ==> Exists(c.sys, p) && p.2 in c.sys.caches)
    && (forall p :: p in c.sys.gaps ==> Exists(c.sys, p) && !Due(c.sys.mutator, p.0, p.1, p.2) && p.2 in c.sys.caches)
  }

  /** One registration for the entry as the mutator left it, and one more for a late one. */
  function Expected(late: bool, told: bool): nat { (if late then 1 else 0) + if told then 1 else 0 }

  ghost predicate Told(s: System, p: Slot) {
    p.2 in s.caches && !Coming(s.mutator, p) && p !in s.gaps
  }

  ghost predicate Tallied(c: Counted) {
    forall p: Slot :: Exists(c.sys, p) ==> c.Live(p) == Expected(p in c.late, Told(c.sys, p))
  }

  ghost predicate CountInv(c: Counted) { SlotsExist(c) && Tallied(c) }

  lemma PublishKeepsCount(c: Counted)
    requires CountInv(c) && Guard(c.sys, Publish)
    ensures CountInv(Tick(c, Publish))
  {}

  lemma NotifyKeepsSlots(c: Counted, ok: bool)
    requires Inv(c.sys) && SlotsExist(c) && Guard(c.sys, Notify(ok))
    ensures SlotsExist(Tick(c, Notify(ok)))
  {}

  lemma NotifyKeepsTally(c: Counted, ok: bool)
    requires Inv(c.sys) && CountInv(c) && Guard(c.sys, Notify(ok))
    ensures Tallied(Tick(c, Notify(ok)))
  {}

  lemma LookupFailureKeepsCount(c: Counted)
    requires Inv(c.sys) && CountInv(c) && Guard(c.sys, LookupFails)
    ensures CountInv(Tick(c, LookupFails))
  {}

  /** A step that changes no slot and tells no entry. */
  lemma UnaffectedKeepsCount(c: Counted, s: System)
    requires CountInv(c) && s.caches == c.sys.caches && s.gaps == c.sys.gaps
    requires forall p: Slot :: Exists(s, p) <==> Exists(c.sys, p)
    requires forall p: Slot :: Exists(s, p) ==> Due(s.mutator, p.0, p.1, p.2) == Due(c.sys.mutator, p.0, p.1, p.2)
    requires forall p: Slot :: Exists(s, p) ==> Coming(s.mutator, p) == Coming(c.sys.mutator, p)
    ensures CountInv(c.(sys := s))
  {}

  lemma OtherMutatorStepsKeepCount(c: Counted, step: Step)
    requires Inv(c.sys) && CountInv(c) && Guard(c.sys, step)
    requires step.Begin? || step.LockCaches? || step.ReadInformerMap? || step.Pick? || step.LockInformer? || step.Leave? || step.Finish?
    ensures CountInv(Tick(c, step))
  {
    UnaffectedKeepsCount(c, Next(c.sys, step));
  }

  lemma OtherCallerStepsKeepCount(c: Counted, t: Tid, act: Act)
    requires CountInv(c) && Guard(c.sys, Caller(t, act)) && !act.Append?
    ensures CountInv(Tick(c, Caller(t, act)))
  {
    OtherCallerStepsKeepSlots(c.sys, t, act);
    UnaffectedKeepsCount(c, Next(c.sys, Caller(t, act)));
  }

  lemma OtherCallerStepsKeepSlots(s: System, t: Tid, act: Act)
    requires Guard(s, Caller(t, act)) && !act.Append?
    ensures var s' := Next(s, Caller(t, act));
            && s'.caches == s.caches && s'.gaps == s.gaps && s'.mutator == s.mutator
            && forall p: Slot :: Exists(s', p) <==> Exists(s, p)
  {}

  /** The new entry is registered with exactly the current caches. */
  lemma AppendedSlots(s: System, t: Tid)
    requires Inv(s) && Guard(s, Caller(t, Append))
    ensures var s', who := Next(s, Caller(t, Append)), s.At(t); var i := |s.informers[who.gvk]|;
            && s'.caches == s.caches && s'.gaps == s.gaps && s'.mutator == s.mutator && who.regs.Keys == s.caches.Keys
            && forall p: Slot :: Exists(s', p) <==> Exists(s, p) || (p.0 == who.gvk && p.1 == i)
  {
    assert CallerOk(s, s.At(t));
  }

  lemma AppendKeepsCount(c: Counted, t: Tid)
    requires Inv(c.sys) && CountInv(c) && Guard(c.sys, Caller(t, Append))
    ensures CountInv(Tick(c, Caller(t, Append)))
  {
    var s', who := Next(c.sys, Caller(t, Append)), c.sys.At(t);
    AppendedSlots(c.sys, t);
    AppendedKeepsCount(c, s', who.gvk, |c.sys.informers[who.gvk]|, who.regs.Keys);
  }

  lemma AppendedKeepsCount(c: Counted, s: System, g: Gvk, i: nat, ids: set<CacheId>)
    requires CountInv(c) && s.caches == c.sys.caches && s.gaps == c.sys.gaps && s.mutator == c.sys.mutator && ids == s.caches.Keys
    requires g in c.sys.informers && i == |c.sys.informers[g]|
    requires forall p: Slot :: Exists(s, p) <==> Exists(c.sys, p) || (p.0 == g && p.1 == i)
    ensures CountInv(Appended(c, c.(sys := s), g, i, ids))
  {
    var c' := Appended(c, c.(sys := s), g, i, ids);
    forall p: Slot ensures p in SlotsOf(g, i, ids) <==> p.0 == g && p.1 == i && p.2 in ids { assert p == (p.0, p.1, p.2); }
    forall p: Slot | Exists(s, p) ensures c'.Live(p) == Expected(p in c'.late, Told(s, p)) {
      if p.0 == g && p.1 == i { assert !Exists(c.sys, p); }
    }
  }

  lemma {:induction false} RunKeepsCount(steps: seq<Step>)
    ensures AfterCounted(steps).sys == After(steps) && CountInv(AfterCounted(steps))
  {
    if steps != [] {
      var front, step := steps[..|steps| - 1], steps[|steps| - 1];
      RunKeepsCount(front);
      RunKeepsInv(front);
      var c := AfterCounted(front);
      if Guard(c.sys, step) {
        match step {
          case Publish => PublishKeepsCount(c);
          case Notify(ok) => NotifyKeepsSlots(c, ok); NotifyKeepsTally(c, ok);
          case LookupFails => LookupFailureKeepsCount(c);
          case Caller(t, act) => if act.Append? { AppendKeepsCount(c, t); } else { OtherCallerStepsKeepCount(c, t, act); }
          case _ => OtherMutatorStepsKeepCount(c, step);
        }
      }
    }
  }

  // ----- results over every interleaving -----

  /** A handler whose informer has been told of a cache is registered with that cache once, or twice iff it was
      added between the cache's publication and the visit to its entry. */
  lemma RegisteredTwiceIffLate(steps: seq<Step>, g: Gvk, i: nat, id: CacheId)
    requires var s := After(steps); Exists(s, (g, i, id)) && id in s.caches && !Due(s.mutator, g, i, id) && (g, i, id) !in s.gaps
    ensures var c, p := AfterCounted(steps), (g, i, id);
            c.sys == After(steps) && c.Live(p) == if p in c.late then 2 else 1
  {
    RunKeepsCount(steps);
  }

  /** A slot turns late in exactly one way: its entry is appended while the mutator still has to get to it. */
  lemma LateIffAppendedWhileComing(steps: seq<Step>, step: Step, p: Slot)
    ensures var c := AfterCounted(steps);
            p !in c.late && p in Tick(c, step).late <==>
            && step.Caller? && step.act.Append? && Guard(c.sys, step)
            && (var who := c.sys.At(step.t); p.0 == who.gvk && p.1 == |c.sys.informers[who.gvk]| && p.2 in who.regs)
            && Coming(c.sys.mutator, p)
  {
    RunKeepsCount(steps);
  }

  /** A removed cache is forgotten by every handler whose informer has been told, whatever failed before. */
  lemma RemovedCachesAreForgotten(steps: seq<Step>, g: Gvk, i: nat, id: CacheId)
    requires var s := After(steps); Exists(s, (g, i, id)) && id !in s.caches && !Due(s.mutator, g, i, id)
    ensures id !in After(steps).informers[g][i].regs
  {
    RunKeepsCount(steps);
    RunKeepsInv(steps);
    var s := After(steps);
    assert (g, i, id) !in s.gaps;
    assert Right(s.caches, s.informers[g][i], id);
  }

  // ----- it does happen -----

  /** One other goroutine, at `c`, and an informer `g`. */
  ghost predicate Scene(s: System, m: Mutator, c: Caller, ids: set<CacheId>) {
    s.mutator == m && s.callers.Keys == {0} && s.callers[0] == c && s.caches.Keys == ids && "g" in s.informers
  }

  lemma OneMore(steps: seq<Step>, step: Step)
    ensures After(steps + [step]) == Next(After(steps), step)
  {
    assert (steps + [step])[..|steps|] == steps;
  }

  ghost predicate Alone(s: System, c: Caller) {
    s.mutator.Idle? && s.callers.Keys == {0} && s.callers[0] == c && s.caches.Keys == {}
  }

  lemma InformerAsked() returns (steps: seq<Step>)
    ensures Alone(After(steps), WantsInformerMap("g"))
  {
    OneMore([], Caller(0, StartGet("g")));
    steps := [] + [Caller(0, StartGet("g"))];
  }

  lemma InformerExists() returns (steps: seq<Step>)
    ensures Scene(After(steps), Idle, Resting, {})
  {
    var s1 := InformerAsked();
    var s2 := s1 + [Caller(0, LockInformerMap)];
    OneMore(s1, Caller(0, LockInformerMap));
    OneMore(s2, Caller(0, Create));
    steps := s2 + [Caller(0, Create)];
  }

  lemma CachePublished(op: Op) returns (steps: seq<Step>)
    requires op.Add?
    ensures Scene(After(steps), Published(op), Resting, {op.id})
  {
    var s0 := InformerExists();
    var s1 := s0 + [Begin(op)];
    var s2 := s1 + [LockCaches];
    OneMore(s0, Begin(op));
    OneMore(s1, LockCaches);
    OneMore(s2, Publish);
    steps := s2 + [Publish];
  }

  lemma HandlerLocked(op: Op) returns (steps: seq<Step>)
    requires op.Add?
    ensures Scene(After(steps), Published(op), Registering("g", 5, {op.id}, map[]), {op.id})
  {
    var s0 := CachePublished(op);
    var s1 := s0 + [Caller(0, StartRegister("g", 5))];
    var s2 := s1 + [Caller(0, ReadCaches)];
    OneMore(s0, Caller(0, StartRegister("g", 5)));
    OneMore(s1, Caller(0, ReadCaches));
    OneMore(s2, Caller(0, LockHandlers));
    steps := s2 + [Caller(0, LockHandlers)];
  }

  /** A handler can be added in between: for every cache some run makes its slot late. */
  lemma SomeSlotIsLate(op: Op) returns (steps: seq<Step>, i: nat)
    requires op.Add?
    ensures After(steps).mutator == Published(op) && ("g", i, op.id) in AfterCounted(steps).late
  {
    var s0 := HandlerLocked(op);
    var s1 := s0 + [Caller(0, Register(op.id, true))];
    OneMore(s0, Caller(0, Register(op.id, true)));
    var s := After(s1);
    assert s.At(0).todo == {op.id} - {op.id} == {};
    RunKeepsCount(s1);
    i := |s.informers["g"]|;
    LateIffAppendedWhileComing(s1, Caller(0, Append), ("g", i, op.id));
    steps := s1 + [Caller(0, Append)];
    OneMore(s1, Caller(0, Append));
    assert steps[..|s1|] == s1;
  }
}
