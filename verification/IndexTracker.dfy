/** Adding a field index to a wildcard cache at most once per kind and field. */
module IndexTracker {
  import Keys
  import T = Totals

  type Tid = nat

  /** The key under which an index is tracked: kind, bar, field. */
  function TrackerKey(gvk: string, field: string): string { gvk + "|" + field }

  lemma TrackerKeyIsUnambiguous(gvk: string, field: string, gvk': string, field': string)
    requires '|' !in gvk && '|' !in gvk'
    ensures TrackerKey(gvk, field) == TrackerKey(gvk', field') <==> gvk == gvk' && field == field'
  {
    Keys.SplitIsUnique(gvk, gvk', field, field', '|');
  }

  /** `Holds` looks the key up and `Claims` enters it, both under the lock. */
  datatype Pc =
    | Idle
    | WantsLock(key: string) | Holds(key: string) | Claims(key: string)
    | Indexing(key: string)
    | Returned(key: string, ok: bool)

  datatype Holder = Nobody | By(tid: Tid)

  /** `calls` are the invocations of the base cache, `indexed` and `failed` the keys for which one has come back. */
  datatype System = System(
    tracker: set<string>, calls: seq<string>, indexed: set<string>, failed: set<string>,
    holder: Holder, threads: map<Tid, Pc>)
  {
    function At(t: Tid): Pc { if t in threads then threads[t] else Idle }
    function To(t: Tid, pc: Pc): System { this.(threads := threads[t := pc]) }
  }

  const START := System({}, [], {}, {}, Nobody, map[])

  datatype Step = Call(t: Tid, key: string) | Advance(t: Tid, succeeds: bool)

  /** The base cache is invoked after the lock is released. */
  function Next(s: System, step: Step): System {
    match step
    case Call(t, key) => if s.At(t).Idle? || s.At(t).Returned? then s.To(t, WantsLock(key)) else s
    case Advance(t, succeeds) =>
      match s.At(t)
      case WantsLock(k) => if s.holder.Nobody? then s.To(t, Holds(k)).(holder := By(t)) else s
      case Holds(k) =>
        if k in s.tracker then s.To(t, Returned(k, true)).(holder := Nobody)
        else s.To(t, Claims(k))
      case Claims(k) => s.To(t, Indexing(k)).(tracker := s.tracker + {k}, calls := s.calls + [k], holder := Nobody)
      case Indexing(k) =>
        if succeeds then s.To(t, Returned(k, true)).(indexed := s.indexed + {k})
        else s.To(t, Returned(k, false)).(failed := s.failed + {k})
      case _ => s
  }

  function After(steps: seq<Step>): System {
    if steps == [] then START else Next(After(steps[..|steps| - 1]), steps[|steps| - 1])
  }

  ghost predicate Tracked(s: System) {
    && (forall k :: k in s.calls <==> k in s.tracker)
    && (forall i, j :: 0 <= i < j < |s.calls| ==> s.calls[i] != s.calls[j])
  }

  /** One goroutine at a time is between looking a key up and entering it. */
  ghost predicate ThreadOk(s: System, t: Tid, pc: Pc) {
    && (pc.Holds? || pc.Claims? <==> s.holder == By(t))
    && (pc.Claims? ==> pc.key !in s.tracker)
    && (pc.Returned? || pc.Indexing? ==> pc.key in s.tracker)
  }

  ghost predicate Inv(s: System) {
    Tracked(s) && forall t :: ThreadOk(s, t, s.At(t))
  }

  lemma StepKeepsInv(s: System, step: Step)
    requires Inv(s)
    ensures Inv(Next(s, step))
  {
    assert ThreadOk(s, step.t, s.At(step.t));
    forall u ensures ThreadOk(Next(s, step), u, Next(s, step).At(u)) {
      StepKeepsThreadOk(s, step, u);
    }
  }

  lemma StepKeepsThreadOk(s: System, step: Step, u: Tid)
    requires Inv(s)
    ensures ThreadOk(Next(s, step), u, Next(s, step).At(u))
  {
    assert ThreadOk(s, step.t, s.At(step.t)) && ThreadOk(s, u, s.At(u));
  }

  /** The base cache is being asked for `k`. */
  ghost predicate InFlight(s: System, k: string) {
    exists t :: t in s.threads && s.threads[t] == Indexing(k)
  }

  /** Every tracked key is being asked for, indexed or failed. */
  ghost predicate Accounted(s: System) {
    forall k :: k in s.tracker ==> InFlight(s, k) || k in s.indexed + s.failed
  }

  /** No key is two of these, and no two calls ask for the same one. */
  ghost predicate Apart(s: System) {
    && s.indexed !! s.failed && s.indexed + s.failed <= s.tracker
    && (forall t :: t in s.threads && s.threads[t].Indexing? ==> s.threads[t].key in s.tracker - s.indexed - s.failed)
    && (forall t, u :: t in s.threads && u in s.threads && s.threads[t].Indexing? && s.threads[u] == s.threads[t] ==> t == u)
    && (forall t :: t in s.threads && s.threads[t].Returned? && !s.threads[t].ok ==> s.threads[t].key in s.failed)
  }

  lemma StepKeepsAccounted(s: System, step: Step)
    requires Accounted(s)
    ensures Accounted(Next(s, step))
  {
    var s' := Next(s, step);
    forall k | k in s'.tracker ensures InFlight(s', k) || k in s'.indexed + s'.failed {
      if k in s.tracker && k !in s.indexed + s.failed {
        var u :| u in s.threads && s.threads[u] == Indexing(k);
        assert u != step.t ==> u in s'.threads && s'.threads[u] == Indexing(k);
      } else if k !in s.tracker {
        assert s'.threads[step.t] == Indexing(k);
      }
    }
  }

  lemma StepKeepsApart(s: System, step: Step)
    requires Inv(s) && Apart(s)
    ensures Apart(Next(s, step))
  {
    assert ThreadOk(s, step.t, s.At(step.t));
  }

  lemma {:induction false} RunKeepsInv(steps: seq<Step>)
    ensures Inv(After(steps)) && Accounted(After(steps)) && Apart(After(steps))
  {
    if steps != [] {
      RunKeepsInv(steps[..|steps| - 1]);
      StepKeepsInv(After(steps[..|steps| - 1]), steps[|steps| - 1]);
      StepKeepsAccounted(After(steps[..|steps| - 1]), steps[|steps| - 1]);
      StepKeepsApart(After(steps[..|steps| - 1]), steps[|steps| - 1]);
    }
  }

  /** However many callers: the base cache is invoked at most once per key, and exactly once for every key that
      any call has returned for. */
  lemma AtMostOneCallPerKey(steps: seq<Step>, i: nat, j: nat, t: Tid)
    ensures var s := After(steps);
            && (i < |s.calls| && j < |s.calls| && s.calls[i] == s.calls[j] ==> i == j)
            && (s.At(t).Returned? ==> s.At(t).key in s.calls)
  {
    RunKeepsInv(steps);
    assert ThreadOk(After(steps), t, After(steps).At(t));
  }

  /** A key somebody has asked for, and so any key a call has returned for, is indexed iff the one invocation
      for it has come back and did not fail. Only the call whose invocation failed returns an error. */
  lemma IndexedIffCallSettled(steps: seq<Step>, k: string, t: Tid)
    requires k in After(steps).tracker || After(steps).At(t) == Returned(k, true) || After(steps).At(t) == Returned(k, false)
    ensures var s := After(steps);
            && (k in s.indexed <==> !InFlight(s, k) && k !in s.failed)
            && (s.At(t) == Returned(k, false) ==> k in s.failed)
  {
    RunKeepsInv(steps);
    assert ThreadOk(After(steps), t, After(steps).At(t));
  }

  // ----- every call returns, for its key -----

  datatype Asked = Nothing | For(key: string)

  /** What goroutine `t` last called for: it calls when it has no call under way. */
  ghost function LastCall(steps: seq<Step>, t: Tid): Asked {
    if steps == [] then Nothing
    else
      var front, last := steps[..|steps| - 1], steps[|steps| - 1];
      var pc := After(front).At(t);
      if last.Call? && last.t == t && (pc.Idle? || pc.Returned?) then For(last.key) else LastCall(front, t)
  }

  /** In every run a call is about the key it was made for, and so is its answer. */
  lemma {:induction false} AnswersItsCall(steps: seq<Step>, t: Tid)
    ensures var pc := After(steps).At(t);
            if pc.Idle? then LastCall(steps, t) == Nothing else LastCall(steps, t) == For(pc.key)
  {
    if steps != [] { AnswersItsCall(steps[..|steps| - 1], t); }
  }

  /** A call returns an error iff it made the invocation of the base cache itself and that failed. */
  lemma ErrorIffOwnInvocationFails(s: System, step: Step, t: Tid)
    requires !s.At(t).Returned? && Next(s, step).At(t).Returned?
    ensures !Next(s, step).At(t).ok <==> s.At(t).Indexing? && step == Advance(t, false)
  {}

  function Left(pc: Pc): nat {
    match pc
    case WantsLock(_) => 4
    case Holds(_) => 3
    case Claims(_) => 2
    case Indexing(_) => 1
    case _ => 0
  }

  ghost predicate Unfinished(s: System) { exists t :: t in s.threads && Left(s.threads[t]) > 0 }

  /** While a call is unfinished some goroutine can go on, whether the base cache fails or not. */
  lemma SomebodyCanMove(steps: seq<Step>, succeeds: bool) returns (t: Tid)
    requires Unfinished(After(steps))
    ensures Next(After(steps), Advance(t, succeeds)) != After(steps)
  {
    RunKeepsInv(steps);
    var s := After(steps);
    if s.holder.By? {
      t := s.holder.tid;
    } else {
      t :| t in s.threads && Left(s.threads[t]) > 0;
    }
    assert ThreadOk(s, t, s.At(t));
    assert Next(s, Advance(t, succeeds)).At(t) != s.At(t);
  }

  lemma StepWorksOff(s: System, t: Tid, succeeds: bool)
    requires Next(s, Advance(t, succeeds)) != s
    ensures T.Total(Next(s, Advance(t, succeeds)).threads, Left) < T.Total(s.threads, Left)
  {
    T.LessForOne(s.threads, Next(s, Advance(t, succeeds)).threads, Left, t);
  }

  function Run(s: System, schedule: nat -> Step, n: nat): System {
    if n == 0 then s else Next(Run(s, schedule, n - 1), schedule(n - 1))
  }

  /** The goroutine whose turn it is goes on with its call, unless all have returned. */
  ghost predicate Keeps(s: System, schedule: nat -> Step, i: nat) {
    var r := Run(s, schedule, i);
    Unfinished(r) ==> schedule(i).Advance? && Next(r, schedule(i)) != r
  }

  lemma {:induction false} Finishes(s: System, schedule: nat -> Step, from: nat, r: System) returns (n: nat)
    requires r == Run(s, schedule, from) && forall i :: Keeps(s, schedule, i)
    ensures !Unfinished(Run(s, schedule, n))
    decreases T.Total(r.threads, Left)
  {
    if !Unfinished(r) { return from; }
    assert Keeps(s, schedule, from);
    StepWorksOff(r, schedule(from).t, schedule(from).succeeds);
    n := Finishes(s, schedule, from + 1, Next(r, schedule(from)));
  }

  /** So once no calls begin, every schedule that keeps letting goroutines go on that can finishes them all. */
  lemma EveryCallReturns(steps: seq<Step>, schedule: nat -> Step)
    requires forall i :: Keeps(After(steps), schedule, i)
    ensures exists n :: !Unfinished(Run(After(steps), schedule, n))
  {
    var n := Finishes(After(steps), schedule, 0, After(steps));
  }

  // ----- calls that return without an index -----

  lemma Snoc(steps: seq<Step>, step: Step)
    ensures After(steps + [step]) == Next(After(steps), step)
  {
    assert (steps + [step])[..|steps|] == steps;
  }

  /** A call for "k" has got to the base cache. */
  lemma FirstCallIndexes() returns (steps: seq<Step>)
    ensures After(steps) == System({"k"}, ["k"], {}, {}, Nobody, map[0 := Indexing("k")])
  {
    var c, a := Call(0, "k"), Advance(0, true);
    Snoc([], c);
    Snoc([] + [c], a);
    Snoc([] + [c] + [a], a);
    Snoc([] + [c] + [a] + [a], a);
    steps := [] + [c] + [a] + [a] + [a];
  }

  /** Another call comes and goes while the key is tracked. */
  lemma SecondCallReturns(steps: seq<Step>) returns (more: seq<Step>)
    requires var s := After(steps); s.holder.Nobody? && s.At(1).Idle? && "k" in s.tracker
    ensures After(more) == After(steps).To(1, Returned("k", true))
  {
    var c, a := Call(1, "k"), Advance(1, true);
    Snoc(steps, c);
    Snoc(steps + [c], a);
    Snoc(steps + [c] + [a], a);
    more := steps + [c] + [a] + [a];
  }

  /** The invocation is made after the lock is released: with no failure at all the second call can return
      before there is an index. */
  lemma SecondCallOvertakesFirst() returns (steps: seq<Step>)
    ensures var s := After(steps);
            s.At(1) == Returned("k", true) && InFlight(s, "k") && s.failed == {} && "k" !in s.indexed
  {
    var first := FirstCallIndexes();
    steps := SecondCallReturns(first);
    assert After(steps).threads[0] == Indexing("k");
  }

  /** A failed invocation is not repeated: the second call succeeds although nothing is indexed. */
  lemma SecondCallHidesFailure() returns (steps: seq<Step>)
    ensures var s := After(steps);
            s.At(0) == Returned("k", false) && s.At(1) == Returned("k", true) && "k" !in s.indexed
  {
    var first := FirstCallIndexes();
    Snoc(first, Advance(0, false));
    steps := SecondCallReturns(first + [Advance(0, false)]);
  }
}
