/** Building one client per workspace path, with double-checked locking. */
module ClusterClient {
  import T = Totals

  type Path = string
  type Tid = nat

  /** Clients are named by the order in which they were built. */
  type Client = nat

  datatype Pc =
    | Idle
    | WantsRead(path: Path) | Reads(path: Path)
    | WantsWrite(path: Path) | Writes(path: Path) | Builds(path: Path)
    | Returned(path: Path, client: Client)
    | Panicked

  datatype Holder = Nobody | Writer(tid: Tid)

  /** `built[c]` is the path client `c` was built for. */
  datatype System = System(clients: map<Path, Client>, built: seq<Path>, writer: Holder, threads: map<Tid, Pc>) {
    function At(t: Tid): Pc { if t in threads then threads[t] else Idle }
    function To(t: Tid, pc: Pc): System { this.(threads := threads[t := pc]) }
  }

  const START := System(map[], [], Nobody, map[])

  datatype Step = Call(t: Tid, path: Path) | Advance(t: Tid, succeeds: bool)

  predicate NobodyReads(s: System) { forall t :: t in s.threads ==> !s.threads[t].Reads? }

  function Next(s: System, step: Step): System {
    match step
    case Call(t, path) =>
      var pc := s.At(t);
      if pc.Idle? || pc.Returned? || pc.Panicked? then s.To(t, WantsRead(path)) else s
    case Advance(t, succeeds) => Advanced(s, t, succeeds)
  }

  function Advanced(s: System, t: Tid, succeeds: bool): System {
    match s.At(t)
    case WantsRead(p) => if s.writer.Nobody? then s.To(t, Reads(p)) else s
    case Reads(p) => s.To(t, if p in s.clients then Returned(p, s.clients[p]) else WantsWrite(p))
    case WantsWrite(p) => if s.writer.Nobody? && NobodyReads(s) then s.To(t, Writes(p)).(writer := Writer(t)) else s
    case Writes(p) =>
      if p in s.clients then s.To(t, Returned(p, s.clients[p])).(writer := Nobody) else s.To(t, Builds(p))
    case Builds(p) =>
      if succeeds then
        s.To(t, Returned(p, |s.built|)).(clients := s.clients[p := |s.built|], built := s.built + [p], writer := Nobody)
      else s.To(t, Panicked).(writer := Nobody)
    case _ => s
  }

  function After(steps: seq<Step>): System {
    if steps == [] then START else Next(After(steps[..|steps| - 1]), steps[|steps| - 1])
  }

  ghost predicate ThreadOk(s: System, t: Tid, pc: Pc) {
    && (pc.Writes? || pc.Builds? <==> s.writer == Writer(t))
    && (pc.Builds? ==> pc.path !in s.clients)
    && (pc.Reads? ==> s.writer.Nobody?)
    && (pc.Returned? ==> pc.path in s.clients && s.clients[pc.path] == pc.client)
  }

  /** Built clients and paths correspond one to one. */
  ghost predicate OnePerPath(s: System) {
    && (forall p :: p in s.clients ==> s.clients[p] < |s.built| && s.built[s.clients[p]] == p)
    && (forall c :: 0 <= c < |s.built| ==> s.built[c] in s.clients && s.clients[s.built[c]] == c)
  }

  ghost predicate Inv(s: System) {
    OnePerPath(s) && forall t :: ThreadOk(s, t, s.At(t))
  }

  lemma StepKeepsThreadOk(s: System, step: Step, u: Tid)
    requires Inv(s)
    ensures ThreadOk(Next(s, step), u, Next(s, step).At(u))
  {
    assert ThreadOk(s, step.t, s.At(step.t)) && ThreadOk(s, u, s.At(u));
  }

  lemma StepKeepsInv(s: System, step: Step)
    requires Inv(s)
    ensures Inv(Next(s, step))
    ensures forall p :: p in s.clients ==> p in Next(s, step).clients && Next(s, step).clients[p] == s.clients[p]
  {
    assert ThreadOk(s, step.t, s.At(step.t));
    forall u ensures ThreadOk(Next(s, step), u, Next(s, step).At(u)) {
      StepKeepsThreadOk(s, step, u);
    }
  }

  lemma {:induction false} RunKeepsInv(steps: seq<Step>)
    ensures Inv(After(steps))
  {
    if steps != [] {
      RunKeepsInv(steps[..|steps| - 1]);
      StepKeepsInv(After(steps[..|steps| - 1]), steps[|steps| - 1]);
    }
  }

  /** However many goroutines call for however many paths: no two clients are built for one path, and calls
      that have returned for the same path returned the same client, the one built for it. */
  lemma OneClientPerPath(steps: seq<Step>, c: Client, d: Client, t: Tid, u: Tid)
    ensures var s := After(steps);
            && (c < |s.built| && d < |s.built| && s.built[c] == s.built[d] ==> c == d)
            && (s.At(t).Returned? ==> s.At(t).client < |s.built| && s.built[s.At(t).client] == s.At(t).path)
            && (s.At(t).Returned? && s.At(u).Returned? && s.At(t).path == s.At(u).path ==> s.At(t).client == s.At(u).client)
  {
    RunKeepsInv(steps);
    var s := After(steps);
    assert ThreadOk(s, t, s.At(t)) && ThreadOk(s, u, s.At(u));
  }

  lemma {:induction false} LaterRunsKeepClients(steps: seq<Step>, more: seq<Step>, p: Path)
    requires p in After(steps).clients
    ensures p in After(steps + more).clients && After(steps + more).clients[p] == After(steps).clients[p]
  {
    if more == [] {
      assert steps + more == steps;
    } else {
      var front := more[..|more| - 1];
      assert (steps + more)[..|steps + more| - 1] == steps + front;
      LaterRunsKeepClients(steps, front, p);
      RunKeepsInv(steps + front);
      StepKeepsInv(After(steps + front), more[|more| - 1]);
    }
  }

  /** A call returns the same client as any call that returned for the path before it, however far apart. */
  lemma SameClientForever(steps: seq<Step>, more: seq<Step>, t: Tid, u: Tid)
    requires After(steps).At(t).Returned? && After(steps + more).At(u).Returned?
    requires After(steps).At(t).path == After(steps + more).At(u).path
    ensures After(steps).At(t).client == After(steps + more).At(u).client
  {
    RunKeepsInv(steps);
    RunKeepsInv(steps + more);
    var s, s' := After(steps), After(steps + more);
    assert ThreadOk(s, t, s.At(t)) && ThreadOk(s', u, s'.At(u));
    LaterRunsKeepClients(steps, more, s.At(t).path);
  }

  // ----- every call returns, for its path -----

  datatype Asked = Nothing | For(path: Path)

  predicate AtRest(pc: Pc) { pc.Idle? || pc.Returned? || pc.Panicked? }

  /** What goroutine `t` last called for: it calls when it has no call under way. */
  ghost function LastCall(steps: seq<Step>, t: Tid): Asked {
    if steps == [] then Nothing
    else
      var front, last := steps[..|steps| - 1], steps[|steps| - 1];
      if last.Call? && last.t == t && AtRest(After(front).At(t)) then For(last.path) else LastCall(front, t)
  }

  /** In every run a call is about the path it was made for, and so is its answer. */
  lemma {:induction false} AnswersItsCall(steps: seq<Step>, t: Tid)
    ensures var pc := After(steps).At(t);
            && (pc.Idle? ==> LastCall(steps, t) == Nothing)
            && (!pc.Idle? && !pc.Panicked? ==> LastCall(steps, t) == For(pc.path))
  {
    if steps != [] { AnswersItsCall(steps[..|steps| - 1], t); }
  }

  /** A call panics iff building its client fails, and then nothing is stored and the lock is free again. */
  lemma PanicsIffBuildFails(steps: seq<Step>, step: Step, t: Tid)
    requires !After(steps).At(t).Panicked?
    ensures var s, s' := After(steps), Next(After(steps), step);
            && (s'.At(t).Panicked? <==> step == Advance(t, false) && s.At(t).Builds?)
            && (s'.At(t).Panicked? ==> s'.clients == s.clients && s'.built == s.built && s'.writer.Nobody?)
  {}

  /** While a goroutine looks a path up, nobody is changing the clients, and no step changes them. */
  lemma LookedUpUnderLock(steps: seq<Step>, t: Tid, step: Step)
    requires After(steps).At(t).Reads?
    ensures var s := After(steps);
            (forall u :: !s.At(u).Writes? && !s.At(u).Builds?) && Next(s, step).clients == s.clients
  {
    RunKeepsInv(steps);
    var s := After(steps);
    assert ThreadOk(s, t, s.At(t)) && ThreadOk(s, step.t, s.At(step.t));
    forall u ensures !s.At(u).Writes? && !s.At(u).Builds? {
      assert ThreadOk(s, u, s.At(u));
    }
  }

  /** A call for a path that has a client only reads: until it returns that client, it waits for nothing but
      writers, and takes no write lock. */
  lemma {:induction false} KnownPathOnlyReads(steps: seq<Step>, more: seq<Step>, t: Tid, p: Path)
    requires After(steps).At(t) == WantsRead(p) && p in After(steps).clients
    requires forall i :: 0 <= i < |more| ==> more[i].Advance? || more[i].t != t
    ensures var pc := After(steps + more).At(t); pc == WantsRead(p) || pc == Reads(p) || pc == Returned(p, After(steps).clients[p])
  {
    if more == [] {
      assert steps + more == steps;
    } else {
      var front := more[..|more| - 1];
      assert (steps + more)[..|steps + more| - 1] == steps + front;
      KnownPathOnlyReads(steps, front, t, p);
      LaterRunsKeepClients(steps, front, p);
    }
  }

  function Left(pc: Pc): nat {
    match pc
    case WantsRead(_) => 5
    case Reads(_) => 4
    case WantsWrite(_) => 3
    case Writes(_) => 2
    case Builds(_) => 1
    case _ => 0
  }

  ghost predicate Unfinished(s: System) { exists t :: t in s.threads && !AtRest(s.threads[t]) }

  /** Go's read-write lock lets no new reader in while a writer waits. */
  ghost predicate Polite(s: System, t: Tid) {
    s.At(t).WantsRead? ==> forall u :: u in s.threads ==> !s.threads[u].WantsWrite?
  }

  /** While a call is unfinished some goroutine can go on, whether building succeeds or not. */
  lemma SomebodyCanMove(steps: seq<Step>, succeeds: bool) returns (t: Tid)
    requires Unfinished(After(steps))
    ensures Next(After(steps), Advance(t, succeeds)) != After(steps) && Polite(After(steps), t)
  {
    RunKeepsInv(steps);
    var s := After(steps);
    if s.writer.Writer? {
      t := s.writer.tid;
    } else if r :| r in s.threads && s.threads[r].Reads? {
      t := r;
    } else if w :| w in s.threads && s.threads[w].WantsWrite? {
      t := w;
    } else {
      t :| t in s.threads && !AtRest(s.threads[t]);
    }
    assert ThreadOk(s, t, s.At(t));
    assert Next(s, Advance(t, succeeds)).At(t) != s.At(t);
  }

  lemma StepWorksOff(s: System, t: Tid, succeeds: bool)
    requires Next(s, Advance(t, succeeds)) != s
    ensures T.Total(Next(s, Advance(t, succeeds)).threads, Left) < T.Total(s.threads, Left)
  {
    T.LessForOne(s.threads, Next(s, Advance(t, succeeds)).threads, Left, t);
  }

  function Run(s: System, schedule: nat -> Step, n: nat): System {
    if n == 0 then s else Next(Run(s, schedule, n - 1), schedule(n - 1))
  }

  /** The goroutine whose turn it is goes on with its call, unless all have returned. */
  ghost predicate Keeps(s: System, schedule: nat -> Step, i: nat) {
    var r := Run(s, schedule, i);
    Unfinished(r) ==> schedule(i).Advance? && Next(r, schedule(i)) != r
  }

  lemma {:induction false} Finishes(s: System, schedule: nat -> Step, from: nat, r: System) returns (n: nat)
    requires r == Run(s, schedule, from) && forall i :: Keeps(s, schedule, i)
    ensures !Unfinished(Run(s, schedule, n))
    decreases T.Total(r.threads, Left)
  {
    if !Unfinished(r) { return from; }
    assert Keeps(s, schedule, from);
    StepWorksOff(r, schedule(from).t, schedule(from).succeeds);
    n := Finishes(s, schedule, from + 1, Next(r, schedule(from)));
  }

  /** So once no calls begin, every schedule that keeps letting goroutines go on that can finishes them all. */
  lemma EveryCallReturns(steps: seq<Step>, schedule: nat -> Step)
    requires forall i :: Keeps(After(steps), schedule, i)
    ensures exists n :: !Unfinished(Run(After(steps), schedule, n))
  {
    var n := Finishes(After(steps), schedule, 0, After(steps));
  }
}
