/** One event recorder provider under concurrency: recorders that emit, the first use that starts the
    broadcasters, and calls of `Stop`. */
module RecorderShutdown {
  import T = Totals

  type Tid = nat

  datatype Api = Current | Deprecated

  datatype Job = Emit(api: Api) | Stop

  /** `Wants` waits for the broadcasters to have been started, `Builds` starts them, and `Locked(n)` has done the
      first `n` things `Stop` does under the write lock. */
  datatype Pc =
    | Idle | Wants(job: Job) | Builds(job: Job) | Ensured(job: Job)
    | Reads(api: Api) | Sends(api: Api)
    | Locked(n: nat)

  datatype Once = NotBegun | Building(builder: Tid) | Built

  datatype Holder = Nobody | Writer(tid: Tid)

  /** `owned` tells whether the broadcasters are to be stopped with the provider, `watching` whether the event
      watcher was started and so can be stopped; a stop without one crashes. `made` counts how often broadcasters
      were made, `down` is the set of broadcasters that were shut down. */
  datatype System = System(
    owned: bool, once: Once, watching: bool, made: nat,
    writer: Holder, stopped: bool, down: set<Api>, crashed: bool,
    threads: map<Tid, Pc>)
  {
    function At(t: Tid): Pc { if t in threads then threads[t] else Idle }
    function To(t: Tid, pc: Pc): System { this.(threads := threads[t := pc]) }
  }

  function Start(owned: bool): System { System(owned, NotBegun, false, 0, Nobody, false, {}, false, map[]) }

  predicate Reading(pc: Pc) { pc.Reads? || pc.Sends? }

  predicate NobodyReads(s: System) { forall t :: t in s.threads ==> !Reading(s.threads[t]) }

  /** `starts` says whether recording to the sink and the event watcher can be started, for the step that tries. */
  datatype Step = Begin(t: Tid, job: Job) | Advance(t: Tid, starts: bool)

  function Next(s: System, step: Step): System {
    if s.crashed then s
    else match step
      case Begin(t, job) => if s.At(t).Idle? then s.To(t, Wants(job)) else s
      case Advance(t, starts) => Advanced(s, t, starts)
  }

  function Advanced(s: System, t: Tid, starts: bool): System {
    match s.At(t)
    case Idle => s
    case Wants(job) => Entered(s, t, job)
    case Builds(job) => s.To(t, Ensured(job)).(once := Built, watching := starts, made := s.made + 1)
    case Ensured(Emit(api)) => if s.writer.Nobody? then s.To(t, Reads(api)) else s
    case Ensured(Stop) =>
      if !s.owned then s.To(t, Idle)
      else if s.writer.Nobody? && NobodyReads(s) then s.To(t, Locked(0)).(writer := Writer(t))
      else s
    case Reads(api) => if s.stopped then s.To(t, Idle) else s.To(t, Sends(api))
    case Sends(api) => s.To(t, Idle)
    case Locked(n) => Stopping(s, t, n)
  }

  /** The first to come starts the broadcasters and everybody else waits for it. */
  function Entered(s: System, t: Tid, job: Job): System {
    match s.once
    case NotBegun => s.To(t, Builds(job)).(once := Building(t))
    case Building(_) => s
    case Built => s.To(t, Ensured(job))
  }

  /** Shut the broadcaster down, cancel the sink, stop the watcher, shut the deprecated broadcaster down, unlock. */
  function Stopping(s: System, t: Tid, n: nat): System {
    if n == 0 then s.To(t, Locked(1)).(down := s.down + {Current})
    else if n == 1 then s.To(t, Locked(2))
    else if n == 2 then if s.watching then s.To(t, Locked(3)) else s.(crashed := true)
    else if n == 3 then s.To(t, Locked(4)).(down := s.down + {Deprecated})
    else s.To(t, Idle).(stopped := true, writer := Nobody)
  }

  function Exec(s: System, steps: seq<Step>): System
    decreases |steps|
  {
    if steps == [] then s else Exec(Next(s, steps[0]), steps[1..])
  }

  function After(owned: bool, steps: seq<Step>): System { Exec(Start(owned), steps) }

  lemma {:induction false} ExecConcat(s: System, a: seq<Step>, b: seq<Step>)
    ensures Exec(s, a + b) == Exec(Exec(s, a), b)
    decreases |a|
  {
    if a == [] {
      assert a + b == b;
    } else {
      assert (a + b)[1..] == a[1..] + b;
      ExecConcat(Next(s, a[0]), a[1..], b);
    }
  }

  // ----- invariants -----

  /** What goroutine `t` at `pc` relies on. */
  ghost predicate ThreadOk(s: System, t: Tid, pc: Pc) {
    && (pc.Locked? <==> s.writer == Writer(t))
    && (pc.Builds? <==> s.once == Building(t))
    && (Reading(pc) ==> s.writer.Nobody?)
    && (pc.Sends? ==> !s.stopped)
    && (pc.Ensured? || Reading(pc) || pc.Locked? ==> s.once.Built?)
    && (pc.Locked? ==> s.owned && pc.n <= 4 && (pc.n >= 1 ==> Current in s.down) && (pc.n >= 4 ==> Deprecated in s.down))
  }

  ghost predicate SharedOk(s: System) {
    && s.made == (if s.once.Built? then 1 else 0)
    && (s.stopped ==> s.owned && Current in s.down && Deprecated in s.down)
    && (s.down != {} ==> s.once.Built? && (s.stopped || s.writer.Writer?))
  }

  ghost predicate Inv(s: System) {
    SharedOk(s) && forall t :: ThreadOk(s, t, s.At(t))
  }

  /** A step leaves the program counters of other goroutines alone, and what they rely on too. */
  lemma OthersStayOk(s: System, t: Tid, starts: bool, u: Tid)
    requires Inv(s) && u != t
    ensures Advanced(s, t, starts).At(u) == s.At(u)
    ensures ThreadOk(Advanced(s, t, starts), u, s.At(u))
  {
    assert ThreadOk(s, t, s.At(t)) && ThreadOk(s, u, s.At(u));
  }

  lemma SelfStaysOk(s: System, t: Tid, starts: bool)
    requires Inv(s)
    ensures ThreadOk(Advanced(s, t, starts), t, Advanced(s, t, starts).At(t))
  {
    assert ThreadOk(s, t, s.At(t));
  }

  lemma SharedStaysOk(s: System, t: Tid, starts: bool)
    requires Inv(s)
    ensures SharedOk(Advanced(s, t, starts))
  {}

  lemma StepKeepsInv(s: System, step: Step)
    requires Inv(s)
    ensures Inv(Next(s, step))
  {
    if step.Advance? {
      SelfStaysOk(s, step.t, step.starts);
      SharedStaysOk(s, step.t, step.starts);
      forall u ensures ThreadOk(Next(s, step), u, Next(s, step).At(u)) {
        if u != step.t { OthersStayOk(s, step.t, step.starts, u); }
      }
    } else {
      forall u ensures ThreadOk(Next(s, step), u, Next(s, step).At(u)) {
        assert ThreadOk(s, u, s.At(u));
      }
    }
  }

  /** The watcher was started unless nobody has got past stopping it; what has crashed had none. */
  ghost predicate WatcherOk(s: System) {
    && (s.crashed ==> s.owned && s.once.Built? && !s.watching)
    && (s.watching ==> s.once.Built?)
    && (s.stopped ==> s.watching)
    && (s.writer.Writer? && s.At(s.writer.tid).Locked? && s.At(s.writer.tid).n >= 3 ==> s.watching)
  }

  lemma StepKeepsWatcherOk(s: System, step: Step)
    requires Inv(s) && WatcherOk(s)
    ensures WatcherOk(Next(s, step)) && Next(s, step).owned == s.owned
  {
    if step.Advance? { assert ThreadOk(s, step.t, s.At(step.t)); }
  }

  lemma {:induction false} RunKeepsInv(s: System, steps: seq<Step>)
    requires Inv(s) && WatcherOk(s)
    ensures var s' := Exec(s, steps); Inv(s') && WatcherOk(s') && s'.owned == s.owned
    decreases |steps|
  {
    if steps != [] {
      StepKeepsInv(s, steps[0]);
      StepKeepsWatcherOk(s, steps[0]);
      RunKeepsInv(Next(s, steps[0]), steps[1..]);
    }
  }

  lemma Reachable(owned: bool, steps: seq<Step>)
    ensures var s := After(owned, steps); Inv(s) && WatcherOk(s) && s.owned == owned
  {
    RunKeepsInv(Start(owned), steps);
  }

  // ----- results over every interleaving -----

  /** No event reaches a broadcaster after its shutdown: a goroutine about to send finds both broadcasters made
      and up, and nobody is stopping them. */
  lemma NoEventAfterShutdown(owned: bool, steps: seq<Step>, t: Tid)
    requires After(owned, steps).At(t).Sends?
    ensures var s := After(owned, steps); s.once.Built? && s.down == {} && s.writer.Nobody? && !s.stopped
  {
    Reachable(owned, steps);
    assert ThreadOk(After(owned, steps), t, After(owned, steps).At(t));
  }

  /** An event is dropped only once both broadcasters are down for good. */
  lemma DroppedOnlyAfterStop(owned: bool, steps: seq<Step>, t: Tid, starts: bool)
    requires var s := After(owned, steps);
             !s.crashed && s.At(t).Reads? && Next(s, Advance(t, starts)).At(t).Idle?
    ensures Current in After(owned, steps).down && Deprecated in After(owned, steps).down
  {
    Reachable(owned, steps);
  }

  lemma StepShutsDownForGood(s: System, step: Step)
    requires Inv(s)
    ensures s.down <= Next(s, step).down && (s.stopped ==> Next(s, step).stopped)
    ensures s.once.Built? ==> Next(s, step).once.Built? && Next(s, step).made == s.made == 1
  {}

  lemma {:induction false} ShutdownPersists(s: System, more: seq<Step>)
    requires Inv(s) && WatcherOk(s)
    ensures var s' := Exec(s, more);
            && s.down <= s'.down && (s.stopped ==> s'.stopped)
            && (s.once.Built? ==> s'.once.Built? && s'.made == s.made == 1)
    decreases |more|
  {
    if more != [] {
      StepShutsDownForGood(s, more[0]);
      StepKeepsInv(s, more[0]);
      StepKeepsWatcherOk(s, more[0]);
      ShutdownPersists(Next(s, more[0]), more[1..]);
    }
  }

  /** What is down stays down, and what was made is never made again, whatever happens next. */
  lemma ShutdownIsFinal(owned: bool, steps: seq<Step>, more: seq<Step>)
    ensures var s, s' := After(owned, steps), After(owned, steps + more);
            && s.down <= s'.down && (s.stopped ==> s'.stopped)
            && (s.once.Built? ==> s'.once.Built? && s'.made == s.made == 1)
  {
    Reachable(owned, steps);
    ShutdownPersists(After(owned, steps), more);
    ExecConcat(Start(owned), steps, more);
  }

  /** Broadcasters that are not the provider's own are never shut down. */
  lemma SharedBroadcastersStayUp(steps: seq<Step>)
    ensures var s := After(false, steps); s.down == {} && !s.stopped && s.writer.Nobody?
  {
    Reachable(false, steps);
    var s := After(false, steps);
    assert forall t :: ThreadOk(s, t, s.At(t));
  }

  // ----- what a call has done once it returns -----

  datatype Given = Nothing | Was(job: Job)

  /** The job that goroutine `t` was last given: it takes one when it has none. */
  ghost function LastJob(owned: bool, steps: seq<Step>, t: Tid): Given {
    if steps == [] then Nothing
    else
      var front, last := steps[..|steps| - 1], steps[|steps| - 1];
      var s := After(owned, front);
      if last.Begin? && last.t == t && s.At(t).Idle? && !s.crashed then Was(last.job) else LastJob(owned, front, t)
  }

  /** The job a goroutine is doing at `pc`. */
  function JobAt(pc: Pc): Given {
    match pc
    case Idle => Nothing
    case Wants(job) => Was(job)
    case Builds(job) => Was(job)
    case Ensured(job) => Was(job)
    case Reads(api) => Was(Emit(api))
    case Sends(api) => Was(Emit(api))
    case Locked(_) => Was(Stop)
  }

  ghost predicate AllDown(s: System) { s.stopped && Current in s.down && Deprecated in s.down }

  /** A step goes on with the job it finds. A stop that ends has everything down; an emit that ends was about to
      send, or found everything down. */
  lemma StepKeepsJob(s: System, step: Step, t: Tid)
    requires Inv(s) && !s.At(t).Idle?
    ensures var s' := Next(s, step);
            && (!s'.At(t).Idle? ==> JobAt(s'.At(t)) == JobAt(s.At(t)))
            && (s'.At(t).Idle? && JobAt(s.At(t)) == Was(Stop) && s.owned ==> AllDown(s'))
            && (s'.At(t).Idle? && JobAt(s.At(t)).job.Emit? ==> s.At(t) == Sends(JobAt(s.At(t)).job.api) || AllDown(s))
  {
    assert ThreadOk(s, t, s.At(t));
  }

  lemma DownStaysDown(s: System, step: Step)
    requires Inv(s) && AllDown(s)
    ensures AllDown(Next(s, step))
  {}

  lemma AfterSnoc(owned: bool, steps: seq<Step>)
    requires steps != []
    ensures After(owned, steps) == Next(After(owned, steps[..|steps| - 1]), steps[|steps| - 1])
  {
    var front, last := steps[..|steps| - 1], steps[|steps| - 1];
    assert steps == front + [last];
    ExecConcat(Start(owned), front, [last]);
    ExecOne(After(owned, front), last);
  }

  lemma ExecOne(s: System, step: Step)
    ensures Exec(s, [step]) == Next(s, step)
  {
    assert [step][1..] == [];
  }

  /** In every run a goroutine at work is doing the job it was last given, and when one whose job was to stop has
      none any more, both of the provider's own broadcasters are down for good. */
  lemma {:induction false} StopReturnsStopped(owned: bool, steps: seq<Step>, t: Tid)
    ensures var s, given := After(owned, steps), LastJob(owned, steps, t);
            && (!s.At(t).Idle? ==> given == JobAt(s.At(t)))
            && (given == Was(Stop) && s.At(t).Idle? && owned ==> AllDown(s))
  {
    if steps != [] {
      var front, last := steps[..|steps| - 1], steps[|steps| - 1];
      var s := After(owned, front);
      StopReturnsStopped(owned, front, t);
      AfterSnoc(owned, steps);
      Reachable(owned, front);
      if !s.At(t).Idle? {
        StepKeepsJob(s, last, t);
      } else if AllDown(s) {
        DownStaysDown(s, last);
      }
    }
  }

  /** A goroutine whose job was to emit an event and that has none any more was about to send it to the broadcaster
      it was meant for, unless both were down. */
  lemma EmitReturnsSentOrDown(owned: bool, steps: seq<Step>, step: Step, t: Tid, api: Api)
    requires LastJob(owned, steps, t) == Was(Emit(api))
    requires !After(owned, steps).At(t).Idle? && Next(After(owned, steps), step).At(t).Idle?
    ensures After(owned, steps).At(t) == Sends(api) || AllDown(After(owned, steps))
  {
    Reachable(owned, steps);
    StopReturnsStopped(owned, steps, t);
    StepKeepsJob(After(owned, steps), step, t);
  }

  // ----- every call returns -----

  /** Steps a goroutine has left at most. */
  function Left(pc: Pc): nat {
    match pc
    case Idle => 0
    case Wants(job) => if job.Stop? then 8 else 5
    case Builds(job) => if job.Stop? then 7 else 4
    case Ensured(job) => if job.Stop? then 6 else 3
    case Reads(_) => 2
    case Sends(_) => 1
    case Locked(n) => if n < 5 then 5 - n else 1
  }

  ghost function AllLeft(s: System): nat { T.Total(s.threads, Left) }

  ghost predicate Unfinished(s: System) { exists t :: t in s.threads && !s.threads[t].Idle? }

  /** Starting works, and nothing stands in the way of a stop. */
  ghost predicate Sound(s: System) {
    Inv(s) && WatcherOk(s) && !s.crashed && (s.once.Built? ==> s.watching)
  }

  lemma StepKeepsSound(s: System, t: Tid)
    requires Sound(s)
    ensures Sound(Next(s, Advance(t, true)))
  {
    StepKeepsInv(s, Advance(t, true));
    StepKeepsWatcherOk(s, Advance(t, true));
    assert ThreadOk(s, t, s.At(t));
  }

  lemma StepWorksOff(s: System, t: Tid)
    requires Sound(s) && Next(s, Advance(t, true)) != s
    ensures AllLeft(Next(s, Advance(t, true))) < AllLeft(s)
  {
    var s' := Next(s, Advance(t, true));
    assert ThreadOk(s, t, s.At(t));
    OneStepLess(s, t);
    T.LessForOne(s.threads, s'.threads, Left, t);
  }

  lemma OneStepLess(s: System, t: Tid)
    requires ThreadOk(s, t, s.At(t)) && !s.crashed && (s.once.Built? ==> s.watching) && Advanced(s, t, true) != s
    ensures var s' := Advanced(s, t, true);
            && t in s.threads && s'.threads.Keys == s.threads.Keys && Left(s'.threads[t]) < Left(s.threads[t])
            && forall u :: u in s.threads && u != t ==> s'.threads[u] == s.threads[u]
  {}

  /** Go's read-write lock lets no new reader in while a writer waits. */
  ghost predicate Polite(s: System, t: Tid) {
    s.At(t).Ensured? && s.At(t).job.Emit? && s.owned ==> forall u :: u in s.threads ==> s.threads[u] != Ensured(Stop)
  }

  ghost predicate CanMove(s: System, t: Tid) { Next(s, Advance(t, true)) != s && Polite(s, t) }

  lemma HolderOrBuilderMoves(s: System) returns (t: Tid)
    requires Sound(s) && (s.writer.Writer? || s.once.Building?)
    ensures CanMove(s, t)
  {
    t := if s.writer.Writer? then s.writer.tid else s.once.builder;
    assert ThreadOk(s, t, s.At(t));
    assert s.At(t).Locked? || s.At(t).Builds?;
    var s' := Next(s, Advance(t, true));
    assert s'.At(t) != s.At(t);
  }

  /** Nobody is ever stuck: while a call is unfinished some goroutine can go on. */
  lemma SomebodyCanMove(s: System) returns (t: Tid)
    requires Sound(s) && Unfinished(s)
    ensures CanMove(s, t)
  {
    if s.writer.Writer? || s.once.Building? {
      t := HolderOrBuilderMoves(s);
    } else {
      if r :| r in s.threads && Reading(s.threads[r]) {
        t := r;
      } else if w :| w in s.threads && s.threads[w] == Ensured(Stop) {
        t := w;
      } else {
        t :| t in s.threads && !s.threads[t].Idle?;
      }
      assert ThreadOk(s, t, s.At(t));
      assert Next(s, Advance(t, true)).At(t) != s.At(t);
    }
  }

  function Run(s: System, schedule: nat -> Tid, n: nat): System {
    if n == 0 then s else Next(Run(s, schedule, n - 1), Advance(schedule(n - 1), true))
  }

  /** The goroutine whose turn it is can go on, unless nothing is unfinished. */
  ghost predicate Keeps(s: System, schedule: nat -> Tid, i: nat) {
    var r := Run(s, schedule, i);
    Unfinished(r) ==> Next(r, Advance(schedule(i), true)) != r
  }

  /** A stop that was under way is still, or has everything down. */
  ghost predicate StopInHand(s: System, t: Tid) { JobAt(s.At(t)) == Was(Stop) || AllDown(s) }

  lemma {:induction false} Finishes(s: System, schedule: nat -> Tid, from: nat, r: System, t: Tid) returns (n: nat)
    requires r == Run(s, schedule, from) && Sound(r) && r.owned && StopInHand(r, t)
    requires forall i :: Keeps(s, schedule, i)
    ensures !Unfinished(Run(s, schedule, n)) && AllDown(Run(s, schedule, n))
    decreases AllLeft(r)
  {
    if !Unfinished(r) { return from; }
    assert Keeps(s, schedule, from);
    var u := schedule(from);
    var r' := Next(r, Advance(u, true));
    StepKeepsSound(r, u);
    StepWorksOff(r, u);
    if AllDown(r) {
      DownStaysDown(r, Advance(u, true));
    } else {
      StepKeepsJob(r, Advance(u, true), t);
    }
    n := Finishes(s, schedule, from + 1, r', t);
  }

  /** Whatever a run has got to, as long as starting has not failed: once a stop has begun, and nothing new begins,
      every schedule that keeps letting goroutines go on that can ends with both of the provider's own
      broadcasters down. */
  lemma EveryStopFinishes(steps: seq<Step>, schedule: nat -> Tid, t: Tid)
    requires var s := After(true, steps); !s.crashed && (s.once.Built? ==> s.watching)
    requires LastJob(true, steps, t) == Was(Stop)
    requires forall i :: Keeps(After(true, steps), schedule, i)
    ensures exists n :: !Unfinished(Run(After(true, steps), schedule, n)) && AllDown(Run(After(true, steps), schedule, n))
  {
    Reachable(true, steps);
    StopReturnsStopped(true, steps, t);
    var n := Finishes(After(true, steps), schedule, 0, After(true, steps), t);
  }

  // ----- stopping without a watcher -----

  /** Goroutine `t` takes its next `n` steps; recording cannot be started. */
  function Advances(t: Tid, n: nat): seq<Step> {
    if n == 0 then [] else [Advance(t, false)] + Advances(t, n - 1)
  }

  lemma ExecCons(s: System, step: Step, rest: seq<Step>)
    ensures Exec(s, [step] + rest) == Exec(Next(s, step), rest)
  {
    assert ([step] + rest)[1..] == rest;
  }

  lemma NextAdvance(s: System, t: Tid, n: nat)
    requires n > 0
    ensures Exec(s, Advances(t, n)) == Exec(Next(s, Advance(t, false)), Advances(t, n - 1))
  {
    ExecCons(s, Advance(t, false), Advances(t, n - 1));
  }

  /** A stop that is under way gets to the watcher. */
  lemma {:induction false} LockedStopCrashes(s: System, t: Tid, n: nat)
    requires n <= 2 && s.At(t) == Locked(n) && !s.watching
    ensures Exec(s, Advances(t, 3 - n)).crashed
    decreases 3 - n
  {
    NextAdvance(s, t, 3 - n);
    if n < 2 && !s.crashed {
      LockedStopCrashes(Next(s, Advance(t, false)), t, n + 1);
    } else {
      CrashIsFinal(Next(s, Advance(t, false)), Advances(t, 2 - n));
    }
  }

  lemma {:induction false} CrashIsFinal(s: System, steps: seq<Step>)
    requires s.crashed
    ensures Exec(s, steps) == s
    decreases |steps|
  {
    if steps != [] { CrashIsFinal(s, steps[1..]); }
  }

  /** A stop that nobody keeps waiting crashes. */
  lemma FreshStopCrashes(s: System, t: Tid)
    requires s.At(t).Idle? && s.owned && s.once.Built? && !s.watching && s.writer.Nobody? && NobodyReads(s)
    ensures Exec(s, [Begin(t, Stop)] + Advances(t, 5)).crashed
  {
    ExecCons(s, Begin(t, Stop), Advances(t, 5));
    var s1 := Next(s, Begin(t, Stop));
    if s.crashed {
      CrashIsFinal(s, Advances(t, 5));
    } else {
      NextAdvance(s1, t, 5);
      var s2 := Next(s1, Advance(t, false));
      NextAdvance(s2, t, 4);
      LockedStopCrashes(Next(s2, Advance(t, false)), t, 0);
    }
  }

  /** Stopping can crash: the first use could not start recording, and then the stop has no watcher to stop. */
  lemma StopCanCrash()
    ensures After(true, [Begin(0, Emit(Current))] + Advances(0, 5) + [Begin(1, Stop)] + Advances(1, 5)).crashed
  {
    var s := Start(true);
    var emit, used := Begin(0, Emit(Current)), [Begin(0, Emit(Current))] + Advances(0, 5);
    var s1 := Next(s, emit);
    var s2 := Next(s1, Advance(0, false));
    var s3 := Next(s2, Advance(0, false));
    ExecCons(s, emit, Advances(0, 5));
    var s4 := Next(s3, Advance(0, false));
    NextAdvance(s1, 0, 5);
    NextAdvance(s2, 0, 4);
    NextAdvance(s3, 0, 3);
    NextAdvance(s4, 0, 2);
    NextAdvance(Next(s4, Advance(0, false)), 0, 1);
    FreshStopCrashes(Exec(s, used), 1);
    ExecConcat(s, used, [Begin(1, Stop)] + Advances(1, 5));
    assert used + [Begin(1, Stop)] + Advances(1, 5) == used + ([Begin(1, Stop)] + Advances(1, 5));
  }

  /** In every run: a crash means that the broadcasters are the provider's own and were made without a watcher,
      and without one no stop ever completes. */
  lemma CrashesOnlyUnwatched(owned: bool, steps: seq<Step>)
    ensures var s := After(owned, steps);
            (s.crashed ==> owned && s.once.Built? && !s.watching) && (s.stopped ==> owned && s.watching)
  {
    Reachable(owned, steps);
  }

  // ----- from wherever a run has got to -----

  lemma FreshThread(ts: set<Tid>) returns (t: Tid)
    ensures forall u :: u in ts ==> u < t
  {
    if ts == {} {
      t := 0;
    } else {
      var u :| u in ts;
      t := FreshThread(ts - {u});
      assert ts == (ts - {u}) + {u};
      t := if t <= u then u + 1 else t;
    }
  }

  ghost predicate Doomed(s: System) { Inv(s) && WatcherOk(s) && s.owned && !s.watching }

  /** The first use can still fail to start recording. */
  lemma UseFails(s: System) returns (more: seq<Step>)
    requires Doomed(s) && !s.crashed
    ensures var s' := Exec(s, more); Doomed(s') && (s'.once.Built? || s'.crashed)
  {
    if s.once.Built? { return []; }
    if s.once.Building? {
      var t := s.once.builder;
      more := Advances(t, 1);
      NextAdvance(s, t, 1);
      assert ThreadOk(s, t, s.At(t));
    } else {
      var t := FreshThread(s.threads.Keys);
      more := [Begin(t, Stop)] + Advances(t, 2);
      ExecCons(s, Begin(t, Stop), Advances(t, 2));
      var s1 := Next(s, Begin(t, Stop));
      NextAdvance(s1, t, 2);
      NextAdvance(Next(s1, Advance(t, false)), t, 1);
    }
    RunKeepsInv(s, more);
  }

  function Readers(s: System): set<Tid> { set t | t in s.threads && Reading(s.threads[t]) }

  /** Recorders that are sending finish. */
  lemma {:induction false} ReadersLeave(s: System) returns (more: seq<Step>)
    requires Doomed(s) && s.once.Built?
    ensures var s' := Exec(s, more); Doomed(s') && s'.once.Built? && (s'.crashed || (s'.writer == s.writer && NobodyReads(s')))
    decreases |Readers(s)|
  {
    if s.crashed || NobodyReads(s) { return []; }
    var t :| t in s.threads && Reading(s.threads[t]);
    NextAdvance(s, t, 2);
    var s1 := Next(s, Advance(t, false));
    NextAdvance(s1, t, 1);
    var s2 := Next(s1, Advance(t, false));
    RunKeepsInv(s, Advances(t, 2));
    assert Readers(s2) == Readers(s) - {t};
    var rest := ReadersLeave(s2);
    more := Advances(t, 2) + rest;
    ExecConcat(s, Advances(t, 2), rest);
  }

  /** Without a watcher some continuation crashes. */
  lemma SomeContinuationCrashes(s: System) returns (more: seq<Step>)
    requires Doomed(s)
    ensures Exec(s, more).crashed
  {
    if s.crashed { return []; }
    var use := UseFails(s);
    var s1 := Exec(s, use);
    var leave := ReadersLeave(s1);
    var s2 := Exec(s1, leave);
    var stop: seq<Step>;
    if s2.crashed {
      stop := [];
    } else if s2.writer.Writer? {
      var t := s2.writer.tid;
      assert ThreadOk(s2, t, s2.At(t));
      stop := Advances(t, 3 - s2.At(t).n);
      LockedStopCrashes(s2, t, s2.At(t).n);
    } else {
      var t := FreshThread(s2.threads.Keys);
      stop := [Begin(t, Stop)] + Advances(t, 5);
      FreshStopCrashes(s2, t);
    }
    more := use + (leave + stop);
    ExecConcat(s, use, leave + stop);
    ExecConcat(s1, leave, stop);
  }

  /** Wherever a run has got to, it can still end in a crash iff the broadcasters are the provider's own and no
      watcher has been started, because the first use failed to or is still to come. */
  lemma CrashesIffNeverWatching(owned: bool, steps: seq<Step>)
    ensures (exists more :: After(owned, steps + more).crashed) <==> owned && !After(owned, steps).watching
  {
    var s := After(owned, steps);
    Reachable(owned, steps);
    if owned && !s.watching {
      var more := SomeContinuationCrashes(s);
      ExecConcat(Start(owned), steps, more);
    }
    forall more | After(owned, steps + more).crashed ensures owned && !s.watching {
      ExecConcat(Start(owned), steps, more);
      CrashesOnlyUnwatched(owned, steps + more);
      if s.watching { WatchingStays(s, more); }
    }
  }

  lemma {:induction false} WatchingStays(s: System, more: seq<Step>)
    requires Inv(s) && WatcherOk(s) && s.watching
    ensures Exec(s, more).watching
    decreases |more|
  {
    if more != [] {
      StepKeepsInv(s, more[0]);
      StepKeepsWatcherOk(s, more[0]);
      if more[0].Advance? { assert ThreadOk(s, more[0].t, s.At(more[0].t)); }
      WatchingStays(Next(s, more[0]), more[1..]);
    }
  }
}
