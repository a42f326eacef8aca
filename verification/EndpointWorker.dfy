/** The worker that keeps the watched endpoints in line with the endpoint slice, fed by a rate-limited queue. */
module EndpointWorker {
  import S = EndpointSlices

  type Key = string

  // ----- the work queue's contract -----

  /** `dirty` keys need a pass, `processing` ones are in one, `ready` is the order in which they are handed
      out, and `delayed` ones come back after a backoff. */
  datatype Queue = Queue(dirty: set<Key>, processing: set<Key>, ready: seq<Key>, delayed: set<Key>, down: bool) {

    function Add(k: Key): Queue {
      if down || k in dirty then this
      else this.(dirty := dirty + {k}, ready := if k in processing then ready else ready + [k])
    }

    function Get(): Queue
      requires ready != []
    {
      this.(dirty := dirty - {ready[0]}, processing := processing + {ready[0]}, ready := ready[1..])
    }

    function Done(k: Key): Queue {
      this.(processing := processing - {k}, ready := if k in dirty then ready + [k] else ready)
    }

    function AddRateLimited(k: Key): Queue {
      if down then this else this.(delayed := delayed + {k})
    }

    /** The backoff of a delayed key ends. */
    function Fire(k: Key): Queue
      requires k in delayed
    {
      this.(delayed := delayed - {k}).Add(k)
    }
  }

  const NEW_QUEUE := Queue({}, {}, [], {}, false)

  // ----- one turn of the worker -----

  datatype Lookup = NotFound | ReadError | Found(content: S.Extracted)

  /** A key has at most one slash; anything else is not a key the informer makes. */
  predicate ValidKey(k: Key) {
    forall i, j :: 0 <= i < j < |k| ==> k[i] != '/' || k[j] != '/'
  }

  function Applied(w: S.Watch, seen: Lookup, up: set<nat>): S.Watch {
    match seen
    case NotFound => S.StopStale(w, {})
    case ReadError => w
    case Found(content) => S.Reconciled(w, content, up)
  }

  predicate NeedsRetry(w: S.Watch, seen: Lookup, up: set<nat>) {
    match seen
    case NotFound => false
    case ReadError => true
    case Found(content) => S.OutcomeOf(w, content, up) != S.Clean
  }

  function Slashes(k: Key): nat {
    if k == [] then 0 else Slashes(k[1..]) + if k[0] == '/' then 1 else 0
  }

  /** Valid keys are those that split at slashes into one or two parts. */
  lemma {:induction false} ValidIffAtMostOneSlash(k: Key)
    ensures ValidKey(k) <==> Slashes(k) <= 1
    ensures Slashes(k) == 0 <==> '/' !in k
  {
    if k != [] {
      ValidIffAtMostOneSlash(k[1..]);
      assert k == [k[0]] + k[1..];
      if ValidKey(k) {
        forall i, j | 0 <= i < j < |k[1..]| ensures k[1..][i] != '/' || k[1..][j] != '/' {
          assert k[i + 1] != '/' || k[j + 1] != '/';
        }
        if k[0] == '/' { assert forall j :: 0 <= j < |k[1..]| ==> k[1..][j] == k[j + 1]; }
      } else {
        var i, j :| 0 <= i < j < |k| && k[i] == '/' && k[j] == '/';
        assert k[1..][j - 1] == '/';
        if i > 0 { assert k[1..][i - 1] == '/'; }
      }
    }
  }

  class Worker {
    const provider: S.Provider
    var queue: Queue

    constructor ()
      ensures fresh(provider) && provider.Abs() == S.EMPTY && queue == NEW_QUEUE
    {
      provider := new S.Provider();
      queue := NEW_QUEUE;
    }

    /** `Get` blocks while there is neither a key nor a shutdown. */
    method ProcessNextEndpointSlice(lookup: Lookup, up: set<nat>) returns (more: bool)
      requires S.Inv(provider.Abs())
      requires queue.ready != [] || queue.down
      modifies this, provider
      ensures S.Inv(provider.Abs())
      ensures more <==> old(queue.ready) != []
      ensures !more ==> queue == old(queue) && provider.Abs() == old(provider.Abs())
      ensures more && !ValidKey(old(queue.ready[0])) ==>
                provider.Abs() == old(provider.Abs()) && queue == old(queue).Get().Done(old(queue.ready[0]))
      ensures more && ValidKey(old(queue.ready[0])) ==>
                && provider.Abs() == Applied(old(provider.Abs()), lookup, up)
                && var q, k := old(queue).Get(), old(queue.ready[0]);
                   queue == (if NeedsRetry(old(provider.Abs()), lookup, up) then q.AddRateLimited(k) else q).Done(k)
    {
      if queue.ready == [] {
        return false;
      }
      var key := queue.ready[0];
      queue := queue.Get();
      if !ValidKey(key) {
        queue := queue.Done(key);
        return true;
      }
      match lookup {
        case NotFound =>
          provider.StopAllWatchedEndpoints();
        case ReadError =>
          queue := queue.AddRateLimited(key);
        case Found(content) =>
          var outcome := provider.EndpointSliceUpdate(content, up);
          if outcome != S.Clean {
            queue := queue.AddRateLimited(key);
          }
      }
      queue := queue.Done(key);
      more := true;
    }
  }

  // ----- the worker among everything else -----

  datatype Slice = Absent | Exists(content: S.Extracted)

  datatype Turn = Waiting | Took | Saw(seen: Lookup) | Decided(retry: bool) | Concluded

  /** `notices` are notifications about the slice that the informer has not delivered yet. */
  datatype System = System(slice: Slice, notices: nat, queue: Queue, turn: Turn, watch: S.Watch)

  const START := System(Absent, 0, NEW_QUEUE, Waiting, S.EMPTY)

  /** The informer's cache changes and a notification is due; notifications and backoffs come through; the
      worker takes a key, reads the slice, applies it, decides on a retry and releases the key. Steps that are
      not possible in a state leave it alone. */
  datatype Step =
    | Change(slice: Slice) | Notify | Backoff
    | Take | Look(fails: bool) | Apply(up: set<nat>) | Conclude | Release
    | ShutDown

  /** The cache is restricted to one slice, so there is one key. */
  const KEY: Key := "slice"

  function SliceRead(slice: Slice, fails: bool): Lookup {
    if fails then ReadError else if slice.Absent? then NotFound else Found(slice.content)
  }

  function Next(s: System, step: Step): System {
    match step
    case Change(slice) => s.(slice := slice, notices := s.notices + 1)
    case Notify => if s.notices == 0 then s else s.(notices := s.notices - 1, queue := s.queue.Add(KEY))
    case Backoff => if KEY !in s.queue.delayed then s else s.(queue := s.queue.Fire(KEY))
    case Take => if !s.turn.Waiting? || s.queue.ready == [] then s else s.(queue := s.queue.Get(), turn := Took)
    case Look(fails) => if !s.turn.Took? then s else s.(turn := Saw(SliceRead(s.slice, fails)))
    case Apply(up) =>
      if !s.turn.Saw? then s
      else s.(watch := Applied(s.watch, s.turn.seen, up), turn := Decided(NeedsRetry(s.watch, s.turn.seen, up)))
    case Conclude =>
      if !s.turn.Decided? then s
      else s.(queue := if s.turn.retry then s.queue.AddRateLimited(KEY) else s.queue, turn := Concluded)
    case Release => if !s.turn.Concluded? then s else s.(queue := s.queue.Done(KEY), turn := Waiting)
    case ShutDown => s.(queue := s.queue.(down := true))
  }

  function Exec(s: System, steps: seq<Step>): System
    decreases |steps|
  {
    if steps == [] then s else Exec(Next(s, steps[0]), steps[1..])
  }

  /** The watched endpoints are those of the current slice. A slice whose URLs cannot be extracted is never
      reflected: it is retried until it can. */
  ghost predicate Reflects(w: S.Watch, slice: Slice) {
    match slice
    case Absent => w.watched == map[]
    case Exists(ExtractionError) => false
    case Exists(Urls(urls)) => w.watched.Keys == S.UrlSet(urls)
  }

  /** Another pass is bound to start after this moment. */
  ghost predicate Signalled(s: System) {
    s.notices > 0 || KEY in s.queue.dirty
  }

  ghost predicate QueueInv(q: Queue, turn: Turn) {
    && q.dirty <= {KEY} && q.delayed <= {KEY}
    && q.processing == (if turn.Waiting? then {} else {KEY})
    && q.ready == if KEY in q.dirty && turn.Waiting? then [KEY] else []
  }

  /** What each turn still knows about the slice, unless a signal says it may be out of date. */
  ghost predicate Covered(s: System) {
    Signalled(s) ||
    match s.turn
    case Waiting => Reflects(s.watch, s.slice) || KEY in s.queue.delayed
    case Took => true
    case Saw(seen) => seen.ReadError? || seen == SliceRead(s.slice, false)
    case Decided(retry) => retry || Reflects(s.watch, s.slice)
    case Concluded => Reflects(s.watch, s.slice) || KEY in s.queue.delayed
  }

  ghost predicate Inv(s: System) {
    && S.Inv(s.watch)
    && QueueInv(s.queue, s.turn)
    && (!s.queue.down ==> Covered(s))
  }

  lemma ApplyKeepsInv(s: System, up: set<nat>)
    requires Inv(s)
    ensures Inv(Next(s, Apply(up)))
  {
    if s.turn.Saw? {
      match s.turn.seen {
        case NotFound => S.ActKeepsInv(s.watch, S.SliceGone);
        case ReadError =>
        case Found(content) =>
          S.ActKeepsInv(s.watch, S.Pass(content, up));
          if content.Urls? { S.CleanPass(s.watch, content.urls, up); }
      }
    }
  }

  lemma StepKeepsInv(s: System, step: Step)
    requires Inv(s)
    ensures Inv(Next(s, step))
  {
    if step.Apply? { ApplyKeepsInv(s, step.up); }
  }

  lemma {:induction false} RunKeepsInv(s: System, steps: seq<Step>)
    requires Inv(s)
    ensures Inv(Exec(s, steps))
    decreases |steps|
  {
    if steps != [] {
      StepKeepsInv(s, steps[0]);
      RunKeepsInv(Next(s, steps[0]), steps[1..]);
    }
  }

  lemma {:induction false} ExecConcat(s: System, a: seq<Step>, b: seq<Step>)
    ensures Exec(s, a + b) == Exec(Exec(s, a), b)
    decreases |a|
  {
    if a == [] {
      assert a + b == b;
    } else {
      assert (a + b)[1..] == a[1..] + b;
      ExecConcat(Next(s, a[0]), a[1..], b);
    }
  }

  /** A failed or overtaken reconcile is never stranded: until shutdown, whenever the watched endpoints are
      not those of the current slice, a notification is due, or the key is queued, delayed or in a pass. */
  lemma NeverStranded(steps: seq<Step>)
    ensures var s := Exec(START, steps);
            s.queue.down || Reflects(s.watch, s.slice) ||
            s.notices > 0 || KEY in s.queue.ready || KEY in s.queue.delayed || !s.turn.Waiting?
  {
    RunKeepsInv(START, steps);
  }

  function Turns(fails: bool, up: set<nat>): seq<Step> { [Take, Look(fails), Apply(up), Conclude, Release] }

  lemma TurnFrom(s: System, fails: bool, up: set<nat>)
    requires s.turn.Waiting? && s.queue.ready != []
    ensures var s', seen := Exec(s, Turns(fails, up)), SliceRead(s.slice, fails);
            && s'.watch == Applied(s.watch, seen, up) && s'.slice == s.slice && s'.turn.Waiting?
            && s'.queue == (if NeedsRetry(s.watch, seen, up) then s.queue.Get().AddRateLimited(KEY) else s.queue.Get()).Done(KEY)
  {
    var s1 := Next(s, Take);
    var s2 := Next(s1, Look(fails));
    var s3 := Next(s2, Apply(up));
    var s4 := Next(s3, Conclude);
    assert Exec(s4, [Release]) == Next(s4, Release);
    assert Exec(s3, [Conclude, Release]) == Exec(s4, [Release]);
    assert Exec(s2, [Apply(up), Conclude, Release]) == Exec(s3, [Conclude, Release]);
    assert Exec(s1, [Look(fails), Apply(up), Conclude, Release]) == Exec(s2, [Apply(up), Conclude, Release]);
  }

  /** An undisturbed turn does what the worker's method does, and so leaves the slice reflected or delayed. */
  lemma UndisturbedTurn(steps: seq<Step>, fails: bool, up: set<nat>)
    requires var s := Exec(START, steps); s.turn.Waiting? && s.queue.ready != [] && !s.queue.down
    ensures var s, s' := Exec(START, steps), Exec(START, steps + Turns(fails, up));
            var seen := SliceRead(s.slice, fails);
            && s'.watch == Applied(s.watch, seen, up)
            && s'.queue == (if NeedsRetry(s.watch, seen, up) then s.queue.Get().AddRateLimited(KEY) else s.queue.Get()).Done(KEY)
            && (Reflects(s'.watch, s'.slice) || KEY in s'.queue.delayed || s'.notices > 0)
  {
    var s, turn := Exec(START, steps), Turns(fails, up);
    RunKeepsInv(START, steps);
    RunKeepsInv(s, turn);
    TurnFrom(s, fails, up);
    ExecConcat(START, steps, turn);
  }

  // ----- what a turn does, and when it is repeated -----

  /** What a turn has seen is what a read returned: the slice as it was then, unless the read failed. */
  ghost predicate ReadAs(seen: Lookup, slice: Slice, fails: bool) {
    && (seen.ReadError? <==> fails)
    && (seen.NotFound? <==> !fails && slice.Absent?)
    && (seen.Found? ==> slice == Exists(seen.content))
  }

  lemma ExecSnoc(s: System, steps: seq<Step>)
    requires steps != []
    ensures Exec(s, steps) == Next(Exec(s, steps[..|steps| - 1]), steps[|steps| - 1])
  {
    assert steps == steps[..|steps| - 1] + [steps[|steps| - 1]];
    ExecConcat(s, steps[..|steps| - 1], [steps[|steps| - 1]]);
  }

  /** Step `i` is the read that the turn in progress goes by. */
  ghost predicate ReadAt(steps: seq<Step>, i: nat, seen: Lookup) {
    && i < |steps| && steps[i].Look? && Exec(START, steps[..i]).turn.Took?
    && ReadAs(seen, Exec(START, steps[..i]).slice, steps[i].fails)
    && forall j :: i < j < |steps| ==> !steps[j].Look? || !Exec(START, steps[..j]).turn.Took?
  }

  lemma {:induction false} SeenWasRead(steps: seq<Step>)
    requires Exec(START, steps).turn.Saw?
    ensures exists i :: ReadAt(steps, i, Exec(START, steps).turn.seen)
  {
    var front, n := steps[..|steps| - 1], |steps| - 1;
    ExecSnoc(START, steps);
    var s := Exec(START, front);
    if s.turn.Took? {
      assert ReadAt(steps, n, Exec(START, steps).turn.seen);
    } else {
      SeenWasRead(front);
      var i :| ReadAt(front, i, s.turn.seen);
      LaterReadAt(steps, i, s.turn.seen);
    }
  }

  lemma LaterReadAt(steps: seq<Step>, i: nat, seen: Lookup)
    requires steps != [] && ReadAt(steps[..|steps| - 1], i, seen) && !Exec(START, steps[..|steps| - 1]).turn.Took?
    ensures ReadAt(steps, i, seen)
  {
    var front := steps[..|steps| - 1];
    assert steps[..i] == front[..i];
    forall j | i < j < |front| ensures steps[..j] == front[..j] && steps[j] == front[j] {}
  }

  /** The turn saw that the slice is gone, or URLs without `u`. */
  predicate SawWithout(seen: Lookup, u: S.Url) {
    seen.NotFound? || (seen.Found? && seen.content.Urls? && u !in seen.content.urls)
  }

  /** In every run an endpoint is cancelled iff it is watched and a turn applies a read of a slice that is gone or
      lacks its URL; failed reads and slices whose URLs cannot be extracted cancel nothing. */
  lemma CancelledIffSeenWithout(steps: seq<Step>, step: Step, id: S.EndpointId)
    requires id < |Exec(START, steps).watch.starts|
    ensures var s, s' := Exec(START, steps), Next(Exec(START, steps), step);
            && |s.watch.cancels| == |s.watch.starts| && |s'.watch.cancels| == |s'.watch.starts| && id < |s'.watch.starts|
            && s'.watch.cancels[id] == s.watch.cancels[id] +
                 if step.Apply? && s.turn.Saw? && S.Live(s.watch, id) && SawWithout(s.turn.seen, s.watch.starts[id]) then 1 else 0
  {
    RunKeepsInv(START, steps);
    var s := Exec(START, steps);
    if step.Apply? && s.turn.Saw? {
      match s.turn.seen {
        case NotFound => S.CancelsIffDropped(s.watch, S.SliceGone, id);
        case ReadError =>
        case Found(content) => S.CancelsIffDropped(s.watch, S.Pass(content, step.up), id);
      }
    }
  }

  /** Nothing else about the watched endpoints changes without extracted URLs or a deleted slice. */
  lemma WatchChangesOnlyBySight(steps: seq<Step>, step: Step)
    requires Next(Exec(START, steps), step).watch != Exec(START, steps).watch
    ensures var s := Exec(START, steps);
            step.Apply? && s.turn.Saw? && (s.turn.seen.NotFound? || (s.turn.seen.Found? && s.turn.seen.content.Urls?))
  {}

  /** A turn failed: the slice could not be read, its URLs not be extracted, or the first position of one of them
      that was not watched could not be watched. */
  ghost predicate Fails(w: S.Watch, seen: Lookup, up: set<nat>) {
    || seen.ReadError?
    || (seen.Found? && seen.content.ExtractionError?)
    || (seen.Found? && seen.content.Urls? && var urls := seen.content.urls;
          exists i :: 0 <= i < |urls| && urls[i] !in w.watched && S.First(urls, i) && i !in up)
  }

  /** A turn has its key delayed for another one iff it fails, until shutdown. */
  lemma RetriedIffFailed(steps: seq<Step>, up: set<nat>)
    requires Exec(START, steps).turn.Saw?
    ensures var s := Exec(START, steps); var s' := Next(Next(s, Apply(up)), Conclude);
            && s'.turn.Concluded?
            && (KEY in s'.queue.delayed <==> KEY in s.queue.delayed || (!s.queue.down && Fails(s.watch, s.turn.seen, up)))
  {
    RunKeepsInv(START, steps);
    var s := Exec(START, steps);
    if s.turn.seen.Found? && s.turn.seen.content.Urls? {
      S.CleanPass(s.watch, s.turn.seen.content.urls, up);
    }
  }

  // ----- catching up -----

  /** The steps that wait for nobody: what the informer, the queue and the worker do by themselves. */
  predicate Internal(step: Step) { !step.Change? && !step.ShutDown? }

  /** The numbers below n: every position of a slice of length n. */
  function All(n: nat): (r: set<nat>)
    ensures forall i: nat :: i in r <==> i < n
  {
    if n == 0 then {} else All(n - 1) + {n - 1}
  }

  /** Every attempt to watch an endpoint of the slice succeeds. */
  function AllUp(slice: Slice): set<nat> {
    if slice.Exists? && slice.content.Urls? then All(|slice.content.urls|) else {}
  }

  /** The worker has just taken the key: reading and applying the slice reflects it. */
  lemma PassReflects(s: System)
    requires Inv(s) && s.turn.Took? && s.slice != Exists(S.ExtractionError)
    ensures var s' := Next(Next(s, Look(false)), Apply(AllUp(s.slice)));
            s'.slice == s.slice && Reflects(s'.watch, s.slice)
  {
    if s.slice.Exists? {
      S.CleanPass(s.watch, s.slice.content.urls, AllUp(s.slice));
    }
  }

  /** Finishing the turn in progress, if any. */
  function ToWaiting(s: System): seq<Step> {
    match s.turn
    case Waiting => []
    case Took => [Look(false), Apply({}), Conclude, Release]
    case Saw(_) => [Apply({}), Conclude, Release]
    case Decided(_) => [Conclude, Release]
    case Concluded => [Release]
  }

  /** The turn in progress can be finished, keeping the slice. */
  lemma {:induction false} FinishesTurn(s: System)
    requires Inv(s) && !s.queue.down
    ensures var s' := Exec(s, ToWaiting(s));
            s'.turn.Waiting? && s'.slice == s.slice && !s'.queue.down && Inv(s')
    decreases |ToWaiting(s)|
  {
    var steps := ToWaiting(s);
    if steps != [] {
      StepKeepsInv(s, steps[0]);
      assert ToWaiting(Next(s, steps[0])) == steps[1..];
      FinishesTurn(Next(s, steps[0]));
    }
  }

  /** A key that is ready can be taken, and the turn that takes it reflects the slice. */
  lemma ReadyKeyPasses(s: System)
    requires Inv(s) && s.turn.Waiting? && KEY in s.queue.ready && s.slice != Exists(S.ExtractionError)
    ensures var s' := Exec(s, [Take, Look(false), Apply(AllUp(s.slice))]);
            s'.slice == s.slice && Reflects(s'.watch, s.slice)
  {
    var up := AllUp(s.slice);
    var s1 := Next(s, Take);
    var s2 := Next(s1, Look(false));
    StepKeepsInv(s, Take);
    PassReflects(s1);
    assert Exec(s2, [Apply(up)]) == Next(s2, Apply(up));
    assert Exec(s1, [Look(false), Apply(up)]) == Exec(s2, [Apply(up)]);
  }

  lemma PassFollows(s: System) returns (more: seq<Step>)
    requires Inv(s) && s.turn.Waiting? && !s.queue.down && s.slice != Exists(S.ExtractionError)
    requires !Reflects(s.watch, s.slice)
    ensures |more| <= 4 && forall step :: step in more ==> Internal(step)
    ensures Exec(s, more).slice == s.slice && Reflects(Exec(s, more).watch, s.slice)
  {
    var pass := [Take, Look(false), Apply(AllUp(s.slice))];
    if s.notices == 0 && KEY in s.queue.ready {
      ReadyKeyPasses(s);
      return pass;
    }
    var wake := if s.notices > 0 then Notify else Backoff;
    StepKeepsInv(s, wake);
    ReadyKeyPasses(Next(s, wake));
    more := [wake] + pass;
    assert more[1..] == pass;
  }

  /** However it got behind: if from now on the slice stays as it is, reading it works and endpoints can be
      watched, then at most eight steps of the informer, the queue and the worker reflect it. */
  lemma CatchesUp(steps: seq<Step>) returns (more: seq<Step>)
    requires var s := Exec(START, steps); !s.queue.down && s.slice != Exists(S.ExtractionError)
    ensures |more| <= 8 && forall step :: step in more ==> Internal(step)
    ensures var s, s' := Exec(START, steps), Exec(START, steps + more);
            s'.slice == s.slice && Reflects(s'.watch, s.slice)
  {
    RunKeepsInv(START, steps);
    var s := Exec(START, steps);
    FinishesTurn(s);
    more := ToWaiting(s);
    var t := Exec(s, more);
    if !Reflects(t.watch, t.slice) {
      var pass := PassFollows(t);
      ExecConcat(s, more, pass);
      more := more + pass;
    }
    ExecConcat(START, steps, more);
  }

  // ----- every schedule catches up -----

  predicate Possible(s: System, step: Step) {
    match step
    case Notify => s.notices > 0
    case Backoff => KEY in s.queue.delayed
    case Take => s.turn.Waiting? && s.queue.ready != []
    case Look(_) => s.turn.Took?
    case Apply(_) => s.turn.Saw?
    case Conclude => s.turn.Decided?
    case Release => s.turn.Concluded?
    case _ => true
  }

  /** The slice stays, reading it works, and so does watching the endpoints read. */
  ghost predicate Helpful(s: System, step: Step) {
    && Internal(step)
    && (step.Look? ==> !step.fails)
    && (step.Apply? && s.turn.Saw? && s.turn.seen.Found? && s.turn.seen.content.Urls? ==>
          forall i :: 0 <= i < |s.turn.seen.content.urls| ==> i in step.up)
  }

  /** The slice is reflected, and no turn is about to apply what it has read of an earlier one. */
  ghost predicate Settled(s: System) {
    Reflects(s.watch, s.slice) && (s.turn.Saw? ==> s.turn.seen == SliceRead(s.slice, false))
  }

  /** How far the worker is from applying what the slice is now. */
  function Distance(s: System): nat {
    match s.turn
    case Saw(seen) => if seen == SliceRead(s.slice, false) then 0 else 5
    case Took => 1
    case Waiting => 2
    case Concluded => 3
    case Decided(_) => 4
  }

  function Wakeups(s: System): nat { s.notices + if KEY in s.queue.delayed then 1 else 0 }

  lemma FreshApplySettles(s: System, up: set<nat>)
    requires Inv(s) && s.slice != Exists(S.ExtractionError) && Helpful(s, Apply(up))
    requires s.turn.Saw? && s.turn.seen == SliceRead(s.slice, false)
    ensures Settled(Next(s, Apply(up)))
  {
    if s.slice.Exists? { S.CleanPass(s.watch, s.slice.content.urls, up); }
  }

  /** A settled system stays settled. */
  lemma SettledStays(s: System, step: Step)
    requires Inv(s) && Settled(s) && Helpful(s, step)
    ensures Settled(Next(s, step)) && Next(s, step).slice == s.slice
  {
    if step.Apply? && s.turn.Saw? { FreshApplySettles(s, step.up); }
  }

  /** Any step that can be taken settles the system or brings it closer to that. */
  lemma StepGetsCloser(s: System, step: Step)
    requires Inv(s) && s.slice != Exists(S.ExtractionError) && Helpful(s, step) && Possible(s, step)
    ensures var s' := Next(s, step);
            && s'.slice == s.slice
            && (Settled(s') || Distance(s') < Distance(s) || (Distance(s') == Distance(s) && Wakeups(s') < Wakeups(s)))
  {
    if step.Apply? && Distance(s) == 0 { FreshApplySettles(s, step.up); }
  }

  /** And there always is such a step. */
  lemma UnsettledCanMove(s: System)
    requires Inv(s) && !s.queue.down && s.slice != Exists(S.ExtractionError) && !Settled(s)
    ensures exists step :: Helpful(s, step) && Possible(s, step)
  {
    var step := match s.turn
      case Took => Look(false)
      case Saw(seen) => Apply(if seen.Found? && seen.content.Urls? then All(|seen.content.urls|) else {})
      case Decided(_) => Conclude
      case Concluded => Release
      case Waiting => if s.notices > 0 then Notify else if KEY in s.queue.ready then Take else Backoff;
    assert Helpful(s, step) && Possible(s, step);
  }

  /** The state after the first `n` steps of an unending schedule. */
  function Run(s: System, schedule: nat -> Step, n: nat): System {
    if n == 0 then s else Next(Run(s, schedule, n - 1), schedule(n - 1))
  }

  /** Step `i` of the schedule is helpful, and possible unless there is nothing left to do. */
  ghost predicate Keeps(s: System, schedule: nat -> Step, i: nat) {
    var r := Run(s, schedule, i);
    Helpful(r, schedule(i)) && (Settled(r) || Possible(r, schedule(i)))
  }

  ghost predicate ReflectedFrom(s: System, schedule: nat -> Step, n: nat) {
    forall m :: n <= m ==> Reflects(Run(s, schedule, m).watch, s.slice)
  }

  lemma {:induction false} RunInv(s: System, schedule: nat -> Step, n: nat)
    requires Inv(s) && forall i :: Keeps(s, schedule, i)
    ensures Inv(Run(s, schedule, n)) && Run(s, schedule, n).slice == s.slice
  {
    if n > 0 {
      RunInv(s, schedule, n - 1);
      assert Keeps(s, schedule, n - 1);
      StepKeepsInv(Run(s, schedule, n - 1), schedule(n - 1));
    }
  }

  lemma {:induction false} Settles(s: System, schedule: nat -> Step, from: nat, r: System) returns (n: nat)
    requires Inv(s) && s.slice != Exists(S.ExtractionError) && r == Run(s, schedule, from)
    requires forall i :: Keeps(s, schedule, i)
    ensures Settled(Run(s, schedule, n))
    decreases Distance(r), Wakeups(r)
  {
    if Settled(r) { return from; }
    var r' := Next(r, schedule(from));
    RunInv(s, schedule, from);
    assert Keeps(s, schedule, from);
    StepGetsCloser(r, schedule(from));
    assert r' == Run(s, schedule, from + 1);
    if Settled(r') { return from + 1; }
    n := Settles(s, schedule, from + 1, r');
  }

  lemma {:induction false} SettledFrom(s: System, schedule: nat -> Step, n: nat, m: nat)
    requires Inv(s) && n <= m && Settled(Run(s, schedule, n))
    requires forall i :: Keeps(s, schedule, i)
    ensures Settled(Run(s, schedule, m))
  {
    if n < m {
      SettledFrom(s, schedule, n, m - 1);
      RunInv(s, schedule, m - 1);
      assert Keeps(s, schedule, m - 1);
      SettledStays(Run(s, schedule, m - 1), schedule(m - 1));
    }
  }

  /** Wherever a run has got to: once the slice stays as it is, reading it works and endpoints can be watched,
      every schedule that keeps taking possible steps while there is anything left to do comes to watch exactly
      the slice's endpoints, and from then on always does. */
  lemma EveryScheduleCatchesUp(steps: seq<Step>, schedule: nat -> Step)
    requires Exec(START, steps).slice != Exists(S.ExtractionError)
    requires forall i :: Keeps(Exec(START, steps), schedule, i)
    ensures exists n :: ReflectedFrom(Exec(START, steps), schedule, n)
  {
    var s := Exec(START, steps);
    RunKeepsInv(START, steps);
    var n := Settles(s, schedule, 0, s);
    forall m | n <= m ensures Reflects(Run(s, schedule, m).watch, s.slice) {
      SettledFrom(s, schedule, n, m);
      RunInv(s, schedule, m);
    }
    assert ReflectedFrom(s, schedule, n);
  }
}
