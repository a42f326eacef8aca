/** Reconciling the watched endpoints against the URLs of the endpoint slice. */
module EndpointSlices {

  type Url = string

  /** Endpoints are named by the order in which they were started. */
  type EndpointId = nat

  /** `caches` is what the aggregate cache has been told; `starts[i]` is the URL endpoint `i` was started
      for, and `cancels[i]` how often that endpoint was cancelled. */
  datatype Watch = Watch(
    watched: map<Url, EndpointId>,
    caches: map<Url, EndpointId>,
    starts: seq<Url>,
    cancels: seq<nat>)

  const EMPTY := Watch(map[], map[], [], [])

  datatype Extracted = Urls(urls: seq<Url>) | ExtractionError

  /** `failed` lists the URLs that could not be watched, in order and once per attempt. */
  datatype Outcome = Clean | NotExtracted | NotWatched(failed: seq<Url>)

  ghost predicate Inv(w: Watch) {
    && w.caches == w.watched && |w.cancels| == |w.starts|
    && (forall u :: u in w.watched ==> w.watched[u] < |w.starts| && w.starts[w.watched[u]] == u)
    && (forall id :: 0 <= id < |w.starts| ==>
          w.cancels[id] == if w.starts[id] in w.watched && w.watched[w.starts[id]] == id then 0 else 1)
  }

  // ----- one pass as a function -----

  function Started(w: Watch, u: Url): Watch {
    Watch(w.watched[u := |w.starts|], w.caches[u := |w.starts|], w.starts + [u], w.cancels + [0])
  }

  /** The state after looking at the first `n` URLs; an attempt at position `i` succeeds iff `i in up`. */
  function StartMissing(w: Watch, urls: seq<Url>, up: set<nat>, n: nat): Watch
    requires n <= |urls|
  {
    if n == 0 then w
    else
      var w' := StartMissing(w, urls, up, n - 1);
      if urls[n - 1] in w'.watched || n - 1 !in up then w' else Started(w', urls[n - 1])
  }

  function FailedAttempts(w: Watch, urls: seq<Url>, up: set<nat>, n: nat): seq<Url>
    requires n <= |urls|
  {
    if n == 0 then []
    else FailedAttempts(w, urls, up, n - 1) +
         if urls[n - 1] in StartMissing(w, urls, up, n - 1).watched || n - 1 in up then [] else [urls[n - 1]]
  }

  /** The endpoints watched for URLs outside `keep`. */
  function Stale(w: Watch, keep: set<Url>): set<EndpointId> {
    set u | u in w.watched && u !in keep :: w.watched[u]
  }

  /** The cancellation counts once each endpoint in `ids` has been cancelled once more. */
  function CancelEach(cancels: seq<nat>, ids: set<EndpointId>): seq<nat> {
    seq(|cancels|, i requires 0 <= i < |cancels| => cancels[i] + if i in ids then 1 else 0)
  }

  /** Cancelling exactly the watched URLs outside `keep`. */
  function StopStale(w: Watch, keep: set<Url>): Watch {
    Watch(
      map u | u in w.watched && u in keep :: w.watched[u],
      w.caches - (w.watched.Keys - keep),
      w.starts,
      CancelEach(w.cancels, Stale(w, keep)))
  }

  function UrlSet(urls: seq<Url>): set<Url> { set u | u in urls }

  function Reconciled(w: Watch, slice: Extracted, up: set<nat>): Watch {
    match slice
    case ExtractionError => w
    case Urls(urls) => StopStale(StartMissing(w, urls, up, |urls|), UrlSet(urls))
  }

  function OutcomeOf(w: Watch, slice: Extracted, up: set<nat>): Outcome {
    match slice
    case ExtractionError => NotExtracted
    case Urls(urls) =>
      var failed := FailedAttempts(w, urls, up, |urls|);
      if failed == [] then Clean else NotWatched(failed)
  }

  // ----- what a pass achieves -----

  lemma {:induction false} StartingKeepsInv(w: Watch, urls: seq<Url>, up: set<nat>, n: nat)
    requires Inv(w) && n <= |urls|
    ensures Inv(StartMissing(w, urls, up, n))
  {
    if n > 0 {
      StartingKeepsInv(w, urls, up, n - 1);
    }
  }

  lemma StoppingKeepsInv(w: Watch, keep: set<Url>)
    requires Inv(w)
    ensures Inv(StopStale(w, keep))
  {}

  /** Which URLs a pass has watched after `n` positions, and that it leaves the others' endpoints alone. */
  lemma {:induction false} StartedUrls(w: Watch, urls: seq<Url>, up: set<nat>, n: nat)
    requires n <= |urls|
    ensures var w' := StartMissing(w, urls, up, n);
            && (forall u :: u in w'.watched <==> u in w.watched || exists i :: 0 <= i < n && urls[i] == u && i in up)
            && (forall u :: u in w.watched ==> u in w'.watched && w'.watched[u] == w.watched[u])
            && w.starts <= w'.starts && w.cancels <= w'.cancels
  {
    if n > 0 {
      StartedUrls(w, urls, up, n - 1);
      var w', u := StartMissing(w, urls, up, n), urls[n - 1];
      if n - 1 in up {
        assert u in w'.watched;
      }
    }
  }

  /** After a pass over extracted URLs: the watched ones are those of the slice that were watched before or
      whose start succeeded at one of their positions; surviving endpoints are the very same ones; and the
      aggregate cache has the same view. */
  lemma PassWatches(w: Watch, urls: seq<Url>, up: set<nat>)
    requires Inv(w)
    ensures var w' := Reconciled(w, Urls(urls), up);
            && Inv(w')
            && (forall u :: u in w'.watched <==>
                  u in urls && (u in w.watched || exists i :: 0 <= i < |urls| && urls[i] == u && i in up))
            && (forall u :: u in w.watched && u in urls ==> w'.watched[u] == w.watched[u])
            && w'.caches == w'.watched
  {
    StartedUrls(w, urls, up, |urls|);
    StartingKeepsInv(w, urls, up, |urls|);
    StoppingKeepsInv(StartMissing(w, urls, up, |urls|), UrlSet(urls));
  }

  /** Position `i` is where a URL occurs first. */
  predicate First(urls: seq<Url>, i: nat)
    requires i < |urls|
  {
    forall j :: 0 <= j < i ==> urls[j] != urls[i]
  }

  /** Among the first `n` positions, the first one of `u` is there and its attempt fails. */
  ghost predicate FirstFails(urls: seq<Url>, up: set<nat>, n: nat, u: Url)
    requires n <= |urls|
  {
    exists i :: 0 <= i < n && First(urls, i) && urls[i] == u && i !in up
  }

  /** A URL is reported as failed iff it was not watched and its first position failed, even if a later
      position then succeeded. */
  lemma {:induction false} FailuresReported(w: Watch, urls: seq<Url>, up: set<nat>, n: nat)
    requires n <= |urls|
    ensures forall u :: u in FailedAttempts(w, urls, up, n) <==> u !in w.watched && FirstFails(urls, up, n, u)
  {
    if n > 0 {
      FailuresReported(w, urls, up, n - 1);
      StartedUrls(w, urls, up, n - 1);
      forall u ensures FirstFails(urls, up, n, u) <==>
          FirstFails(urls, up, n - 1, u) || (First(urls, n - 1) && urls[n - 1] == u && n - 1 !in up) {}
      var first := FirstPosition(urls, urls[n - 1]);
      assert first < n - 1 ==> FirstFails(urls, up, n - 1, urls[first]) || first in up;
    }
  }

  /** The attempt at position `i` is made and fails: nothing watched its URL before the pass, and neither it nor
      an earlier position of the same URL succeeded. */
  predicate FailsAt(watched: set<Url>, urls: seq<Url>, up: set<nat>, i: nat)
    requires i < |urls|
  {
    urls[i] !in watched && forall j :: 0 <= j <= i && urls[j] == urls[i] ==> j !in up
  }

  function FailingUrls(watched: set<Url>, urls: seq<Url>, up: set<nat>, n: nat): seq<Url>
    requires n <= |urls|
  {
    if n == 0 then []
    else FailingUrls(watched, urls, up, n - 1) + if FailsAt(watched, urls, up, n - 1) then [urls[n - 1]] else []
  }

  /** The report has the URLs of the failing positions, in order, one for each. */
  lemma {:induction false} FailuresInOrder(w: Watch, urls: seq<Url>, up: set<nat>, n: nat)
    requires n <= |urls|
    ensures FailedAttempts(w, urls, up, n) == FailingUrls(w.watched.Keys, urls, up, n)
  {
    if n > 0 {
      FailuresInOrder(w, urls, up, n - 1);
      StartedUrls(w, urls, up, n - 1);
    }
  }

  /** A pass is clean iff the first position of every URL not yet watched succeeded, and a clean pass watches
      exactly the slice. */
  lemma CleanPass(w: Watch, urls: seq<Url>, up: set<nat>)
    requires Inv(w)
    ensures OutcomeOf(w, Urls(urls), up) == Clean <==>
            forall i :: 0 <= i < |urls| && urls[i] !in w.watched && First(urls, i) ==> i in up
    ensures OutcomeOf(w, Urls(urls), up) == Clean ==>
            Reconciled(w, Urls(urls), up).watched.Keys == UrlSet(urls)
  {
    var failed := FailedAttempts(w, urls, up, |urls|);
    FailuresReported(w, urls, up, |urls|);
    if failed == [] {
      assert forall u :: u !in failed;
      PassWatches(w, urls, up);
      forall u | u in urls ensures u in w.watched || exists i :: 0 <= i < |urls| && urls[i] == u && i in up {
        var i := FirstPosition(urls, u);
      }
    } else {
      assert failed[0] in failed;
    }
  }

  lemma {:induction false} FirstPosition(urls: seq<Url>, u: Url) returns (first: nat)
    requires u in urls
    ensures first < |urls| && urls[first] == u && First(urls, first)
  {
    var last := |urls| - 1;
    if u in urls[..last] {
      first := FirstPosition(urls[..last], u);
    } else {
      first := last;
    }
  }

  /** A URL is reported as failed although the pass watches it iff it was not watched before, its first position
      failed and a later one succeeded. */
  lemma ReportedYetWatched(w: Watch, urls: seq<Url>, up: set<nat>, u: Url)
    requires Inv(w)
    ensures u in FailedAttempts(w, urls, up, |urls|) && u in Reconciled(w, Urls(urls), up).watched <==>
            && u !in w.watched
            && exists i, j :: 0 <= i < j < |urls| && First(urls, i) && urls[i] == u && i !in up && urls[j] == u && j in up
  {
    FailuresReported(w, urls, up, |urls|);
    PassWatches(w, urls, up);
    if FirstFails(urls, up, |urls|, u) && exists j :: 0 <= j < |urls| && urls[j] == u && j in up {
      var i :| 0 <= i < |urls| && First(urls, i) && urls[i] == u && i !in up;
      var j :| 0 <= j < |urls| && urls[j] == u && j in up;
      assert i < j;
    }
  }

  /** An unclean pass can still watch the whole slice: a duplicated URL may fail first and start later. */
  lemma DuplicateMayRecover()
    ensures OutcomeOf(EMPTY, Urls(["a", "a"]), {1}) == NotWatched(["a"])
    ensures Reconciled(EMPTY, Urls(["a", "a"]), {1}).watched.Keys == UrlSet(["a", "a"])
  {
    var urls, up := ["a", "a"], {1};
    assert StartMissing(EMPTY, urls, up, 1) == EMPTY;
    assert StartMissing(EMPTY, urls, up, 2) == Started(EMPTY, "a");
    assert FailedAttempts(EMPTY, urls, up, 1) == ["a"];
    assert urls[0] in UrlSet(urls);
  }

  /** URLs of the slice that are not watched. */
  function Missing(w: Watch, urls: seq<Url>): set<Url> { UrlSet(urls) - w.watched.Keys }

  /** For a fixed slice the missing URLs only shrink, strictly so iff the pass managed to start one, and no
      watched URL of the slice is ever lost or restarted. */
  lemma PassMakesProgress(w: Watch, urls: seq<Url>, up: set<nat>)
    requires Inv(w)
    ensures var w' := Reconciled(w, Urls(urls), up);
            && Missing(w', urls) <= Missing(w, urls)
            && (Missing(w', urls) < Missing(w, urls) <==> exists i :: i in up && i < |urls| && urls[i] in Missing(w, urls))
            && (forall u :: u in w.watched && u in urls ==> u in w'.watched && w'.watched[u] == w.watched[u])
  {
    PassWatches(w, urls, up);
    var w' := Reconciled(w, Urls(urls), up);
    if i :| i in up && i < |urls| && urls[i] in Missing(w, urls) {
      assert urls[i] in w'.watched;
      assert urls[i] !in Missing(w', urls);
    }
  }

  function Passes(w: Watch, urls: seq<Url>, ups: seq<set<nat>>): Watch
    decreases |ups|
  {
    if ups == [] then w else Passes(Reconciled(w, Urls(urls), ups[0]), urls, ups[1..])
  }

  ghost predicate StartedBySome(urls: seq<Url>, ups: seq<set<nat>>, u: Url) {
    exists p, i :: 0 <= p < |ups| && 0 <= i < |urls| && urls[i] == u && i in ups[p]
  }

  lemma StartedBySomeCons(urls: seq<Url>, ups: seq<set<nat>>, u: Url)
    requires ups != []
    ensures StartedBySome(urls, ups, u) <==>
            (exists i :: 0 <= i < |urls| && urls[i] == u && i in ups[0]) || StartedBySome(urls, ups[1..], u)
  {}

  /** Retrying an unchanged slice: after one or more passes the slice is fully watched iff every URL missing
      at first was started by some pass, however failures were spread over the passes. */
  lemma {:induction false} RetriesConverge(w: Watch, urls: seq<Url>, ups: seq<set<nat>>)
    requires Inv(w) && ups != []
    ensures forall u :: u in Passes(w, urls, ups).watched <==> u in urls && (u in w.watched || StartedBySome(urls, ups, u))
    decreases |ups|
  {
    var w' := Reconciled(w, Urls(urls), ups[0]);
    PassWatches(w, urls, ups[0]);
    forall u ensures StartedBySome(urls, ups, u) <==>
        (exists i :: 0 <= i < |urls| && urls[i] == u && i in ups[0]) || StartedBySome(urls, ups[1..], u)
    {
      StartedBySomeCons(urls, ups, u);
    }
    if |ups| == 1 {
      assert Passes(w', urls, ups[1..]) == w';
    } else {
      RetriesConverge(w', urls, ups[1..]);
    }
  }

  // ----- every run -----

  datatype Action = Pass(slice: Extracted, up: set<nat>) | SliceGone

  function Act(w: Watch, a: Action): Watch {
    match a
    case Pass(slice, up) => Reconciled(w, slice, up)
    case SliceGone => StopStale(w, {})
  }

  function After(actions: seq<Action>): Watch {
    if actions == [] then EMPTY else Act(After(actions[..|actions| - 1]), actions[|actions| - 1])
  }

  lemma ActKeepsInv(w: Watch, a: Action)
    requires Inv(w)
    ensures Inv(Act(w, a))
  {
    match a
    case Pass(slice, up) => if slice.Urls? { PassWatches(w, slice.urls, up); }
    case SliceGone => StoppingKeepsInv(w, {});
  }

  lemma {:induction false} RunKeepsInv(actions: seq<Action>)
    ensures Inv(After(actions))
  {
    if actions != [] {
      RunKeepsInv(actions[..|actions| - 1]);
      ActKeepsInv(After(actions[..|actions| - 1]), actions[|actions| - 1]);
    }
  }

  /** The slice is gone, or its URLs could be extracted and `u` is not one of them. */
  predicate Drops(a: Action, u: Url) {
    a.SliceGone? || (a.slice.Urls? && u !in a.slice.urls)
  }

  predicate Live(w: Watch, id: EndpointId)
    requires id < |w.starts|
  {
    w.starts[id] in w.watched && w.watched[w.starts[id]] == id
  }

  /** In every run an endpoint is cancelled iff it is watched and its URL is dropped: by the deletion of the slice
      or by a pass over extracted URLs without it. */
  lemma CancelledIffDropped(actions: seq<Action>, a: Action, id: EndpointId)
    requires id < |After(actions).starts|
    ensures var w, w' := After(actions), Act(After(actions), a);
            && |w.cancels| == |w.starts| && |w'.cancels| == |w'.starts| && id < |w'.starts| && w'.starts[id] == w.starts[id]
            && w'.cancels[id] == w.cancels[id] + (if Live(w, id) && Drops(a, w.starts[id]) then 1 else 0)
  {
    RunKeepsInv(actions);
    CancelsIffDropped(After(actions), a, id);
  }

  lemma CancelsIffDropped(w: Watch, a: Action, id: EndpointId)
    requires Inv(w) && id < |w.starts|
    ensures var w' := Act(w, a);
            && |w'.cancels| == |w'.starts| && id < |w'.starts| && w'.starts[id] == w.starts[id]
            && w'.cancels[id] == w.cancels[id] + (if Live(w, id) && Drops(a, w.starts[id]) then 1 else 0)
  {
    ActKeepsInv(w, a);
    if a.Pass? && a.slice.Urls? {
      var urls := a.slice.urls;
      StartedUrls(w, urls, a.up, |urls|);
      StartingKeepsInv(w, urls, a.up, |urls|);
      StaleIff(StartMissing(w, urls, a.up, |urls|), UrlSet(urls), id);
    } else if a.SliceGone? {
      StaleIff(w, {}, id);
    }
  }

  lemma StaleIff(w: Watch, keep: set<Url>, id: EndpointId)
    requires Inv(w) && id < |w.starts|
    ensures id in Stale(w, keep) <==> Live(w, id) && w.starts[id] !in keep
  {}

  /** A slice whose URLs cannot be extracted changes nothing and is reported as such. */
  lemma ExtractionErrorChangesNothing(w: Watch, up: set<nat>)
    ensures Reconciled(w, ExtractionError, up) == w && OutcomeOf(w, ExtractionError, up) == NotExtracted
  {}

  /** Starts of `u`, and cancellations of endpoints of `u`, among the first `n` endpoints. */
  function StartsOf(w: Watch, u: Url, n: nat): nat
    requires n <= |w.starts|
  {
    if n == 0 then 0 else StartsOf(w, u, n - 1) + if w.starts[n - 1] == u then 1 else 0
  }

  function CancelsOf(w: Watch, u: Url, n: nat): nat
    requires n <= |w.starts| == |w.cancels|
  {
    if n == 0 then 0 else CancelsOf(w, u, n - 1) + if w.starts[n - 1] == u then w.cancels[n - 1] else 0
  }

  lemma {:induction false} CountsBalance(w: Watch, u: Url, n: nat)
    requires Inv(w) && n <= |w.starts|
    ensures StartsOf(w, u, n) == CancelsOf(w, u, n) + if u in w.watched && w.watched[u] < n then 1 else 0
  {
    if n > 0 { CountsBalance(w, u, n - 1); }
  }

  /** In every run of passes and deletions of the slice: starts minus cancels is one for a watched URL and
      zero otherwise; no endpoint is cancelled twice; what is watched or registered was started for that very
      URL and not cancelled; and the aggregate cache knows exactly the watched endpoints. */
  lemma StartsAndCancelsBalance(actions: seq<Action>, u: Url)
    ensures var w := After(actions);
            && Inv(w)
            && StartsOf(w, u, |w.starts|) - CancelsOf(w, u, |w.starts|) == (if u in w.watched then 1 else 0)
            && |w.cancels| == |w.starts| && (forall id :: 0 <= id < |w.starts| ==> w.cancels[id] <= 1)
            && (u in w.watched ==> w.watched[u] < |w.starts| && w.starts[w.watched[u]] == u && w.cancels[w.watched[u]] == 0)
            && w.caches == w.watched
  {
    RunKeepsInv(actions);
    CountsBalance(After(actions), u, |After(actions).starts|);
  }

  // ----- the provider -----

  lemma StopNothing(w: Watch, keep: set<Url>)
    requires w.watched.Keys <= keep
    ensures StopStale(w, keep) == w
  {}

  /** The state once URL `u`, watched by endpoint `id`, is cancelled and forgotten. */
  function Dropped(w: Watch, u: Url, id: EndpointId): Watch
    requires id < |w.cancels|
  {
    Watch(w.watched - {u}, w.caches - {u}, w.starts, w.cancels[id := w.cancels[id] + 1])
  }

  /** Cancelling one more URL. */
  lemma StopOneMore(w: Watch, keep: set<Url>, u: Url)
    requires Inv(w) && u in keep && u in w.watched
    ensures w.watched[u] < |StopStale(w, keep).cancels|
    ensures u in StopStale(w, keep).watched && StopStale(w, keep).watched[u] == w.watched[u]
    ensures StopStale(w, keep - {u}) == Dropped(StopStale(w, keep), u, w.watched[u])
  {}

  /** What must still be watched while the URLs in `todo` have not been looked at. */
  function Unexamined(urls: seq<Url>, todo: set<Url>): set<Url> { UrlSet(urls) + todo }

  lemma ExamineOne(urls: seq<Url>, todo: set<Url>, u: Url)
    requires u in todo
    ensures u in Unexamined(urls, todo)
    ensures Unexamined(urls, todo - {u}) ==
            if u in urls then Unexamined(urls, todo) else Unexamined(urls, todo) - {u}
  {}

  class Provider {
    var watchedEndpoints: map<Url, EndpointId>
    var aggregateCaches: map<Url, EndpointId>
    var starts: seq<Url>
    var cancels: seq<nat>

    ghost function Abs(): Watch reads this { Watch(watchedEndpoints, aggregateCaches, starts, cancels) }

    constructor ()
      ensures Abs() == EMPTY
    {
      watchedEndpoints, aggregateCaches, starts, cancels := map[], map[], [], [];
    }

    method CancelEndpoint(u: Url)
      requires u in watchedEndpoints && watchedEndpoints[u] < |cancels|
      modifies this`cancels, this`aggregateCaches
      ensures cancels == old(cancels)[watchedEndpoints[u] := old(cancels)[watchedEndpoints[u]] + 1]
      ensures aggregateCaches == old(aggregateCaches) - {u}
    {
      var id := watchedEndpoints[u];
      cancels := cancels[id := cancels[id] + 1];
      aggregateCaches := aggregateCaches - {u};
    }

    method Unwatch(u: Url)
      requires u in watchedEndpoints && watchedEndpoints[u] < |cancels|
      modifies this
      ensures Abs() == Dropped(old(Abs()), u, old(watchedEndpoints[u]))
    {
      CancelEndpoint(u);
      watchedEndpoints := watchedEndpoints - {u};
    }

    method WatchMissing(urls: seq<Url>, up: set<nat>) returns (errs: seq<Url>)
      modifies this
      ensures Abs() == StartMissing(old(Abs()), urls, up, |urls|)
      ensures errs == FailedAttempts(old(Abs()), urls, up, |urls|)
    {
      errs := [];
      for i := 0 to |urls|
        invariant Abs() == StartMissing(old(Abs()), urls, up, i)
        invariant errs == FailedAttempts(old(Abs()), urls, up, i)
      {
        var url := urls[i];
        if url in watchedEndpoints {
          continue;
        }
        if i !in up {
          errs := errs + [url];
          continue;
        }
        var id := |starts|;
        starts, cancels := starts + [url], cancels + [0];
        watchedEndpoints := watchedEndpoints[url := id];
        aggregateCaches := aggregateCaches[url := id];
      }
    }

    /** Walks the map in an arbitrary order, deleting as it goes. */
    method UnwatchStale(urls: seq<Url>)
      requires Inv(Abs())
      modifies this
      ensures Abs() == StopStale(old(Abs()), UrlSet(urls))
    {
      ghost var w := Abs();
      var todo := watchedEndpoints.Keys;
      StopNothing(w, Unexamined(urls, todo));
      while todo != {}
        invariant todo <= w.watched.Keys
        invariant Abs() == StopStale(w, Unexamined(urls, todo))
        decreases todo
      {
        var watchedUrl :| watchedUrl in todo;
        ExamineOne(urls, todo, watchedUrl);
        if watchedUrl !in urls {
          StopOneMore(w, Unexamined(urls, todo), watchedUrl);
          Unwatch(watchedUrl);
        }
        todo := todo - {watchedUrl};
      }
      assert Unexamined(urls, todo) == UrlSet(urls);
    }

    method EndpointSliceUpdate(slice: Extracted, up: set<nat>) returns (outcome: Outcome)
      requires Inv(Abs())
      modifies this
      ensures Inv(Abs())
      ensures Abs() == Reconciled(old(Abs()), slice, up)
      ensures outcome == OutcomeOf(old(Abs()), slice, up)
      ensures slice.ExtractionError? ==> Abs() == old(Abs()) && outcome == NotExtracted
      ensures slice.Urls? ==> watchedEndpoints.Keys <= UrlSet(slice.urls) && outcome != NotExtracted
    {
      if slice.ExtractionError? {
        return NotExtracted;
      }
      PassWatches(Abs(), slice.urls, up);
      StartingKeepsInv(Abs(), slice.urls, up, |slice.urls|);
      var errs := WatchMissing(slice.urls, up);
      UnwatchStale(slice.urls);
      outcome := if errs == [] then Clean else NotWatched(errs);
    }

    method StopAllWatchedEndpoints()
      requires Inv(Abs())
      modifies this
      ensures Abs() == StopStale(old(Abs()), {}) && watchedEndpoints == map[]
      ensures Inv(Abs())
    {
      ghost var w0 := Abs();
      var todo := watchedEndpoints.Keys;
      StopNothing(w0, todo);
      while todo != {}
        invariant todo <= watchedEndpoints.Keys && watchedEndpoints == w0.watched
        invariant Abs().(watched := StopStale(w0, todo).watched) == StopStale(w0, todo)
        decreases todo
      {
        var watchedUrl :| watchedUrl in todo;
        StopOneMore(w0, todo, watchedUrl);
        CancelEndpoint(watchedUrl);
        todo := todo - {watchedUrl};
      }
      watchedEndpoints := map[];
      StoppingKeepsInv(w0, {});
    }
  }
}
