/** The manager that owns one event recorder provider per logical cluster. */
module RecorderManager {

  type Cluster = string

  /** Providers are named by the order in which they were built. */
  type ProviderId = nat

  /** Where building a provider can fail: no step before the last one changes the manager. */
  datatype BuildFault = HttpClient | EventClient | RecorderClient

  datatype Handout = Given(id: ProviderId) | Refused(fault: BuildFault)

  datatype BuildOutcome = Builds | Fails(fault: BuildFault)

  /** `told` counts the stop signals sent to each provider. */
  datatype State = State(providers: map<Cluster, ProviderId>, built: nat, told: map<ProviderId, nat>) {
    function Signals(p: ProviderId): nat { if p in told then told[p] else 0 }

    function Tell(p: ProviderId): map<ProviderId, nat> { told[p := Signals(p) + 1] }
  }

  const EMPTY := State(map[], 0, map[])

  ghost predicate Valid(m: State) {
    && (forall c :: c in m.providers ==> m.providers[c] < m.built && m.providers[c] !in m.told)
    && (forall c, d :: c in m.providers && d in m.providers && m.providers[c] == m.providers[d] ==> c == d)
    && (forall p :: p in m.told ==> p < m.built && m.told[p] == 1)
  }

  function Got(m: State, c: Cluster, outcome: BuildOutcome): State {
    if c in m.providers || outcome.Fails? then m
    else m.(providers := m.providers[c := m.built], built := m.built + 1)
  }

  function HandedOut(m: State, c: Cluster, outcome: BuildOutcome): Handout {
    if c in m.providers then Given(m.providers[c])
    else match outcome
      case Builds => Given(m.built)
      case Fails(f) => Refused(f)
  }

  function StoppedOne(m: State, c: Cluster): State {
    if c in m.providers then
      m.(providers := m.providers - {c}, told := m.Tell(m.providers[c]))
    else m
  }

  /** The signal counts once every provider in `ps` has been told once more. */
  function TellEach(m: State, ps: set<ProviderId>): map<ProviderId, nat> {
    map p | p in m.told.Keys + ps :: m.Signals(p) + if p in ps then 1 else 0
  }

  function StoppedAll(m: State): State {
    m.(providers := map[], told := TellEach(m, m.providers.Values))
  }

  lemma TellOneMore(m: State, n: State, ps: set<ProviderId>, p: ProviderId)
    requires n.told == TellEach(m, ps) && p !in ps
    ensures n.Tell(p) == TellEach(m, ps + {p})
  {}

  /** What a caller can do to the manager; its lock makes each call one step. */
  datatype Call = Get(cluster: Cluster, outcome: BuildOutcome) | StopOne(cluster: Cluster) | StopAll

  function Apply(m: State, call: Call): State {
    match call
    case Get(c, outcome) => Got(m, c, outcome)
    case StopOne(c) => StoppedOne(m, c)
    case StopAll => StoppedAll(m)
  }

  function After(calls: seq<Call>): State {
    if calls == [] then EMPTY else Apply(After(calls[..|calls| - 1]), calls[|calls| - 1])
  }

  lemma ApplyKeepsValid(m: State, call: Call)
    requires Valid(m)
    ensures Valid(Apply(m, call))
  {}

  lemma {:induction false} ReachableIsValid(calls: seq<Call>)
    ensures Valid(After(calls))
  {
    if calls != [] {
      ReachableIsValid(calls[..|calls| - 1]);
      ApplyKeepsValid(After(calls[..|calls| - 1]), calls[|calls| - 1]);
    }
  }

  /** However the calls were ordered: a provider just handed out has not been told to stop, asking again
      gives the same one, and nobody but this cluster has it. */
  lemma NeverHandsOutAStoppedProvider(calls: seq<Call>, c: Cluster, outcome: BuildOutcome)
    requires HandedOut(After(calls), c, outcome).Given?
    ensures var m, p := After(calls + [Get(c, outcome)]), HandedOut(After(calls), c, outcome).id;
            && m.Signals(p) == 0
            && (forall again :: HandedOut(m, c, again) == Given(p))
            && (forall d, o {:trigger HandedOut(m, d, o)} :: HandedOut(m, d, o) == Given(p) ==> d == c)
  {
    var longer := calls + [Get(c, outcome)];
    assert longer[..|longer| - 1] == calls;
    ReachableIsValid(calls);
    ReachableIsValid(longer);
  }

  /** A provider is in the map and untold, or out of it and told once. */
  ghost predicate Accounted(m: State, p: ProviderId) {
    && (p < m.built ==> m.Signals(p) == if p in m.providers.Values then 0 else 1)
    && (p >= m.built ==> m.Signals(p) == 0 && p !in m.providers.Values)
  }

  lemma ApplyKeepsAccounted(m: State, call: Call, p: ProviderId)
    requires Valid(m) && Accounted(m, p)
    ensures Accounted(Apply(m, call), p)
  {
    var n := Apply(m, call);
    match call {
      case Get(c, outcome) =>
        if n != m {
          assert n.providers[c] == m.built;
          if p in m.providers.Values {
            var d :| d in m.providers && m.providers[d] == p;
            assert n.providers[d] == p;
          }
        }
      case StopOne(c) =>
        if p in m.providers.Values {
          var d :| d in m.providers && m.providers[d] == p;
          if c in m.providers && d != c { assert n.providers[d] == p; }
        }
      case StopAll =>
    }
  }

  /** Every provider ever built is either still registered and untold, or has been told to stop exactly
      once; nothing else is ever registered or told. */
  lemma {:induction false} ToldExactlyOnce(calls: seq<Call>, p: ProviderId)
    ensures Accounted(After(calls), p)
  {
    if calls != [] {
      ToldExactlyOnce(calls[..|calls| - 1], p);
      ReachableIsValid(calls[..|calls| - 1]);
      ApplyKeepsAccounted(After(calls[..|calls| - 1]), calls[|calls| - 1], p);
    }
  }

  predicate BuildsFor(call: Call, c: Cluster) { call == Get(c, Builds) }

  predicate Stops(call: Call, c: Cluster) { call == StopOne(c) || call.StopAll? }

  /** The cluster's provider was asked for, at a time when building one works, since it was last stopped. */
  ghost predicate AskedSince(calls: seq<Call>, c: Cluster) {
    exists i :: 0 <= i < |calls| && BuildsFor(calls[i], c) && forall j :: i < j < |calls| ==> !Stops(calls[j], c)
  }

  lemma AskedSinceSnoc(front: seq<Call>, last: Call, c: Cluster)
    ensures AskedSince(front + [last], c) <==> BuildsFor(last, c) || (AskedSince(front, c) && !Stops(last, c))
  {
    var calls := front + [last];
    assert calls[|front|] == last;
    assert forall i :: 0 <= i < |front| ==> calls[i] == front[i];
    if AskedSince(front, c) && !Stops(last, c) {
      var i :| 0 <= i < |front| && BuildsFor(front[i], c) && forall j :: i < j < |front| ==> !Stops(front[j], c);
      assert BuildsFor(calls[i], c);
    }
  }

  /** How many providers the calls need built. */
  ghost function NeededBuilds(calls: seq<Call>): nat {
    if calls == [] then 0
    else
      var front, last := calls[..|calls| - 1], calls[|calls| - 1];
      NeededBuilds(front) + if last.Get? && last.outcome.Builds? && !AskedSince(front, last.cluster) then 1 else 0
  }

  /** After any calls a provider is registered for exactly the clusters whose provider was asked for, with
      building working, since it was last stopped; a build that fails leaves no trace. And no more providers are
      built than that takes. */
  lemma {:induction false} RegisteredIffAskedSince(calls: seq<Call>, c: Cluster)
    ensures c in After(calls).providers <==> AskedSince(calls, c)
    ensures After(calls).built == NeededBuilds(calls)
  {
    if calls != [] {
      var front, last := calls[..|calls| - 1], calls[|calls| - 1];
      assert calls == front + [last];
      RegisteredIffAskedSince(front, c);
      AskedSinceSnoc(front, last, c);
      if last.Get? { RegisteredIffAskedSince(front, last.cluster); }
    }
  }

  /** A provider is refused iff none is registered and building one fails, and then for that reason; a registered
      one is handed out as it is. */
  lemma RefusedIffBuildFails(calls: seq<Call>, c: Cluster, outcome: BuildOutcome)
    ensures var m, h := After(calls), HandedOut(After(calls), c, outcome);
            && (h.Refused? <==> !AskedSince(calls, c) && outcome.Fails?)
            && (h.Refused? ==> h.fault == outcome.fault)
            && (AskedSince(calls, c) ==> c in m.providers && h == Given(m.providers[c]))
  {
    RegisteredIffAskedSince(calls, c);
  }

  class Manager {
    var providers: map<Cluster, ProviderId>
    var built: nat
    var told: map<ProviderId, nat>

    function Abs(): State reads this { State(providers, built, told) }

    constructor ()
      ensures Abs() == EMPTY
    {
      providers, built, told := map[], 0, map[];
    }

    method GetProvider(c: Cluster, outcome: BuildOutcome) returns (r: Handout)
      modifies this
      ensures Abs() == Got(old(Abs()), c, outcome)
      ensures r == HandedOut(old(Abs()), c, outcome)
    {
      if c in providers {
        return Given(providers[c]);
      }
      if outcome.Fails? {
        return Refused(outcome.fault);
      }
      r := Given(built);
      providers, built := providers[c := built], built + 1;
    }

    method StopProvider(c: Cluster)
      modifies this
      ensures Abs() == StoppedOne(old(Abs()), c)
    {
      if c !in providers {
        return;
      }
      told := Abs().Tell(providers[c]);
      providers := providers - {c};
    }

    /** The map is walked in an arbitrary order. */
    method Stop()
      requires Valid(Abs())
      modifies this
      ensures Abs() == StoppedAll(old(Abs()))
    {
      var todo := providers.Keys;
      ghost var reached: set<ProviderId> := {};
      while todo != {}
        invariant todo <= providers.Keys
        invariant providers == old(providers) && built == old(built)
        invariant reached == set c | c in providers && c !in todo :: providers[c]
        invariant told == TellEach(old(Abs()), reached)
        decreases todo
      {
        var c :| c in todo;
        var p := providers[c];
        assert p !in reached;
        TellOneMore(old(Abs()), Abs(), reached, p);
        told := Abs().Tell(p);
        reached := reached + {p};
        todo := todo - {c};
      }
      assert reached == providers.Values;
      providers := map[];
    }
  }
}
