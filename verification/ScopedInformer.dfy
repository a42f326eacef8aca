/** The informer that passes on only the events of one logical cluster. */
module ScopedInformer {

  type Key = string

  datatype Object = Object(cluster: string, content: int)

  /** What the base informer delivers. A delete carries the object itself or, in a tombstone, its last known
      state. */
  datatype Event =
    | Add(key: Key, obj: Object, initial: bool)
    | Update(key: Key, previous: Object, obj: Object)
    | Delete(key: Key, obj: Object, tombstone: bool)

  /** The filtering handler: what of an event reaches the handler of cluster `c`. */
  function Delivered(c: string, e: Event): seq<Event> {
    match e
    case Add(_, obj, _) => if obj.cluster == c then [e] else []
    case Update(_, _, obj) => if obj.cluster == c then [e] else []
    case Delete(_, obj, _) => if obj.cluster == c then [e] else []
  }

  function AllDelivered(c: string, es: seq<Event>): seq<Event> {
    if es == [] then [] else AllDelivered(c, es[..|es| - 1]) + Delivered(c, es[|es| - 1])
  }

  function Applied(store: map<Key, Object>, e: Event): map<Key, Object> {
    if e.Delete? then store - {e.key} else store[e.key := e.obj]
  }

  function Replayed(es: seq<Event>): map<Key, Object> {
    if es == [] then map[] else Applied(Replayed(es[..|es| - 1]), es[|es| - 1])
  }

  function Restricted(store: map<Key, Object>, c: string): map<Key, Object> {
    map k | k in store && store[k].cluster == c :: store[k]
  }

  /** The event speaks of the cluster in which the store has the key. */
  predicate KeepsCluster(store: map<Key, Object>, e: Event) {
    e.key in store ==> store[e.key].cluster == e.obj.cluster
  }

  /** The scoped view: what a handler of `c` rebuilds from the events it is given. */
  function View(c: string, es: seq<Event>): map<Key, Object> { Replayed(AllDelivered(c, es)) }

  lemma ViewStep(c: string, es: seq<Event>)
    requires es != []
    ensures var e, before := es[|es| - 1], View(c, es[..|es| - 1]);
            View(c, es) == if e.obj.cluster == c then Applied(before, e) else before
  {
    var e, front := es[|es| - 1], AllDelivered(c, es[..|es| - 1]);
    if e.obj.cluster == c {
      assert (front + [e])[..|front + [e]| - 1] == front;
    } else {
      assert front + [] == front;
    }
  }

  lemma RestrictStep(c: string, store: map<Key, Object>, e: Event)
    requires KeepsCluster(store, e)
    ensures Restricted(Applied(store, e), c) ==
            if e.obj.cluster == c then Applied(Restricted(store, c), e) else Restricted(store, c)
  {}

  ghost predicate ViewRight(c: string, es: seq<Event>) {
    View(c, es) == Restricted(Replayed(es), c)
  }

  /** If events keep clusters, every handler rebuilds exactly its part of the store. */
  lemma {:induction false} ScopedViewIsRestriction(c: string, es: seq<Event>)
    requires forall i :: 0 <= i < |es| ==> KeepsCluster(Replayed(es[..i]), es[i])
    ensures ViewRight(c, es)
  {
    if es != [] {
      var front := es[..|es| - 1];
      forall i | 0 <= i < |front| ensures KeepsCluster(Replayed(front[..i]), front[i]) {
        assert front[..i] == es[..i];
      }
      ScopedViewIsRestriction(c, front);
      ViewStep(c, es);
      RestrictStep(c, Replayed(front), es[|es| - 1]);
    }
  }

  /** The first event that speaks of another cluster leaves the old cluster's handler with a stale object. */
  lemma MovedObjectGoesStale(es: seq<Event>)
    requires es != [] && !KeepsCluster(Replayed(es[..|es| - 1]), es[|es| - 1])
    requires var c := Replayed(es[..|es| - 1])[es[|es| - 1].key].cluster; ViewRight(c, es[..|es| - 1])
    ensures var e := es[|es| - 1]; var was := Replayed(es[..|es| - 1])[e.key];
            !ViewRight(was.cluster, es) && e.key in View(was.cluster, es) && View(was.cluster, es)[e.key] == was
  {
    var e := es[|es| - 1];
    var was := Replayed(es[..|es| - 1])[e.key];
    ViewStep(was.cluster, es);
    assert e.key in Restricted(Replayed(es[..|es| - 1]), was.cluster);
    assert e.key !in Restricted(Replayed(es), was.cluster);
  }

  /** All handlers have the right view after every prefix of a stream iff its events keep clusters. */
  lemma ViewsRightIffClustersKept(es: seq<Event>)
    ensures (forall c, n :: 0 <= n <= |es| ==> ViewRight(c, es[..n])) <==>
            (forall i :: 0 <= i < |es| ==> KeepsCluster(Replayed(es[..i]), es[i]))
  {
    if forall i :: 0 <= i < |es| ==> KeepsCluster(Replayed(es[..i]), es[i]) {
      forall c, n | 0 <= n <= |es| ensures ViewRight(c, es[..n]) {
        forall i | 0 <= i < n ensures KeepsCluster(Replayed(es[..n][..i]), es[..n][i]) {
          assert es[..n][..i] == es[..i];
        }
        ScopedViewIsRestriction(c, es[..n]);
      }
    } else {
      var i :| 0 <= i < |es| && !KeepsCluster(Replayed(es[..i]), es[i]);
      var upTo := es[..i + 1];
      assert upTo[..|upTo| - 1] == es[..i] && upTo[|upTo| - 1] == es[i];
      var c := Replayed(es[..i])[es[i].key].cluster;
      if ViewRight(c, es[..i]) {
        MovedObjectGoesStale(upTo);
        assert !ViewRight(c, es[..i + 1]);
      }
    }
  }

  /** The positions of the events a handler of `c` is given. */
  function Positions(c: string, es: seq<Event>): seq<nat> {
    if es == [] then []
    else Positions(c, es[..|es| - 1]) + if es[|es| - 1].obj.cluster == c then [|es| - 1] else []
  }

  /** Every base event reaches exactly the handlers of its own cluster, once, unchanged and in order. */
  lemma {:induction false} DeliveredOnceInOrder(c: string, es: seq<Event>)
    ensures var ps, ds := Positions(c, es), AllDelivered(c, es);
            && |ps| == |ds|
            && (forall i :: 0 <= i < |ps| ==> ps[i] < |es| && ds[i] == es[ps[i]])
            && (forall i, j :: 0 <= i < j < |ps| ==> ps[i] < ps[j])
            && (forall p: nat :: p in ps <==> p < |es| && es[p].obj.cluster == c)
  {
    if es != [] {
      DeliveredOnceInOrder(c, es[..|es| - 1]);
    }
  }
}
