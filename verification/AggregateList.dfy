/** Listing across all shard caches. */
module AggregateList {
  import opened Keys
  import opened CacheReader

  /** The contributions of the caches in `order`, one after the other. */
  function Flattened(order: seq<string>, parts: map<string, seq<Object>>): seq<Object>
    requires forall i :: 0 <= i < |order| ==> order[i] in parts
  {
    if order == [] then [] else Flattened(order[..|order| - 1], parts) + parts[order[|order| - 1]]
  }

  /** What can fail around the read of a cache: copying the caller's list object and getting the informer before
      it, extracting the items after it. */
  datatype CallFault = NoFault | CopyFails | InformerFails | ExtractionFails

  ghost predicate Succeeds(ix: Indexer, opts: ListOptions, fault: CallFault) {
    fault.NoFault? && Refusal(ix, WILDCARD, opts).None? && Answered(ix, WILDCARD, opts)
  }

  ghost function Good(caches: map<string, Indexer>, opts: ListOptions, faults: string -> CallFault): set<string> {
    set id | id in caches && Succeeds(caches[id], opts, faults(id))
  }

  /** `ids` has each element of `s` once. */
  ghost predicate Each(ids: seq<string>, s: set<string>) {
    Distinct(ids) && forall id :: id in ids <==> id in s
  }

  /** `order` walks the caches in `good`, each once, and `parts` has one listing for each of them. */
  ghost predicate Collected(caches: map<string, Indexer>, opts: ListOptions, good: set<string>, order: seq<string>, parts: map<string, seq<Object>>) {
    && Each(order, good) && parts.Keys == good
    && forall id :: id in parts ==> id in caches && Listing(caches[id], WILDCARD, opts, parts[id])
  }

  method ListOne(ix: Indexer, opts: ListOptions, fault: CallFault) returns (r: Maybe<seq<Object>>)
    requires ix.Valid()
    ensures r.Some? <==> Succeeds(ix, opts, fault)
    ensures r.Some? ==> Listing(ix, WILDCARD, opts, r.value)
  {
    if fault.CopyFails? || fault.InformerFails? {
      return None;
    }
    var perCache := CacheReader.List(ix, WILDCARD, opts);
    if perCache.Err? || fault.ExtractionFails? {
      return None;
    }
    r := Some(perCache.value);
  }

  /** Walks the caches in an arbitrary order. The caches that succeed, in the order they were walked, each
      contribute one listing; the others are reported, each once. */
  method List(caches: map<string, Indexer>, opts: ListOptions, faults: string -> CallFault)
    returns (items: seq<Object>, errs: seq<string>, ghost order: seq<string>, ghost parts: map<string, seq<Object>>)
    requires forall id :: id in caches ==> caches[id].Valid()
    ensures Collected(caches, opts, Good(caches, opts, faults), order, parts)
    ensures Each(errs, caches.Keys - Good(caches, opts, faults))
    ensures items == Flattened(order, parts)
  {
    ghost var good, bad := {}, {};
    items, errs, order, parts := [], [], [], map[];
    var todo := caches.Keys;
    while todo != {}
      invariant good !! todo && bad !! todo && good + bad + todo == caches.Keys
      invariant good <= Good(caches, opts, faults) && bad !! Good(caches, opts, faults)
      invariant Collected(caches, opts, good, order, parts) && Each(errs, bad)
      invariant items == Flattened(order, parts)
      decreases todo
    {
      var id :| id in todo;
      todo := todo - {id};
      var part := ListOne(caches[id], opts, faults(id));
      if part.None? {
        OneMore(errs, bad, id);
        errs, bad := errs + [id], bad + {id};
        continue;
      }
      CollectedGrows(caches, opts, good, order, parts, id, part.value);
      FlattenedGrows(order, parts, id, part.value);
      order, parts, good := order + [id], parts[id := part.value], good + {id};
      items := items + part.value;
    }
    assert good == Good(caches, opts, faults) && bad == caches.Keys - good;
  }

  lemma OneMore(ids: seq<string>, s: set<string>, id: string)
    requires Each(ids, s) && id !in s
    ensures Each(ids + [id], s + {id})
  {}

  lemma CollectedGrows(caches: map<string, Indexer>, opts: ListOptions, good: set<string>, order: seq<string>, parts: map<string, seq<Object>>, id: string, part: seq<Object>)
    requires Collected(caches, opts, good, order, parts) && id in caches && id !in good
    requires Listing(caches[id], WILDCARD, opts, part)
    ensures Collected(caches, opts, good + {id}, order + [id], parts[id := part])
  {}

  lemma FlattenedGrows(order: seq<string>, parts: map<string, seq<Object>>, id: string, part: seq<Object>)
    requires id !in order && forall k :: k in order ==> k in parts
    ensures Flattened(order + [id], parts[id := part]) == Flattened(order, parts) + part
  {
    assert (order + [id])[..|order|] == order;
    FlattenedIgnores(order, parts, id, part);
  }

  lemma {:induction false} FlattenedIgnores(order: seq<string>, parts: map<string, seq<Object>>, id: string, part: seq<Object>)
    requires forall i :: 0 <= i < |order| ==> order[i] in parts && order[i] != id
    ensures Flattened(order, parts[id := part]) == Flattened(order, parts)
  {
    if order != [] { FlattenedIgnores(order[..|order| - 1], parts, id, part); }
  }

  /** How many of the listed caches hold `o`. */
  function Holders(order: seq<string>, parts: map<string, seq<Object>>, o: Object): nat
    requires forall i :: 0 <= i < |order| ==> order[i] in parts
  {
    if order == [] then 0
    else Holders(order[..|order| - 1], parts, o) + if o in parts[order[|order| - 1]] then 1 else 0
  }

  lemma {:induction false} CountOnce(objs: seq<Object>, o: Object)
    requires Distinct(objs)
    ensures multiset(objs)[o] == if o in objs then 1 else 0
  {
    if objs != [] {
      var last := |objs| - 1;
      CountOnce(objs[..last], o);
      assert objs == objs[..last] + [objs[last]];
    }
  }

  lemma {:induction false} FlattenedCount(order: seq<string>, parts: map<string, seq<Object>>, o: Object)
    requires forall i :: 0 <= i < |order| ==> order[i] in parts && Distinct(parts[order[i]])
    ensures multiset(Flattened(order, parts))[o] == Holders(order, parts, o)
  {
    if order != [] {
      FlattenedCount(order[..|order| - 1], parts, o);
      CountOnce(parts[order[|order| - 1]], o);
    }
  }

  /** The count is the number of caches, whatever order they were walked in. */
  lemma {:induction false} HoldersIsCardinality(order: seq<string>, parts: map<string, seq<Object>>, o: Object)
    requires Distinct(order) && forall i :: 0 <= i < |order| ==> order[i] in parts
    ensures Holders(order, parts, o) == |set id | id in order && o in parts[id]|
  {
    if order != [] {
      var front, last := order[..|order| - 1], order[|order| - 1];
      HoldersIsCardinality(front, parts, o);
      assert order == front + [last];
      assert last !in front;
      var before, after := set id | id in front && o in parts[id], set id | id in order && o in parts[id];
      assert after == before + if o in parts[last] then {last} else {};
    }
  }

  /** An unlimited list is the exact multiset union: each object occurs once per successful cache that has it
      under the request and whose labels match. */
  lemma UnlimitedIsUnion(caches: map<string, Indexer>, opts: ListOptions, good: set<string>, order: seq<string>, parts: map<string, seq<Object>>, o: Object)
    requires opts.limit <= 0 && good <= caches.Keys && Collected(caches, opts, good, order, parts)
    ensures multiset(Flattened(order, parts))[o] == |set id | id in good && o in Matches(caches[id], WILDCARD, opts)|
  {
    forall id | id in parts
      ensures Distinct(parts[id])
      ensures o in parts[id] <==> o in Matches(caches[id], WILDCARD, opts)
    {
      UnlimitedListing(caches[id], WILDCARD, opts, parts[id]);
    }
    FlattenedCount(order, parts, o);
    HoldersIsCardinality(order, parts, o);
    assert (set id | id in order && o in parts[id]) == set id | id in good && o in Matches(caches[id], WILDCARD, opts);
  }

  lemma {:induction false} FlattenedLength(order: seq<string>, parts: map<string, seq<Object>>, limit: nat)
    requires forall i :: 0 <= i < |order| ==> order[i] in parts && |parts[order[i]]| <= limit
    ensures |Flattened(order, parts)| <= limit * |order|
  {
    if order != [] {
      FlattenedLength(order[..|order| - 1], parts, limit);
      assert limit * |order| == limit * (|order| - 1) + limit;
    }
  }

  lemma {:induction false} DistinctLength(order: seq<string>, good: set<string>)
    requires Each(order, good)
    ensures |order| == |good|
  {
    if order == [] {
      assert good == {};
    } else {
      var front, last := order[..|order| - 1], order[|order| - 1];
      assert order == front + [last];
      DistinctLength(front, good - {last});
    }
  }

  /** A limit applies to each cache: a contribution is as long as the smaller of the limit and the number of
      matches in its cache, so the whole list has at most the limit times the number of caches that succeed. */
  lemma LimitPerCache(caches: map<string, Indexer>, opts: ListOptions, good: set<string>, order: seq<string>, parts: map<string, seq<Object>>)
    requires opts.limit > 0 && Collected(caches, opts, good, order, parts)
    ensures forall id :: id in parts ==> |parts[id]| == Least(opts.limit, |Matches(caches[id], WILDCARD, opts)|)
    ensures |Flattened(order, parts)| <= opts.limit * |good|
  {
    forall id | id in parts ensures |parts[id]| == Least(opts.limit, |Matches(caches[id], WILDCARD, opts)|) {
      LimitedListing(caches[id], WILDCARD, opts, parts[id]);
    }
    FlattenedLength(order, parts, opts.limit);
    DistinctLength(order, good);
  }

  function Least(a: int, b: int): int { if a < b then a else b }
}
