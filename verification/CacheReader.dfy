/** Reads scoped to one logical cluster, or to all of them, from an indexed store. */
module CacheReader {
  import opened Keys

  /** `fields` gives for each indexed field the values its extractor yields for the object. */
  datatype Object = Object(cluster: string, namespace: string, name: string, labels: map<string, string>, fields: map<string, seq<string>>) {
    function Field(f: string): seq<string> { if f in fields then fields[f] else [] }
  }

  datatype Result<T> = Ok(value: T) | Err(error: Error)

  datatype Error = ContinueUnsupported | NoCluster | InexactSelector | NoSuchIndex(field: string) | NotFound

  /** The index functions an informer can have. */
  datatype Index = ByNamespace | ByCluster | ByClusterAndNamespace | ByField(field: string)

  datatype Indexer = Indexer(store: map<string, Object>, fields: set<string>, clusterAware: bool) {
    predicate Has(index: Index) {
      match index
      case ByNamespace => true
      case ByCluster => clusterAware
      case ByClusterAndNamespace => clusterAware
      case ByField(f) => f in fields
    }

    function KeyOf(o: Object): string {
      if clusterAware then ScopedStoreKey(o.cluster, o.namespace, o.name) else ObjectKeyToStoreKey(o.namespace, o.name)
    }

    /** Objects are stored under their own keys. */
    ghost predicate Valid() {
      forall k :: k in store ==> k == KeyOf(store[k])
    }
  }

  // ----- index values -----

  /** The keys of one field, each under the object's cluster and under the wildcard. */
  function WithCluster(cluster: string, keys: seq<string>): seq<string> {
    seq(|keys|, i requires 0 <= i < |keys| => cluster + "/" + keys[i]) +
    seq(|keys|, i requires 0 <= i < |keys| => WILDCARD + "/" + keys[i])
  }

  /** How `IndexField` fills in the doubled keys. */
  method FillWithCluster(cluster: string, keys: seq<string>) returns (withCluster: array<string>)
    ensures fresh(withCluster) && withCluster[..] == WithCluster(cluster, keys)
  {
    withCluster := new string[|keys| * 2];
    for i := 0 to |keys|
      invariant forall j :: 0 <= j < i ==> withCluster[j] == cluster + "/" + keys[j] && withCluster[j + |keys|] == WILDCARD + "/" + keys[j]
    {
      withCluster[i] := cluster + "/" + keys[i];
      withCluster[i + |keys|] := WILDCARD + "/" + keys[i];
    }
  }

  /** Field values are emitted for the object's namespace and for no namespace. */
  function Namespaced(ns: string, raw: seq<string>): seq<string> {
    seq(|raw|, i requires 0 <= i < |raw| => KeyToNamespacedKey(ns, raw[i])) +
    if ns == "" then [] else seq(|raw|, i requires 0 <= i < |raw| => KeyToNamespacedKey("", raw[i]))
  }

  function IndexValues(index: Index, o: Object): seq<string> {
    match index
    case ByNamespace => [o.namespace]
    case ByCluster => [ClusterIndexKey(o.cluster)]
    case ByClusterAndNamespace => [ClusterAndNamespaceIndexKey(o.cluster, o.namespace)]
    case ByField(f) => Namespaced(o.namespace, WithCluster(o.cluster, o.Field(f)))
  }

  // ----- the indexer's contract -----

  ghost predicate Distinct<T>(s: seq<T>) {
    forall i, j :: 0 <= i < j < |s| ==> s[i] != s[j]
  }

  /** `objs` lists the elements of `s`, each once. */
  ghost predicate Lists(objs: seq<Object>, s: set<Object>) {
    (forall o :: o in objs <==> o in s) && Distinct(objs)
  }

  ghost function Indexed(ix: Indexer, index: Index, value: string): set<Object> {
    set o | o in ix.store.Values && value in IndexValues(index, o)
  }

  /** The store is walked in an arbitrary order. */
  method ByIndex(ix: Indexer, index: Index, value: string) returns (r: Result<seq<Object>>)
    requires ix.Valid()
    ensures r.Ok? <==> ix.Has(index)
    ensures r.Ok? ==> Lists(r.value, Indexed(ix, index, value))
    ensures r.Err? ==> index.ByField? ==> r.error == NoSuchIndex(index.field)
  {
    if !ix.Has(index) {
      return Err(if index.ByField? then NoSuchIndex(index.field) else NoSuchIndex(""));
    }
    var objs: seq<Object> := [];
    var todo := ix.store.Keys;
    while todo != {}
      invariant todo <= ix.store.Keys
      invariant forall o :: o in objs <==> exists k :: k in ix.store.Keys - todo && ix.store[k] == o && value in IndexValues(index, o)
      invariant forall i, j :: 0 <= i < j < |objs| ==> objs[i] != objs[j]
      decreases todo
    {
      var k :| k in todo;
      var o := ix.store[k];
      assert o !in objs;
      if value in IndexValues(index, o) {
        objs := objs + [o];
      }
      todo := todo - {k};
    }
    r := Ok(objs);
  }

  method ListAll(ix: Indexer) returns (objs: seq<Object>)
    requires ix.Valid()
    ensures Lists(objs, ix.store.Values)
  {
    objs := [];
    var todo := ix.store.Keys;
    while todo != {}
      invariant todo <= ix.store.Keys
      invariant forall o :: o in objs <==> exists k :: k in ix.store.Keys - todo && ix.store[k] == o
      invariant forall i, j :: 0 <= i < j < |objs| ==> objs[i] != objs[j]
      decreases todo
    {
      var k :| k in todo;
      assert ix.store[k] !in objs;
      objs := objs + [ix.store[k]];
      todo := todo - {k};
    }
  }

  /** The elements among the first `n` that satisfy `p`, in order. */
  function Sieve(objs: seq<Object>, p: Object -> bool, n: nat): seq<Object>
    requires n <= |objs|
  {
    if n == 0 then [] else Sieve(objs, p, n - 1) + if p(objs[n - 1]) then [objs[n - 1]] else []
  }

  lemma {:induction false} SieveHolds(objs: seq<Object>, p: Object -> bool, n: nat)
    requires n <= |objs| && forall i, j :: 0 <= i < j < |objs| ==> objs[i] != objs[j]
    ensures forall o :: o in Sieve(objs, p, n) <==> o in objs[..n] && p(o)
    ensures forall i, j :: 0 <= i < j < |Sieve(objs, p, n)| ==> Sieve(objs, p, n)[i] != Sieve(objs, p, n)[j]
  {
    if n > 0 {
      SieveHolds(objs, p, n - 1);
      assert objs[..n] == objs[..n - 1] + [objs[n - 1]];
      assert objs[n - 1] !in objs[..n - 1];
      assert objs[n - 1] !in Sieve(objs, p, n - 1);
    }
  }

  /** Sieving a listing of a set lists the subset. */
  lemma SieveLists(objs: seq<Object>, s: set<Object>, p: Object -> bool, t: set<Object>)
    requires Lists(objs, s) && forall o :: o in t <==> o in s && p(o)
    ensures Lists(Sieve(objs, p, |objs|), t)
  {
    SieveHolds(objs, p, |objs|);
    assert objs[..|objs|] == objs;
  }

  lemma ListsNothing(objs: seq<Object>, s: set<Object>)
    requires Lists(objs, s)
    ensures objs == [] <==> s == {}
  {
    if objs != [] { assert objs[0] in s; }
  }

  // ----- field selectors -----

  datatype Operator = Equals | DoubleEquals | NotEquals

  datatype Requirement = Requirement(field: string, operator: Operator, value: string)

  /** What a requirement asks of an object. */
  predicate Satisfies(o: Object, req: Requirement) {
    if req.operator.NotEquals? then req.value !in o.Field(req.field) else req.value in o.Field(req.field)
  }

  predicate RequiresExactMatch(reqs: seq<Requirement>) {
    reqs != [] && forall i :: 0 <= i < |reqs| ==> reqs[i].operator.Equals? || reqs[i].operator.DoubleEquals?
  }

  /** The key a requirement is looked up under. */
  function KeyFor(aware: bool, cluster: string, ns: string, value: string): string {
    if aware then KeyToClusteredKey(cluster, ns, value) else KeyToNamespacedKey(ns, value)
  }

  ghost predicate Meets(ix: Indexer, cluster: string, ns: string, req: Requirement, o: Object) {
    KeyFor(ix.clusterAware, cluster, ns, req.value) in IndexValues(ByField(req.field), o)
  }

  /** The stored objects that the indexes say meet the first `n` requirements. */
  ghost function Matching(ix: Indexer, reqs: seq<Requirement>, cluster: string, ns: string, n: nat): set<Object>
    requires n <= |reqs|
  {
    set o | o in ix.store.Values && forall i :: 0 <= i < n ==> Meets(ix, cluster, ns, reqs[i], o)
  }

  /** The index of requirement `i` is there, or is not asked because nothing is left to look at. */
  ghost predicate Answerable(ix: Indexer, reqs: seq<Requirement>, cluster: string, ns: string, i: nat)
    requires i < |reqs|
  {
    ix.Has(ByField(reqs[i].field)) || (i > 0 && Matching(ix, reqs, cluster, ns, i) == {})
  }

  /** Fails iff an index is missing and the requirements before it leave something to look at. */
  method ByIndexes(ix: Indexer, reqs: seq<Requirement>, cluster: string, ns: string) returns (r: Result<seq<Object>>)
    requires ix.Valid() && reqs != []
    ensures r.Ok? <==> forall i :: 0 <= i < |reqs| ==> Answerable(ix, reqs, cluster, ns, i)
    ensures r.Ok? ==> Lists(r.value, Matching(ix, reqs, cluster, ns, |reqs|))
    ensures r.Err? ==> exists i :: 0 <= i < |reqs| && r.error == NoSuchIndex(reqs[i].field) && !Answerable(ix, reqs, cluster, ns, i)
  {
    var first := ByIndex(ix, ByField(reqs[0].field), KeyFor(ix.clusterAware, cluster, ns, reqs[0].value));
    if first.Err? {
      assert !Answerable(ix, reqs, cluster, ns, 0);
      return first;
    }
    FirstLookup(ix, reqs, cluster, ns);
    if first.value == [] {
      NothingMatches(ix, reqs, cluster, ns, 1, first.value);
      return Ok([]);
    }
    r := FilterByRest(ix, reqs, cluster, ns, first.value);
  }

  /** The requirements after the first filter the snapshot taken for it. */
  method FilterByRest(ix: Indexer, reqs: seq<Requirement>, cluster: string, ns: string, snapshot: seq<Object>) returns (r: Result<seq<Object>>)
    requires reqs != [] && ix.Has(ByField(reqs[0].field))
    requires snapshot != [] && Lists(snapshot, Matching(ix, reqs, cluster, ns, 1))
    ensures r.Ok? <==> forall i :: 0 <= i < |reqs| ==> Answerable(ix, reqs, cluster, ns, i)
    ensures r.Ok? ==> Lists(r.value, Matching(ix, reqs, cluster, ns, |reqs|))
    ensures r.Err? ==> exists i :: 0 <= i < |reqs| && r.error == NoSuchIndex(reqs[i].field) && !Answerable(ix, reqs, cluster, ns, i)
  {
    var objs := snapshot;
    for idx := 1 to |reqs|
      invariant objs != [] && Lists(objs, Matching(ix, reqs, cluster, ns, idx))
      invariant forall i :: 0 <= i < idx ==> ix.Has(ByField(reqs[i].field))
    {
      var index := ByField(reqs[idx].field);
      if !ix.Has(index) {
        ListsNothing(objs, Matching(ix, reqs, cluster, ns, idx));
        assert !Answerable(ix, reqs, cluster, ns, idx);
        return Err(NoSuchIndex(reqs[idx].field));
      }
      var filteredObjects := Narrowed(objs, o => IndexValues(index, o), KeyFor(ix.clusterAware, cluster, ns, reqs[idx].value));
      NarrowedLists(ix, reqs, cluster, ns, idx, objs, filteredObjects);
      if filteredObjects == [] {
        NothingMatches(ix, reqs, cluster, ns, idx + 1, filteredObjects);
        return Ok([]);
      }
      objs := filteredObjects;
    }
    r := Ok(objs);
  }

  method Narrowed(objs: seq<Object>, fn: Object -> seq<string>, value: string) returns (kept: seq<Object>)
    ensures kept == Sieve(objs, o => value in fn(o), |objs|)
  {
    kept := [];
    var p := (o: Object) => value in fn(o);
    for i := 0 to |objs|
      invariant kept == Sieve(objs, p, i)
    {
      if value in fn(objs[i]) {
        kept := kept + [objs[i]];
      }
    }
  }

  lemma FirstLookup(ix: Indexer, reqs: seq<Requirement>, cluster: string, ns: string)
    requires reqs != []
    ensures Indexed(ix, ByField(reqs[0].field), KeyFor(ix.clusterAware, cluster, ns, reqs[0].value)) == Matching(ix, reqs, cluster, ns, 1)
  {}

  lemma NarrowedLists(ix: Indexer, reqs: seq<Requirement>, cluster: string, ns: string, n: nat, objs: seq<Object>, kept: seq<Object>)
    requires n < |reqs| && Lists(objs, Matching(ix, reqs, cluster, ns, n))
    requires var fn := (o: Object) => IndexValues(ByField(reqs[n].field), o); var value := KeyFor(ix.clusterAware, cluster, ns, reqs[n].value);
             kept == Sieve(objs, o => value in fn(o), |objs|)
    ensures Lists(kept, Matching(ix, reqs, cluster, ns, n + 1))
  {
    var fn := (o: Object) => IndexValues(ByField(reqs[n].field), o);
    var value := KeyFor(ix.clusterAware, cluster, ns, reqs[n].value);
    var p := (o: Object) => value in fn(o);
    forall o ensures o in Matching(ix, reqs, cluster, ns, n + 1) <==> o in Matching(ix, reqs, cluster, ns, n) && p(o) {
      assert p(o) <==> Meets(ix, cluster, ns, reqs[n], o);
    }
    SieveLists(objs, Matching(ix, reqs, cluster, ns, n), p, Matching(ix, reqs, cluster, ns, n + 1));
  }

  /** Once nothing matches, later requirements are answered without being asked. */
  lemma NothingMatches(ix: Indexer, reqs: seq<Requirement>, cluster: string, ns: string, n: nat, objs: seq<Object>)
    requires n <= |reqs| && Lists(objs, Matching(ix, reqs, cluster, ns, n)) && objs == []
    ensures forall m :: n <= m <= |reqs| ==> Matching(ix, reqs, cluster, ns, m) == {}
  {
    ListsNothing(objs, Matching(ix, reqs, cluster, ns, n));
    forall m | n <= m <= |reqs| ensures Matching(ix, reqs, cluster, ns, m) == {} {
      assert Matching(ix, reqs, cluster, ns, m) <= Matching(ix, reqs, cluster, ns, n);
    }
  }

  // ----- list -----

  datatype Maybe<T> = None | Some(value: T)

  datatype ListOptions = ListOptions(
    continued: bool,
    fieldSelector: Maybe<seq<Requirement>>,
    namespace: string,
    labelSelector: Maybe<map<string, string> -> bool>,
    limit: int)

  /** The objects the indexes yield for a request, before labels and limit. */
  ghost function Route(ix: Indexer, cluster: string, opts: ListOptions): set<Object> {
    if opts.fieldSelector.Some? then
      Matching(ix, opts.fieldSelector.value, cluster, opts.namespace, |opts.fieldSelector.value|)
    else if opts.namespace != "" then
      if !ix.clusterAware || cluster == WILDCARD then Indexed(ix, ByNamespace, opts.namespace)
      else Indexed(ix, ByClusterAndNamespace, ClusterAndNamespaceIndexKey(cluster, opts.namespace))
    else
      if !ix.clusterAware || cluster == WILDCARD then ix.store.Values
      else Indexed(ix, ByCluster, ClusterIndexKey(cluster))
  }

  ghost predicate Answered(ix: Indexer, cluster: string, opts: ListOptions) {
    opts.fieldSelector.Some? ==>
      var reqs := opts.fieldSelector.value;
      forall i :: 0 <= i < |reqs| ==> Answerable(ix, reqs, cluster, opts.namespace, i)
  }

  /** Why a request is refused before anything is looked up, if it is. */
  function Refusal(ix: Indexer, cluster: string, opts: ListOptions): Maybe<Error> {
    if opts.continued then Some(ContinueUnsupported)
    else if ix.clusterAware && cluster == "" then Some(NoCluster)
    else if opts.fieldSelector.Some? && !RequiresExactMatch(opts.fieldSelector.value) then Some(InexactSelector)
    else None
  }

  function Selects(sel: Maybe<map<string, string> -> bool>): Object -> bool {
    (o: Object) => sel.None? || sel.value(o.labels)
  }

  /** The first `limit` elements, or all of them when there is no positive limit. */
  function Limited(objs: seq<Object>, limit: int): seq<Object> {
    if 0 < limit < |objs| then objs[..limit] else objs
  }

  ghost predicate Listing(ix: Indexer, cluster: string, opts: ListOptions, items: seq<Object>) {
    exists objs :: Lists(objs, Route(ix, cluster, opts)) &&
      items == Limited(Sieve(objs, Selects(opts.labelSelector), |objs|), opts.limit)
  }

  /** The objects a request is about, labels included. */
  ghost function Matches(ix: Indexer, cluster: string, opts: ListOptions): set<Object> {
    set o | o in Route(ix, cluster, opts) && (opts.labelSelector.None? || opts.labelSelector.value(o.labels))
  }

  /** Without a limit a listing has exactly the matches, each once. */
  lemma UnlimitedListing(ix: Indexer, cluster: string, opts: ListOptions, items: seq<Object>)
    requires opts.limit <= 0 && Listing(ix, cluster, opts, items)
    ensures Lists(items, Matches(ix, cluster, opts))
  {
    var objs :| Lists(objs, Route(ix, cluster, opts)) && items == Limited(Sieve(objs, Selects(opts.labelSelector), |objs|), opts.limit);
    SieveLists(objs, Route(ix, cluster, opts), Selects(opts.labelSelector), Matches(ix, cluster, opts));
  }

  /** With one it has the smaller of the limit and their number of them. */
  lemma LimitedListing(ix: Indexer, cluster: string, opts: ListOptions, items: seq<Object>)
    requires opts.limit > 0 && Listing(ix, cluster, opts, items)
    ensures var matches := Matches(ix, cluster, opts);
            && |items| == (if |matches| < opts.limit then |matches| else opts.limit)
            && Distinct(items) && forall o :: o in items ==> o in matches
  {
    var objs :| Lists(objs, Route(ix, cluster, opts)) && items == Limited(Sieve(objs, Selects(opts.labelSelector), |objs|), opts.limit);
    SieveLists(objs, Route(ix, cluster, opts), Selects(opts.labelSelector), Matches(ix, cluster, opts));
    ListsCardinality(Sieve(objs, Selects(opts.labelSelector), |objs|), Matches(ix, cluster, opts));
  }

  lemma {:induction false} ListsCardinality(objs: seq<Object>, s: set<Object>)
    requires Lists(objs, s)
    ensures |objs| == |s|
  {
    if objs == [] {
      ListsNothing(objs, s);
    } else {
      var last := |objs| - 1;
      assert objs[last] !in objs[..last];
      assert objs == objs[..last] + [objs[last]];
      ListsCardinality(objs[..last], s - {objs[last]});
    }
  }

  lemma {:induction false} SievePrefix(objs: seq<Object>, p: Object -> bool, n: nat, m: nat)
    requires n <= m <= |objs|
    ensures Sieve(objs, p, n) <= Sieve(objs, p, m)
  {
    if n < m { SievePrefix(objs, p, n, m - 1); }
  }

  method Collect(objs: seq<Object>, sel: Maybe<map<string, string> -> bool>, limit: int) returns (items: seq<Object>)
    ensures items == Limited(Sieve(objs, Selects(sel), |objs|), limit)
    ensures items <= Sieve(objs, Selects(sel), |objs|)
    ensures limit <= 0 || |Sieve(objs, Selects(sel), |objs|)| <= limit ==> items == Sieve(objs, Selects(sel), |objs|)
    ensures 0 < limit <= |Sieve(objs, Selects(sel), |objs|)| ==> |items| == limit
  {
    items := [];
    for i := 0 to |objs|
      invariant items == Sieve(objs, Selects(sel), i)
      invariant limit > 0 ==> |items| <= limit
    {
      if limit > 0 && |items| >= limit {
        SievePrefix(objs, Selects(sel), i, |objs|);
        break;
      }
      if sel.Some? && !sel.value(objs[i].labels) {
        continue;
      }
      items := items + [objs[i]];
    }
  }

  method Candidates(ix: Indexer, cluster: string, opts: ListOptions) returns (r: Result<seq<Object>>)
    requires ix.Valid() && Refusal(ix, cluster, opts).None?
    ensures r.Ok? <==> Answered(ix, cluster, opts)
    ensures r.Ok? ==> Lists(r.value, Route(ix, cluster, opts))
    ensures r.Err? ==> r.error.NoSuchIndex?
  {
    if opts.fieldSelector.Some? {
      r := ByIndexes(ix, opts.fieldSelector.value, cluster, opts.namespace);
    } else if opts.namespace != "" {
      if !ix.clusterAware {
        r := ByIndex(ix, ByNamespace, opts.namespace);
      } else if cluster == WILDCARD {
        r := ByIndex(ix, ByNamespace, opts.namespace);
      } else {
        r := ByIndex(ix, ByClusterAndNamespace, ClusterAndNamespaceIndexKey(cluster, opts.namespace));
      }
    } else {
      if !ix.clusterAware {
        var all := ListAll(ix);
        r := Ok(all);
      } else if cluster == WILDCARD {
        var all := ListAll(ix);
        r := Ok(all);
      } else {
        r := ByIndex(ix, ByCluster, ClusterIndexKey(cluster));
      }
    }
  }

  method List(ix: Indexer, cluster: string, opts: ListOptions) returns (r: Result<seq<Object>>)
    requires ix.Valid()
    ensures r.Ok? <==> !opts.continued && !(ix.clusterAware && cluster == "") && Exact(opts) && Answered(ix, cluster, opts)
    ensures r.Ok? <==> Refusal(ix, cluster, opts).None? && Answered(ix, cluster, opts)
    ensures r == Err(ContinueUnsupported) <==> opts.continued
    ensures r == Err(NoCluster) <==> !opts.continued && ix.clusterAware && cluster == ""
    ensures r == Err(InexactSelector) <==> !opts.continued && !(ix.clusterAware && cluster == "") && !Exact(opts)
    ensures r.Err? && r.error.NoSuchIndex? ==> !Answered(ix, cluster, opts)
    ensures r != Err(NotFound)
    ensures r.Ok? ==> Listing(ix, cluster, opts, r.value)
  {
    if opts.continued {
      return Err(ContinueUnsupported);
    }
    if ix.clusterAware && cluster == "" {
      return Err(NoCluster);
    }
    if opts.fieldSelector.Some? && !RequiresExactMatch(opts.fieldSelector.value) {
      return Err(InexactSelector);
    }
    var objs := Candidates(ix, cluster, opts);
    if objs.Err? {
      return objs;
    }
    var items := Collect(objs.value, opts.labelSelector, opts.limit);
    r := Ok(items);
  }

  // ----- get -----

  function Lookup(ix: Indexer, cluster: string, rootScoped: bool, ns: string, name: string): Result<Object> {
    if ix.clusterAware && cluster == "" then Err(NoCluster)
    else
      var storeKey := ObjectKeyToStoreKey(if rootScoped then "" else ns, name);
      var key := if ix.clusterAware then cluster + "|" + storeKey else storeKey;
      if key in ix.store then Ok(ix.store[key]) else Err(NotFound)
  }

  method Get(ix: Indexer, cluster: string, rootScoped: bool, ns: string, name: string) returns (r: Result<Object>)
    ensures r == Lookup(ix, cluster, rootScoped, ns, name)
  {
    var namespace := ns;
    if rootScoped {
      namespace := "";
    }
    var storeKey := ObjectKeyToStoreKey(namespace, name);
    if ix.clusterAware && cluster == "" {
      return Err(NoCluster);
    }
    if ix.clusterAware {
      storeKey := cluster + "|" + storeKey;
    }
    if storeKey !in ix.store {
      return Err(NotFound);
    }
    r := Ok(ix.store[storeKey]);
  }

  // ----- the indexes agree with a scan -----

  /** What a full scan of the store selects by cluster, namespace and field requirements. */
  ghost function Scan(ix: Indexer, cluster: string, ns: string, reqs: seq<Requirement>): set<Object> {
    set o | o in ix.store.Values
            && (cluster == "*" || o.cluster == cluster)
            && (ns == "" || o.namespace == ns)
            && forall i :: 0 <= i < |reqs| ==> Satisfies(o, reqs[i])
  }

  function Requirements(opts: ListOptions): seq<Requirement> {
    if opts.fieldSelector.Some? then opts.fieldSelector.value else []
  }

  /** Cluster names and namespaces without slashes; field values may have any. */
  ghost predicate SlashFree(ix: Indexer) {
    forall o :: o in ix.store.Values ==> '/' !in o.cluster && '/' !in o.namespace
  }

  lemma NamespacedMembers(ns: string, raw: seq<string>, key: string)
    ensures key in Namespaced(ns, raw) <==> exists r :: r in raw && (key == KeyToNamespacedKey(ns, r) || key == KeyToNamespacedKey("", r))
  {
    var first := seq(|raw|, i requires 0 <= i < |raw| => KeyToNamespacedKey(ns, raw[i]));
    var second := seq(|raw|, i requires 0 <= i < |raw| => KeyToNamespacedKey("", raw[i]));
    assert Namespaced(ns, raw) == first + if ns == "" then [] else second;
    if r :| r in raw && (key == KeyToNamespacedKey(ns, r) || key == KeyToNamespacedKey("", r)) {
      var i :| 0 <= i < |raw| && raw[i] == r;
      assert first[i] in first && second[i] in second;
      assert ns == "" ==> first[i] == second[i];
    }
  }

  lemma WithClusterMembers(cluster: string, keys: seq<string>, r: string)
    ensures r in WithCluster(cluster, keys) <==> exists v :: v in keys && (r == cluster + "/" + v || r == WILDCARD + "/" + v)
  {
    var first := seq(|keys|, i requires 0 <= i < |keys| => cluster + "/" + keys[i]);
    var second := seq(|keys|, i requires 0 <= i < |keys| => WILDCARD + "/" + keys[i]);
    assert WithCluster(cluster, keys) == first + second;
    if v :| v in keys && (r == cluster + "/" + v || r == WILDCARD + "/" + v) {
      var i :| 0 <= i < |keys| && keys[i] == v;
      assert first[i] in first && second[i] in second;
    }
  }

  /** An object is indexed under the key of a question iff the question is about it. The reserved namespace
      asks about all namespaces. */
  lemma MeetsIffAskedAbout(ix: Indexer, cluster: string, ns: string, req: Requirement, o: Object)
    requires ix.clusterAware && '/' !in cluster && '/' !in ns && '/' !in o.cluster && '/' !in o.namespace
    ensures Meets(ix, cluster, ns, req, o) <==>
            && (cluster == WILDCARD || o.cluster == cluster)
            && (ns == "" || ns == ALL_NAMESPACES || o.namespace == ns)
            && req.value in o.Field(req.field)
  {
    var vals, key := o.Field(req.field), KeyToClusteredKey(cluster, ns, req.value);
    var raw := WithCluster(o.cluster, vals);
    NamespacedMembers(o.namespace, raw, key);
    if Meets(ix, cluster, ns, req, o) {
      var r :| r in raw && (key == KeyToNamespacedKey(o.namespace, r) || key == KeyToNamespacedKey("", r));
      WithClusterMembers(o.cluster, vals, r);
      var v :| v in vals && (r == o.cluster + "/" + v || r == WILDCARD + "/" + v);
      ClusteredKeyIsUnambiguous(cluster, ns, req.value, o.cluster, o.namespace, v);
      ClusteredKeyIsUnambiguous(cluster, ns, req.value, WILDCARD, o.namespace, v);
      ClusteredKeyIsUnambiguous(cluster, ns, req.value, o.cluster, "", v);
      ClusteredKeyIsUnambiguous(cluster, ns, req.value, WILDCARD, "", v);
    }
    if (cluster == WILDCARD || o.cluster == cluster) && (ns == "" || ns == ALL_NAMESPACES || o.namespace == ns) && req.value in vals {
      var r := cluster + "/" + req.value;
      WithClusterMembers(o.cluster, vals, r);
      ClusteredKeyIsUnambiguous(cluster, ns, req.value, cluster, o.namespace, req.value);
      ClusteredKeyIsUnambiguous(cluster, ns, req.value, cluster, "", req.value);
      assert r in raw;
    }
  }

  /** A field selection over the reserved namespace asks about all namespaces. */
  function AskedNamespace(opts: ListOptions): string {
    if opts.fieldSelector.Some? && opts.namespace == "__all_namespaces" then "" else opts.namespace
  }

  /** A field selector is there for something, and only asks for values a field has. */
  ghost predicate Exact(opts: ListOptions) {
    opts.fieldSelector.Some? ==>
      && opts.fieldSelector.value != []
      && forall i :: 0 <= i < |opts.fieldSelector.value| ==> !opts.fieldSelector.value[i].operator.NotEquals?
  }

  /** For every store, cluster or wildcard, namespace or none, and field requirements: the indexes yield exactly
      the objects a scan selects for the namespace asked about. */
  lemma RouteIsScan(ix: Indexer, cluster: string, opts: ListOptions)
    requires ix.clusterAware && SlashFree(ix) && '/' !in cluster && '/' !in opts.namespace && Exact(opts)
    ensures Route(ix, cluster, opts) == Scan(ix, cluster, AskedNamespace(opts), Requirements(opts))
  {
    if opts.fieldSelector.Some? {
      var reqs := opts.fieldSelector.value;
      forall o, i | o in ix.store.Values && 0 <= i < |reqs|
        ensures Meets(ix, cluster, opts.namespace, reqs[i], o) <==>
                  && (cluster == WILDCARD || o.cluster == cluster)
                  && (opts.namespace == "" || opts.namespace == ALL_NAMESPACES || o.namespace == opts.namespace)
                  && reqs[i].value in o.Field(reqs[i].field)
      {
        MeetsIffAskedAbout(ix, cluster, opts.namespace, reqs[i], o);
      }
      assert forall o :: o in Route(ix, cluster, opts) ==> Meets(ix, cluster, opts.namespace, reqs[0], o);
    } else if opts.namespace != "" && cluster != WILDCARD {
      forall o | o in ix.store.Values
        ensures ClusterAndNamespaceIndexKey(o.cluster, o.namespace) == ClusterAndNamespaceIndexKey(cluster, opts.namespace) <==>
                o.cluster == cluster && o.namespace == opts.namespace
      {
        ClusterAndNamespaceKeyIsUnambiguous(o.cluster, o.namespace, cluster, opts.namespace);
      }
    }
  }

  /** What a caller of `List` gets: without a limit, exactly the scanned objects whose labels match, each once. */
  lemma ListIsScan(ix: Indexer, cluster: string, opts: ListOptions, items: seq<Object>)
    requires ix.clusterAware && SlashFree(ix) && '/' !in cluster && '/' !in opts.namespace && Exact(opts)
    requires opts.limit <= 0 && Listing(ix, cluster, opts, items)
    ensures Distinct(items)
    ensures forall o :: o in items <==>
              && o in Scan(ix, cluster, AskedNamespace(opts), Requirements(opts))
              && (opts.labelSelector.None? || opts.labelSelector.value(o.labels))
  {
    UnlimitedListing(ix, cluster, opts, items);
    RouteIsScan(ix, cluster, opts);
  }

  /** So the answer is right for the namespace as written, except for field selections over the reserved one
      that match an object of another namespace. */
  lemma RouteIsScanUnlessReserved(ix: Indexer, cluster: string, opts: ListOptions)
    requires ix.clusterAware && SlashFree(ix) && '/' !in cluster && '/' !in opts.namespace && Exact(opts)
    ensures Route(ix, cluster, opts) == Scan(ix, cluster, opts.namespace, Requirements(opts)) <==>
            (opts.fieldSelector.Some? && opts.namespace == ALL_NAMESPACES ==>
               forall o :: o in Scan(ix, cluster, "", Requirements(opts)) ==> o.namespace == ALL_NAMESPACES)
  {
    RouteIsScan(ix, cluster, opts);
    if opts.fieldSelector.Some? && opts.namespace == ALL_NAMESPACES {
      var all, some := Scan(ix, cluster, "", Requirements(opts)), Scan(ix, cluster, ALL_NAMESPACES, Requirements(opts));
      if all == some {
        forall o | o in all ensures o.namespace == ALL_NAMESPACES { assert o in some; }
      }
    }
  }

  /** And such a request exists: it is answered with an object of the namespace `n`. */
  lemma ReservedNamespaceAnswersForOthers()
    ensures var o := Object("c", "n", "x", map[], map["f" := ["v"]]);
            var ix := Indexer(map[ScopedStoreKey("c", "n", "x") := o], {"f"}, true);
            var opts := ListOptions(false, Some([Requirement("f", Equals, "v")]), ALL_NAMESPACES, None, 0);
            && ix.Valid() && Refusal(ix, "c", opts).None? && Answered(ix, "c", opts)
            && Route(ix, "c", opts) == {o} && Scan(ix, "c", ALL_NAMESPACES, Requirements(opts)) == {}
  {
    var o := Object("c", "n", "x", map[], map["f" := ["v"]]);
    var ix := Indexer(map[ScopedStoreKey("c", "n", "x") := o], {"f"}, true);
    var opts := ListOptions(false, Some([Requirement("f", Equals, "v")]), ALL_NAMESPACES, None, 0);
    assert ix.store[ScopedStoreKey("c", "n", "x")] == o;
    assert '/' !in "c" && '/' !in "n" && '/' !in ALL_NAMESPACES;
    assert Requirements(opts) == [Requirement("f", Equals, "v")];
    RouteIsScan(ix, "c", opts);
    assert o.Field("f")[0] == "v";
    assert Scan(ix, "c", "", Requirements(opts)) == {o};
  }

  /** The parts of the store keys keep clear of the separators. */
  ghost predicate PlainNames(ix: Indexer) {
    forall o :: o in ix.store.Values ==> '|' !in o.cluster && '/' !in o.cluster && '/' !in o.namespace && '/' !in o.name
  }

  function InNamespace(ns: string): ListOptions { ListOptions(false, None, ns, None, 0) }

  /** A scoped `Get` finds exactly the object that the scoped `List` of its namespace has under that name. */
  lemma GetAgreesWithList(ix: Indexer, cluster: string, rootScoped: bool, ns: string, name: string, o: Object)
    requires ix.Valid() && ix.clusterAware && PlainNames(ix)
    requires cluster != "" && cluster != WILDCARD && '|' !in cluster && '/' !in cluster && '/' !in ns && '/' !in name
    ensures var within := if rootScoped then "" else ns;
            Lookup(ix, cluster, rootScoped, ns, name) == Ok(o) <==>
            o in Route(ix, cluster, InNamespace(within)) && o.namespace == within && o.name == name
  {
    var within := if rootScoped then "" else ns;
    RouteIsScan(ix, cluster, InNamespace(within));
    var key := ScopedStoreKey(cluster, within, name);
    assert key == cluster + "|" + ObjectKeyToStoreKey(within, name);
    if key in ix.store && ix.store[key] == o {
      assert o in ix.store.Values;
      StoreKeyIsUnambiguous(cluster, within, name, o.cluster, o.namespace, o.name);
    }
    if o in Route(ix, cluster, InNamespace(within)) && o.namespace == within && o.name == name {
      var k :| k in ix.store && ix.store[k] == o;
      assert k == key;
    }
  }

  /** A scoped `Get` fails for want of a cluster iff it is given none, and otherwise iff there is no such object. */
  lemma GetFailsIff(ix: Indexer, cluster: string, rootScoped: bool, ns: string, name: string)
    requires ix.Valid() && ix.clusterAware && PlainNames(ix)
    requires cluster != WILDCARD && '|' !in cluster && '/' !in cluster && '/' !in ns && '/' !in name
    ensures var r, within := Lookup(ix, cluster, rootScoped, ns, name), if rootScoped then "" else ns;
            && (r == Err(NoCluster) <==> cluster == "")
            && (r == Err(NotFound) <==> cluster != "" && forall o :: o in ix.store.Values ==>
                  o.cluster != cluster || o.namespace != within || o.name != name)
            && (r.Err? ==> r.error.NoCluster? || r.error.NotFound?)
  {
    var within := if rootScoped then "" else ns;
    if cluster != "" {
      var r := Lookup(ix, cluster, rootScoped, ns, name);
      forall o | o in ix.store.Values
        ensures r == Ok(o) <==> o.cluster == cluster && o.namespace == within && o.name == name
      {
        GetAgreesWithList(ix, cluster, rootScoped, ns, name, o);
        RouteIsScan(ix, cluster, InNamespace(within));
        assert within == "" || o.namespace == within || o !in Scan(ix, cluster, within, []);
      }
    }
  }

  // ----- indexers that do not know clusters -----

  /** Without clusters, a read by namespace is a scan of everything in it. */
  lemma UnawareRouteIsScan(ix: Indexer, cluster: string, opts: ListOptions)
    requires !ix.clusterAware && opts.fieldSelector.None?
    ensures Route(ix, cluster, opts) == Scan(ix, WILDCARD, opts.namespace, [])
  {}

  /** A field requirement is then asked for as it is, while the index has the values with a cluster in front. */
  lemma UnawareMeets(ix: Indexer, cluster: string, ns: string, req: Requirement, o: Object)
    requires !ix.clusterAware && '/' !in ns && '/' !in o.namespace
    ensures Meets(ix, cluster, ns, req, o) <==>
            && (ns == "" || ns == ALL_NAMESPACES || o.namespace == ns)
            && exists v :: v in o.Field(req.field) && (req.value == o.cluster + "/" + v || req.value == WILDCARD + "/" + v)
  {
    var raw, key := WithCluster(o.cluster, o.Field(req.field)), KeyToNamespacedKey(ns, req.value);
    NamespacedMembers(o.namespace, raw, key);
    WithClusterMembers(o.cluster, o.Field(req.field), req.value);
    forall r ensures key == KeyToNamespacedKey(o.namespace, r) <==> (Space(ns) == Space(o.namespace) && r == req.value) {
      SplitIsUnique(Space(ns), Space(o.namespace), req.value, r, '/');
    }
    forall r ensures key == KeyToNamespacedKey("", r) <==> (Space(ns) == ALL_NAMESPACES && r == req.value) {
      SplitIsUnique(Space(ns), ALL_NAMESPACES, req.value, r, '/');
    }
    assert req.value in raw ==> exists r :: r in raw && r == req.value;
  }

  function Space(ns: string): string { if ns == "" then ALL_NAMESPACES else ns }

  /** A `Get` there finds the one object of that namespace and name. */
  lemma UnawareGet(ix: Indexer, cluster: string, rootScoped: bool, ns: string, name: string, o: Object)
    requires ix.Valid() && !ix.clusterAware && PlainNames(ix) && '/' !in ns && '/' !in name
    ensures var within := if rootScoped then "" else ns;
            Lookup(ix, cluster, rootScoped, ns, name) == Ok(o) <==>
            o in ix.store.Values && o.namespace == within && o.name == name
  {
    var within := if rootScoped then "" else ns;
    var key := ObjectKeyToStoreKey(within, name);
    if o in ix.store.Values {
      var k :| k in ix.store && ix.store[k] == o;
      StoreKeyIsUnambiguous("", within, name, "", o.namespace, o.name);
      assert ScopedStoreKey("", within, name)[1..] == key && ScopedStoreKey("", o.namespace, o.name)[1..] == k;
    }
  }

  /** The lists scoped to single clusters partition the wildcard list: each of its objects is in the list of
      exactly one cluster, its own, and nothing else is in any. */
  lemma ScopedListsPartition(ix: Indexer, opts: ListOptions, o: Object, cluster: string)
    requires ix.clusterAware && SlashFree(ix) && '/' !in cluster && '/' !in opts.namespace && Exact(opts)
    requires cluster != WILDCARD
    ensures o in Route(ix, cluster, opts) <==> o in Route(ix, WILDCARD, opts) && cluster == o.cluster
  {
    RouteIsScan(ix, cluster, opts);
    RouteIsScan(ix, WILDCARD, opts);
  }
}
