/** The composite string keys under which objects are stored and indexed. */
module Keys {

  const ALL_NAMESPACES := "__all_namespaces"
  const WILDCARD := "*"

  function ObjectKeyToStoreKey(ns: string, name: string): string {
    if ns == "" then name else ns + "/" + name
  }

  /** The store key of a cluster-aware informer. */
  function ScopedStoreKey(cluster: string, ns: string, name: string): string {
    cluster + "|" + ObjectKeyToStoreKey(ns, name)
  }

  function ClusterIndexKey(cluster: string): string { cluster }

  function ClusterAndNamespaceIndexKey(cluster: string, ns: string): string { cluster + "/" + ns }

  function KeyToNamespacedKey(ns: string, baseKey: string): string {
    if ns != "" then ns + "/" + baseKey else ALL_NAMESPACES + "/" + baseKey
  }

  function KeyToClusteredKey(cluster: string, ns: string, baseKey: string): string {
    if ns != "" then ns + "/" + cluster + "/" + baseKey else ALL_NAMESPACES + "/" + cluster + "/" + baseKey
  }

  /** A string splits at its first separator in one way only. */
  lemma SplitIsUnique(a: string, b: string, x: string, y: string, sep: char)
    requires sep !in a && sep !in b
    ensures a + [sep] + x == b + [sep] + y <==> a == b && x == y
  {
    var s, t := a + [sep] + x, b + [sep] + y;
    if s == t {
      assert s[|a|] == sep && t[|b|] == sep;
      assert forall i :: 0 <= i < |a| ==> s[i] in a;
      assert forall i :: 0 <= i < |b| ==> t[i] in b;
      assert a == s[..|a|] && b == t[..|b|];
      assert x == s[|a| + 1..] && y == t[|b| + 1..];
    }
  }

  /** Store keys identify cluster, namespace and name. */
  lemma StoreKeyIsUnambiguous(c: string, ns: string, name: string, c': string, ns': string, name': string)
    requires '|' !in c && '|' !in c' && '/' !in ns && '/' !in ns' && '/' !in name && '/' !in name'
    ensures ScopedStoreKey(c, ns, name) == ScopedStoreKey(c', ns', name') <==> c == c' && ns == ns' && name == name'
  {
    SplitIsUnique(c, c', ObjectKeyToStoreKey(ns, name), ObjectKeyToStoreKey(ns', name'), '|');
    if ns != "" && ns' != "" {
      SplitIsUnique(ns, ns', name, name', '/');
    } else if ns != "" {
      assert ObjectKeyToStoreKey(ns, name)[|ns|] == '/';
    } else if ns' != "" {
      assert ObjectKeyToStoreKey(ns', name')[|ns'|] == '/';
    }
  }

  lemma ClusterAndNamespaceKeyIsUnambiguous(c: string, ns: string, c': string, ns': string)
    requires '/' !in c && '/' !in c'
    ensures ClusterAndNamespaceIndexKey(c, ns) == ClusterAndNamespaceIndexKey(c', ns') <==> c == c' && ns == ns'
  {
    SplitIsUnique(c, c', ns, ns', '/');
  }

  /** A key asked for equals a key emitted as `ns'/cluster'/value'` iff all parts agree, where no namespace
      stands for the reserved one. The values may contain slashes. */
  lemma ClusteredKeyIsUnambiguous(c: string, ns: string, v: string, c': string, ns': string, v': string)
    requires '/' !in c && '/' !in c' && '/' !in ns && '/' !in ns'
    ensures KeyToClusteredKey(c, ns, v) == KeyToNamespacedKey(ns', c' + "/" + v') <==>
            c == c' && v == v' && (if ns == "" then ALL_NAMESPACES else ns) == (if ns' == "" then ALL_NAMESPACES else ns')
  {
    var p, p' := if ns == "" then ALL_NAMESPACES else ns, if ns' == "" then ALL_NAMESPACES else ns';
    assert KeyToClusteredKey(c, ns, v) == p + "/" + (c + "/" + v);
    SplitIsUnique(p, p', c + "/" + v, c' + "/" + v', '/');
    SplitIsUnique(c, c', v, v', '/');
  }

  lemma SharedIffJoinedAlike(c: string, v: string, c': string, v': string, ns: string)
    ensures KeyToClusteredKey(c, ns, v) == KeyToClusteredKey(c', ns, v') <==> c + "/" + v == c' + "/" + v'
  {
    var p, s, t := if ns == "" then ALL_NAMESPACES else ns, c + "/" + v, c' + "/" + v';
    assert KeyToClusteredKey(c, ns, v) == p + "/" + s && KeyToClusteredKey(c', ns, v') == p + "/" + t;
    assert (p + "/" + s)[|p| + 1..] == s && (p + "/" + t)[|p| + 1..] == t;
  }

  /** With the shorter cluster name in front, the longer one goes on with a slash and the start of the value. */
  lemma JoinedAlike(c: string, v: string, c': string, v': string)
    requires |c'| < |c| && c + "/" + v == c' + "/" + v'
    ensures c == c' + "/" + c[|c'| + 1..] && v' == c[|c'| + 1..] + "/" + v
  {
    var s, t := c + "/" + v, c' + "/" + v';
    assert s[..|c|] == c && t[..|c'|] == c' && t[|c'| + 1..] == v' && t[|c'|] == '/';
    assert s[|c'|] == c[|c'|] && s[..|c'|] == c[..|c'|];
    assert s[|c'| + 1..] == c[|c'| + 1..] + "/" + v;
  }

  /** Two questions about one namespace share a key iff they are the same, or the longer cluster name goes on,
      after the shorter one and a slash, with what the value asked for with the shorter one begins with. */
  lemma QuestionsShareAKeyIff(c: string, v: string, c': string, v': string, ns: string)
    requires |c'| <= |c|
    ensures KeyToClusteredKey(c, ns, v) == KeyToClusteredKey(c', ns, v') <==>
            (c == c' && v == v') || exists rest {:trigger c' + "/" + rest} :: c == c' + "/" + rest && v' == rest + "/" + v
  {
    SharedIffJoinedAlike(c, v, c', v', ns);
    if c + "/" + v == c' + "/" + v' {
      if |c'| < |c| {
        JoinedAlike(c, v, c', v');
      } else {
        assert (c + "/" + v)[..|c|] == c && (c' + "/" + v')[..|c'|] == c';
        assert (c + "/" + v)[|c| + 1..] == v && (c' + "/" + v')[|c'| + 1..] == v';
      }
    }
    forall rest | c == c' + "/" + rest && v' == rest + "/" + v ensures c + "/" + v == c' + "/" + v' {}
  }

  function FirstSlash(c: string): (n: nat)
    requires '/' in c
    ensures n < |c| && c[n] == '/' && '/' !in c[..n]
  {
    if c[0] == '/' then 0
    else
      var n := FirstSlash(c[1..]);
      assert c[..n + 1] == [c[0]] + c[1..][..n];
      n + 1
  }

  /** A question about a cluster shares its key with one about another cluster whose name has no slash iff its
      own name has one. */
  lemma SlashInClusterIsAmbiguous(c: string, ns: string, v: string)
    ensures '/' in c <==>
            exists c', v' {:trigger KeyToClusteredKey(c', ns, v')} ::
              '/' !in c' && c' != c && KeyToClusteredKey(c', ns, v') == KeyToClusteredKey(c, ns, v)
  {
    if '/' in c {
      var n := FirstSlash(c);
      var c', rest := c[..n], c[n + 1..];
      assert c == c' + "/" + rest;
      QuestionsShareAKeyIff(c, v, c', rest + "/" + v, ns);
    } else {
      forall c', v' | '/' !in c' && KeyToClusteredKey(c', ns, v') == KeyToClusteredKey(c, ns, v) ensures c' == c {
        SharedIffJoinedAlike(c, v, c', v', ns);
        SplitIsUnique(c, c', v, v', '/');
      }
    }
  }
}
