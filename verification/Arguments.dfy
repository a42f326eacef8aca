/** Structured command line arguments: overriding, rendering and reading back. */
module Arguments {

  /** A string slice; an absent one is not the same as an empty one. */
  datatype Slice = Nil | Items(vals: seq<string>) {
    function Vals(): seq<string> { if Nil? then [] else vals }

    /** Appending nothing keeps an absent slice absent. */
    function Append(more: Slice): Slice {
      if more.Vals() == [] then this else Items(Vals() + more.Vals())
    }
  }

  datatype Arg = User(slice: Slice) | Defaulted(slice: Slice) | DontPass | PassAsName {
    function Append(more: Slice): Arg {
      match this
      case User(s) => User(s.Append(more))
      case Defaulted(s) => Defaulted(s.Append(more))
      case DontPass => User(more)
      case PassAsName => PassAsName
    }

    function Get(defaults: Slice): Slice {
      match this
      case User(s) => s
      case Defaulted(s) => Nil.Append(defaults).Append(s)
      case DontPass => Nil
      case PassAsName => Items([])
    }
  }

  type Values = map<string, Arg>
  type Defaults = map<string, Slice>

  function ArgOf(values: Values, key: string): Arg {
    if key in values then values[key] else Defaulted(Nil)
  }

  /** What is rendered for a key: nothing, the name only, or the values. */
  function Chosen(values: Values, defaults: Defaults, key: string): Slice {
    ArgOf(values, key).Get(if key in defaults then defaults[key] else Nil)
  }

  function NameFlag(key: string): string { "--" + key }

  function ValueFlag(key: string, val: string): string { "--" + key + "=" + val }

  function ValueFlags(key: string, vals: seq<string>): seq<string> {
    seq(|vals|, i requires 0 <= i < |vals| => ValueFlag(key, vals[i]))
  }

  function Flags(key: string, s: Slice): seq<string> {
    match s
    case Nil => []
    case Items(vals) => if vals == [] then [NameFlag(key)] else ValueFlags(key, vals)
  }

  function Rendered(values: Values, defaults: Defaults, keys: seq<string>): seq<string> {
    if keys == [] then []
    else Rendered(values, defaults, keys[..|keys| - 1]) + Flags(keys[|keys| - 1], Chosen(values, defaults, keys[|keys| - 1]))
  }

  // ----- order -----

  predicate Less(a: string, b: string) {
    b != [] && (a == [] || a[0] < b[0] || (a[0] == b[0] && Less(a[1..], b[1..])))
  }

  /** Where the strings part, the first has ended or has the smaller character. */
  ghost predicate PartAt(a: string, b: string, n: nat) {
    n <= |a| && n < |b| && a[..n] == b[..n] && (n == |a| || a[n] < b[n])
  }

  /** The order is the lexicographic one. */
  lemma {:induction false} LessIsLexicographic(a: string, b: string)
    ensures Less(a, b) <==> exists n: nat :: PartAt(a, b, n)
  {
    if a != [] && b != [] {
      LessIsLexicographic(a[1..], b[1..]);
      if a[0] == b[0] && Less(a[1..], b[1..]) {
        var n: nat :| PartAt(a[1..], b[1..], n);
        assert a[..n + 1] == [a[0]] + a[1..][..n] && b[..n + 1] == [b[0]] + b[1..][..n];
        assert PartAt(a, b, n + 1);
      } else if a[0] < b[0] {
        assert PartAt(a, b, 0);
      }
      forall n: nat | PartAt(a, b, n) ensures Less(a, b) {
        if n > 0 {
          assert a[0] == a[..n][0] == b[..n][0] == b[0];
          assert a[1..][..n - 1] == a[..n][1..] && b[1..][..n - 1] == b[..n][1..];
          assert PartAt(a[1..], b[1..], n - 1);
        }
      }
    } else if b != [] {
      assert PartAt(a, b, 0);
    }
  }

  lemma {:induction false} LessIsTotal(a: string, b: string)
    ensures Less(a, b) || a == b || Less(b, a)
  {
    if a != [] && b != [] && a[0] == b[0] {
      LessIsTotal(a[1..], b[1..]);
      assert a == [a[0]] + a[1..] && b == [b[0]] + b[1..];
    }
  }

  lemma {:induction false} LessIsTransitive(a: string, b: string, c: string)
    requires Less(a, b) && Less(b, c)
    ensures Less(a, c)
  {
    if a != [] && a[0] == b[0] && b[0] == c[0] { LessIsTransitive(a[1..], b[1..], c[1..]); }
  }

  lemma {:induction false} LessIsIrreflexive(a: string)
    ensures !Less(a, a)
  {
    if a != [] { LessIsIrreflexive(a[1..]); }
  }

  ghost predicate Ascending(keys: seq<string>) {
    forall i, j :: 0 <= i < j < |keys| ==> Less(keys[i], keys[j])
  }

  function Insert(sorted: seq<string>, key: string): seq<string> {
    if sorted == [] || Less(key, sorted[0]) then [key] + sorted else [sorted[0]] + Insert(sorted[1..], key)
  }

  lemma {:induction false} InsertKeepsAscending(sorted: seq<string>, key: string)
    requires Ascending(sorted) && key !in sorted
    ensures Ascending(Insert(sorted, key))
    ensures forall k :: k in Insert(sorted, key) <==> k in sorted || k == key
  {
    if sorted == [] {
    } else if Less(key, sorted[0]) {
      forall j | 0 < j < |sorted| ensures Less(key, sorted[j]) { LessIsTransitive(key, sorted[0], sorted[j]); }
    } else {
      InsertKeepsAscending(sorted[1..], key);
      LessIsTotal(key, sorted[0]);
      assert sorted == [sorted[0]] + sorted[1..];
      var rest := Insert(sorted[1..], key);
      forall j | 0 <= j < |rest| ensures Less(sorted[0], rest[j]) {
        assert rest[j] in rest;
      }
    }
  }

  /** The keys sorted, as the library's sort does it. */
  function Sorted(keys: seq<string>): seq<string> {
    if keys == [] then [] else Insert(Sorted(keys[..|keys| - 1]), keys[|keys| - 1])
  }

  lemma {:induction false} SortedIsAscending(keys: seq<string>)
    requires forall i, j :: 0 <= i < j < |keys| ==> keys[i] != keys[j]
    ensures Ascending(Sorted(keys)) && forall k :: k in Sorted(keys) <==> k in keys
  {
    if keys != [] {
      var front, last := keys[..|keys| - 1], keys[|keys| - 1];
      SortedIsAscending(front);
      assert keys == front + [last];
      InsertKeepsAscending(Sorted(front), last);
    }
  }

  lemma TailMembers(a: seq<string>)
    requires Ascending(a) && a != []
    ensures forall k :: k in a[1..] <==> k in a && k != a[0]
  {
    LessIsIrreflexive(a[0]);
    assert a == [a[0]] + a[1..];
    assert forall i :: 0 < i < |a| ==> a[i] != a[0];
  }

  /** A set of keys has one ascending order. */
  lemma {:induction false} AscendingIsUnique(a: seq<string>, b: seq<string>)
    requires Ascending(a) && Ascending(b) && forall k :: k in a <==> k in b
    ensures a == b
  {
    assert b != [] ==> b[0] in b;
    if a != [] {
      assert a[0] in b && b != [] && b[0] in a;
      if a[0] != b[0] {
        LessIsTransitive(a[0], b[0], a[0]);
        LessIsIrreflexive(a[0]);
        assert false;
      }
      TailMembers(a);
      TailMembers(b);
      AscendingIsUnique(a[1..], b[1..]);
      assert a == [a[0]] + a[1..] && b == [b[0]] + b[1..];
    }
  }

  /** `r` renders the keys of the defaults and of the user's values in ascending order. */
  ghost predicate Rendering(values: Values, defaults: Defaults, r: seq<string>) {
    exists keys :: Ascending(keys) && (forall k :: k in keys <==> k in defaults || k in values) && r == Rendered(values, defaults, keys)
  }

  /** Whatever order the maps are walked in, there is one rendering. */
  lemma RenderingIsUnique(values: Values, defaults: Defaults, r: seq<string>, r': seq<string>)
    requires Rendering(values, defaults, r) && Rendering(values, defaults, r')
    ensures r == r'
  {
    var keys :| Ascending(keys) && (forall k :: k in keys <==> k in defaults || k in values) && r == Rendered(values, defaults, keys);
    var keys' :| Ascending(keys') && (forall k :: k in keys' <==> k in defaults || k in values) && r' == Rendered(values, defaults, keys');
    AscendingIsUnique(keys, keys');
  }

  // ----- reading flags back -----

  /** The position of the first `=`, or the length. */
  function FirstEquals(s: string): (n: nat)
    ensures n <= |s| && '=' !in s[..n] && (n < |s| ==> s[n] == '=')
  {
    if s == [] || s[0] == '=' then 0
    else
      var n := FirstEquals(s[1..]);
      assert s[..n + 1] == [s[0]] + s[1..][..n];
      n + 1
  }

  /** A flag without its two dashes; anything else says nothing. */
  function Body(flag: string): string { if |flag| < 2 || flag[..2] != "--" then "" else flag[2..] }

  /** What one flag says about its key: a value, or only the name. */
  datatype Setting = Setting(key: string, val: Slice)

  function Read(flag: string): Setting {
    var n := FirstEquals(Body(flag));
    Setting(Body(flag)[..n], if n == |Body(flag)| then Nil else Items([Body(flag)[n + 1..]]))
  }

  function AllRead(flags: seq<string>): seq<Setting> {
    seq(|flags|, i requires 0 <= i < |flags| => Read(flags[i]))
  }

  /** Keys to values; a key given by name only has no values. */
  function Gathered(settings: seq<Setting>): map<string, seq<string>> {
    if settings == [] then map[]
    else
      Absorbed(Gathered(settings[..|settings| - 1]), settings[|settings| - 1])
  }

  function Absorbed(m: map<string, seq<string>>, s: Setting): map<string, seq<string>> {
    m[s.key := (if s.key in m then m[s.key] else []) + s.val.Vals()]
  }

  function Parsed(flags: seq<string>): map<string, seq<string>> { Gathered(AllRead(flags)) }

  /** The keys that are rendered, with their values. */
  function Intended(values: Values, defaults: Defaults): map<string, seq<string>> {
    map k | k in defaults.Keys + values.Keys && Chosen(values, defaults, k).Items? :: Chosen(values, defaults, k).vals
  }

  lemma FlagSplits(key: string, val: string)
    requires '=' !in key
    ensures Read(NameFlag(key)) == Setting(key, Nil)
    ensures Read(ValueFlag(key, val)) == Setting(key, Items([val]))
  {
    assert Body(NameFlag(key)) == key;
    assert FirstEquals(key) == |key| by {
      assert forall i :: 0 <= i < |key| ==> key[i] in key;
    }
    var s := key + "=" + val;
    assert Body(ValueFlag(key, val)) == s;
    var n := FirstEquals(s);
    assert s[|key|] == '=';
    assert n <= |key| by { assert forall i :: 0 <= i < n ==> s[i] in s[..n]; }
    assert n == |key| by { assert forall i :: 0 <= i < |key| ==> s[i] in key; }
    assert s[..n] == key && s[n + 1..] == val;
  }

  /** What the flags of a key say, read back. */
  function Settings(key: string, s: Slice): seq<Setting> {
    match s
    case Nil => []
    case Items(vals) =>
      if vals == [] then [Setting(key, Nil)] else ValueSettings(key, vals)
  }

  function ValueSettings(key: string, vals: seq<string>): seq<Setting> {
    seq(|vals|, i requires 0 <= i < |vals| => Setting(key, Items([vals[i]])))
  }

  lemma ReadFlags(key: string, s: Slice)
    requires '=' !in key
    ensures AllRead(Flags(key, s)) == Settings(key, s)
  {
    if s.Items? {
      FlagSplits(key, "");
      if s.vals != [] {
        ReadValueFlags(key, s.vals);
      }
    }
  }

  lemma ReadValueFlags(key: string, vals: seq<string>)
    requires '=' !in key
    ensures AllRead(ValueFlags(key, vals)) == ValueSettings(key, vals)
  {
    forall i | 0 <= i < |vals| ensures Read(ValueFlag(key, vals[i])) == Setting(key, Items([vals[i]])) {
      FlagSplits(key, vals[i]);
    }
  }

  lemma GatheredSnoc(front: seq<Setting>, last: Setting)
    ensures Gathered(front + [last]) == Absorbed(Gathered(front), last)
  {}

  /** `m` with the values of a key that has at least one. */
  function With(m: map<string, seq<string>>, key: string, vals: seq<string>): map<string, seq<string>> {
    if vals == [] then m else m[key := vals]
  }

  lemma ValueSettingsSnoc(front: seq<Setting>, key: string, vals: seq<string>)
    requires vals != []
    ensures front + ValueSettings(key, vals) ==
            front + ValueSettings(key, vals[..|vals| - 1]) + [Setting(key, Items([vals[|vals| - 1]]))]
  {}

  /** One more value of `key` on top of what has been gathered. */
  lemma GatheredOneMore(before: seq<Setting>, m: map<string, seq<string>>, key: string, vals: seq<string>, val: string)
    requires key !in m && Gathered(before) == With(m, key, vals)
    ensures Gathered(before + [Setting(key, Items([val]))]) == With(m, key, vals + [val])
  {}

  lemma {:induction false} GatheredValues(front: seq<Setting>, key: string, vals: seq<string>)
    requires key !in Gathered(front)
    ensures Gathered(front + ValueSettings(key, vals)) == With(Gathered(front), key, vals)
  {
    if vals == [] {
      NoSettings(front, key);
    } else {
      var init, last := vals[..|vals| - 1], vals[|vals| - 1];
      GatheredValues(front, key, init);
      GatheredOneMore(front + ValueSettings(key, init), Gathered(front), key, init, last);
      ValueSettingsSnoc(front, key, vals);
      LastApart(vals);
    }
  }

  lemma LastApart(vals: seq<string>)
    requires vals != []
    ensures vals[..|vals| - 1] + [vals[|vals| - 1]] == vals
  {}

  lemma NoSettings(front: seq<Setting>, key: string)
    ensures front + ValueSettings(key, []) == front
  {}

  lemma GatheredSettings(front: seq<Setting>, key: string, s: Slice)
    requires key !in Gathered(front)
    ensures Gathered(front + Settings(key, s)) == if s.Nil? then Gathered(front) else Gathered(front)[key := s.vals]
  {
    if s.Nil? {
      assert front + Settings(key, s) == front;
    } else if s.vals == [] {
      GatheredSnoc(front, Setting(key, Nil));
    } else {
      GatheredValues(front, key, s.vals);
    }
  }

  /** Flags of one more key. */
  lemma ParsedOneMoreKey(flags: seq<string>, key: string, s: Slice)
    requires key !in Parsed(flags) && (s.Items? ==> '=' !in key)
    ensures Parsed(flags + Flags(key, s)) == if s.Nil? then Parsed(flags) else Parsed(flags)[key := s.vals]
  {
    AllReadConcat(flags, Flags(key, s));
    if s.Items? { ReadFlags(key, s); } else { assert AllRead([]) == []; }
    GatheredSettings(AllRead(flags), key, s);
  }

  lemma AllReadConcat(a: seq<string>, b: seq<string>)
    ensures AllRead(a + b) == AllRead(a) + AllRead(b)
  {}

  /** The rendered ones among `keys`, with their values. */
  function ChosenOf(values: Values, defaults: Defaults, keys: seq<string>): map<string, seq<string>> {
    map k | k in keys && Chosen(values, defaults, k).Items? :: Chosen(values, defaults, k).vals
  }

  lemma ChosenOfSnoc(values: Values, defaults: Defaults, front: seq<string>, last: string)
    ensures ChosenOf(values, defaults, front + [last]) ==
            if Chosen(values, defaults, last).Items? then ChosenOf(values, defaults, front)[last := Chosen(values, defaults, last).vals]
            else ChosenOf(values, defaults, front)
  {}

  lemma {:induction false} ParsedRendered(values: Values, defaults: Defaults, keys: seq<string>)
    requires Ascending(keys) && forall k :: k in ChosenOf(values, defaults, keys) ==> '=' !in k
    ensures Parsed(Rendered(values, defaults, keys)) == ChosenOf(values, defaults, keys)
  {
    if keys != [] {
      var front, last := keys[..|keys| - 1], keys[|keys| - 1];
      var chosen, flags := Chosen(values, defaults, last), Rendered(values, defaults, front);
      assert keys == front + [last];
      ChosenOfSnoc(values, defaults, front, last);
      ParsedRendered(values, defaults, front);
      LessIsIrreflexive(last);
      assert last !in ChosenOf(values, defaults, front);
      ParsedOneMoreKey(flags, last, chosen);
    }
  }

  /** Keys up to some point come before or are the same as those from there on. */
  ghost predicate InKeyOrder(flags: seq<string>) {
    forall i, j :: 0 <= i < j < |flags| ==> Read(flags[i]).key == Read(flags[j]).key || Less(Read(flags[i]).key, Read(flags[j]).key)
  }

  lemma FlagsHaveKey(key: string, s: Slice)
    requires s.Items? ==> '=' !in key
    ensures forall i :: 0 <= i < |Flags(key, s)| ==> Read(Flags(key, s)[i]).key == key
  {
    if s.Items? {
      ReadFlags(key, s);
      forall i | 0 <= i < |Flags(key, s)| ensures Read(Flags(key, s)[i]).key == key {
        assert AllRead(Flags(key, s))[i] == Settings(key, s)[i];
      }
    }
  }

  /** Flags come in the order of their keys, those of one key together. */
  lemma {:induction false} RenderedInKeyOrder(values: Values, defaults: Defaults, keys: seq<string>)
    requires Ascending(keys) && forall k :: k in ChosenOf(values, defaults, keys) ==> '=' !in k
    ensures InKeyOrder(Rendered(values, defaults, keys))
    ensures forall i :: 0 <= i < |Rendered(values, defaults, keys)| ==> Read(Rendered(values, defaults, keys)[i]).key in keys
  {
    if keys != [] {
      var front, last := keys[..|keys| - 1], keys[|keys| - 1];
      var before, flags := Rendered(values, defaults, front), Flags(last, Chosen(values, defaults, last));
      assert keys == front + [last];
      ChosenOfSnoc(values, defaults, front, last);
      RenderedInKeyOrder(values, defaults, front);
      assert Chosen(values, defaults, last).Items? ==> last in ChosenOf(values, defaults, keys);
      FlagsHaveKey(last, Chosen(values, defaults, last));
      OrderedAppend(before, flags, front, last);
    }
  }

  lemma OrderedAppend(before: seq<string>, flags: seq<string>, front: seq<string>, last: string)
    requires InKeyOrder(before) && Ascending(front + [last])
    requires forall i :: 0 <= i < |before| ==> Read(before[i]).key in front
    requires forall i :: 0 <= i < |flags| ==> Read(flags[i]).key == last
    ensures InKeyOrder(before + flags)
    ensures forall i :: 0 <= i < |before + flags| ==> Read((before + flags)[i]).key in front + [last]
  {
    forall k | k in front ensures Less(k, last) {
      var i :| 0 <= i < |front| && front[i] == k;
      assert (front + [last])[i] == k && (front + [last])[|front|] == last;
    }
  }

  /** A rendering without `=` in its keys is in key order. */
  lemma RenderingInKeyOrder(values: Values, defaults: Defaults, r: seq<string>)
    requires Rendering(values, defaults, r) && forall k :: k in Intended(values, defaults) ==> '=' !in k
    ensures InKeyOrder(r)
  {
    var keys :| Ascending(keys) && (forall k :: k in keys <==> k in defaults || k in values) && r == Rendered(values, defaults, keys);
    IntendedIsChosen(values, defaults, keys);
    RenderedInKeyOrder(values, defaults, keys);
  }

  lemma {:induction false} GatheredKeys(settings: seq<Setting>)
    ensures forall k :: k in Gathered(settings) ==> exists i :: 0 <= i < |settings| && settings[i].key == k
  {
    if settings != [] { GatheredKeys(settings[..|settings| - 1]); }
  }

  lemma IntendedIsChosen(values: Values, defaults: Defaults, keys: seq<string>)
    requires forall k :: k in keys <==> k in defaults || k in values
    ensures Intended(values, defaults) == ChosenOf(values, defaults, keys)
  {}

  /** Reading a rendering back at the first `=` of each flag recovers the intended keys and values iff no
      rendered key contains an `=`. */
  lemma RoundTrip(values: Values, defaults: Defaults, r: seq<string>)
    requires Rendering(values, defaults, r)
    ensures Parsed(r) == Intended(values, defaults) <==> forall k :: k in Intended(values, defaults) ==> '=' !in k
  {
    var keys :| Ascending(keys) && (forall k :: k in keys <==> k in defaults || k in values) && r == Rendered(values, defaults, keys);
    IntendedIsChosen(values, defaults, keys);
    if forall k :: k in Intended(values, defaults) ==> '=' !in k {
      ParsedRendered(values, defaults, keys);
    } else {
      GatheredKeys(AllRead(r));
    }
  }

  // ----- the arguments object -----

  class Arguments {
    var values: Values

    constructor ()
      ensures values == map[]
    {
      values := map[];
    }

    /** Collects the keys from both maps, each walked in an arbitrary order. */
    method KeysInOrder(defaults: Defaults) returns (keysInOrder: seq<string>)
      ensures Ascending(keysInOrder) && forall k :: k in keysInOrder <==> k in defaults || k in values
    {
      keysInOrder := [];
      var todo := defaults.Keys;
      while todo != {}
        invariant todo <= defaults.Keys
        invariant forall i, j :: 0 <= i < j < |keysInOrder| ==> keysInOrder[i] != keysInOrder[j]
        invariant forall k :: k in keysInOrder <==> k in defaults && k !in todo && k !in values
        decreases todo
      {
        var key :| key in todo;
        todo := todo - {key};
        if key in values {
          continue;
        }
        keysInOrder := keysInOrder + [key];
      }
      todo := values.Keys;
      while todo != {}
        invariant todo <= values.Keys
        invariant forall i, j :: 0 <= i < j < |keysInOrder| ==> keysInOrder[i] != keysInOrder[j]
        invariant forall k :: k in keysInOrder <==> (k in defaults && k !in values) || (k in values && k !in todo)
        decreases todo
      {
        var key :| key in todo;
        todo := todo - {key};
        keysInOrder := keysInOrder + [key];
      }
      SortedIsAscending(keysInOrder);
      keysInOrder := Sorted(keysInOrder);
    }

    method RenderKey(key: string, vals: Slice) returns (res: seq<string>)
      ensures res == Flags(key, vals)
    {
      if vals.Nil? {
        return [];
      }
      if |vals.vals| == 0 {
        return ["--" + key];
      }
      res := [];
      for j := 0 to |vals.vals|
        invariant res == ValueFlags(key, vals.vals[..j])
      {
        res := res + ["--" + key + "=" + vals.vals[j]];
      }
      assert vals.vals[..|vals.vals|] == vals.vals;
    }

    method AsStrings(defaults: Defaults) returns (res: seq<string>)
      ensures Rendering(values, defaults, res)
    {
      var keysInOrder := KeysInOrder(defaults);
      res := [];
      for i := 0 to |keysInOrder|
        invariant res == Rendered(values, defaults, keysInOrder[..i])
      {
        var key := keysInOrder[i];
        assert keysInOrder[..i + 1][..i] == keysInOrder[..i];
        var flags := RenderKey(key, ArgOf(values, key).Get(if key in defaults then defaults[key] else Nil));
        res := res + flags;
      }
      assert keysInOrder[..|keysInOrder|] == keysInOrder;
    }

    method Enable(key: string)
      modifies this
      ensures values == old(values)[key := Done(ArgBefore(old(values), key), Enables).value]
    {
      values := values[key := PassAsName];
    }

    method Disable(key: string)
      modifies this
      ensures values == old(values)[key := Done(ArgBefore(old(values), key), Disables).value]
    {
      values := values[key := DontPass];
    }

    method Set(key: string, vals: Slice)
      modifies this
      ensures values == old(values)[key := Done(ArgBefore(old(values), key), Sets(vals)).value]
    {
      values := values[key := User(vals)];
    }

    method Append(key: string, vals: Slice)
      modifies this
      ensures values == old(values)[key := Done(ArgBefore(old(values), key), Appends(vals)).value]
    {
      var arg := Defaulted(Items([]));
      if key in values {
        arg := values[key];
      }
      values := values[key := arg.Append(vals)];
    }

    method AppendNoDefaults(key: string, vals: Slice)
      modifies this
      ensures values == old(values)[key := Done(ArgBefore(old(values), key), AppendsNoDefaults(vals)).value]
    {
      var arg := User(Items([]));
      if key in values {
        arg := values[key];
      }
      values := values[key := arg.Append(vals)];
    }
  }

  // ----- what a history of calls amounts to -----

  datatype Maybe = Unset | Is(value: Arg)

  datatype Call = Sets(vals: Slice) | Enables | Disables | Appends(vals: Slice) | AppendsNoDefaults(vals: Slice)

  function ArgBefore(values: Values, key: string): Maybe { if key in values then Is(values[key]) else Unset }

  /** One call's effect on its key. */
  function Done(before: Maybe, call: Call): (after: Maybe)
    ensures after.Is?
  {
    match call
    case Sets(vals) => Is(User(vals))
    case Enables => Is(PassAsName)
    case Disables => Is(DontPass)
    case Appends(vals) => Is((if before.Is? then before.value else Defaulted(Items([]))).Append(vals))
    case AppendsNoDefaults(vals) => Is((if before.Is? then before.value else User(Items([]))).Append(vals))
  }

  function AllDone(before: Maybe, calls: seq<Call>): Maybe {
    if calls == [] then before else Done(AllDone(before, calls[..|calls| - 1]), calls[|calls| - 1])
  }

  predicate IsAppend(call: Call) { call.Appends? || call.AppendsNoDefaults? }

  /** The values a call is given. */
  function Given(call: Call): Slice
    requires !call.Enables? && !call.Disables?
  {
    call.vals
  }

  ghost predicate AllAppends(calls: seq<Call>) {
    forall i :: 0 <= i < |calls| ==> IsAppend(calls[i])
  }

  /** All appended values, in order. */
  function Appended(calls: seq<Call>): seq<string>
    requires AllAppends(calls)
  {
    if calls == [] then [] else Appended(calls[..|calls| - 1]) + Given(calls[|calls| - 1]).Vals()
  }

  /** What a history of appends starts from. */
  function Base(start: Maybe, first: Call): Arg {
    match start
    case Is(arg) => arg
    case Unset => if first.Appends? then Defaulted(Items([])) else User(Items([]))
  }

  /** Several appends as one: absent if the first is given an absent slice and no values follow. */
  function Joined(calls: seq<Call>): Slice
    requires calls != [] && AllAppends(calls)
  {
    if Given(calls[0]).Nil? && Appended(calls) == [] then Nil else Items(Appended(calls))
  }

  lemma AppendTwice(arg: Arg, a: Slice, b: Slice)
    ensures arg.Append(a).Append(b) == arg.Append(a.Append(b))
  {
    assert forall s: Slice :: s.Append(a).Append(b) == s.Append(a.Append(b)) by {
      forall s: Slice ensures s.Append(a).Append(b) == s.Append(a.Append(b)) {
        assert s.Vals() + (a.Vals() + b.Vals()) == s.Vals() + a.Vals() + b.Vals();
      }
    }
  }

  lemma JoinedSnoc(front: seq<Call>, last: Call)
    requires AllAppends(front) && IsAppend(last)
    ensures Appended(front + [last]) == Appended(front) + Given(last).Vals()
    ensures Joined(front + [last]) == if front == [] then Given(last) else Joined(front).Append(Given(last))
  {
    assert (front + [last])[..|front|] == front;
  }

  /** Appending, with or without defaults, only ever adds to what the key started from: its defaults if it was
      unset and the first append asks for them, the set values after a set, nothing after a disable; an enabled
      key stays name-only. Any number of appends are one append of all their values. */
  lemma {:induction false} AppendsAccumulate(start: Maybe, calls: seq<Call>)
    requires calls != [] && AllAppends(calls)
    ensures AllDone(start, calls) == Is(Base(start, calls[0]).Append(Joined(calls)))
  {
    var front, last := calls[..|calls| - 1], calls[|calls| - 1];
    assert calls == front + [last];
    JoinedSnoc(front, last);
    if front != [] {
      AppendsAccumulate(start, front);
      AppendTwice(Base(start, calls[0]), Joined(front), Given(last));
    }
  }

  /** A set, an enable or a disable forgets everything before it. */
  lemma {:induction false} ResetsForget(before: seq<Call>, reset: Call, after: seq<Call>)
    requires !IsAppend(reset)
    ensures AllDone(Unset, before + [reset] + after) == AllDone(Done(Unset, reset), after)
  {
    if after == [] {
      assert before + [reset] + after == before + [reset];
      assert (before + [reset])[..|before|] == before;
    } else {
      var calls := before + [reset] + after;
      assert calls[..|calls| - 1] == before + [reset] + after[..|after| - 1];
      ResetsForget(before, reset, after[..|after| - 1]);
    }
  }

  // ----- what every history renders -----

  /** What is rendered for a key with this history behind it. */
  function Shown(arg: Maybe, defaults: Slice): Slice {
    (if arg.Is? then arg.value else Defaulted(Nil)).Get(defaults)
  }

  /** The last set, enable or disable of a history that has one is at `n - 1`; only appends follow. */
  ghost predicate SplitAt(calls: seq<Call>, n: nat) {
    n <= |calls| && (n > 0 ==> !IsAppend(calls[n - 1])) && AllAppends(calls[n..])
  }

  lemma {:induction false} SplitExists(calls: seq<Call>) returns (n: nat)
    ensures SplitAt(calls, n)
  {
    if calls == [] || !IsAppend(calls[|calls| - 1]) {
      n := |calls|;
    } else {
      n := SplitExists(calls[..|calls| - 1]);
      assert calls[n..] == calls[..|calls| - 1][n..] + [calls[|calls| - 1]];
    }
  }

  /** The key is passed even if it has no values: it was set to a slice that is there, or the first append to a
      disabled key was given one, or an unset key was first appended to without its defaults. */
  ghost predicate NamedWithoutValues(calls: seq<Call>, n: nat)
    requires SplitAt(calls, n)
  {
    if n > 0 && calls[n - 1].Sets? then calls[n - 1].vals.Items?
    else n < |calls| && (if n == 0 then calls[n].AppendsNoDefaults? else Given(calls[n]).Items?)
  }

  /** The values a key starts from: those it was last set to, or its defaults if it was never set, enabled or
      disabled and the first append, if any, asks for them. */
  function FirstValues(calls: seq<Call>, n: nat, defaults: Slice): seq<string>
    requires n <= |calls|
  {
    if n == 0 then if calls == [] || calls[0].Appends? then defaults.Vals() else []
    else if calls[n - 1].Sets? then calls[n - 1].vals.Vals() else []
  }

  /** An enabled key is passed by name; otherwise the values it starts from and all values appended since are
      passed, in order; and if there are none it depends on how it came to that whether the key is passed by
      name or left out. */
  ghost function Decided(calls: seq<Call>, n: nat, defaults: Slice): Slice
    requires SplitAt(calls, n)
  {
    var vals := FirstValues(calls, n, defaults) + Appended(calls[n..]);
    if n > 0 && calls[n - 1].Enables? then Items([])
    else if vals != [] || NamedWithoutValues(calls, n) then Items(vals)
    else Nil
  }

  lemma UnsetThenAppends(calls: seq<Call>, defaults: Slice)
    requires AllAppends(calls)
    ensures var vals := (if calls == [] || calls[0].Appends? then defaults.Vals() else []) + Appended(calls);
            var named := calls != [] && calls[0].AppendsNoDefaults?;
            Shown(AllDone(Unset, calls), defaults) == if vals != [] || named then Items(vals) else Nil
  {
    if calls == [] {
      assert defaults.Vals() + [] == defaults.Vals();
    } else {
      AppendsAccumulate(Unset, calls);
      ShownAfter(Base(Unset, calls[0]), Joined(calls), defaults);
      assert [] + Appended(calls) == Appended(calls);
    }
  }

  lemma ResetThenAppends(reset: Call, after: seq<Call>, defaults: Slice)
    requires !IsAppend(reset) && AllAppends(after)
    ensures var vals := (if reset.Sets? then reset.vals.Vals() else []) + Appended(after);
            var named := if reset.Sets? then reset.vals.Items? else after != [] && Given(after[0]).Items?;
            Shown(AllDone(Done(Unset, reset), after), defaults) ==
            if reset.Enables? then Items([]) else if vals != [] || named then Items(vals) else Nil
  {
    var start := Done(Unset, reset);
    if after == [] {
      assert reset.Sets? ==> reset.vals.Vals() + [] == reset.vals.Vals();
    } else {
      AppendsAccumulate(start, after);
      ShownAfter(start.value, Joined(after), defaults);
      assert [] + Appended(after) == Appended(after);
    }
  }

  /** Every history of a key renders what its last reset and the appends since decide. */
  lemma HistoryDecides(calls: seq<Call>, n: nat, defaults: Slice)
    requires SplitAt(calls, n)
    ensures Shown(AllDone(Unset, calls), defaults) == Decided(calls, n, defaults)
  {
    if n == 0 {
      assert calls[0..] == calls;
      UnsetThenAppends(calls, defaults);
    } else {
      assert calls == calls[..n - 1] + [calls[n - 1]] + calls[n..];
      ResetsForget(calls[..n - 1], calls[n - 1], calls[n..]);
      ResetThenAppends(calls[n - 1], calls[n..], defaults);
    }
  }

  lemma ShownAfter(base: Arg, more: Slice, defaults: Slice)
    ensures base.PassAsName? ==> base.Append(more).Get(defaults) == Items([])
    ensures base.DontPass? ==> base.Append(more).Get(defaults) == more && base.Get(defaults) == Nil
    ensures base.User? ==>
              var vals := base.slice.Vals() + more.Vals();
              base.Append(more).Get(defaults) == if vals == [] && base.slice.Nil? then Nil else Items(vals)
    ensures base.Defaulted? && base.slice.Vals() == [] ==>
              var vals := defaults.Vals() + more.Vals();
              base.Append(more).Get(defaults) == if vals == [] then Nil else Items(vals)
  {}

  // ----- histories of the whole object -----

  /** A call and the key it is for. */
  datatype KeyedCall = KeyedCall(key: string, call: Call)

  function ValuesAfter(calls: seq<KeyedCall>): Values {
    if calls == [] then map[]
    else
      var before, last := ValuesAfter(calls[..|calls| - 1]), calls[|calls| - 1];
      before[last.key := Done(ArgBefore(before, last.key), last.call).value]
  }

  function CallsFor(calls: seq<KeyedCall>, key: string): seq<Call> {
    if calls == [] then []
    else
      var before, last := CallsFor(calls[..|calls| - 1], key), calls[|calls| - 1];
      if last.key == key then before + [last.call] else before
  }

  /** What is rendered for a key depends on the calls for that key alone, whatever calls for others come between. */
  lemma {:induction false} KeysAreIndependent(calls: seq<KeyedCall>, key: string, defaults: Defaults)
    ensures ArgBefore(ValuesAfter(calls), key) == AllDone(Unset, CallsFor(calls, key))
    ensures Chosen(ValuesAfter(calls), defaults, key) ==
            Shown(AllDone(Unset, CallsFor(calls, key)), if key in defaults then defaults[key] else Nil)
  {
    if calls != [] {
      var front, last := calls[..|calls| - 1], calls[|calls| - 1];
      KeysAreIndependent(front, key, defaults);
      if last.key == key {
        assert (CallsFor(front, key) + [last.call])[..|CallsFor(front, key)|] == CallsFor(front, key);
      }
    }
  }

  /** So after any calls on the object, each key renders what its own last reset and the appends since decide. */
  lemma HistoryIsRendered(calls: seq<KeyedCall>, key: string, defaults: Defaults) returns (n: nat)
    ensures SplitAt(CallsFor(calls, key), n)
    ensures Chosen(ValuesAfter(calls), defaults, key) ==
            Decided(CallsFor(calls, key), n, if key in defaults then defaults[key] else Nil)
  {
    KeysAreIndependent(calls, key, defaults);
    n := SplitExists(CallsFor(calls, key));
    HistoryDecides(CallsFor(calls, key), n, if key in defaults then defaults[key] else Nil);
  }
}
