/** Spreading workspaces across shards in test environments. */
module Spread {

  datatype Location = Unset | On(shard: string)

  /** The option's counter and what it does to a workspace. The counter does not wrap around here. */
  class Spreader {
    const shardNames: seq<string>
    var counter: nat

    constructor (shardNames: seq<string>)
      requires shardNames != []
      ensures this.shardNames == shardNames && counter == 0
    {
      this.shardNames := shardNames;
      counter := 0;
    }

    method Place(location: Location) returns (placed: Location)
      requires shardNames != []
      modifies this
      ensures (placed, counter) == Placed(shardNames, location, old(counter))
    {
      if location != Unset {
        return location;
      }
      counter := counter + 1;
      var idx := counter - 1;
      placed := On(shardNames[idx % |shardNames|]);
    }
  }

  function Placed(shardNames: seq<string>, location: Location, counter: nat): (Location, nat)
    requires shardNames != []
  {
    if location != Unset then (location, counter) else (On(shardNames[counter % |shardNames|]), counter + 1)
  }

  /** The positions in the shard list given to the workspaces that had no location, in order. */
  function Chosen(workspaces: seq<Location>, k: nat): seq<nat>
    requires k > 0
  {
    if workspaces == [] then []
    else
      var before := Chosen(workspaces[..|workspaces| - 1], k);
      if workspaces[|workspaces| - 1] == Unset then before + [|before| % k] else before
  }

  function CountOf(chosen: seq<nat>, i: nat): nat {
    if chosen == [] then 0 else CountOf(chosen[..|chosen| - 1], i) + if chosen[|chosen| - 1] == i then 1 else 0
  }

  /** Placing workspaces one after the other. */
  function AllPlaced(shardNames: seq<string>, workspaces: seq<Location>): (seq<Location>, nat)
    requires shardNames != []
  {
    if workspaces == [] then ([], 0)
    else
      var (front, counter) := AllPlaced(shardNames, workspaces[..|workspaces| - 1]);
      var (last, counter') := Placed(shardNames, workspaces[|workspaces| - 1], counter);
      (front + [last], counter')
  }

  /** Located workspaces stay where they are; the others go round the shards in the order they come. */
  lemma {:induction false} PlacedInTurn(shardNames: seq<string>, workspaces: seq<Location>)
    requires shardNames != []
    ensures var (placed, counter), chosen := AllPlaced(shardNames, workspaces), Chosen(workspaces, |shardNames|);
            && |placed| == |workspaces| && counter == |chosen|
            && (forall j :: 0 <= j < |workspaces| && workspaces[j] != Unset ==> placed[j] == workspaces[j])
            && (forall j :: 0 <= j < |workspaces| && workspaces[j] == Unset ==>
                  var turn := |Chosen(workspaces[..j], |shardNames|)|;
                  placed[j] == On(shardNames[turn % |shardNames|]))
  {
    if workspaces != [] {
      var front := workspaces[..|workspaces| - 1];
      PlacedInTurn(shardNames, front);
      forall j | 0 <= j < |workspaces| ensures j < |front| ==> workspaces[..j] == front[..j] {}
    }
  }

  lemma PositiveMultiple(d: int, k: int)
    requires d >= 1 && k > 0
    ensures d * k >= k
  {}

  lemma DivModUnique(n: nat, k: nat, q: nat, r: nat)
    requires k > 0 && r < k && n == q * k + r
    ensures n / k == q && n % k == r
  {
    var q', r' := n / k, n % k;
    assert n == q' * k + r';
    assert (q - q') * k == q * k - q' * k;
    assert (q' - q) * k == q' * k - q * k;
    if q > q' { PositiveMultiple(q - q', k); }
    if q < q' { PositiveMultiple(q' - q, k); }
  }

  /** With `q` full rounds and `r` more dealt out, each of the first `r` positions has one more than the rest. */
  ghost predicate Dealt(chosen: seq<nat>, k: nat, q: nat, r: nat) {
    && r < k && |chosen| == q * k + r
    && forall i {:trigger CountOf(chosen, i)} :: 0 <= i < k ==> CountOf(chosen, i) == if i < r then q + 1 else q
  }

  lemma DealOne(chosen: seq<nat>, k: nat, q: nat, r: nat) returns (q': nat, r': nat)
    requires Dealt(chosen, k, q, r)
    ensures |chosen| % k == r
    ensures Dealt(chosen + [r], k, q', r')
  {
    DivModUnique(|chosen|, k, q, r);
    assert (chosen + [r])[..|chosen|] == chosen;
    assert (q + 1) * k == q * k + k;
    q', r' := if r + 1 == k then q + 1 else q, if r + 1 == k then 0 else r + 1;
    forall i | 0 <= i < k ensures CountOf(chosen + [r], i) == if i < r' then q' + 1 else q' {
      assert CountOf(chosen, i) == if i < r then q + 1 else q;
    }
  }

  lemma {:induction false} Rounds(workspaces: seq<Location>, k: nat) returns (q: nat, r: nat)
    requires k > 0
    ensures Dealt(Chosen(workspaces, k), k, q, r)
  {
    if workspaces == [] {
      q, r := 0, 0;
    } else {
      q, r := Rounds(workspaces[..|workspaces| - 1], k);
      if workspaces[|workspaces| - 1] == Unset {
        q, r := DealOne(Chosen(workspaces[..|workspaces| - 1], k), k, q, r);
      }
    }
  }

  /** After n workspaces without a location, among any number of located ones, position `i` of `k` has received
      n/k of them, and one more if it is among the first n mod k; so loads never differ by more than one. */
  lemma LoadsAreEven(workspaces: seq<Location>, k: nat, i: nat, j: nat)
    requires i < k && j < k
    ensures var chosen := Chosen(workspaces, k); var n := |chosen|;
            && CountOf(chosen, i) == n / k + (if i < n % k then 1 else 0)
            && CountOf(chosen, j) == n / k + (if j < n % k then 1 else 0)
            && -1 <= CountOf(chosen, i) - CountOf(chosen, j) <= 1
  {
    var q, r := Rounds(workspaces, k);
    DivModUnique(|Chosen(workspaces, k)|, k, q, r);
  }

  /** The workspaces without a location that were placed on `shard`. */
  function Received(workspaces: seq<Location>, placed: seq<Location>, shard: string): set<nat> {
    set j: nat | j < |workspaces| && j < |placed| && workspaces[j] == Unset && placed[j] == On(shard)
  }

  lemma ReceivedSnoc(front: seq<Location>, w: Location, before: seq<Location>, p: Location, shard: string)
    requires |before| == |front|
    ensures Received(front + [w], before + [p], shard) ==
            Received(front, before, shard) + if w == Unset && p == On(shard) then {|front|} else {}
    ensures |Received(front + [w], before + [p], shard)| ==
            |Received(front, before, shard)| + if w == Unset && p == On(shard) then 1 else 0
  {}

  lemma CountSnoc(chosen: seq<nat>, turn: nat, i: nat)
    ensures CountOf(chosen + [turn], i) == CountOf(chosen, i) + if turn == i then 1 else 0
  {
    assert (chosen + [turn])[..|chosen|] == chosen;
  }

  lemma {:induction false} ReceivedAreDealt(shardNames: seq<string>, workspaces: seq<Location>, i: nat)
    requires i < |shardNames| && forall a, b :: 0 <= a < b < |shardNames| ==> shardNames[a] != shardNames[b]
    ensures |Received(workspaces, AllPlaced(shardNames, workspaces).0, shardNames[i])| ==
            CountOf(Chosen(workspaces, |shardNames|), i)
  {
    if workspaces != [] {
      var front, w := workspaces[..|workspaces| - 1], workspaces[|workspaces| - 1];
      ReceivedAreDealt(shardNames, front, i);
      PlacedInTurn(shardNames, front);
      var (before, counter) := AllPlaced(shardNames, front);
      var p, turn := Placed(shardNames, w, counter).0, counter % |shardNames|;
      assert workspaces == front + [w] && AllPlaced(shardNames, workspaces).0 == before + [p];
      ReceivedSnoc(front, w, before, p, shardNames[i]);
      CountSnoc(Chosen(front, |shardNames|), turn, i);
    }
  }

  /** So of n workspaces without a location, shard `i` of `k` is given n/k, and one more if it is among the first
      n mod k; the located ones do not matter. */
  lemma ShardsReceiveEvenly(shardNames: seq<string>, workspaces: seq<Location>, i: nat)
    requires i < |shardNames| && forall a, b :: 0 <= a < b < |shardNames| ==> shardNames[a] != shardNames[b]
    ensures var n, k := |set j: nat | j < |workspaces| && workspaces[j] == Unset|, |shardNames|;
            |Received(workspaces, AllPlaced(shardNames, workspaces).0, shardNames[i])| == n / k + if i < n % k then 1 else 0
  {
    ReceivedAreDealt(shardNames, workspaces, i);
    LoadsAreEven(workspaces, |shardNames|, i, i);
    ChosenLength(workspaces, |shardNames|);
  }

  lemma {:induction false} ChosenLength(workspaces: seq<Location>, k: nat)
    requires k > 0
    ensures |Chosen(workspaces, k)| == |set j: nat | j < |workspaces| && workspaces[j] == Unset|
  {
    if workspaces != [] {
      var front, last := workspaces[..|workspaces| - 1], |workspaces| - 1;
      ChosenLength(front, k);
      assert (set j: nat | j < |workspaces| && workspaces[j] == Unset) ==
          (set j: nat | j < |front| && front[j] == Unset) + if workspaces[last] == Unset then {last} else {};
    }
  }
}
