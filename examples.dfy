/**
 * Examples and their grouping: an example is a list of evidence pairs
 * (atom, value); examples are grouped by the atoms of their sorted pairs, and
 * each group keeps the value tuples of its examples, aligned with those atoms.
 */
module Examples {
  import opened Wrappers

  /** An evidence pair: an atom and its observed value, both as printed text. */
  type Pair = (string, string)

  type Example = seq<Pair>

  /** Python's `<=` on strings: lexicographic by code point. */
  predicate StrLe(a: string, b: string)
    decreases |a|
  {
    a == [] || (b != [] && (a[0] < b[0] || (a[0] == b[0] && StrLe(a[1..], b[1..]))))
  }

  lemma {:induction false} StrLeTotal(a: string, b: string)
    ensures StrLe(a, b) || StrLe(b, a)
    decreases |a|
  {
    if a != [] && b != [] && a[0] == b[0] {
      StrLeTotal(a[1..], b[1..]);
    }
  }

  /** Python's `<=` on pairs: by atom first, then by value. */
  predicate PairLe(p: Pair, q: Pair) {
    (p.0 != q.0 && StrLe(p.0, q.0)) || (p.0 == q.0 && StrLe(p.1, q.1))
  }

  lemma PairLeTotal(p: Pair, q: Pair)
    ensures PairLe(p, q) || PairLe(q, p)
  {
    StrLeTotal(p.0, q.0);
    StrLeTotal(p.1, q.1);
  }

  predicate Sorted(s: seq<Pair>) {
    forall i :: 0 < i < |s| ==> PairLe(s[i - 1], s[i])
  }

  /** One step of the insertion sort: `x` goes before the first pair it does not exceed. */
  function Insert(x: Pair, s: seq<Pair>): (r: seq<Pair>)
    ensures |r| == |s| + 1
    ensures r[0] == x || (s != [] && r[0] == s[0])
  {
    if s == [] || PairLe(x, s[0]) then [x] + s
    else [s[0]] + Insert(x, s[1..])
  }

  /** Inserting adds `x` and keeps every other pair. */
  lemma {:induction false} InsertKeeps(x: Pair, s: seq<Pair>)
    ensures multiset(Insert(x, s)) == multiset(s) + multiset{x}
  {
    if s != [] && !PairLe(x, s[0]) {
      InsertKeeps(x, s[1..]);
      assert s == [s[0]] + s[1..];
    }
  }

  /** Inserting into a sorted sequence keeps it sorted. */
  lemma {:induction false} InsertSorted(x: Pair, s: seq<Pair>)
    requires Sorted(s)
    ensures Sorted(Insert(x, s))
  {
    if s != [] && !PairLe(x, s[0]) {
      PairLeTotal(x, s[0]);
      InsertSorted(x, s[1..]);
      var r := Insert(x, s[1..]);
      assert Insert(x, s) == [s[0]] + r;
      assert s[1..] != [] ==> PairLe(s[0], s[1]);
    }
  }

  /** `sorted(example)`: a sorted permutation of the pairs. */
  function SortPairs(e: seq<Pair>): (r: seq<Pair>)
    ensures |r| == |e|
  {
    if e == [] then [] else Insert(e[0], SortPairs(e[1..]))
  }

  /** The sort is a sorted permutation of its input. */
  lemma {:induction false} SortPairsSpec(e: seq<Pair>)
    ensures multiset(SortPairs(e)) == multiset(e)
    ensures Sorted(SortPairs(e))
  {
    if e != [] {
      SortPairsSpec(e[1..]);
      InsertKeeps(e[0], SortPairs(e[1..]));
      InsertSorted(e[0], SortPairs(e[1..]));
      assert e == [e[0]] + e[1..];
    }
  }

  /** The atoms of the sorted pairs: the grouping key (`atoms` of `zip(*sorted(example))`). */
  function Key(e: Example): seq<string> {
    var s := SortPairs(e);
    seq(|s|, i requires 0 <= i < |s| => s[i].0)
  }

  /** The values of the sorted pairs (`values` of `zip(*sorted(example))`). */
  function Values(e: Example): seq<string> {
    var s := SortPairs(e);
    seq(|s|, i requires 0 <= i < |s| => s[i].1)
  }

  /** The value tuple is aligned with the key: together they list the example's pairs, sorted. */
  lemma KeyAligned(e: Example)
    ensures |Key(e)| == |Values(e)| == |e|
    ensures forall i :: 0 <= i < |e| ==> (Key(e)[i], Values(e)[i]) == SortPairs(e)[i]
    ensures multiset(SortPairs(e)) == multiset(e) && Sorted(SortPairs(e))
  {
    SortPairsSpec(e);
  }

  /** One group: a key and the value tuples of the examples with that key, in order. */
  datatype Group = Group(atoms: seq<string>, instances: seq<seq<string>>)

  /** `result[key].append(values)` on an insertion-ordered dictionary of lists. */
  function AddInstance(groups: seq<Group>, key: seq<string>, values: seq<string>): (r: seq<Group>)
    ensures |groups| <= |r| <= |groups| + 1
    ensures Size(r) == Size(groups) + 1
    decreases |groups|
  {
    if groups == [] then [Group(key, [values])]
    else if groups[0].atoms == key then [groups[0].(instances := groups[0].instances + [values])] + groups[1..]
    else [groups[0]] + AddInstance(groups[1..], key, values)
  }

  /** `_process_examples`; an empty example fails, because `zip()` of nothing cannot be unpacked. */
  function Grouped(examples: seq<Example>): (r: Result<seq<Group>, PyError>)
    ensures r.Err? ==> r.error == ValueError
    ensures r.Ok? ==> Size(r.value) == |examples|
    decreases |examples|
  {
    if examples == [] then Ok([])
    else match Grouped(examples[..|examples| - 1])
      case Err(e) => Err(e)
      case Ok(groups) =>
        var e := examples[|examples| - 1];
        if e == [] then Err(ValueError) else Ok(AddInstance(groups, Key(e), Values(e)))
  }

  predicate DistinctKeys(groups: seq<Group>) {
    forall i, j :: 0 <= i < j < |groups| ==> groups[i].atoms != groups[j].atoms
  }

  /** The value tuples filed under `key`. */
  function InstancesOf(groups: seq<Group>, key: seq<string>): seq<seq<string>>
    decreases |groups|
  {
    if groups == [] then []
    else (if groups[0].atoms == key then groups[0].instances else []) + InstancesOf(groups[1..], key)
  }

  /** The number of value tuples over all groups. */
  function Size(groups: seq<Group>): nat
    decreases |groups|
  {
    if groups == [] then 0 else |groups[0].instances| + Size(groups[1..])
  }

  /** The value tuples of the examples whose key is `key`, in example order. */
  function ValuesWithKey(examples: seq<Example>, key: seq<string>): seq<seq<string>>
    decreases |examples|
  {
    if examples == [] then []
    else
      var e := examples[|examples| - 1];
      ValuesWithKey(examples[..|examples| - 1], key) + (if Key(e) == key then [Values(e)] else [])
  }

  /** Filing keeps the keys distinct, adds one tuple, and creates at most the group of `key`. */
  lemma {:induction false} AddInstanceFiles(groups: seq<Group>, key: seq<string>, values: seq<string>)
    requires DistinctKeys(groups)
    ensures DistinctKeys(AddInstance(groups, key, values))
    ensures Size(AddInstance(groups, key, values)) == Size(groups) + 1
    ensures forall k :: InstancesOf(AddInstance(groups, key, values), k)
                        == InstancesOf(groups, k) + (if k == key then [values] else [])
    ensures forall g :: g in AddInstance(groups, key, values) ==> g in groups || g.atoms == key
    decreases |groups|
  {
    AddInstanceFilesUnder(groups, key, values);
    var r := AddInstance(groups, key, values);
    if groups == [] {
      assert r[1..] == [];
    } else if groups[0].atoms == key {
      assert r[1..] == groups[1..];
    } else {
      AddInstanceFiles(groups[1..], key, values);
      assert r[1..] == AddInstance(groups[1..], key, values);
      forall i, j | 0 <= i < j < |r| ensures r[i].atoms != r[j].atoms {
        if i == 0 {
          assert r[j] in r[1..];
        }
      }
    }
  }

  /** Filing adds the tuple to the instances of `key` and of no other key. */
  lemma {:induction false} AddInstanceFilesUnder(groups: seq<Group>, key: seq<string>, values: seq<string>)
    requires DistinctKeys(groups)
    ensures forall k :: InstancesOf(AddInstance(groups, key, values), k)
                        == InstancesOf(groups, k) + (if k == key then [values] else [])
    decreases |groups|
  {
    var r := AddInstance(groups, key, values);
    if groups == [] {
      assert r[1..] == [];
    } else if groups[0].atoms == key {
      assert r[1..] == groups[1..];
      forall k ensures InstancesOf(r, k) == InstancesOf(groups, k) + (if k == key then [values] else []) {
        if k == key {
          NoOtherInstances(groups[1..], key);
        }
      }
    } else {
      assert DistinctKeys(groups[1..]) by {
        assert forall i :: 0 <= i < |groups| - 1 ==> groups[1..][i] == groups[i + 1];
      }
      AddInstanceFilesUnder(groups[1..], key, values);
      assert r[1..] == AddInstance(groups[1..], key, values);
      forall k ensures InstancesOf(r, k) == InstancesOf(groups, k) + (if k == key then [values] else []) {
        var own := if groups[0].atoms == k then groups[0].instances else [];
        assert InstancesOf(r, k) == own + InstancesOf(r[1..], k);
        assert InstancesOf(groups, k) == own + InstancesOf(groups[1..], k);
      }
    }
  }

  /** Under distinct keys, a key held by the first group has nothing in the others. */
  lemma {:induction false} NoOtherInstances(groups: seq<Group>, key: seq<string>)
    requires forall g :: g in groups ==> g.atoms != key
    ensures InstancesOf(groups, key) == []
    decreases |groups|
  {
    if groups != [] {
      NoOtherInstances(groups[1..], key);
    }
  }

  /** Grouping fails exactly when some example is empty. */
  lemma {:induction false} GroupedFails(examples: seq<Example>)
    ensures Grouped(examples).Err? <==> exists i :: 0 <= i < |examples| && examples[i] == []
    decreases |examples|
  {
    if examples != [] {
      var init := examples[..|examples| - 1];
      GroupedFails(init);
      if exists i :: 0 <= i < |init| && init[i] == [] {
        var i :| 0 <= i < |init| && init[i] == [];
        assert examples[i] == [];
      }
    }
  }

  /**
   * Grouping is a partition of the examples: every example's value tuple is
   * filed, in order, under its own key and nowhere else, in groups with
   * distinct keys whose sizes add up to the number of examples.
   */
  lemma {:induction false} GroupedPartition(examples: seq<Example>)
    requires Grouped(examples).Ok?
    ensures var groups := Grouped(examples).value;
      && DistinctKeys(groups)
      && Size(groups) == |examples|
      && (forall k :: InstancesOf(groups, k) == ValuesWithKey(examples, k))
      && (forall g :: g in groups ==> g.instances != [])
    decreases |examples|
  {
    if examples != [] {
      var init := examples[..|examples| - 1];
      var e := examples[|examples| - 1];
      GroupedPartition(init);
      var groups := Grouped(init).value;
      AddInstanceFiles(groups, Key(e), Values(e));
      AddInstanceNonEmpty(groups, Key(e), Values(e));
      var r := AddInstance(groups, Key(e), Values(e));
      assert Grouped(examples).value == r;
      forall k ensures InstancesOf(r, k) == ValuesWithKey(examples, k) {
        assert ValuesWithKey(examples, k) == ValuesWithKey(init, k) + (if Key(e) == k then [Values(e)] else []);
      }
    }
  }

  lemma {:induction false} AddInstanceNonEmpty(groups: seq<Group>, key: seq<string>, values: seq<string>)
    requires forall g :: g in groups ==> g.instances != []
    ensures forall g :: g in AddInstance(groups, key, values) ==> g.instances != []
    decreases |groups|
  {
    if groups != [] && groups[0].atoms != key {
      AddInstanceNonEmpty(groups[1..], key, values);
    }
  }

  /** What one compiled example is built from: its atoms and one value tuple. */
  datatype Instance = Instance(atoms: seq<string>, values: seq<string>)

  /** The order `_compile_examples` visits the instances: group by group, each group's tuples in order. */
  function Instances(groups: seq<Group>): (r: seq<Instance>)
    ensures |r| == Size(groups)
    decreases |groups|
  {
    if groups == [] then []
    else
      var g := groups[0];
      seq(|g.instances|, i requires 0 <= i < |g.instances| => Instance(g.atoms, g.instances[i])) + Instances(groups[1..])
  }

  /** Grouping stops at the first empty example. */
  lemma {:induction false} GroupedStopsAtError(examples: seq<Example>, m: nat)
    requires m <= |examples| && Grouped(examples[..m]).Err?
    ensures Grouped(examples) == Grouped(examples[..m])
    decreases |examples|
  {
    if m < |examples| {
      var n := |examples| - 1;
      assert examples[..n][..m] == examples[..m];
      GroupedStopsAtError(examples[..n], m);
    } else {
      assert examples[..m] == examples;
    }
  }

  lemma {:induction false} InstancesSnoc(groups: seq<Group>, g: Group)
    ensures Instances(groups + [g]) == Instances(groups) + Instances([g])
    decreases |groups|
  {
    if groups != [] {
      assert (groups + [g])[1..] == groups[1..] + [g];
      InstancesSnoc(groups[1..], g);
    } else {
      assert groups + [g] == [g];
    }
  }
}
