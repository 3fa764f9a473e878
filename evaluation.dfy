/**
 * What one learning round computes from the inference engine's answers:
 * the evidence handed to the engine, the clamped posteriors it reports, the
 * slot each reported query belongs to, the averaged new weights and the
 * round's score.
 */
module Evaluation {
  import opened Wrappers
  import Text
  import Decimal
  import Rewriting
  import opened Examples

  /** `str2bool`: the text `true`, the text `false`, or neither (`None`). */
  function Str2Bool(s: string): (r: Option<bool>)
    ensures r == Some(true) <==> s == "true"
    ensures r == Some(false) <==> s == "false"
    ensures r == None <==> s != "true" && s != "false"
  {
    if s == "true" then Some(true) else if s == "false" then Some(false) else None
  }

  /** The number of pairs `zip` produces: it stops at the shorter sequence. */
  function ZipLength(atoms: seq<string>, values: seq<string>): nat {
    if |atoms| < |values| then |atoms| else |values|
  }

  /** `dict(zip(atoms, map(str2bool, values)))`: a later pair overrides an earlier one for the same atom. */
  function Evidence(atoms: seq<string>, values: seq<string>): (m: map<string, Option<bool>>)
    ensures m.Keys == set i | 0 <= i < ZipLength(atoms, values) :: atoms[i]
    decreases ZipLength(atoms, values)
  {
    var n := ZipLength(atoms, values);
    if n == 0 then map[]
    else
      var front := atoms[..n - 1];
      var prev := Evidence(front, values[..n - 1]);
      assert (set i | 0 <= i < n :: atoms[i]) == (set i | 0 <= i < n - 1 :: front[i]) + {atoms[n - 1]} by {
        forall i | 0 <= i < n ensures atoms[i] in (set i | 0 <= i < n - 1 :: front[i]) + {atoms[n - 1]} {
          if i < n - 1 { assert front[i] == atoms[i]; }
        }
      }
      prev[atoms[n - 1] := Str2Bool(values[n - 1])]
  }

  /** An atom not repeated later in the example gets the decoded value at its position. */
  lemma {:induction false} EvidenceAt(atoms: seq<string>, values: seq<string>, i: nat)
    requires i < ZipLength(atoms, values)
    requires forall j :: i < j < ZipLength(atoms, values) ==> atoms[j] != atoms[i]
    ensures Evidence(atoms, values)[atoms[i]] == Str2Bool(values[i])
    decreases ZipLength(atoms, values)
  {
    var n := ZipLength(atoms, values);
    if i < n - 1 {
      EvidenceAt(atoms[..n - 1], values[..n - 1], i);
    }
  }

  /** The numeric floor below which a posterior is reported as exactly zero. */
  const Floor: real := 0.000001

  /** The clamp of `_evaluate_examples`: `0.0` below the floor, the value itself otherwise. */
  function Clamp(w: real): (r: real)
    ensures r == 0.0 || r >= Floor
    ensures r == w || (w < Floor && r == 0.0)
  {
    if w < Floor then 0.0 else w
  }

  /** A dictionary as its item list in insertion order. */
  type Dict = seq<(string, real)>

  /** The set of names a dictionary holds. */
  function Names(d: Dict): set<string>
    decreases |d|
  {
    if d == [] then {} else {d[0].0} + Names(d[1..])
  }

  /** No name occurs twice, as in a Python dictionary. */
  predicate DistinctNames(d: Dict)
    decreases |d|
  {
    d == [] || (d[0].0 !in Names(d[1..]) && DistinctNames(d[1..]))
  }

  lemma {:induction false} NamesAppend(a: Dict, b: Dict)
    ensures Names(a + b) == Names(a) + Names(b)
    decreases |a|
  {
    if a != [] {
      assert (a + b)[1..] == a[1..] + b;
      NamesAppend(a[1..], b);
    } else {
      assert a + b == b;
    }
  }

  /** `d[k] = v`: overwrite in place when `k` is present, append otherwise. */
  function Put(d: Dict, k: string, v: real): (r: Dict)
    ensures (k, v) in r
    ensures |d| <= |r| <= |d| + 1
    decreases |d|
  {
    if d == [] then [(k, v)]
    else if d[0].0 == k then [(k, v)] + d[1..]
    else [d[0]] + Put(d[1..], k, v)
  }

  lemma {:induction false} PutSpec(d: Dict, k: string, v: real)
    requires DistinctNames(d)
    ensures DistinctNames(Put(d, k, v))
    ensures Names(Put(d, k, v)) == Names(d) + {k}
    ensures forall p :: p in Put(d, k, v) ==> p == (k, v) || p in d
    decreases |d|
  {
    var r := Put(d, k, v);
    if d == [] {
      assert r[1..] == [];
    } else if d[0].0 == k {
      assert r[1..] == d[1..];
    } else {
      PutSpec(d[1..], k, v);
      assert r[1..] == Put(d[1..], k, v);
      assert d == [d[0]] + d[1..];
    }
  }

  /** The reported posteriors of one example: each query's raw value, clamped, under its name. */
  function ClampAll(raw: Dict): (d: Dict)
    ensures DistinctNames(d)
    ensures Names(d) == Names(raw)
    ensures forall p :: p in d ==> p.1 == 0.0 || p.1 >= Floor
    decreases |raw|
  {
    if raw == [] then []
    else
      var n := |raw| - 1;
      var prev := ClampAll(raw[..n]);
      PutSpec(prev, raw[n].0, Clamp(raw[n].1));
      assert raw == raw[..n] + [raw[n]];
      NamesAppend(raw[..n], [raw[n]]);
      assert Names([raw[n]]) == {raw[n].0} by { assert [raw[n]][1..] == []; }
      Put(prev, raw[n].0, Clamp(raw[n].1))
  }

  /** `d.get(k)`: the value stored under `k`. */
  function Lookup(d: Dict, k: string): Option<real>
    decreases |d|
  {
    if d == [] then None else if d[0].0 == k then Some(d[0].1) else Lookup(d[1..], k)
  }

  /** The value the last pair named `k` carries. */
  function LastValue(raw: Dict, k: string): Option<real>
    decreases |raw|
  {
    if raw == [] then None
    else if raw[|raw| - 1].0 == k then Some(raw[|raw| - 1].1)
    else LastValue(raw[..|raw| - 1], k)
  }

  lemma {:induction false} LookupPut(d: Dict, k: string, v: real, q: string)
    ensures Lookup(Put(d, k, v), q) == if q == k then Some(v) else Lookup(d, q)
    decreases |d|
  {
    if d != [] && d[0].0 != k {
      LookupPut(d[1..], k, v, q);
      assert Put(d, k, v)[1..] == Put(d[1..], k, v);
    } else if d != [] {
      assert Put(d, k, v)[1..] == d[1..];
    }
  }

  /** Each query's reported posterior is the clamp of the last raw value the engine gave for it. */
  lemma {:induction false} ClampAllLookup(raw: Dict, q: string)
    ensures Lookup(ClampAll(raw), q) ==
      match LastValue(raw, q)
      case None => None
      case Some(w) => Some(Clamp(w))
    decreases |raw|
  {
    if raw != [] {
      var n := |raw| - 1;
      ClampAllLookup(raw[..n], q);
      LookupPut(ClampAll(raw[..n]), raw[n].0, Clamp(raw[n].1), q);
    }
  }

  /** `int(name.split('(')[0].rsplit('_', 1)[1])`: the slot index written in a query's name. */
  function SlotOf(name: string): (r: Result<int, PyError>)
    ensures r.Err? ==> r.error == IndexError || r.error == ValueError
  {
    var functor := Text.Split(name, '(')[0];
    match Text.AfterLast(functor, '_')
    case Err(e) => Err(e)
    case Ok(digits) =>
      match Decimal.ParseInt(digits)
      case None => Err(ValueError)
      case Some(i) => Ok(i)
  }

  /** Python list indexing: a negative index counts from the end. */
  function PyIndex(length: nat, i: int): (r: Option<nat>)
    ensures r.Some? <==> 0 - length <= i < length
    ensures r.Some? ==> r.value < length && (r.value == i || r.value == length + i)
  {
    if 0 <= i < length then Some(i) else if 0 - length <= i < 0 then Some(length + i) else None
  }

  /** Parsing the name of slot `i`'s query recovers `i`. */
  lemma SlotOfFactName(i: nat, suffix: string)
    requires suffix == [] || suffix[0] == '('
    ensures SlotOf(Rewriting.FactFunctor(i) + suffix) == Ok(i)
  {
    var digits := Decimal.NatToString(i);
    var functor := Rewriting.FactFunctor(i);
    assert '(' !in functor by {
      assert forall k :: 0 <= k < |digits| ==> Decimal.IsDigit(digits[k]);
    }
    if suffix == [] {
      Text.SplitNoSep(functor, '(');
      assert functor + suffix == functor;
    } else {
      Text.SplitAfterPiece(functor, '(', suffix[1..]);
      assert functor + suffix == functor + ['('] + suffix[1..];
    }
    assert '_' !in digits by {
      assert forall k :: 0 <= k < |digits| ==> Decimal.IsDigit(digits[k]);
    }
    Text.AfterLastPiece("lfi_fact", '_', digits);
    assert functor == "lfi_fact" + ['_'] + digits;
    Decimal.ParseIntToString(i);
  }

  // ---------------------------------------------------------------------------
  // The update of `_update`

  /** The engine's answer for one compiled example: evidence probability and raw posteriors by query name. */
  datatype EngineResult = EngineResult(pEvidence: real, posteriors: Dict)

  /** One entry of the evaluation results: evidence probability and the clamped posteriors. */
  datatype ExampleResult = ExampleResult(pEvidence: real, pQueries: Dict)

  /**
   * The inference engine: for a compiled example, the evidence dictionary and
   * the current weights it reads through the parameter lookup, its answer.
   */
  type Engine = (Instance, map<string, Option<bool>>, seq<real>) -> EngineResult

  /** One example evaluated under `weights`. */
  function EvaluateOne(engine: Engine, x: Instance, weights: seq<real>): (r: ExampleResult)
    ensures r.pEvidence == engine(x, Evidence(x.atoms, x.values), weights).pEvidence
    ensures Names(r.pQueries) == Names(engine(x, Evidence(x.atoms, x.values), weights).posteriors)
  {
    var ev := engine(x, Evidence(x.atoms, x.values), weights);
    ExampleResult(ev.pEvidence, ClampAll(ev.posteriors))
  }

  /** `_evaluate_examples`: every compiled example evaluated in order under the same weights. */
  function EvaluateAll(engine: Engine, xs: seq<Instance>, weights: seq<real>): (r: seq<ExampleResult>)
    ensures |r| == |xs|
    decreases |xs|
  {
    if xs == [] then [] else EvaluateAll(engine, xs[..|xs| - 1], weights) + [EvaluateOne(engine, xs[|xs| - 1], weights)]
  }

  /** The `i`-th result is the evaluation of the `i`-th compiled example. */
  lemma {:induction false} EvaluateAllAt(engine: Engine, xs: seq<Instance>, weights: seq<real>)
    ensures forall i :: 0 <= i < |xs| ==> EvaluateAll(engine, xs, weights)[i] == EvaluateOne(engine, xs[i], weights)
    decreases |xs|
  {
    if xs != [] {
      EvaluateAllAt(engine, xs[..|xs| - 1], weights);
    }
  }

  /** The slot a reported query updates: its parsed index, wrapped as Python indexing does. */
  function Resolve(name: string, count: nat): (r: Result<nat, PyError>)
    ensures r.Ok? ==> r.value < count
  {
    match SlotOf(name)
    case Err(e) => Err(e)
    case Ok(i) =>
      match PyIndex(count, i)
      case None => Err(IndexError)
      case Some(k) => Ok(k)
  }

  /** The posterior of slot `i`'s query `lfi_fact_<i>(...)` is filed under slot `i`. */
  lemma ResolveFactName(i: nat, suffix: string, count: nat)
    requires i < count
    requires suffix == [] || suffix[0] == '('
    ensures Resolve(Rewriting.FactFunctor(i) + suffix, count) == Ok(i)
  {
    SlotOfFactName(i, suffix);
  }

  /** All reported posteriors of a round, example by example. */
  function Items(results: seq<ExampleResult>): Dict
    decreases |results|
  {
    if results == [] then [] else Items(results[..|results| - 1]) + results[|results| - 1].pQueries
  }

  /** The slot (or the error) each reported posterior's name resolves to. */
  function Resolved(items: Dict, slot: SlotFn): (slots: seq<Result<nat, PyError>>)
    ensures |slots| == |items|
    decreases |items|
  {
    if items == [] then []
    else Resolved(items[..|items| - 1], slot) + [slot(items[|items| - 1].0)]
  }

  /** The `i`-th resolved entry is the slot (or error) of the `i`-th name. */
  lemma {:induction false} ResolvedAt(items: Dict, slot: SlotFn)
    ensures forall i :: 0 <= i < |items| ==> Resolved(items, slot)[i] == slot(items[i].0)
    decreases |items|
  {
    if items != [] {
      ResolvedAt(items[..|items| - 1], slot);
    }
  }

  /** Every reported name resolves to a slot. */
  predicate AllResolve(items: Dict, slot: SlotFn) {
    FirstError(Resolved(items, slot)).None?
  }

  /** Every evidence probability is positive, so its logarithm is defined. */
  predicate PositiveEvidence(results: seq<ExampleResult>) {
    forall i :: 0 <= i < |results| ==> results[i].pEvidence > 0.0
  }

  /** How the name of a reported posterior is mapped to a weight slot. */
  type SlotFn = string -> Result<nat, PyError>

  /** The slot function `_update` uses for `count` weights. */
  function Resolver(count: nat): (slot: SlotFn)
    ensures forall name :: slot(name).Ok? ==> slot(name).value < count
  {
    name => Resolve(name, count)
  }

  /**
   * `fact_marg` after filing `items` with `slot`: per slot below `count`, the
   * sum of the posteriors whose name is mapped to it. (`Resolve` never yields
   * a slot at or above `count`; other slot functions' such slots are skipped.)
   */
  function Sums(items: Dict, slot: SlotFn, count: nat): (r: seq<real>)
    ensures |r| == count
    decreases |items|
  {
    if items == [] then seq(count, _ => 0.0)
    else
      var n := |items| - 1;
      var prev := Sums(items[..n], slot, count);
      match slot(items[n].0)
      case Ok(k) => if k < count then prev[k := prev[k] + items[n].1] else prev
      case Err(_) => prev
  }

  /** `fact_count` after filing `items` with `slot`: per slot, how many posteriors are mapped to it. */
  function Counts(items: Dict, slot: SlotFn, count: nat): (r: seq<nat>)
    ensures |r| == count
    decreases |items|
  {
    if items == [] then seq(count, _ => 0)
    else
      var n := |items| - 1;
      var prev := Counts(items[..n], slot, count);
      match slot(items[n].0)
      case Ok(k) => if k < count then prev[k := prev[k] + 1] else prev
      case Err(_) => prev
  }

  /** The new weights: the mean reported posterior of each slot that received one, the old weight otherwise. */
  function Updated(weights: seq<real>, items: Dict): (w: seq<real>)
    ensures |w| == |weights|
  {
    var sums := Sums(items, Resolver(|weights|), |weights|);
    var counts := Counts(items, Resolver(|weights|), |weights|);
    seq(|weights|, k requires 0 <= k < |weights| =>
      if counts[k] > 0 then sums[k] / (counts[k] as real) else weights[k])
  }

  /** The first error among resolved slots, in order. */
  function FirstError(slots: seq<Result<nat, PyError>>): (r: Option<PyError>)
    ensures r.Some? ==> Err(r.value) in slots
    decreases |slots|
  {
    if slots == [] then None
    else
      var n := |slots| - 1;
      var prev := FirstError(slots[..n]);
      if prev.Some? then prev else if slots[n].Err? then Some(slots[n].error) else None
  }

  /** There is no first error exactly when every name resolves. */
  lemma {:induction false} NoFirstError(slots: seq<Result<nat, PyError>>)
    ensures FirstError(slots).None? <==> forall i :: 0 <= i < |slots| ==> slots[i].Ok?
    decreases |slots|
  {
    if slots != [] {
      var n := |slots| - 1;
      NoFirstError(slots[..n]);
      assert forall i :: 0 <= i < n ==> slots[..n][i] == slots[i];
    }
  }

  /**
   * The accumulation loop of `_update`: the first failure in program order
   * (a name that does not resolve to a slot, or the logarithm of an evidence
   * probability that is not positive), or else the score.
   */
  function Tally(results: seq<ExampleResult>, slot: SlotFn, ln: real -> real): (r: Result<real, PyError>)
    ensures r.Ok? ==> PositiveEvidence(results)
    decreases |results|
  {
    if results == [] then Ok(0.0)
    else
      var n := |results| - 1;
      match Tally(results[..n], slot, ln)
      case Err(e) => Err(e)
      case Ok(score) =>
        match FirstError(Resolved(results[n].pQueries, slot))
        case Some(e) => Err(e)
        case None =>
          if results[n].pEvidence <= 0.0 then Err(ValueError) else Ok(score + ln(results[n].pEvidence))
  }

  /** The score: the sum of `ln` of each example's evidence probability. */
  function Score(results: seq<ExampleResult>, ln: real -> real): real
    decreases |results|
  {
    if results == [] then 0.0 else Score(results[..|results| - 1], ln) + ln(results[|results| - 1].pEvidence)
  }

  predicate InUnit(x: real) {
    0.0 <= x <= 1.0
  }

  /** Posteriors that are probabilities add up, per slot, to at most their number. */
  lemma {:induction false} SumsBounded(items: Dict, slot: SlotFn, count: nat)
    requires forall i :: 0 <= i < |items| ==> InUnit(items[i].1)
    ensures forall k :: 0 <= k < count ==> 0.0 <= Sums(items, slot, count)[k] <= Counts(items, slot, count)[k] as real
    decreases |items|
  {
    if items != [] {
      SumsBounded(items[..|items| - 1], slot, count);
    }
  }

  /**
   * An update keeps every weight a probability: when the old weights and the
   * reported posteriors lie in [0, 1], so do the new weights.
   */
  lemma UpdatedInUnit(weights: seq<real>, items: Dict)
    requires forall k :: 0 <= k < |weights| ==> InUnit(weights[k])
    requires forall i :: 0 <= i < |items| ==> InUnit(items[i].1)
    ensures forall k :: 0 <= k < |weights| ==> InUnit(Updated(weights, items)[k])
  {
    SumsBounded(items, Resolver(|weights|), |weights|);
    var sums := Sums(items, Resolver(|weights|), |weights|);
    var counts := Counts(items, Resolver(|weights|), |weights|);
    forall k | 0 <= k < |weights| ensures InUnit(Updated(weights, items)[k]) {
      if counts[k] > 0 {
        assert sums[k] / (counts[k] as real) <= 1.0;
      }
    }
  }

  /** When every posterior filed under slot `k` equals `v`, their sum is their number times `v`. */
  lemma {:induction false} SumsUniform(items: Dict, slot: SlotFn, count: nat, k: nat, v: real)
    requires k < count
    requires forall i :: 0 <= i < |items| && slot(items[i].0) == Ok(k) ==> items[i].1 == v
    ensures Sums(items, slot, count)[k] == (Counts(items, slot, count)[k] as real) * v
    decreases |items|
  {
    if items != [] {
      var n := |items| - 1;
      assert forall i :: 0 <= i < n ==> items[..n][i] == items[i];
      SumsUniform(items[..n], slot, count, k, v);
      var sum, cnt := Sums(items[..n], slot, count)[k], Counts(items[..n], slot, count)[k];
      if slot(items[n].0) == Ok(k) {
        assert Sums(items, slot, count)[k] == sum + v;
        assert Counts(items, slot, count)[k] == cnt + 1;
        assert (cnt as real + 1.0) * v == cnt as real * v + v;
      } else {
        assert Sums(items, slot, count)[k] == sum;
        assert Counts(items, slot, count)[k] == cnt;
      }
    }
  }

  /** When every posterior filed under slot `k` equals `v`, so does their mean. */
  lemma MeanUniform(items: Dict, slot: SlotFn, count: nat, k: nat, v: real)
    requires k < count && Counts(items, slot, count)[k] > 0
    requires forall i :: 0 <= i < |items| && slot(items[i].0) == Ok(k) ==> items[i].1 == v
    ensures Sums(items, slot, count)[k] / (Counts(items, slot, count)[k] as real) == v
  {
    SumsUniform(items, slot, count, k, v);
    QuotientOfMultiple(Sums(items, slot, count)[k], Counts(items, slot, count)[k] as real, v);
  }

  /** A slot that received no posterior keeps its weight, and one whose posteriors all equal `v` takes `v`. */
  lemma UpdatedUniform(weights: seq<real>, items: Dict, k: nat, v: real)
    requires k < |weights|
    requires forall i :: 0 <= i < |items| && Resolve(items[i].0, |weights|) == Ok(k) ==> items[i].1 == v
    ensures Counts(items, Resolver(|weights|), |weights|)[k] == 0 ==> Updated(weights, items)[k] == weights[k]
    ensures Counts(items, Resolver(|weights|), |weights|)[k] > 0 ==> Updated(weights, items)[k] == v
  {
    if Counts(items, Resolver(|weights|), |weights|)[k] > 0 {
      MeanUniform(items, Resolver(|weights|), |weights|, k, v);
    }
  }

  lemma QuotientOfMultiple(s: real, c: real, v: real)
    requires c > 0.0 && s == c * v
    ensures s / c == v
  {
  }

  lemma {:induction false} ResolvedAppend(a: Dict, b: Dict, slot: SlotFn)
    ensures Resolved(a + b, slot) == Resolved(a, slot) + Resolved(b, slot)
    decreases |b|
  {
    if b == [] {
      assert a + b == a;
    } else {
      var n := |b| - 1;
      ResolvedAppend(a, b[..n], slot);
      assert (a + b)[..|a + b| - 1] == a + b[..n];
    }
  }

  lemma FirstErrorAppend(a: seq<Result<nat, PyError>>, b: seq<Result<nat, PyError>>)
    ensures FirstError(a + b).None? <==> FirstError(a).None? && FirstError(b).None?
  {
    NoFirstError(a);
    NoFirstError(b);
    NoFirstError(a + b);
    if FirstError(a).None? && FirstError(b).None? {
      forall i | 0 <= i < |a + b| ensures (a + b)[i].Ok? {
        if i >= |a| { assert (a + b)[i] == b[i - |a|]; }
      }
    }
    if FirstError(a + b).None? {
      assert forall i :: 0 <= i < |a| ==> (a + b)[i] == a[i];
      assert forall j :: 0 <= j < |b| ==> (a + b)[|a| + j] == b[j];
    }
  }

  /**
   * `_update` succeeds exactly when every reported name resolves to a slot and
   * every evidence probability is positive, and then returns the score.
   */
  lemma {:induction false} TallySucceeds(results: seq<ExampleResult>, slot: SlotFn, ln: real -> real)
    ensures Tally(results, slot, ln).Ok? <==> AllResolve(Items(results), slot) && PositiveEvidence(results)
    ensures Tally(results, slot, ln).Ok? ==> Tally(results, slot, ln).value == Score(results, ln)
    decreases |results|
  {
    if results != [] {
      var n := |results| - 1;
      var front := results[..n];
      TallySucceeds(front, slot, ln);
      var items := results[n].pQueries;
      assert Items(results) == Items(front) + items;
      ResolvedAppend(Items(front), items, slot);
      FirstErrorAppend(Resolved(Items(front), slot), Resolved(items, slot));
      assert AllResolve(Items(results), slot) <==> AllResolve(Items(front), slot) && AllResolve(items, slot);
      PositiveEvidenceSnoc(results);
    }
  }

  lemma PositiveEvidenceSnoc(results: seq<ExampleResult>)
    requires results != []
    ensures PositiveEvidence(results) <==>
      PositiveEvidence(results[..|results| - 1]) && results[|results| - 1].pEvidence > 0.0
  {
    var front := results[..|results| - 1];
    assert forall i :: 0 <= i < |front| ==> front[i] == results[i];
  }

  lemma ResolvedSnoc(items: Dict, x: (string, real), slot: SlotFn)
    ensures Resolved(items + [x], slot) == Resolved(items, slot) + [slot(x.0)]
  {
    assert (items + [x])[..|items|] == items;
  }

  lemma {:induction false} ResolvedPrefix(items: Dict, m: nat, slot: SlotFn)
    requires m <= |items|
    ensures Resolved(items[..m], slot) == Resolved(items, slot)[..m]
    decreases |items|
  {
    if m < |items| {
      var n := |items| - 1;
      assert items[..n][..m] == items[..m];
      ResolvedPrefix(items[..n], m, slot);
    } else {
      assert items[..m] == items;
    }
  }

  lemma {:induction false} FirstErrorStops(slots: seq<Result<nat, PyError>>, m: nat)
    requires m <= |slots| && FirstError(slots[..m]).Some?
    ensures FirstError(slots) == FirstError(slots[..m])
    decreases |slots|
  {
    if m < |slots| {
      var n := |slots| - 1;
      assert slots[..n][..m] == slots[..m];
      FirstErrorStops(slots[..n], m);
    } else {
      assert slots[..m] == slots;
    }
  }

  lemma {:induction false} TallyStops(results: seq<ExampleResult>, m: nat, slot: SlotFn, ln: real -> real)
    requires m <= |results| && Tally(results[..m], slot, ln).Err?
    ensures Tally(results, slot, ln) == Tally(results[..m], slot, ln)
    decreases |results|
  {
    if m < |results| {
      var n := |results| - 1;
      assert results[..n][..m] == results[..m];
      TallyStops(results[..n], m, slot, ln);
    } else {
      assert results[..m] == results;
    }
  }

  lemma FirstErrorSnoc(a: seq<Result<nat, PyError>>, x: Result<nat, PyError>)
    ensures FirstError(a + [x]) == if FirstError(a).Some? then FirstError(a) else if x.Err? then Some(x.error) else None
  {
    assert (a + [x])[..|a|] == a;
  }

  /** Resolving the `j`-th name either fails, and that is the first error of all the names, or extends the good prefix. */
  lemma ResolveStep(items: Dict, j: nat, slot: SlotFn)
    requires j < |items| && FirstError(Resolved(items[..j], slot)).None?
    ensures slot(items[j].0).Err? ==> FirstError(Resolved(items, slot)) == Some(slot(items[j].0).error)
    ensures slot(items[j].0).Ok? ==> FirstError(Resolved(items[..j + 1], slot)).None?
  {
    assert items[..j + 1] == items[..j] + [items[j]];
    ResolvedSnoc(items[..j], items[j], slot);
    FirstErrorSnoc(Resolved(items[..j], slot), slot(items[j].0));
    if slot(items[j].0).Err? {
      ResolvedPrefix(items, j + 1, slot);
      FirstErrorStops(Resolved(items, slot), j + 1);
    }
  }
  /** Filing one more posterior adds it to the sum and count of its own slot and of no other. */
  lemma FileOne(items: Dict, x: (string, real), slot: SlotFn, count: nat, k: nat)
    requires slot(x.0) == Ok(k) && k < count
    ensures Sums(items + [x], slot, count) == Sums(items, slot, count)[k := Sums(items, slot, count)[k] + x.1]
    ensures Counts(items + [x], slot, count) == Counts(items, slot, count)[k := Counts(items, slot, count)[k] + 1]
  {
    assert (items + [x])[..|items|] == items;
  }
}
