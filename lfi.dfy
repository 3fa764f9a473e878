/**
 * The learner object: its parameter lists, its compiled examples and its
 * iteration counter, updated in place by `prepare`, `step` and `run`.
 */
module Lfi {
  import opened Wrappers
  import opened Terms
  import Rewriting
  import opened Examples
  import opened Evaluation
  import Learning

  /** `int(x)` of a real: truncation toward zero. */
  function Truncate(x: real): (n: int)
    ensures 0.0 <= x ==> n as real <= x < n as real + 1.0
    ensures x < 0.0 ==> n as real - 1.0 < x <= n as real
  {
    if x >= 0.0 then x.Floor else 0 - (0.0 - x).Floor
  }

  /** `int(t)` of a term: integer constants as they are, float constants truncated, anything else a type error. */
  function IntOf(t: Term): (r: Result<int, PyError>)
    ensures r.Ok? <==> t.Int? || t.Float?
    ensures t.Int? ==> r == Ok(t.i)
  {
    match t
    case Int(i) => Ok(i)
    case Float(x) => Ok(Truncate(x))
    case _ => Err(TypeError)
  }

  /** `float(t)` of a term: the value of a numeric constant, a type error otherwise. */
  function FloatOf(t: Term): (r: Result<real, PyError>)
    ensures r.Ok? <==> t.Int? || t.Float?
    ensures t.Float? ==> r == Ok(t.x)
    ensures t.Int? ==> r == Ok(t.i as real)
  {
    match t
    case Int(i) => Ok(i as real)
    case Float(x) => Ok(x)
    case _ => Err(TypeError)
  }

  /** What `prepare` leaves behind: the parameter lists, the compiled examples, and the error if it failed. */
  datatype Prepared = Prepared(store: Rewriting.WeightStore, compiled: Option<seq<Instance>>, error: Option<PyError>)

  /**
   * `prepare`: one traversal of the rewritten program (which allocates the
   * slots), then the grouping of the examples and their compilation, group
   * by group.
   */
  function PrepareSpec(source: seq<Clause>, examples: seq<Example>, store: Rewriting.WeightStore,
                       compiled: Option<seq<Instance>>, draw: nat -> real): (p: Prepared)
    ensures p.error.Some? ==> p.compiled == compiled
  {
    var rw := Rewriting.Rewrite(source, store, draw);
    if rw.error.Some? then Prepared(rw.store, compiled, rw.error)
    else match Grouped(examples)
      case Err(e) => Prepared(rw.store, compiled, Some(e))
      case Ok(groups) => Prepared(rw.store, Some(Instances(groups)), None)
  }

  /** A successful `prepare` allocates one slot per learnable atom and compiles one example per input example. */
  lemma PrepareCompilesAll(source: seq<Clause>, examples: seq<Example>, store: Rewriting.WeightStore,
                           compiled: Option<seq<Instance>>, draw: nat -> real)
    requires PrepareSpec(source, examples, store, compiled, draw).error.None?
    ensures var p := PrepareSpec(source, examples, store, compiled, draw);
      && p.compiled.Some? && |p.compiled.value| == |examples|
      && p.store.Count() == store.Count() + Rewriting.Learnables(source)
  {
  }

  class LFIProblem {
    const source: seq<Clause>
    const examples: seq<Example>
    const maxIter: int
    const minImprov: real

    /** The current estimate of each slot's probability. */
    var weights: seq<real>
    /** The query `lfi_fact_i(...)` of each slot. */
    var queries: seq<Term>
    /** The original annotated atom of each slot. */
    var names: seq<Term>
    /** The compiled examples, once `prepare` has run. */
    var compiled: Option<seq<Instance>>
    var iteration: int

    /** The three parameter lists as the rewriting specification sees them. */
    function Store(): Rewriting.WeightStore
      reads this
    {
      Rewriting.WeightStore(weights, queries, names)
    }

    /** The class invariant: one weight, one query and one name per slot, each query the indirection fact of its slot. */
    predicate Valid()
      reads this
    {
      Store().WellNamed()
    }

    /** `LFIProblem(source, examples, max_iter=10000, min_improv=1e-10)`. */
    constructor(source: seq<Clause>, examples: seq<Example>, maxIter: int := 10000, minImprov: real := 0.0000000001)
      ensures this.source == source && this.examples == examples
      ensures this.maxIter == maxIter && this.minImprov == minImprov
      ensures Store() == Rewriting.EmptyStore && Valid()
      ensures compiled == None && iteration == 0
    {
      this.source := source;
      this.examples := examples;
      this.maxIter := maxIter;
      this.minImprov := minImprov;
      weights := [];
      queries := [];
      names := [];
      compiled := None;
      iteration := 0;
    }

    /** `count`: the number of parameters, one per query and per name. */
    function Count(): (n: nat)
      reads this
      requires Valid()
      ensures n == |queries| && n == |names|
      ensures n == Store().Count()
    {
      |weights|
    }

    /**
     * `value`: the semiring weight of a probability label. A reference
     * `lfi(i)` reads the current estimate of slot `i` (Python indexing, so a
     * negative `i` counts from the end); any other label is its own numeric
     * value.
     */
    function Value(a: Term): (r: Result<real, PyError>)
      reads this
      ensures a.Atom? && a.functor == "lfi" && |a.args| != 1 ==> r == Err(AssertionError)
      ensures a.Atom? && a.functor == "lfi" && r.Ok? ==> exists k :: 0 <= k < |weights| && r.value == weights[k]
      ensures a.Atom? && a.functor == "lfi" && |a.args| == 1 && a.args[0].Int? ==>
        (r.Ok? <==> 0 - |weights| <= a.args[0].i < |weights|)
      ensures !(a.Atom? && a.functor == "lfi") ==> (r.Ok? <==> a.Int? || a.Float?)
      ensures !(a.Atom? && a.functor == "lfi") && a.Float? ==> r == Ok(a.x)
      ensures !(a.Atom? && a.functor == "lfi") && a.Int? ==> r == Ok(a.i as real)
    {
      if a.Atom? && a.functor == "lfi" then
        if |a.args| != 1 then Err(AssertionError)
        else match IntOf(a.args[0])
          case Err(e) => Err(e)
          case Ok(i) =>
            match PyIndex(|weights|, i)
            case None => Err(IndexError)
            case Some(k) => Ok(weights[k])
      else FloatOf(a)
    }

    /** The label `lfi(k)` of slot `k`, and `lfi(k - count)`, both read slot `k`'s current estimate. */
    lemma ValueAtSlot(k: nat)
      requires k < |weights|
      ensures Value(Rewriting.SlotRef(k)) == Ok(weights[k])
      ensures Value(Atom("lfi", [Int(k - |weights|)], None)) == Ok(weights[k])
    {
    }

    /** `_process_atom`: rewrite one atom, allocating a slot when its probability is learnable. */
    method ProcessAtom(atom: Term, draw: real) returns (r: Result<(Term, seq<Clause>), PyError>)
      requires Valid()
      modifies this
      ensures Valid()
      ensures match Rewriting.ProcessAtom(atom, old(Store()), draw)
        case Err(e) => r == Err(e) && Store() == old(Store())
        case Ok(p) => r == Ok((p.atom, p.extra)) && Store() == p.store
      ensures r.Ok? && Rewriting.IsLearnable(atom) ==> r.value.0.Atom? && r.value.0.probability.Some?
      ensures r.Ok? && Rewriting.IsLearnable(atom) ==> Value(r.value.0.probability.value) == Ok(weights[|weights| - 1])
      ensures compiled == old(compiled) && iteration == old(iteration)
    {
      if atom.Atom? && atom.probability.Some? && atom.probability.value.Atom? && atom.probability.value.functor == "t" {
        var marker := atom.probability.value;
        if |marker.args| != 1 {
          return Err(AssertionError);
        }
        var start := marker.args[0];
        Rewriting.AppendKeepsWellNamed(Store(), Rewriting.InitialWeight(start, draw), atom.args, atom);
        var i := |weights|;
        var fact := Atom(Rewriting.FactFunctor(i), atom.args, None);
        var replacement := fact.(probability := Some(Rewriting.SlotRef(i)));
        var extra := [Rule(atom.(probability := None), fact)];
        weights := weights + [Rewriting.InitialWeight(start, draw)];
        queries := queries + [fact];
        extra := extra + [Fact(Atom("query", [fact], None))];
        names := names + [atom];
        ValueAtSlot(i);
        assert extra == Rewriting.SlotClauses(atom, fact);
        return Ok((replacement, extra));
      }
      return Ok((atom, []));
    }

    /** The heads of an annotated disjunction, rewritten one after the other. */
    method ProcessHeadList(heads: seq<Term>, draw: nat -> real) returns (h: Rewriting.Heads)
      requires Valid()
      modifies this
      ensures Valid()
      ensures h == Rewriting.ProcessHeads(heads, old(Store()), draw) && Store() == h.store
      ensures compiled == old(compiled) && iteration == old(iteration)
    {
      ghost var s0 := Store();
      var atoms: seq<Term> := [];
      var extra: seq<Clause> := [];
      for j := 0 to |heads|
        invariant Valid()
        invariant Rewriting.ProcessHeads(heads[..j], s0, draw) == Rewriting.Heads(atoms, extra, Store(), None)
        invariant compiled == old(compiled) && iteration == old(iteration)
      {
        assert heads[..j + 1][..j] == heads[..j];
        ghost var before := Store();
        var p := ProcessAtom(heads[j], draw(|weights|));
        ghost var step := Rewriting.ProcessAtom(heads[j], before, draw(before.Count()));
        if p.Err? {
          Rewriting.HeadsStopAtError(heads, j + 1, s0, draw);
          return Rewriting.Heads(atoms, extra, Store(), Some(p.error));
        }
        atoms := atoms + [p.value.0];
        extra := extra + p.value.1;
      }
      assert heads[..|heads|] == heads;
      return Rewriting.Heads(atoms, extra, Store(), None);
    }

    /** One clause of the traversal: dropped when it declares a query, otherwise rewritten with its extra clauses. */
    method ProcessClause(clause: Clause, draw: nat -> real) returns (out: seq<Clause>, error: Option<PyError>)
      requires Valid()
      modifies this
      ensures Valid()
      ensures Rewriting.Rewritten(out, Store(), error) == Rewriting.RewriteClause(clause, old(Store()), draw)
      ensures compiled == old(compiled) && iteration == old(iteration)
    {
      out := [];
      error := None;
      match clause {
        case Rule(head, body) =>
          if !IsQueryDecl(head) {
            var p := ProcessAtom(head, draw(|weights|));
            if p.Err? {
              error := Some(p.error);
            } else {
              out := [Rule(p.value.0, body)] + p.value.1;
            }
          }
        case Disjunction(heads, body) =>
          var h := ProcessHeadList(heads, draw);
          if h.error.Some? {
            error := h.error;
          } else {
            out := [Disjunction(h.atoms, body)] + h.extra;
          }
        case Fact(atom) =>
          if !IsQueryDecl(atom) {
            var p := ProcessAtom(atom, draw(|weights|));
            if p.Err? {
              error := Some(p.error);
            } else {
              out := [Fact(p.value.0)] + p.value.1;
            }
          }
      }
    }

    /**
     * `__iter__`: the rewritten program, clause by clause; a failing clause
     * ends the traversal after what was already produced.
     */
    method Iter(draw: nat -> real) returns (out: seq<Clause>, error: Option<PyError>)
      requires Valid()
      modifies this
      ensures Valid()
      ensures Rewriting.Rewritten(out, Store(), error) == Rewriting.Rewrite(source, old(Store()), draw)
      ensures compiled == old(compiled) && iteration == old(iteration)
    {
      ghost var s0 := Store();
      out := [];
      error := None;
      for n := 0 to |source|
        invariant Valid()
        invariant Rewriting.Rewrite(source[..n], s0, draw) == Rewriting.Rewritten(out, Store(), None)
        invariant compiled == old(compiled) && iteration == old(iteration)
      {
        assert source[..n + 1][..n] == source[..n];
        var more, e := ProcessClause(source[n], draw);
        out := out + more;
        if e.Some? {
          Rewriting.RewriteStopsAtError(source, n + 1, s0, draw);
          error := e;
          return;
        }
      }
      assert source[..|source|] == source;
    }

    /** `_process_examples`: the examples grouped by their sorted atoms, in order of first appearance. */
    method ProcessExamples() returns (r: Result<seq<Group>, PyError>)
      ensures r == Grouped(examples)
    {
      var groups: seq<Group> := [];
      for n := 0 to |examples|
        invariant Grouped(examples[..n]) == Ok(groups)
      {
        assert examples[..n + 1][..n] == examples[..n];
        var e := examples[n];
        if e == [] {
          GroupedStopsAtError(examples, n + 1);
          return Err(ValueError);
        }
        groups := AddInstance(groups, Key(e), Values(e));
      }
      assert examples[..|examples|] == examples;
      return Ok(groups);
    }

    /** `prepare` and `_compile_examples`: rewrite the program, group the examples and compile them in order. */
    method Prepare(draw: nat -> real) returns (error: Option<PyError>)
      requires Valid()
      modifies this
      ensures Valid()
      ensures PrepareSpec(source, examples, old(Store()), old(compiled), draw) == Prepared(Store(), compiled, error)
      ensures iteration == old(iteration)
    {
      var program, e := Iter(draw);
      if e.Some? {
        return e;
      }
      var grouped := ProcessExamples();
      if grouped.Err? {
        return Some(grouped.error);
      }
      var result := Compile(grouped.value);
      compiled := Some(result);
      return None;
    }

    /** `_evaluate_examples`: every compiled example evaluated under the current weights. */
    method EvaluateExamples(engine: Engine) returns (r: Result<seq<ExampleResult>, PyError>)
      ensures compiled.None? ==> r == Err(TypeError)
      ensures compiled.Some? ==> r == Ok(EvaluateAll(engine, compiled.value, weights))
    {
      if compiled.None? {
        return Err(TypeError);
      }
      var xs := compiled.value;
      var results: seq<ExampleResult> := [];
      for n := 0 to |xs|
        invariant results == EvaluateAll(engine, xs[..n], weights)
      {
        assert xs[..n + 1][..n] == xs[..n];
        var x := xs[n];
        var evidence := Evidence(x.atoms, x.values);
        var answer := engine(x, evidence, weights);
        var raw := answer.posteriors;
        var pQueries: Dict := [];
        for j := 0 to |raw|
          invariant pQueries == ClampAll(raw[..j])
        {
          assert raw[..j + 1][..j] == raw[..j];
          var (name, w) := raw[j];
          if w < Floor {
            pQueries := Put(pQueries, name, 0.0);
          } else {
            pQueries := Put(pQueries, name, w);
          }
        }
        assert raw[..|raw|] == raw;
        results := results + [ExampleResult(answer.pEvidence, pQueries)];
      }
      assert xs[..|xs|] == xs;
      return Ok(results);
    }

    /**
     * `_update`: sum and count the posteriors per slot, add up the log
     * evidence probabilities, then set each slot that received a posterior to
     * the mean. A failure leaves every weight as it was.
     */
    method Update(results: seq<ExampleResult>, ln: real -> real) returns (r: Result<real, PyError>)
      requires Valid()
      modifies this
      ensures Valid()
      ensures r == Tally(results, Resolver(|old(weights)|), ln)
      ensures r.Ok? ==> weights == Updated(old(weights), Items(results))
      ensures r.Err? ==> weights == old(weights)
      ensures queries == old(queries) && names == old(names)
      ensures compiled == old(compiled) && iteration == old(iteration)
    {
      var count := |weights|;
      var factMarg, factCount;
      r, factMarg, factCount := Accumulate(results, Resolver(count), count, ln);
      if r.Ok? {
        weights := Average(weights, Items(results), factMarg, factCount);
      }
    }

    /** `step`: count the iteration, evaluate the examples, update the weights. */
    method Step(engine: Engine, ln: real -> real) returns (r: Result<real, PyError>)
      requires Valid()
      modifies this
      ensures Valid()
      ensures iteration == old(iteration) + 1
      ensures queries == old(queries) && names == old(names) && compiled == old(compiled)
      ensures old(compiled).None? ==> r == Err(TypeError) && weights == old(weights)
      ensures old(compiled).Some? ==>
        match Learning.Round(engine, old(compiled).value, old(weights), ln)
        case Err(e) => r == Err(e) && weights == old(weights)
        case Ok((score, w)) => r == Ok(score) && weights == w
    {
      iteration := iteration + 1;
      var results := EvaluateExamples(engine);
      if results.Err? {
        return Err(results.error);
      }
      r := Update(results.value, ln);
    }

    /**
     * `run`: prepare, then take steps while the iteration budget lasts and
     * the score improved by more than `minImprov`; the result is the last score.
     */
    method Run(draw: nat -> real, engine: Engine, ln: real -> real) returns (r: Result<real, PyError>)
      requires Valid()
      modifies this
      ensures Valid()
      ensures var p := PrepareSpec(source, examples, old(Store()), old(compiled), draw);
        p.error.Some? ==> r == Err(p.error.value) && Store() == p.store && compiled == p.compiled && iteration == old(iteration)
      ensures var p := PrepareSpec(source, examples, old(Store()), old(compiled), draw);
        p.error.None? ==> p.compiled.Some? && compiled == p.compiled && queries == p.store.queries && names == p.store.names
      ensures var p := PrepareSpec(source, examples, old(Store()), old(compiled), draw);
        p.error.None? && p.compiled.Some? ==>
          var o := Learning.Learn(engine, p.compiled.value, ln, maxIter, minImprov, Learning.Start(old(iteration), p.store.weights));
          weights == o.state.weights && iteration == o.state.iteration &&
          r == (if o.error.Some? then Err(o.error.value) else Ok(o.state.prev))
    {
      var e := Prepare(draw);
      if e.Some? {
        return Err(e.value);
      }
      var xs := compiled.value;
      ghost var q0, n0 := queries, names;
      ghost var goal := Learning.Learn(engine, xs, ln, maxIter, minImprov, Learning.Start(iteration, weights));
      var delta := 1000.0;
      var prevScore := -10000000000.0;
      while iteration < maxIter && delta > minImprov
        invariant Valid()
        invariant compiled == Some(xs) && queries == q0 && names == n0
        invariant Learning.Learn(engine, xs, ln, maxIter, minImprov, Learning.RunState(iteration, delta, prevScore, weights)) == goal
        decreases maxIter - iteration
      {
        var score := Step(engine, ln);
        if score.Err? {
          return Err(score.error);
        }
        delta := score.value - prevScore;
        prevScore := score.value;
      }
      return Ok(prevScore);
    }
  }

  /** The compilation loop of `_compile_examples`: one instance per value tuple, group by group. */
  method Compile(groups: seq<Group>) returns (result: seq<Instance>)
    ensures result == Instances(groups)
  {
    result := [];
    for g := 0 to |groups|
      invariant result == Instances(groups[..g])
    {
      var atoms := groups[g].atoms;
      var group := groups[g].instances;
      for j := 0 to |group|
        invariant result == Instances(groups[..g]) + seq(j, i requires 0 <= i < j => Instance(atoms, group[i]))
      {
        result := result + [Instance(atoms, group[j])];
      }
      InstancesSnoc(groups[..g], groups[g]);
      assert groups[..g + 1] == groups[..g] + [groups[g]];
    }
    assert groups[..|groups|] == groups;
  }

  /**
   * The first loop of `_update`: file every example's posteriors under their
   * slots and add up the log evidence probabilities, stopping at the first
   * name that does not resolve or evidence probability `ln` is undefined for.
   */
  method Accumulate(results: seq<ExampleResult>, slot: SlotFn, count: nat, ln: real -> real)
    returns (r: Result<real, PyError>, factMarg: array<real>, factCount: array<nat>)
    requires forall name :: slot(name).Ok? ==> slot(name).value < count
    ensures fresh(factMarg) && fresh(factCount)
    ensures factMarg.Length == count && factCount.Length == count
    ensures r == Tally(results, slot, ln)
    ensures r.Ok? ==> factMarg[..] == Sums(Items(results), slot, count) && factCount[..] == Counts(Items(results), slot, count)
  {
    factMarg := new real[count](_ => 0.0);
    factCount := new nat[count](_ => 0);
    var score := 0.0;
    for n := 0 to |results|
      modifies factMarg, factCount
      invariant Tally(results[..n], slot, ln) == Ok(score)
      invariant factMarg[..] == Sums(Items(results[..n]), slot, count)
      invariant factCount[..] == Counts(Items(results[..n]), slot, count)
    {
      var next := AddExample(results, n, slot, count, ln, score, factMarg, factCount);
      if next.Err? {
        TallyStops(results, n + 1, slot, ln);
        return next, factMarg, factCount;
      }
      score := next.value;
    }
    assert results[..|results|] == results;
    return Ok(score), factMarg, factCount;
  }

  /** One pass of the first loop of `_update`: file the example's posteriors, then add its log evidence. */
  method AddExample(results: seq<ExampleResult>, n: nat, slot: SlotFn, count: nat, ln: real -> real,
                    score: real, factMarg: array<real>, factCount: array<nat>)
    returns (next: Result<real, PyError>)
    requires n < |results| && Tally(results[..n], slot, ln) == Ok(score)
    requires forall name :: slot(name).Ok? ==> slot(name).value < count
    requires factMarg.Length == count && factCount.Length == count
    requires factMarg[..] == Sums(Items(results[..n]), slot, count)
    requires factCount[..] == Counts(Items(results[..n]), slot, count)
    modifies factMarg, factCount
    ensures next == Tally(results[..n + 1], slot, ln)
    ensures next.Ok? ==> factMarg[..] == Sums(Items(results[..n + 1]), slot, count)
    ensures next.Ok? ==> factCount[..] == Counts(Items(results[..n + 1]), slot, count)
  {
    assert results[..n + 1][..n] == results[..n];
    var error := FilePosteriors(results[n].pQueries, slot, count, Items(results[..n]), factMarg, factCount);
    if error.Some? {
      return Err(error.value);
    }
    if results[n].pEvidence <= 0.0 {
      return Err(ValueError);
    }
    return Ok(score + ln(results[n].pEvidence));
  }

  /**
   * The last loop of `_update`: every slot that received a posterior takes
   * the mean of its posteriors; the others keep their weight.
   */
  method Average(weights: seq<real>, ghost seen: Dict, factMarg: array<real>, factCount: array<nat>)
    returns (updated: seq<real>)
    requires factMarg.Length == |weights| && factCount.Length == |weights|
    requires factMarg[..] == Sums(seen, Resolver(|weights|), |weights|)
    requires factCount[..] == Counts(seen, Resolver(|weights|), |weights|)
    ensures updated == Updated(weights, seen)
  {
    updated := weights;
    for k := 0 to |weights|
      invariant |updated| == |weights|
      invariant forall q :: 0 <= q < k ==> updated[q] == Updated(weights, seen)[q]
      invariant forall q :: k <= q < |weights| ==> updated[q] == weights[q]
    {
      if factCount[k] > 0 {
        updated := updated[k := factMarg[k] / (factCount[k] as real)];
      }
    }
  }

  /** `fact_marg[k] += value` and `fact_count[k] += 1`. */
  method FileAt(factMarg: array<real>, factCount: array<nat>, k: nat, value: real)
    requires k < factMarg.Length && k < factCount.Length
    modifies factMarg, factCount
    ensures factMarg[..] == old(factMarg[..])[k := old(factMarg[..])[k] + value]
    ensures factCount[..] == old(factCount[..])[k := old(factCount[..])[k] + 1]
  {
    ghost var sums := factMarg[..];
    factMarg[k] := factMarg[k] + value;
    assert factMarg[..] == sums[k := sums[k] + value];
    ghost var sums' := factMarg[..];
    factCount[k] := factCount[k] + 1;
    assert factMarg[..] == sums';
  }

  /** One pass of the inner loop of `_update`: resolve the name, then add the posterior to its slot. */
  method FileEntry(entry: (string, real), slot: SlotFn, count: nat, ghost filed: Dict, factMarg: array<real>, factCount: array<nat>)
    returns (error: Option<PyError>)
    requires forall name :: slot(name).Ok? ==> slot(name).value < count
    requires factMarg.Length == count && factCount.Length == count
    requires factMarg[..] == Sums(filed, slot, count) && factCount[..] == Counts(filed, slot, count)
    modifies factMarg, factCount
    ensures error == if slot(entry.0).Err? then Some(slot(entry.0).error) else None
    ensures error.None? ==> factMarg[..] == Sums(filed + [entry], slot, count) && factCount[..] == Counts(filed + [entry], slot, count)
  {
    var (fact, value) := entry;
    var resolved := slot(fact);
    if resolved.Err? {
      return Some(resolved.error);
    }
    var k := resolved.value;
    FileOne(filed, entry, slot, count, k);
    FileAt(factMarg, factCount, k, value);
    return None;
  }

  /**
   * The inner loop of `_update`: file one example's posteriors under their
   * slots, adding each to the slot's sum and count; a name that does not
   * resolve stops the loop.
   */
  method FilePosteriors(result: Dict, slot: SlotFn, count: nat, ghost seen: Dict, factMarg: array<real>, factCount: array<nat>)
    returns (error: Option<PyError>)
    requires forall name :: slot(name).Ok? ==> slot(name).value < count
    requires factMarg.Length == count && factCount.Length == count
    requires factMarg[..] == Sums(seen, slot, count) && factCount[..] == Counts(seen, slot, count)
    modifies factMarg, factCount
    ensures error == FirstError(Resolved(result, slot))
    ensures error.None? ==> factMarg[..] == Sums(seen + result, slot, count) && factCount[..] == Counts(seen + result, slot, count)
  {
    ghost var filed := seen;
    for j := 0 to |result|
      invariant FirstError(Resolved(result[..j], slot)).None?
      invariant filed == seen + result[..j]
      invariant factMarg[..] == Sums(filed, slot, count) && factCount[..] == Counts(filed, slot, count)
    {
      ResolveStep(result, j, slot);
      var failure := FileEntry(result[j], slot, count, filed, factMarg, factCount);
      if failure.Some? {
        return failure;
      }
      filed := filed + [result[j]];
      assert result[..j + 1] == result[..j] + [result[j]];
    }
    assert result[..|result|] == result;
    return None;
  }
}
