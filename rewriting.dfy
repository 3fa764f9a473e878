/**
 * The model rewriter: every atom whose probability is the learnable marker
 * `t(Start)` becomes `lfi(i)::lfi_fact_i(Args)`, followed by the redirection
 * `atom(Args) :- lfi_fact_i(Args)` and the declaration `query(lfi_fact_i(Args))`,
 * and slot `i` is appended to the weight store. Existing `query/1`
 * declarations are dropped. These functions are the specification the
 * stateful methods of `Lfi.LFIProblem` are proved against.
 */
module Rewriting {
  import opened Wrappers
  import opened Terms
  import Decimal

  /** The functor of the indirection fact of slot `i`: `'lfi_fact_%d' % i`. */
  function FactFunctor(i: nat): string {
    "lfi_fact_" + Decimal.NatToString(i)
  }

  /** The probability `lfi(i)` that the parameter lookup resolves to slot `i`. */
  function SlotRef(i: nat): Term {
    Atom("lfi", [Int(i)], None)
  }

  /** An atom whose probability is a term with functor `t`. */
  predicate IsLearnable(a: Term) {
    a.Atom? && a.probability.Some? && a.probability.value.Atom? && a.probability.value.functor == "t"
  }

  /** The three parallel lists `weights`, `queries` and `names`, indexed by slot. */
  datatype WeightStore = WeightStore(weights: seq<real>, queries: seq<Term>, names: seq<Term>) {
    predicate Valid() {
      |weights| == |queries| == |names|
    }

    /** `count`: the number of slots. */
    function Count(): nat {
      |weights|
    }

    /** This store is `s` with slots appended and nothing else changed. */
    predicate Extends(s: WeightStore) {
      s.weights <= weights && s.queries <= queries && s.names <= names
    }

    /** Every query is the indirection fact of its own slot. */
    predicate WellNamed() {
      Valid() &&
      forall k :: 0 <= k < |queries| ==>
        queries[k].Atom? && queries[k].functor == FactFunctor(k) && queries[k].probability == None
    }
  }

  /** The empty store a learner starts with. */
  const EmptyStore := WeightStore([], [], [])

  /** `float(start)` for a constant start value, otherwise the random draw. */
  function InitialWeight(start: Term, draw: real): real {
    match start
    case Int(i) => i as real
    case Float(x) => x
    case _ => draw
  }

  /** `_process_atom`: the replacement atom, its extra clauses, and the store afterwards. */
  datatype Processed = Processed(atom: Term, extra: seq<Clause>, store: WeightStore)

  function ProcessAtom(atom: Term, store: WeightStore, draw: real): (r: Result<Processed, PyError>)
    ensures r.Err? <==> IsLearnable(atom) && |atom.probability.value.args| != 1
    ensures r.Err? ==> r.error == AssertionError
    ensures r.Ok? ==> r.value.store.Count() == store.Count() + LearnableCount(atom)
    ensures r.Ok? ==> r.value.atom == Replacement(atom, store.Count())
    ensures r.Ok? && !IsLearnable(atom) ==> r.value == Processed(atom, [], store)
  {
    if !IsLearnable(atom) then Ok(Processed(atom, [], store))
    else
      var marker := atom.probability.value;
      if |marker.args| != 1 then Err(AssertionError)
      else
        var i := store.Count();
        var fact := Atom(FactFunctor(i), atom.args, None);
        Ok(Processed(
          fact.(probability := Some(SlotRef(i))),
          SlotClauses(atom, fact),
          WeightStore(store.weights + [InitialWeight(marker.args[0], draw)],
                      store.queries + [fact], store.names + [atom])))
  }

  /** The heads of an annotated disjunction, processed left to right. */
  datatype Heads = Heads(atoms: seq<Term>, extra: seq<Clause>, store: WeightStore, error: Option<PyError>)

  function ProcessHeads(heads: seq<Term>, store: WeightStore, draw: nat -> real): (h: Heads)
    ensures h.error.Some? ==> h.error == Some(AssertionError)
    ensures h.error.None? ==> |h.atoms| == |heads| && h.store.Count() == store.Count() + LearnableHeads(heads)
    decreases |heads|
  {
    if heads == [] then Heads([], [], store, None)
    else
      var prev := ProcessHeads(heads[..|heads| - 1], store, draw);
      if prev.error.Some? then prev
      else match ProcessAtom(heads[|heads| - 1], prev.store, draw(prev.store.Count()))
        case Err(e) => prev.(error := Some(e))
        case Ok(p) => Heads(prev.atoms + [p.atom], prev.extra + p.extra, p.store, None)
  }

  /**
   * What a traversal yields and allocates. On an error the clauses yielded so
   * far are kept, and so are the slots allocated before it.
   */
  datatype Rewritten = Rewritten(out: seq<Clause>, store: WeightStore, error: Option<PyError>)

  /** One source clause: dropped, or rewritten and immediately followed by its extra clauses. */
  function RewriteClause(c: Clause, store: WeightStore, draw: nat -> real): (r: Rewritten)
    ensures r.error.Some? ==> r.error == Some(AssertionError) && r.out == []
    ensures r.error.None? ==> r.store.Count() == store.Count() + LearnableIn(c)
  {
    match c
    case Rule(head, body) =>
      if IsQueryDecl(head) then Rewritten([], store, None)
      else (match ProcessAtom(head, store, draw(store.Count()))
        case Err(e) => Rewritten([], store, Some(e))
        case Ok(p) => Rewritten([Rule(p.atom, body)] + p.extra, p.store, None))
    case Disjunction(heads, body) =>
      var h := ProcessHeads(heads, store, draw);
      if h.error.Some? then Rewritten([], h.store, h.error)
      else Rewritten([Disjunction(h.atoms, body)] + h.extra, h.store, None)
    case Fact(atom) =>
      if IsQueryDecl(atom) then Rewritten([], store, None)
      else match ProcessAtom(atom, store, draw(store.Count()))
        case Err(e) => Rewritten([], store, Some(e))
        case Ok(p) => Rewritten([Fact(p.atom)] + p.extra, p.store, None)
  }

  /** One full traversal of the source program (`__iter__`), starting from `store`. */
  function Rewrite(source: seq<Clause>, store: WeightStore, draw: nat -> real): (r: Rewritten)
    ensures r.error.Some? ==> r.error == Some(AssertionError)
    ensures r.error.None? ==> r.store.Count() == store.Count() + Learnables(source)
    decreases |source|
  {
    if source == [] then Rewritten([], store, None)
    else
      var prev := Rewrite(source[..|source| - 1], store, draw);
      if prev.error.Some? then prev
      else
        var r := RewriteClause(source[|source| - 1], prev.store, draw);
        Rewritten(prev.out + r.out, r.store, r.error)
  }

  // ---------------------------------------------------------------------------
  // The form a clause takes after rewriting

  /** The atom `_process_atom` puts in place of `a` when slot `i` is the next free one. */
  function Replacement(a: Term, i: nat): Term {
    if IsLearnable(a) then Atom(FactFunctor(i), a.args, Some(SlotRef(i))) else a
  }

  /** The heads of a disjunction after processing, the first learnable one taking slot `i`. */
  function ReplacedHeads(heads: seq<Term>, i: nat): (r: seq<Term>)
    ensures |r| == |heads|
    decreases |heads|
  {
    if heads == [] then []
    else
      var init := heads[..|heads| - 1];
      ReplacedHeads(init, i) + [Replacement(heads[|heads| - 1], i + LearnableHeads(init))]
  }

  /** A `query/1` declaration, which the rewriter drops. */
  predicate Dropped(c: Clause) {
    (c.Rule? && IsQueryDecl(c.head)) || (c.Fact? && IsQueryDecl(c.atom))
  }

  /** The clause that takes the place of `c` when slot `i` is the next free one. */
  function Replaced(c: Clause, i: nat): (r: Clause)
    ensures r.Rule? == c.Rule? && r.Disjunction? == c.Disjunction? && r.Fact? == c.Fact?
    ensures !c.Fact? ==> r.body == c.body
    ensures c.Disjunction? ==> |r.heads| == |c.heads|
  {
    match c
    case Rule(head, body) => Rule(Replacement(head, i), body)
    case Disjunction(heads, body) => Disjunction(ReplacedHeads(heads, i), body)
    case Fact(atom) => Fact(Replacement(atom, i))
  }

  /** The source clauses that are not dropped, in order. */
  function KeptClauses(source: seq<Clause>): seq<Clause>
    decreases |source|
  {
    if source == [] then []
    else
      var c := source[|source| - 1];
      KeptClauses(source[..|source| - 1]) + (if Dropped(c) then [] else [c])
  }

  // ---------------------------------------------------------------------------
  // Counting what a traversal meets

  /** 1 for a learnable atom. */
  function LearnableCount(a: Term): nat {
    if IsLearnable(a) then 1 else 0
  }

  function LearnableHeads(heads: seq<Term>): nat
    decreases |heads|
  {
    if heads == [] then 0 else LearnableHeads(heads[..|heads| - 1]) + LearnableCount(heads[|heads| - 1])
  }

  /** The learnable atoms a clause contributes: none for a dropped query declaration. */
  function LearnableIn(c: Clause): nat {
    match c
    case Rule(head, _) => if IsQueryDecl(head) then 0 else LearnableCount(head)
    case Disjunction(heads, _) => LearnableHeads(heads)
    case Fact(atom) => if IsQueryDecl(atom) then 0 else LearnableCount(atom)
  }

  function Learnables(source: seq<Clause>): nat
    decreases |source|
  {
    if source == [] then 0 else Learnables(source[..|source| - 1]) + LearnableIn(source[|source| - 1])
  }

  /** The number of source clauses that are not dropped. */
  function Kept(source: seq<Clause>): nat
    decreases |source|
  {
    if source == [] then 0
    else
      var c := source[|source| - 1];
      Kept(source[..|source| - 1]) + (if Dropped(c) then 0 else 1)
  }

  /** The arguments of the `query/1` facts of a clause list, in order. */
  function QueryDecls(out: seq<Clause>): seq<Term>
    decreases |out|
  {
    if out == [] then []
    else
      var c := out[|out| - 1];
      QueryDecls(out[..|out| - 1]) + (if c.Fact? && IsQueryDecl(c.atom) then [c.atom.args[0]] else [])
  }

  /** No clause of the list defines a learnable atom. */
  predicate NoLearnableHeads(out: seq<Clause>) {
    forall i :: 0 <= i < |out| ==> forall a :: a in HeadsOf(out[i]) ==> !IsLearnable(a)
  }

  // ---------------------------------------------------------------------------
  // Properties

  /** A learnable atom with one marker argument allocates exactly slot `count`, named after its fact. */
  lemma ProcessAtomAllocatesOne(atom: Term, store: WeightStore, draw: real)
    requires IsLearnable(atom) && |atom.probability.value.args| == 1
    ensures ProcessAtom(atom, store, draw).Ok?
    ensures var p := ProcessAtom(atom, store, draw).value;
      var i := store.Count();
      var fact := Atom(FactFunctor(i), atom.args, None);
      && p.store.Extends(store)
      && p.store.weights == store.weights + [p.store.weights[i]]
      && p.store.queries == store.queries + [fact]
      && p.store.names == store.names + [atom]
      && p.atom == fact.(probability := Some(SlotRef(i)))
      && p.extra == SlotClauses(atom, fact)
      && (atom.probability.value.args[0].Int? ==> p.store.weights[i] == atom.probability.value.args[0].i as real)
      && (atom.probability.value.args[0].Float? ==> p.store.weights[i] == atom.probability.value.args[0].x)
      && (!atom.probability.value.args[0].Int? && !atom.probability.value.args[0].Float? ==> p.store.weights[i] == draw)
  {
  }

  /** A learnable marker with another number of arguments fails the assertion and allocates nothing. */
  lemma ProcessAtomRejectsArity(atom: Term, store: WeightStore, draw: real)
    requires IsLearnable(atom) && |atom.probability.value.args| != 1
    ensures ProcessAtom(atom, store, draw) == Err(AssertionError)
  {
  }

  /** Any other atom comes back unchanged, with no extra clause and the same store. */
  lemma ProcessAtomLeavesOthers(atom: Term, store: WeightStore, draw: real)
    requires !IsLearnable(atom)
    ensures ProcessAtom(atom, store, draw) == Ok(Processed(atom, [], store))
  {
  }

  /**
   * `s1` is `s0` with `added` slots appended, the clause list `out`
   * declares exactly the queries of those new slots, in order, and defines no
   * learnable atom; the slot naming invariant is kept.
   */
  ghost predicate Appends(s0: WeightStore, out: seq<Clause>, s1: WeightStore, added: nat) {
    && s1.Extends(s0)
    && |s1.weights| == |s0.weights| + added
    && |s1.queries| == |s0.queries| + added
    && |s1.names| == |s0.names| + added
    && QueryDecls(out) == s1.queries[|s0.queries|..]
    && NoLearnableHeads(out)
    && (s0.WellNamed() ==> s1.WellNamed())
  }

  lemma {:induction false} QueryDeclsAppend(a: seq<Clause>, b: seq<Clause>)
    ensures QueryDecls(a + b) == QueryDecls(a) + QueryDecls(b)
    decreases |b|
  {
    if b != [] {
      QueryDeclsAppend(a, b[..|b| - 1]);
      assert (a + b)[..|a + b| - 1] == a + b[..|b| - 1];
    } else {
      assert a + b == a;
    }
  }

  lemma AppendsCompose(s0: WeightStore, a: seq<Clause>, s1: WeightStore, m: nat,
                       b: seq<Clause>, s2: WeightStore, n: nat)
    requires Appends(s0, a, s1, m) && Appends(s1, b, s2, n)
    ensures Appends(s0, a + b, s2, m + n)
  {
    QueryDeclsAppend(a, b);
    assert s2.queries[|s0.queries|..] == s1.queries[|s0.queries|..] + s2.queries[|s1.queries|..];
    forall i | 0 <= i < |a + b|
      ensures forall x :: x in HeadsOf((a + b)[i]) ==> !IsLearnable(x)
    {
      if i >= |a| {
        assert (a + b)[i] == b[i - |a|];
      }
    }
  }

  /** The name of a slot: functor and probability tell it apart from a query declaration and a learnable atom. */
  lemma FactIsNotQuery(i: nat, args: seq<Term>, prob: Option<Term>)
    ensures !IsQueryDecl(Atom(FactFunctor(i), args, prob))
  {
    assert |FactFunctor(i)| > |"query"|;
  }

  /** One successful `_process_atom` call appends `LearnableCount(atom)` slots and yields nothing learnable. */
  lemma ProcessAtomAppends(atom: Term, store: WeightStore, draw: real)
    requires ProcessAtom(atom, store, draw).Ok?
    ensures var p := ProcessAtom(atom, store, draw).value;
      && Appends(store, p.extra, p.store, LearnableCount(atom))
      && |p.extra| == 2 * LearnableCount(atom)
      && !IsLearnable(p.atom)
      && (!IsQueryDecl(atom) ==> !IsQueryDecl(p.atom))
  {
    var p := ProcessAtom(atom, store, draw).value;
    if IsLearnable(atom) {
      var i := store.Count();
      var fact := Atom(FactFunctor(i), atom.args, None);
      var w := InitialWeight(atom.probability.value.args[0], draw);
      assert p.extra == SlotClauses(atom, fact);
      assert p.store == WeightStore(store.weights + [w], store.queries + [fact], store.names + [atom]);
      FactIsNotQuery(i, atom.args, Some(SlotRef(i)));
      SlotClausesDeclare(atom, fact);
      assert p.store.queries[|store.queries|..] == [fact];
      if store.WellNamed() {
        AppendKeepsWellNamed(store, w, atom.args, atom);
      }
    } else {
      assert p.store.queries[|store.queries|..] == [];
    }
  }

  /** The two clauses `_process_atom` adds for a learnable atom and its indirection fact. */
  function SlotClauses(atom: Term, fact: Term): seq<Clause>
    requires atom.Atom?
  {
    [Rule(atom.(probability := None), fact), Fact(Atom("query", [fact], None))]
  }

  /** They declare the fact as a query and define nothing learnable. */
  lemma SlotClausesDeclare(atom: Term, fact: Term)
    requires atom.Atom?
    ensures QueryDecls(SlotClauses(atom, fact)) == [fact]
    ensures NoLearnableHeads(SlotClauses(atom, fact))
  {
    var rule := Rule(atom.(probability := None), fact);
    var query := Fact(Atom("query", [fact], None));
    assert QueryDecls([rule]) == [] by {
      assert [rule][..0] == [];
    }
    assert QueryDecls([rule, query]) == QueryDecls([rule]) + [fact] by {
      assert [rule, query][..1] == [rule];
    }
  }

  /** Appending the slot named after its own index keeps the store well named. */
  lemma AppendKeepsWellNamed(store: WeightStore, w: real, args: seq<Term>, name: Term)
    requires store.WellNamed()
    ensures WeightStore(store.weights + [w], store.queries + [Atom(FactFunctor(|store.queries|), args, None)],
                        store.names + [name]).WellNamed()
  {
    var queries := store.queries + [Atom(FactFunctor(|store.queries|), args, None)];
    forall k | 0 <= k < |queries|
      ensures queries[k].Atom? && queries[k].functor == FactFunctor(k) && queries[k].probability == None
    {
      if k < |store.queries| {
        assert queries[k] == store.queries[k];
      }
    }
  }

  /** The heads of a disjunction: one slot per learnable head, and only when every head succeeds. */
  lemma {:induction false} ProcessHeadsAppends(heads: seq<Term>, store: WeightStore, draw: nat -> real)
    ensures ProcessHeads(heads, store, draw).store.Extends(store)
    ensures store.WellNamed() ==> ProcessHeads(heads, store, draw).store.WellNamed()
    ensures var h := ProcessHeads(heads, store, draw);
      h.error.None? ==>
        && Appends(store, h.extra, h.store, LearnableHeads(heads))
        && |h.atoms| == |heads|
        && |h.extra| == 2 * LearnableHeads(heads)
        && forall a :: a in h.atoms ==> !IsLearnable(a)
    decreases |heads|
  {
    if heads != [] {
      var init := heads[..|heads| - 1];
      ProcessHeadsAppends(init, store, draw);
      var prev := ProcessHeads(init, store, draw);
      if prev.error.None? {
        var last := heads[|heads| - 1];
        var d := draw(prev.store.Count());
        if ProcessAtom(last, prev.store, d).Ok? {
          ProcessAtomAppends(last, prev.store, d);
          var p := ProcessAtom(last, prev.store, d).value;
          AppendsCompose(store, prev.extra, prev.store, LearnableHeads(init), p.extra, p.store, LearnableCount(last));
        }
      }
    }
  }

  /** One source clause: what it yields and what it allocates. */
  lemma RewriteClauseAppends(c: Clause, store: WeightStore, draw: nat -> real)
    ensures RewriteClause(c, store, draw).store.Extends(store)
    ensures store.WellNamed() ==> RewriteClause(c, store, draw).store.WellNamed()
    ensures var r := RewriteClause(c, store, draw);
      var dropped := (c.Rule? && IsQueryDecl(c.head)) || (c.Fact? && IsQueryDecl(c.atom));
      r.error.None? ==>
        && Appends(store, r.out, r.store, LearnableIn(c))
        && |r.out| == (if dropped then 0 else 1) + 2 * LearnableIn(c)
  {
    var r := RewriteClause(c, store, draw);
    match c
    case Rule(head, body) =>
      if !IsQueryDecl(head) && ProcessAtom(head, store, draw(store.Count())).Ok? {
        ProcessAtomAppends(head, store, draw(store.Count()));
        var p := ProcessAtom(head, store, draw(store.Count())).value;
        assert Appends(store, [Rule(p.atom, body)], store, 0) by {
          assert QueryDecls([Rule(p.atom, body)]) == [] by {
            assert [Rule(p.atom, body)][..0] == [];
          }
        }
        AppendsCompose(store, [Rule(p.atom, body)], store, 0, p.extra, p.store, LearnableCount(head));
      }
    case Disjunction(heads, body) =>
      ProcessHeadsAppends(heads, store, draw);
      var h := ProcessHeads(heads, store, draw);
      if h.error.None? {
        assert Appends(store, [Disjunction(h.atoms, body)], store, 0) by {
          assert QueryDecls([Disjunction(h.atoms, body)]) == [] by {
            assert [Disjunction(h.atoms, body)][..0] == [];
          }
        }
        AppendsCompose(store, [Disjunction(h.atoms, body)], store, 0, h.extra, h.store, LearnableHeads(heads));
      }
    case Fact(atom) =>
      if !IsQueryDecl(atom) && ProcessAtom(atom, store, draw(store.Count())).Ok? {
        ProcessAtomAppends(atom, store, draw(store.Count()));
        var p := ProcessAtom(atom, store, draw(store.Count())).value;
        assert Appends(store, [Fact(p.atom)], store, 0) by {
          assert QueryDecls([Fact(p.atom)]) == [] by {
            assert [Fact(p.atom)][..0] == [];
          }
        }
        AppendsCompose(store, [Fact(p.atom)], store, 0, p.extra, p.store, LearnableCount(atom));
      }
  }

  /**
   * A whole traversal only appends slots, keeps the slot naming invariant, and
   * when it completes: allocates one slot per learnable atom it met, declares
   * exactly the new slots' queries in allocation order, yields one clause per
   * kept source clause plus two per slot, and yields no learnable atom.
   */
  lemma {:induction false} RewriteAppends(source: seq<Clause>, store: WeightStore, draw: nat -> real)
    ensures Rewrite(source, store, draw).store.Extends(store)
    ensures store.WellNamed() ==> Rewrite(source, store, draw).store.WellNamed()
    ensures var r := Rewrite(source, store, draw);
      r.error.None? ==>
        && Appends(store, r.out, r.store, Learnables(source))
        && |r.out| == Kept(source) + 2 * Learnables(source)
    decreases |source|
  {
    if source != [] {
      var init := source[..|source| - 1];
      var c := source[|source| - 1];
      RewriteAppends(init, store, draw);
      var prev := Rewrite(init, store, draw);
      if prev.error.None? {
        RewriteClauseAppends(c, prev.store, draw);
        var r := RewriteClause(c, prev.store, draw);
        if r.error.None? {
          AppendsCompose(store, prev.out, prev.store, Learnables(init), r.out, r.store, LearnableIn(c));
        }
      }
    }
  }

  /**
   * On success the heads of a disjunction are replaced in order, each learnable
   * one by the indirection fact of the next free slot. Without a learnable head
   * nothing is allocated or added and the heads come back unchanged.
   */
  lemma {:induction false} ProcessHeadsReplaces(heads: seq<Term>, store: WeightStore, draw: nat -> real)
    ensures var h := ProcessHeads(heads, store, draw);
      h.error.None? ==> h.atoms == ReplacedHeads(heads, store.Count())
    decreases |heads|
  {
    if heads != [] {
      ProcessHeadsReplaces(heads[..|heads| - 1], store, draw);
    }
  }

  lemma {:induction false} ProcessHeadsPlain(heads: seq<Term>, store: WeightStore, draw: nat -> real)
    ensures LearnableHeads(heads) == 0 ==> ProcessHeads(heads, store, draw) == Heads(heads, [], store, None)
    decreases |heads|
  {
    if heads != [] {
      var init := heads[..|heads| - 1];
      ProcessHeadsPlain(init, store, draw);
      assert init + [heads[|heads| - 1]] == heads;
    }
  }

  /**
   * Head `k` keeps its place: it is unchanged unless learnable, and otherwise
   * takes the slot after those of the learnable heads before it.
   */
  lemma {:induction false} ReplacedHeadsAt(heads: seq<Term>, i: nat)
    ensures forall k :: 0 <= k < |heads| ==>
      ReplacedHeads(heads, i)[k] == Replacement(heads[k], i + LearnableHeads(heads[..k]))
    ensures forall k :: 0 <= k < |heads| && !IsLearnable(heads[k]) ==> ReplacedHeads(heads, i)[k] == heads[k]
  {
    forall k | 0 <= k < |heads|
      ensures ReplacedHeads(heads, i)[k] == Replacement(heads[k], i + LearnableHeads(heads[..k]))
    {
      ReplacedHeadAt(heads, i, k);
    }
  }

  lemma {:induction false} ReplacedHeadAt(heads: seq<Term>, i: nat, k: nat)
    requires k < |heads|
    ensures ReplacedHeads(heads, i)[k] == Replacement(heads[k], i + LearnableHeads(heads[..k]))
    decreases |heads|
  {
    var init := heads[..|heads| - 1];
    if k < |init| {
      ReplacedHeadAt(init, i, k);
      assert init[..k] == heads[..k];
    }
  }

  /**
   * A clause that is kept and succeeds is first replaced by its rewritten form,
   * which has its kind, its body and its number of heads. A `query/1`
   * declaration yields nothing, and a clause without a learnable atom is passed
   * through unchanged with nothing allocated.
   */
  lemma RewriteClauseReplaces(c: Clause, store: WeightStore, draw: nat -> real)
    ensures var r := RewriteClause(c, store, draw);
      r.error.None? && !Dropped(c) ==> |r.out| >= 1 && r.out[0] == Replaced(c, store.Count())
    ensures Dropped(c) ==> RewriteClause(c, store, draw) == Rewritten([], store, None)
    ensures LearnableIn(c) == 0 ==>
      RewriteClause(c, store, draw) == Rewritten(if Dropped(c) then [] else [c], store, None)
  {
    if c.Disjunction? {
      ProcessHeadsReplaces(c.heads, store, draw);
      ProcessHeadsPlain(c.heads, store, draw);
    }
  }

  /**
   * A program without learnable atoms rewrites to itself minus its `query/1`
   * declarations, and allocates nothing.
   */
  lemma {:induction false} RewriteKeepsPlain(source: seq<Clause>, store: WeightStore, draw: nat -> real)
    ensures Learnables(source) == 0 ==> Rewrite(source, store, draw) == Rewritten(KeptClauses(source), store, None)
    decreases |source|
  {
    if source != [] {
      var init := source[..|source| - 1];
      RewriteKeepsPlain(init, store, draw);
      RewriteClauseReplaces(source[|source| - 1], store, draw);
    }
  }

  /** Whether a traversal fails depends on the source alone, not on the slots already allocated. */
  lemma {:induction false} RewriteErrorIgnoresStore(source: seq<Clause>, s: WeightStore, t: WeightStore, d: nat -> real, e: nat -> real)
    ensures Rewrite(source, s, d).error == Rewrite(source, t, e).error
    decreases |source|
  {
    if source != [] {
      var init := source[..|source| - 1];
      RewriteErrorIgnoresStore(init, s, t, d, e);
      var ps := Rewrite(init, s, d);
      var pt := Rewrite(init, t, e);
      if ps.error.None? {
        var c := source[|source| - 1];
        if c.Disjunction? {
          HeadsErrorIgnoresStore(c.heads, ps.store, pt.store, d, e);
        }
      }
    }
  }

  lemma {:induction false} HeadsErrorIgnoresStore(heads: seq<Term>, s: WeightStore, t: WeightStore, d: nat -> real, e: nat -> real)
    ensures ProcessHeads(heads, s, d).error == ProcessHeads(heads, t, e).error
    decreases |heads|
  {
    if heads != [] {
      HeadsErrorIgnoresStore(heads[..|heads| - 1], s, t, d, e);
    }
  }

  /**
   * Slot allocation is not stable across traversals: a second traversal of the
   * same source appends a fresh slot for every learnable atom again.
   */
  lemma TraversalsAccumulate(source: seq<Clause>, store: WeightStore, draw: nat -> real)
    requires Rewrite(source, store, draw).error.None?
    ensures var first := Rewrite(source, store, draw);
      var second := Rewrite(source, first.store, draw);
      && second.error.None?
      && second.store.Count() == store.Count() + 2 * Learnables(source)
  {
    var first := Rewrite(source, store, draw);
    RewriteErrorIgnoresStore(source, store, first.store, draw, draw);
    RewriteAppends(source, store, draw);
    RewriteAppends(source, first.store, draw);
  }

  /**
   * The documented example: `t(_)::p(X) :- b(X).` and `t(_)::p(X) :- c(X).`
   * become two indirection rules, each followed at once by its redirection and
   * its query declaration.
   */
  lemma DocumentedExample(draw: nat -> real)
    ensures var x := Var("X");
      var p := Atom("p", [x], Some(Atom("t", [Var("_")], None)));
      var b := Atom("b", [x], None);
      var c := Atom("c", [x], None);
      var f0 := Atom(FactFunctor(0), [x], None);
      var f1 := Atom(FactFunctor(1), [x], None);
      var r := Rewrite([Rule(p, b), Rule(p, c)], EmptyStore, draw);
      && r.error == None
      && r.out == [Rule(f0.(probability := Some(SlotRef(0))), b), Rule(p.(probability := None), f0), Fact(Atom("query", [f0], None)),
                   Rule(f1.(probability := Some(SlotRef(1))), c), Rule(p.(probability := None), f1), Fact(Atom("query", [f1], None))]
      && r.store == WeightStore([draw(0), draw(1)], [f0, f1], [p, p])
  {
    var x := Var("X");
    var p := Atom("p", [x], Some(Atom("t", [Var("_")], None)));
    var b := Atom("b", [x], None);
    var c := Atom("c", [x], None);
    var f0 := Atom(FactFunctor(0), [x], None);
    var f1 := Atom(FactFunctor(1), [x], None);
    var src := [Rule(p, b), Rule(p, c)];
    FactIsNotQuery(0, [x], None);
    var s1 := WeightStore([draw(0)], [f0], [p]);
    var o1 := [Rule(f0.(probability := Some(SlotRef(0))), b), Rule(p.(probability := None), f0), Fact(Atom("query", [f0], None))];
    var o2 := [Rule(f1.(probability := Some(SlotRef(1))), c), Rule(p.(probability := None), f1), Fact(Atom("query", [f1], None))];
    assert EmptyStore.Count() == 0;
    assert IsLearnable(p) && |p.probability.value.args| == 1;
    assert o1[1..] == [Rule(p.(probability := None), f0), Fact(Atom("query", [f0], None))];
    var pa := ProcessAtom(p, EmptyStore, draw(0));
    assert pa.Ok?;
    assert pa.value.atom == f0.(probability := Some(SlotRef(0)));
    assert pa.value.extra == o1[1..];
    assert pa.value.store.weights == [draw(0)];
    assert pa.value.store.queries == [f0];
    assert pa.value.store == s1;
    assert RewriteClause(src[0], EmptyStore, draw) == Rewritten(o1, s1, None);
    assert src[..1][..0] == [];
    assert Rewrite(src[..1], EmptyStore, draw) == Rewritten(o1, s1, None);
    assert ProcessAtom(p, s1, draw(1)).Ok?;
    assert RewriteClause(src[1], s1, draw) == Rewritten(o2, WeightStore([draw(0), draw(1)], [f0, f1], [p, p]), None);
  }

  /** Once a traversal fails, the clauses after the failing one are never looked at. */
  lemma {:induction false} RewriteStopsAtError(source: seq<Clause>, m: nat, store: WeightStore, draw: nat -> real)
    requires m <= |source|
    requires Rewrite(source[..m], store, draw).error.Some?
    ensures Rewrite(source, store, draw) == Rewrite(source[..m], store, draw)
    decreases |source|
  {
    if m < |source| {
      var n := |source| - 1;
      assert source[..n][..m] == source[..m];
      RewriteStopsAtError(source[..n], m, store, draw);
    } else {
      assert source[..m] == source;
    }
  }

  /** Once a head fails, the heads after it are never looked at. */
  lemma {:induction false} HeadsStopAtError(heads: seq<Term>, m: nat, store: WeightStore, draw: nat -> real)
    requires m <= |heads|
    requires ProcessHeads(heads[..m], store, draw).error.Some?
    ensures ProcessHeads(heads, store, draw) == ProcessHeads(heads[..m], store, draw)
    decreases |heads|
  {
    if m < |heads| {
      var n := |heads| - 1;
      assert heads[..n][..m] == heads[..m];
      HeadsStopAtError(heads[..n], m, store, draw);
    } else {
      assert heads[..m] == heads;
    }
  }
}
