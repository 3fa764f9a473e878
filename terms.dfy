/** The program representation the learner reads and writes: terms and clauses. */
module Terms {
  import opened Wrappers

  /** A term; only atoms carry a probability annotation (`p::atom`). */
  datatype Term =
    | Int(i: int)          // an integer constant
    | Float(x: real)       // a floating-point constant
    | Var(name: string)    // a logic variable such as `X` or `_`
    | Atom(functor: string, args: seq<Term>, probability: Option<Term>)

  /** The three kinds of program element a source program enumerates. */
  datatype Clause =
    | Rule(head: Term, body: Term)                 // `head :- body`
    | Disjunction(heads: seq<Term>, body: Term)    // an annotated disjunction `p1::h1; ...; pn::hn :- body`
    | Fact(atom: Term)                             // any other element: a fact or a directive term

  /** `query(X)`: a query declaration, recognised by functor `query` and arity 1. */
  predicate IsQueryDecl(t: Term) {
    t.Atom? && t.functor == "query" && |t.args| == 1
  }

  /** The atoms a clause defines. */
  function HeadsOf(c: Clause): seq<Term> {
    match c
    case Rule(head, _) => [head]
    case Disjunction(heads, _) => heads
    case Fact(atom) => [atom]
  }
}
