/**
 * The learning loop as values: one round (evaluate every compiled example,
 * then average the posteriors into new weights) and the `run` loop that
 * repeats rounds until the iteration budget is spent or the score stops
 * improving.
 */
module Learning {
  import opened Wrappers
  import opened Examples
  import opened Evaluation

  /** One round under `weights`: the score and the new weights, or the error `_update` raises. */
  function Round(engine: Engine, xs: seq<Instance>, weights: seq<real>, ln: real -> real): (r: Result<(real, seq<real>), PyError>)
    ensures r.Ok? ==> |r.value.1| == |weights|
  {
    var results := EvaluateAll(engine, xs, weights);
    match Tally(results, Resolver(|weights|), ln)
    case Err(e) => Err(e)
    case Ok(score) => Ok((score, Updated(weights, Items(results))))
  }

  /** The variables of `run`'s loop together with the object's iteration counter and weights. */
  datatype RunState = RunState(iteration: int, delta: real, prev: real, weights: seq<real>)

  /** Where `run` stops: its final state, and the error of the round that failed, if one did. */
  datatype Outcome = Outcome(state: RunState, error: Option<PyError>)

  /** `run`'s starting values: a delta of 1000 and a previous score of -1e10. */
  function Start(iteration: int, weights: seq<real>): RunState {
    RunState(iteration, 1000.0, -10000000000.0, weights)
  }

  /** `run`'s loop condition. */
  predicate Continues(s: RunState, maxIter: int, minImprov: real) {
    s.iteration < maxIter && s.delta > minImprov
  }

  /** What one round does to the weights: the score and the new weights, or an error. */
  type Rounds = seq<real> -> Result<(real, seq<real>), PyError>

  /**
   * The `run` loop from state `s`: each round first counts the iteration and
   * then either fails (weights untouched) or records the improvement and the
   * new weights.
   */
  function RunFrom(round: Rounds, maxIter: int, minImprov: real, s: RunState): (o: Outcome)
    ensures s.iteration <= o.state.iteration
    ensures o.error.None? ==> !Continues(o.state, maxIter, minImprov)
    decreases maxIter - s.iteration
  {
    if !Continues(s, maxIter, minImprov) then Outcome(s, None)
    else match round(s.weights)
      case Err(e) => Outcome(s.(iteration := s.iteration + 1), Some(e))
      case Ok((score, w)) => RunFrom(round, maxIter, minImprov, RunState(s.iteration + 1, score - s.prev, score, w))
  }

  /** Learning from state `s`: the `run` loop whose rounds evaluate the compiled examples `xs`. */
  function Learn(engine: Engine, xs: seq<Instance>, ln: real -> real, maxIter: int, minImprov: real, s: RunState): (o: Outcome)
    ensures o.error.None? ==> o.state.iteration >= maxIter || o.state.delta <= minImprov
    ensures Continues(s, maxIter, minImprov) ==> o.state.iteration > s.iteration
  {
    RunFrom(w => Round(engine, xs, w, ln), maxIter, minImprov, s)
  }

  /**
   * The iteration counter only grows, never passes the budget unless it
   * started beyond it, and a loop that ends without error ends because the
   * budget is spent or the last improvement was at most `minImprov`.
   */
  lemma {:induction false} RunFromStops(round: Rounds, maxIter: int, minImprov: real, s: RunState)
    ensures var o := RunFrom(round, maxIter, minImprov, s);
      s.iteration <= o.state.iteration <= (if s.iteration < maxIter then maxIter else s.iteration)
    ensures var o := RunFrom(round, maxIter, minImprov, s);
      o.error.None? ==> o.state.iteration >= maxIter || o.state.delta <= minImprov
    ensures Continues(s, maxIter, minImprov) ==> RunFrom(round, maxIter, minImprov, s).state.iteration > s.iteration
    decreases maxIter - s.iteration
  {
    if Continues(s, maxIter, minImprov) {
      match round(s.weights)
      case Err(e) =>
      case Ok((score, w)) =>
        RunFromStops(round, maxIter, minImprov, RunState(s.iteration + 1, score - s.prev, score, w));
    }
  }

  /** The engine reports only probabilities as posteriors. */
  ghost predicate EngineInUnit(engine: Engine) {
    forall x, e, w :: forall i :: 0 <= i < |engine(x, e, w).posteriors| ==> InUnit(engine(x, e, w).posteriors[i].1)
  }

  predicate WeightsInUnit(w: seq<real>) {
    forall k :: 0 <= k < |w| ==> InUnit(w[k])
  }

  lemma {:induction false} ClampAllInUnit(raw: Dict)
    requires forall i :: 0 <= i < |raw| ==> InUnit(raw[i].1)
    ensures forall p :: p in ClampAll(raw) ==> InUnit(p.1)
    decreases |raw|
  {
    if raw != [] {
      var n := |raw| - 1;
      ClampAllInUnit(raw[..n]);
      PutSpec(ClampAll(raw[..n]), raw[n].0, Clamp(raw[n].1));
    }
  }

  lemma {:induction false} ItemsInUnit(engine: Engine, xs: seq<Instance>, weights: seq<real>)
    requires EngineInUnit(engine)
    ensures forall i :: 0 <= i < |Items(EvaluateAll(engine, xs, weights))| ==> InUnit(Items(EvaluateAll(engine, xs, weights))[i].1)
    decreases |xs|
  {
    if xs != [] {
      var n := |xs| - 1;
      ItemsInUnit(engine, xs[..n], weights);
      var x := xs[n];
      var raw := engine(x, Evidence(x.atoms, x.values), weights).posteriors;
      ClampAllInUnit(raw);
      var a: Dict := Items(EvaluateAll(engine, xs[..n], weights));
      var b: Dict := ClampAll(raw);
      assert Items(EvaluateAll(engine, xs, weights)) == a + b;
      forall i | 0 <= i < |a + b| ensures InUnit((a + b)[i].1) {
        if i >= |a| { assert (a + b)[i] == b[i - |a|]; assert b[i - |a|] in b; }
      }
    }
  }

  /** A round keeps the weights probabilities when the engine reports probabilities. */
  lemma RoundInUnit(engine: Engine, xs: seq<Instance>, weights: seq<real>, ln: real -> real)
    requires EngineInUnit(engine) && WeightsInUnit(weights)
    ensures Round(engine, xs, weights, ln).Ok? ==> WeightsInUnit(Round(engine, xs, weights, ln).value.1)
  {
    ItemsInUnit(engine, xs, weights);
    UpdatedInUnit(weights, Items(EvaluateAll(engine, xs, weights)));
  }

  /** A round that keeps weights probabilities keeps them probabilities over a whole run. */
  lemma {:induction false} RunFromInUnit(round: Rounds, maxIter: int, minImprov: real, s: RunState)
    requires forall w :: WeightsInUnit(w) && round(w).Ok? ==> WeightsInUnit(round(w).value.1)
    requires WeightsInUnit(s.weights)
    ensures WeightsInUnit(RunFrom(round, maxIter, minImprov, s).state.weights)
    decreases maxIter - s.iteration
  {
    if Continues(s, maxIter, minImprov) {
      match round(s.weights)
      case Err(e) =>
      case Ok((score, w)) =>
        RunFromInUnit(round, maxIter, minImprov, RunState(s.iteration + 1, score - s.prev, score, w));
    }
  }

  /** When the engine reports probabilities, learning keeps every weight a probability. */
  lemma LearningInUnit(engine: Engine, xs: seq<Instance>, ln: real -> real, maxIter: int, minImprov: real, s: RunState)
    requires EngineInUnit(engine) && WeightsInUnit(s.weights)
    ensures WeightsInUnit(Learn(engine, xs, ln, maxIter, minImprov, s).state.weights)
  {
    forall w | WeightsInUnit(w) && Round(engine, xs, w, ln).Ok?
      ensures WeightsInUnit(Round(engine, xs, w, ln).value.1)
    {
      RoundInUnit(engine, xs, w, ln);
    }
    RunFromInUnit(w => Round(engine, xs, w, ln), maxIter, minImprov, s);
  }
}
