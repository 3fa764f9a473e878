# Learning from interpretations: a Dafny model

This project models the parameter-learning core of ProbLog's
`learning/lfi.py` and the two version-bump helpers of `setup.py`.

In the learner (`LFIProblem`), every probabilistic atom annotated `t(...)`
is a learnable parameter. Traversing the program rewrites such an atom into
an indirection fact `lfi(i)::lfi_fact_i(args)`. The traversal also emits a
redirection clause `p(args) :- lfi_fact_i(args)` and a query for the fact,
and allocates slot `i` in three parallel lists: `weights`, `queries` and
`names`. Existing `query/1` declarations are dropped.

The examples are grouped by their sorted atom tuple and compiled group by
group. Each EM round does the following:

- evaluates every compiled example under the current weights;
- decodes the evidence with `str2bool`;
- clamps posteriors below `1e-6` to zero;
- files each posterior under the slot named in its query;
- replaces each slot's weight by the mean of the posteriors it received.

`run` repeats rounds until the iteration budget is spent or the score stops
improving by more than `min_improv`. `read_examples` cuts an example file
into blocks at lines whose stripped text starts with `---`.

The modules follow the program's structure:

| module | file | what it holds |
|---|---|---|
| `Wrappers` | `wrappers.dfy` | `Option`, `Result`, and the Python exceptions the code can raise |
| `Text` | `text.dfy` | `isspace`, `strip`, `startswith`, `split`, `join`, `rsplit(sep, 1)` |
| `Decimal` | `decimal.dfy` | `str(int)` and `int(str)` on decimal text |
| `Terms` | `terms.dfy` | program terms and clauses: facts, rules, annotated disjunctions |
| `Rewriting` | `rewriting.dfy` | `_process_atom` and `__iter__` as functions on an explicit weight store |
| `Examples` | `examples.dfy` | `sorted(example)`, `zip(*...)`, the `defaultdict(list)` grouping, the compilation order |
| `Evaluation` | `evaluation.dfy` | `str2bool`, the evidence dictionary, the clamp, slot parsing, and the specification of `_update` |
| `Learning` | `learning.dfy` | one EM round and the `run` loop as a function of its state |
| `Lfi` | `lfi.dfy` | the class `LFIProblem`, whose methods update its fields in place, plus the array loops of `_update` |
| `ExampleFile` | `example_file.dfy` | the line-splitting loop of `read_examples` |
| `Version` | `version.dfy` | `increment_release` and `increment_dev` |

The stateful parts are imperative:

- `LFIProblem` is a class with fields `weights`, `queries`, `names`, `compiled` and `iteration`.
- `_update` fills two arrays (`fact_marg`, `fact_count`) in loops.
- `run` is a `while` loop.

Each method is proved against a functional specification, namely
`Rewriting.ProcessAtom`, `Rewriting.Rewrite`, `Examples.Grouped`,
`Evaluation.Tally`, `Evaluation.Updated` or `Learning.Learn`, and the
properties are proved about those functions.

The docstring of `__iter__` (`learning/lfi.py:199-208`) lists the two
`query(...)` clauses at the end of the output. The code (`learning/lfi.py:216-218`)
emits each query right after its redirection clause. The model follows the
code, and `Rewriting.DocumentedExample` states the output in the order the
code produces it.

## Model

| member | source | states |
|---|---|---|
| Evaluation.Str2Bool | learning/lfi.py:60-66 | `true` decodes to `Some(true)`, `false` to `Some(false)`, and every other text to `None`, each as an if-and-only-if |
| Evaluation.Evidence | learning/lfi.py:242 | the evidence dictionary's keys are exactly the atoms among the first `min(len(atoms), len(values))` positions, as `zip` truncates |
| Evaluation.EvidenceAt | learning/lfi.py:242 | an atom that is not repeated later in the example maps to `str2bool` of its own value |
| Evaluation.Clamp | learning/lfi.py:250-253 | a posterior below `1e-6` is reported as exactly `0.0`, otherwise unchanged; so a reported posterior is `0.0` or at least `1e-6` |
| Evaluation.Put | learning/lfi.py:251-253 | `pQueries[name] = w` stores `(name, w)` and grows the dictionary by at most one entry |
| Evaluation.PutSpec | learning/lfi.py:251-253 | `pQueries[name] = w` keeps names distinct, adds `name`, and stores no other pair |
| Evaluation.LookupPut | learning/lfi.py:251-253 | after `pQueries[name] = w`, looking up `name` gives `w` and every other name is unaffected |
| Evaluation.ClampAll | learning/lfi.py:246-253 | the posterior dictionary of one example has distinct names, exactly the names the engine reported, and only values that are `0.0` or at least `1e-6` |
| Evaluation.ClampAllLookup | learning/lfi.py:246-253 | each query's reported posterior is the clamp of the last value the engine gave for it |
| Evaluation.PyIndex | learning/lfi.py:91 | a list index is valid exactly when `-len <= i < len`, and a negative one counts from the end |
| Evaluation.SlotOfFactName | learning/lfi.py:267 | parsing `name.split('(')[0].rsplit('_', 1)[1]` of `lfi_fact_<i>` followed by `(...)` or nothing recovers `i` |
| Evaluation.EvaluateAll | learning/lfi.py:236-257 | one result per compiled example |
| Evaluation.EvaluateAllAt | learning/lfi.py:241-256 | the `i`-th result is the evaluation of the `i`-th compiled example, so the results come in the order of the compiled examples |
| Evaluation.EvaluateOne | learning/lfi.py:242-256 | one example's result carries the engine's evidence probability and holds exactly the query names the engine reported |
| Evaluation.SlotOf | learning/lfi.py:267 | parsing a name fails only with `IndexError` (no `_` in the functor) or `ValueError` (no integer after it) |
| Evaluation.Resolve | learning/lfi.py:267-269 | a name that resolves gives an index below `count` (after Python's negative-index wrap) |
| Evaluation.ResolveFactName | learning/lfi.py:150-269 | the posterior of the query `lfi_fact_<i>(...)` of slot `i` is filed under slot `i` |
| Evaluation.Resolver | learning/lfi.py:267-269 | the slot function `_update` uses never yields an index at or beyond `count` |
| Evaluation.Resolved | learning/lfi.py:266-267 | one resolved slot or error per reported posterior |
| Evaluation.ResolvedAt | learning/lfi.py:266-267 | the `i`-th entry is the slot (or error) of the `i`-th reported name |
| Evaluation.Tally | learning/lfi.py:265-270 | the first loop of `_update` succeeds only when every evidence probability is positive |
| Evaluation.Sums | learning/lfi.py:262-268 | `fact_marg` has one entry per slot |
| Evaluation.Counts | learning/lfi.py:263-269 | `fact_count` has one entry per slot |
| Evaluation.Updated | learning/lfi.py:273-275 | the update never changes the number of weights |
| Evaluation.FirstError | learning/lfi.py:265-269 | the reported error is the error of one of the names |
| Evaluation.NoFirstError | learning/lfi.py:265-269 | no error is raised exactly when every name resolves |
| Evaluation.SumsBounded | learning/lfi.py:268-269 | when posteriors are probabilities, each slot's sum lies between 0 and its count |
| Evaluation.UpdatedInUnit | learning/lfi.py:273-275 | when the old weights and the posteriors are probabilities, so are the new weights |
| Evaluation.SumsUniform | learning/lfi.py:268-269 | when every posterior filed under slot `k` equals `v`, `fact_marg[k] == fact_count[k] * v` |
| Evaluation.MeanUniform | learning/lfi.py:275 | the mean `fact_marg[k] / fact_count[k]` of posteriors that all equal `v` is `v` |
| Evaluation.UpdatedUniform | learning/lfi.py:273-275 | a slot that received no posterior keeps its weight; a slot whose posteriors all equal `v` becomes `v` |
| Evaluation.TallySucceeds | learning/lfi.py:265-270 | the first loop of `_update` succeeds exactly when every name resolves and every evidence probability is positive (so `math.log` is defined), and then yields the sum of the logs |
| Evaluation.TallyStops | learning/lfi.py:265-270 | once an example raises, later examples change nothing: the error is the first one in program order |
| Evaluation.ResolveStep | learning/lfi.py:266-267 | resolving the next name either raises the first error of the whole dictionary or extends the resolved prefix |
| Evaluation.FileOne | learning/lfi.py:268-269 | filing one posterior adds it to the sum and the count of its own slot and leaves the other slots alone |
| Examples.StrLeTotal | learning/lfi.py:119 | string comparison is total, so `sorted` is well defined on atoms |
| Examples.PairLeTotal | learning/lfi.py:119 | the tuple comparison `sorted` uses on `(atom, value)` pairs is total |
| Examples.Insert | learning/lfi.py:119 | one insertion step lengthens the sequence by one and puts `x` or the old head first |
| Examples.InsertKeeps | learning/lfi.py:119 | an insertion adds `x` and keeps every other pair (multiset) |
| Examples.InsertSorted | learning/lfi.py:119 | inserting into a sorted sequence keeps it sorted |
| Examples.SortPairs | learning/lfi.py:119 | `sorted(example)` keeps the length |
| Examples.SortPairsSpec | learning/lfi.py:119 | `sorted(example)` is a sorted permutation of the example |
| Examples.KeyAligned | learning/lfi.py:119 | `zip(*sorted(example))` gives an atom tuple and a value tuple of the example's length, aligned position by position with the sorted pairs |
| Examples.AddInstance | learning/lfi.py:120 | `result[atoms].append(values)` adds at most one group and exactly one value tuple |
| Examples.Grouped | learning/lfi.py:117-121 | grouping fails only with `ValueError`, and on success holds as many value tuples as there are examples |
| Examples.AddInstanceFiles | learning/lfi.py:120 | `result[atoms].append(values)` keeps the keys distinct, adds exactly one tuple, files it under `atoms` only, and creates no group but `atoms`' |
| Examples.AddInstanceFilesUnder | learning/lfi.py:120 | the appended tuple goes to the end of `atoms`' list and no other list changes |
| Examples.NoOtherInstances | learning/lfi.py:117-120 | a key no group holds has no value tuples |
| Examples.AddInstanceNonEmpty | learning/lfi.py:120 | appending never leaves an empty group |
| Examples.GroupedFails | learning/lfi.py:119 | grouping raises exactly when some example is empty (unpacking `zip()` of nothing fails) |
| Examples.GroupedPartition | learning/lfi.py:117-121 | the groups are a partition: distinct keys, as many tuples as examples, each key holding exactly the value tuples of the examples with that sorted atom tuple in example order, and no empty group |
| Examples.GroupedStopsAtError | learning/lfi.py:118-120 | the first empty example stops the grouping; the examples after it are never looked at |
| Examples.Instances | learning/lfi.py:132-137 | one compiled example per value tuple over all groups |
| Examples.InstancesSnoc | learning/lfi.py:132-137 | the compiled examples of one more group follow those of the groups before it |
| Rewriting.ProcessAtom | learning/lfi.py:141-174 | `_process_atom` fails exactly for a `t(...)` marker whose argument count is not one, and then with an assertion error. On success it allocates one slot per learnable atom, and the replacement is `lfi_fact_<count>(args)` with probability `lfi(<count>)`. Any other atom is returned as it is, with no extra clause and the lists unchanged |
| Rewriting.ProcessHeads | learning/lfi.py:220-225 | the heads of a disjunction fail only with an assertion error; on success there is one replacement per head and one slot is allocated per learnable head |
| Rewriting.RewriteClause | learning/lfi.py:213-234 | one clause fails only with an assertion error and then yields nothing; on success it allocates one slot per learnable atom it defines |
| Rewriting.Rewrite | learning/lfi.py:212-234 | a traversal fails only with an assertion error; on success it allocates exactly one slot per learnable atom met |
| Rewriting.ProcessAtomAllocatesOne | learning/lfi.py:144-172 | a learnable atom with one marker argument grows `weights`, `queries` and `names` by exactly one at index old `count`. The replacement is `lfi_fact_<count>(args)` with probability `lfi(<count>)`, and the extras are the redirection clause and the query. The initial weight is the constant start value, or the random draw otherwise |
| Rewriting.ProcessAtomRejectsArity | learning/lfi.py:146 | a `t(...)` marker with other than one argument fails the assertion |
| Rewriting.ProcessAtomLeavesOthers | learning/lfi.py:173-174 | any other atom is returned unchanged with no extra clause and the lists unchanged |
| Rewriting.ProcessAtomAppends | learning/lfi.py:141-174 | one call appends `LearnableCount(atom)` slots, emits two extra clauses per slot, and declares as queries exactly the new slots' facts in order. It keeps slot names consistent and yields no learnable atom |
| Rewriting.SlotClausesDeclare | learning/lfi.py:157-167 | the two extra clauses declare the new fact as the one query and define nothing learnable |
| Rewriting.AppendKeepsWellNamed | learning/lfi.py:150-166 | the fact appended to `queries` is named after its own index, so every query stays `lfi_fact_<its index>` |
| Rewriting.AppendsCompose | learning/lfi.py:212-234 | appending slots composes: two successive stretches of output are one stretch that allocates their sum |
| Rewriting.FactIsNotQuery | learning/lfi.py:214 | an `lfi_fact_i` atom is never taken for a `query/1` declaration |
| Rewriting.ProcessHeadsAppends | learning/lfi.py:219-227 | a disjunction's heads allocate one slot per learnable head. On success their extras declare exactly the new slots' queries in order, two clauses per slot, and define nothing learnable |
| Rewriting.ReplacedHeads | learning/lfi.py:220-224 | the processed heads of a disjunction: one per head |
| Rewriting.ProcessHeadsReplaces | learning/lfi.py:220-224 | on success the new heads are the old ones in order, each learnable one replaced by the indirection fact of the next free slot |
| Rewriting.ProcessHeadsPlain | learning/lfi.py:220-225 | heads without a learnable atom come back unchanged, with no extra clause and nothing allocated |
| Rewriting.ReplacedHeadsAt | learning/lfi.py:220-224 | head `k` stays at position `k`. It is unchanged unless learnable, and otherwise becomes `lfi_fact_j` with probability `lfi(j)`, where `j` is the first free slot plus the learnable heads before it |
| Rewriting.Replaced | learning/lfi.py:213-232 | the rewritten form of a clause keeps the clause's kind, its body and its number of heads |
| Rewriting.RewriteClauseAppends | learning/lfi.py:213-234 | on success one clause yields nothing if it is a `query/1` declaration, and otherwise one clause plus exactly two extras per slot it allocates. The extras declare exactly the new slots' queries |
| Rewriting.RewriteClauseReplaces | learning/lfi.py:213-234 | a kept clause that succeeds yields its rewritten form first: same kind, same body, same number of heads, each learnable atom replaced by its indirection fact. A `query/1` declaration yields nothing and allocates nothing. A clause without a learnable atom is yielded unchanged, alone, with nothing allocated |
| Rewriting.RewriteAppends | learning/lfi.py:212-234 | a whole traversal only ever appends to the three lists. On success it yields one clause per kept source clause plus two extras per learnable atom, allocates exactly one slot per learnable atom met, declares exactly the new slots' queries in order, and yields no learnable atom |
| Rewriting.RewriteKeepsPlain | learning/lfi.py:212-234 | a program without learnable atoms rewrites to itself without its `query/1` declarations, in order, and allocates nothing |
| Rewriting.RewriteErrorIgnoresStore | learning/lfi.py:212-234 | whether a traversal raises depends on the program alone, not on the slots already allocated |
| Rewriting.HeadsErrorIgnoresStore | learning/lfi.py:222-225 | whether a disjunction's heads raise depends on the heads alone |
| Rewriting.TraversalsAccumulate | learning/lfi.py:141-234 | a second traversal allocates a fresh set of slots: after two traversals `count` has grown by twice the number of learnable atoms |
| Rewriting.DocumentedExample | learning/lfi.py:192-208 | the docstring's two-rule example rewrites to the two indirection facts, each followed by its redirection clause and its query, with slots 0 and 1 |
| Rewriting.RewriteStopsAtError | learning/lfi.py:212-234 | a clause that raises ends the traversal: the clauses after it are never looked at |
| Rewriting.HeadsStopAtError | learning/lfi.py:222-225 | a head that raises ends the disjunction: the heads after it are never looked at |
| Learning.Round | learning/lfi.py:278-281 | a round that succeeds returns as many weights as it was given |
| Learning.RunFrom | learning/lfi.py:285-291 | the loop never lowers `iteration`, and when it ends without an error the loop condition is false |
| Learning.Learn | learning/lfi.py:283-291 | learning without an error ends with `iteration >= max_iter` or `delta <= min_improv`, and takes at least one step when the condition holds at the start |
| Learning.RunFromStops | learning/lfi.py:283-291 | the loop never lowers `iteration` nor runs past `max_iter`; without an error it ends with `iteration >= max_iter` or `delta <= min_improv`; and when the condition holds at the start, at least one step runs |
| Learning.ClampAllInUnit | learning/lfi.py:248-253 | clamping keeps posteriors that are probabilities probabilities |
| Learning.ItemsInUnit | learning/lfi.py:236-257 | when the engine reports probabilities, every posterior of a round is a probability |
| Learning.RoundInUnit | learning/lfi.py:278-281 | a round keeps the weights probabilities |
| Learning.RunFromInUnit | learning/lfi.py:283-291 | a loop of rounds that keep weights probabilities keeps them probabilities |
| Learning.LearningInUnit | learning/lfi.py:283-291 | learning keeps every weight a probability when the engine reports probabilities |
| Lfi.Truncate | learning/lfi.py:90 | `int()` of a float truncates toward zero |
| Lfi.IntOf | learning/lfi.py:90 | `int()` of a term succeeds exactly on numeric constants and returns an integer constant as it is |
| Lfi.FloatOf | learning/lfi.py:93 | `float()` of a term succeeds exactly on numeric constants. It returns a float constant as it is and an integer constant as its value |
| Lfi.LFIProblem.constructor | learning/lfi.py:70-81 | a new learner has empty `weights`, `queries` and `names`, no compiled examples and `iteration == 0` |
| Lfi.LFIProblem.Count | learning/lfi.py:95-98 | under the class invariant `Valid()`, which the constructor establishes and every method that changes the object preserves, `count` is the number of weights and equals the number of queries and of names |
| Lfi.LFIProblem.Value | learning/lfi.py:83-93 | `lfi(...)` with other than one argument fails the assertion. `lfi(i)` with an integer `i` succeeds exactly when `i` is a valid index, and yields a current weight. Any other label succeeds exactly when it is a number. A float passes through unchanged and an integer yields its value |
| Lfi.LFIProblem.ValueAtSlot | learning/lfi.py:88-91 | `lfi(k)` and `lfi(k - count)` both read `weights[k]` |
| Lfi.LFIProblem.ProcessAtom | learning/lfi.py:141-174 | the method does to the three lists exactly what `Rewriting.ProcessAtom` specifies, and the replacement's label reads the new slot's weight |
| Lfi.LFIProblem.ProcessHeadList | learning/lfi.py:220-225 | the heads of a disjunction are rewritten one by one as `Rewriting.ProcessHeads` specifies |
| Lfi.LFIProblem.ProcessClause | learning/lfi.py:213-234 | one clause is rewritten as `Rewriting.RewriteClause` specifies |
| Lfi.LFIProblem.Iter | learning/lfi.py:212-234 | a traversal yields the clauses of `Rewriting.Rewrite` and leaves the lists as it says |
| Lfi.LFIProblem.ProcessExamples | learning/lfi.py:104-121 | the grouping loop computes `Examples.Grouped`, a partition by `Examples.GroupedPartition` |
| Lfi.PrepareSpec | learning/lfi.py:100-138 | a failing `prepare` leaves the compiled examples as they were |
| Lfi.PrepareCompilesAll | learning/lfi.py:100-138 | a successful `prepare` allocates one slot per learnable atom and compiles exactly one example per input example |
| Lfi.LFIProblem.Prepare | learning/lfi.py:100-138 | `prepare` rewrites the program once, groups the examples and compiles them in order; the first error leaves the compiled examples as they were |
| Lfi.Compile | learning/lfi.py:131-137 | the nested compilation loop visits the value tuples group by group, in order |
| Lfi.LFIProblem.EvaluateExamples | learning/lfi.py:236-257 | before `prepare` there is nothing to iterate (a type error); afterwards each compiled example is evaluated under the current weights |
| Lfi.LFIProblem.Update | learning/lfi.py:259-276 | `_update` returns the score of `Evaluation.Tally`; on success the weights become `Evaluation.Updated` of the old ones, on error they are untouched, and nothing else changes |
| Lfi.Accumulate | learning/lfi.py:262-270 | the first loop of `_update` raises the first error in program order, or returns the score with `fact_marg`/`fact_count` equal to `Sums`/`Counts` of all posteriors |
| Lfi.AddExample | learning/lfi.py:266-270 | one example's pass files its posteriors and adds its log evidence, extending the prefix result by one example |
| Lfi.FilePosteriors | learning/lfi.py:266-269 | the inner loop raises the first unresolvable name or files every posterior under its slot |
| Lfi.FileEntry | learning/lfi.py:267-269 | one posterior raises its name's error or is added to its slot's sum and count |
| Lfi.FileAt | learning/lfi.py:268-269 | `fact_marg[index] += value` and `fact_count[index] += 1` change those two entries and no other |
| Lfi.Average | learning/lfi.py:273-275 | the averaging loop produces `Evaluation.Updated`: the mean where the count is positive, the old weight elsewhere |
| Lfi.LFIProblem.Step | learning/lfi.py:278-281 | `step` increments `iteration` by exactly one and performs one `Learning.Round`; on error the weights are untouched |
| Lfi.LFIProblem.Run | learning/lfi.py:283-291 | `run` prepares; on error it raises it. Otherwise it runs the loop of `Learning.Learn` from `delta = 1000`, `prev_score = -1e10` and returns the last score, with weights and `iteration` as the loop leaves them |
| ExampleFile.Blocks | learning/lfi.py:300-310 | there is at most one block more than there are lines, and text already accumulated always ends up in a block |
| ExampleFile.SplitBlocks | learning/lfi.py:299-310 | the reading loop yields exactly the blocks of `ExampleFile.Blocks` |
| ExampleFile.BlocksKeepText | learning/lfi.py:300-307 | the blocks, concatenated, are exactly the non-separator lines in order |
| ExampleFile.BlocksPerSeparator | learning/lfi.py:302-310 | at least one block per separator and at most one more, for the trailing text; a file ending in a separator yields exactly one block per separator |
| Text.TrimLeft | learning/lfi.py:302 | `lstrip` never lengthens its input |
| Text.TrimRight | learning/lfi.py:302 | `rstrip` never lengthens its input |
| Text.Strip | learning/lfi.py:302 | `strip` never lengthens its input |
| Text.TrimLeftSuffix | learning/lfi.py:302 | `lstrip` keeps a suffix that does not start with whitespace |
| Text.TrimLeftDropsSpace | learning/lfi.py:302 | `lstrip` removes only whitespace |
| Text.TrimRightPrefix | learning/lfi.py:302 | `rstrip` keeps a prefix that does not end with whitespace |
| Text.TrimRightDropsSpace | learning/lfi.py:302 | `rstrip` removes only whitespace |
| Text.StripNoSpace | learning/lfi.py:302 | text without surrounding whitespace is its own strip |
| Text.Join | setup.py:100 | joining `n >= 1` pieces gives text of at least `n - 1` characters, one per separator |
| Text.Split | setup.py:95 | `split` yields at least one piece |
| Text.SplitLacksSep | setup.py:95 | no piece of a split holds the separator |
| Text.JoinSplit | setup.py:95-100 | joining the pieces of a split gives the string back |
| Text.SplitJoin | setup.py:95-100 | splitting the join of separator-free pieces gives the pieces back |
| Text.SplitAfterPiece | learning/lfi.py:267 | a separator-free piece in front of the separator becomes the first piece |
| Text.SplitNoSep | learning/lfi.py:267 | a string without the separator splits into itself |
| Text.AfterLast | learning/lfi.py:267 | `rsplit(sep, 1)[1]` is shorter than its input, and fails only with `IndexError` |
| Text.AfterLastSpec | learning/lfi.py:267 | `rsplit(sep, 1)[1]` succeeds exactly when `sep` occurs, and is then the separator-free tail after the last `sep` |
| Text.AfterLastPiece | learning/lfi.py:267 | the tail after a separator that does not recur is what `rsplit` finds |
| Decimal.ParseInt | setup.py:97 | `int()` of blank text fails, and a negative result comes from text starting with `-` |
| Decimal.DigitChar | setup.py:97 | a digit value prints as the matching digit character |
| Decimal.NatToString | setup.py:97 | `str` of a natural number is a non-empty digit string without leading zeros |
| Decimal.IntToString | setup.py:97 | `str` of an integer is an optional minus sign followed by digits |
| Decimal.DigitsValueOfNatToString | setup.py:97 | reading back the digits `str` writes gives the number |
| Decimal.StripIntToString | setup.py:97 | `str` of an integer has no surrounding whitespace |
| Decimal.ParseSigned | setup.py:97 | `int` of an optionally signed digit string is its value |
| Decimal.ParseIntToString | setup.py:97 | `int(str(i)) == i` for every integer |
| Decimal.IntToStringInjective | setup.py:97 | different integers never print alike |
| Version.Components | setup.py:95 | a version has at least one component, and none holds a dot |
| Version.IncrementRelease | setup.py:94-100 | `increment_release` fails exactly when there are four components and the fourth is not an integer, and then with `ValueError` |
| Version.IncrementDev | setup.py:103-109 | `increment_dev` raises `IndexError` exactly when there are fewer than four components; its only other failure is `ValueError` |
| Version.BumpedHasNoDot | setup.py:97 | a bumped number is a single component |
| Version.ComponentsOfRender | setup.py:100 | rendering dot-free components and splitting again gives them back |
| Version.ReleaseBumpsFourth | setup.py:95-97 | with four components, `increment_release` keeps the first three and replaces the fourth by its integer successor, or raises `ValueError` when it is not an integer |
| Version.ReleaseTruncates | setup.py:98-99 | with any other count, `increment_release` keeps only the first four components: fewer than four come back unchanged, a dev suffix is dropped |
| Version.DevFromFour | setup.py:105-106 | with four components, `increment_dev` bumps the fourth and appends `dev1` |
| Version.DevFromFiveOrMore | setup.py:107-108 | with five or more, `increment_dev` keeps four and makes the fifth `'dev' + str(int(v[4][3:]) + 1)`, dropping the rest |
| Version.DevNeedsFourComponents | setup.py:108 | with fewer than four components, `increment_dev` raises `IndexError` |
| Version.Shapes | setup.py:94-109 | `increment_release` yields at most four components; `increment_dev` yields exactly five and keeps the first three |
| Version.ReleaseAfterDev | setup.py:94-109 | for four components, `increment_release(increment_dev(v)) == increment_release(v)` |
| Version.SmallNumbers | setup.py:97 | `int('1') == 1` and the successor of 1 prints as `2` |
| Version.DevOneToTwo | setup.py:107-108 | a `dev1` version bumps to `dev2` on the same four components |
| Version.DevTwice | setup.py:103-109 | two dev bumps from a four-component release give `dev2` on the bumped release |

## Left out

- The inference engine is a function parameter: `DefaultEngine().prepare`, `ground`, `knowledge.createFrom`, `getEvaluator`, `evaluate` and `evaluateEvidence` (`learning/lfi.py:128-137, 244-254`). Given a compiled example, its evidence and the weights, it returns the evidence probability and the raw posteriors by query name.
- The grounding and compilation of an example are represented by the example itself (its atoms and value tuple). The base program is not passed on to the engine.
- `math.log` is a parameter `ln: real -> real`. Python raises `ValueError` for a non-positive argument, and the model raises it there too.
- `random.random()` is a parameter `draw`, keyed by the slot index being allocated.
- Floats are modelled as reals. Rounding, infinities and NaN are not modelled, so a posterior or a mean is exact.
- Terms are modelled by their printed text where the source prints them (`str(atom)`, the query names). The model does not define the printer.
- String operations follow Python 3's Unicode semantics: `isspace` and `strip` use Python 3's Unicode whitespace set. Python 2 byte-string semantics, which the module also runs under, are not modelled.
- Term order in `sorted(example)` is code-point order on the printed atom and value strings. ProbLog's own `Term` order is not part of this model.
- `int()` accepts ASCII digits with an optional sign and surrounding whitespace. Unicode digits and `_` separators are not modelled.
- `float()` of the strings `inf` and `nan` is not modelled. `float()` of a term is defined only on numeric constants, and any other term raises a type error.
- `__iter__` is a generator that interleaves its side effects with its consumer. The model produces the whole list of clauses at once, with the slots allocated in the same order.
- `prepare` assumes the engine traverses the program exactly once per call. Every traversal allocates fresh slots, as `Rewriting.TraversalsAccumulate` states.
- File I/O, `PrologString` and `engine.query` in `read_examples` are left out. The model splits a sequence of lines into the text blocks the loop would parse.
- The `__main__` argparse block of `learning/lfi.py` and `run_lfi` are left out, because they are command-line plumbing.
- `problog-cli.py` is not part of this model.
- The setuptools install block, the `exec` of the version file and the version-file writes in `setup.py` are I/O and packaging, and are left out.
- Python dictionaries are taken to iterate in insertion order, as they do from Python 3.7 on. That fixes the order of the compiled examples (`examples.items()`, `learning/lfi.py:132`) and the order in which `_update` meets the posteriors (`result.items()`, `learning/lfi.py:266`), and so which error it raises first. Under Python 2, which the module also supports, that order is the hash order and is not modelled.
- Evaluation.EvaluateAll: its ensures states only the length. The element-wise result is stated by `Evaluation.EvaluateAllAt`, so that the loops using it stay within the verifier's resource limit.
- Evaluation.Resolved: its ensures states only the length. The element-wise result is stated by `Evaluation.ResolvedAt`, for the same reason.
- Evaluation.Tally: its ensures states only that success needs positive evidence. The full if-and-only-if and the score it returns are stated by `Evaluation.TallySucceeds`, and the first-error behaviour by `Evaluation.TallyStops`.
- Evaluation.Sums and Evaluation.Counts: their ensures state only the length; what they hold is stated by `Evaluation.FileOne`, `Evaluation.SumsUniform` and `Evaluation.SumsBounded`. The specification also skips a slot index at or beyond `count`. `Resolve` never yields one, because Python raises `IndexError` there first. The array loop therefore needs no such branch.
- Lfi.Accumulate: it takes the slot function as a parameter bounded by `count`. `Update` passes it `Resolver(count)`, the parse of `_update`.
- Evaluation.Updated: its ensures states only the length. The meaning of the update is stated by `Evaluation.UpdatedUniform`, `Evaluation.UpdatedInUnit` and the method `Lfi.Average`.
