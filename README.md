# Join node of the kysely query AST, in Dafny

kysely builds SQL queries as trees of immutable operation nodes, each tagged
by its kind. This project models the join node
(`src/operation-node/join-node.ts`): its three closed type unions, its type
guard, its two constructors and its two clone-with combinators. It also proves
what those promise, alone and when they are called one after another.

- `operation_node.dfy`, module `OperationNodes`: the node kinds a join refers
  to (table, alias, filter, AND, OR, parens, join) as constructors of one
  `OperationNode` datatype. `Kind()` returns the node's kind tag. The join kinds
  are `JoinType` (`InnerJoin | LeftJoin | RightJoin | FullJoin`, line 11). An
  absent `on` is `None`.
- `join_node.dfy`, module `JoinNodes`: the type unions `JoinTableNode` (table
  or alias, line 10), `JoinNodeOnNode` (filter, AND, OR or parens, line 12) and
  `JoinNode` (lines 14-19) are subset types of `OperationNode`. Every factory
  returns a `JoinNode`, so the verifier proves that a result's table is always
  a table or alias and that its condition, when present, is always one of the
  four legal kinds. The module holds `Is`, `Create`, `CreateWithOn`,
  `CloneWithOn` and `CloneWithOrOn`, and lemmas relating them.
- `condition_semantics.dfy`, module `ConditionSemantics`: a reference meaning
  for join conditions in SQL's three-valued logic. A caller supplies each
  filter's truth value. An absent condition holds for every row pair. With
  this meaning, one clone step is proved to conjoin (or disjoin) the old and
  new conditions.
- `join_chain.dfy`, module `JoinChains`: runs of clone calls. A run of
  `CloneWithOn` calls starting from `Create` builds a left-nested AND chain.
  Peeling that chain gives back the added conditions in call order, and the
  chain means "all of them hold". Mixed AND/OR runs keep the grouping fixed at
  each call: `(p1 OR p2) AND p3` stays grouped. A lemma shows that this
  grouping changes the meaning compared with the ungrouped reading.

`create` and `createWithOn` (`join-node.ts:29-49`) check neither the
table's nor the condition's kind at run time. The TypeScript types restrict
them. The model makes that restriction the subset types `JoinTableNode` and
`JoinNodeOnNode`, so there is no error path.

## Model

| member | source | states |
|---|---|---|
| OperationNodes.OperationNode.Kind | src/operation-node/join-node.ts:15 | every node carries one tag from the closed set of kind tags ("JoinNode" for joins) |
| OperationNodes.KindIsDiscriminant | src/operation-node/join-node.ts:14-15 | two nodes carry the same kind tag exactly when they are the same kind of node, so the tag can stand for the kind |
| JoinNodes.IsJoinTableNode | src/operation-node/join-node.ts:10 | a legal join table is exactly a node tagged "TableNode" or "AliasNode" |
| JoinNodes.IsJoinOnNode | src/operation-node/join-node.ts:12 | a legal join condition is exactly a node tagged "FilterNode", "AndNode", "OrNode" or "ParensNode" |
| JoinNodes.IsWellTypedJoin | src/operation-node/join-node.ts:14-19 | a join node is exactly a "JoinNode"-tagged node whose table is a table or alias and whose `on` is absent or a legal condition |
| JoinNodes.Is | src/operation-node/join-node.ts:25-27 | the guard, which compares the kind tag with "JoinNode", holds exactly for join-constructed nodes |
| JoinNodes.IsNarrowsToJoinNode | src/operation-node/join-node.ts:14-19 | the guard narrows to a well-typed JoinNode when join-tagged nodes carry the declared field types |
| JoinNodes.IsDoesNotCheckFields | src/operation-node/join-node.ts:25-27 | the guard reads the tag only: a join-tagged node with a filter as its table passes it although it is not a well-typed join |
| JoinNodes.Create | src/operation-node/join-node.ts:29-36 | result is a join (guard holds) with the given join type and table and no condition |
| JoinNodes.CreateWithOn | src/operation-node/join-node.ts:38-49 | result is a join with the given join type, table and exactly the given condition |
| JoinNodes.CloneWithOn | src/operation-node/join-node.ts:51-56 | only `on` changes; with no condition the new one is installed unwrapped, otherwise `on` becomes AND(old, new) with old on the left |
| JoinNodes.CloneWithOrOn | src/operation-node/join-node.ts:58-63 | only `on` changes; with no condition the new one is installed unwrapped, otherwise `on` becomes OR(old, new) with old on the left |
| JoinNodes.CloneOfUnconditionedIsCreateWithOn | src/operation-node/join-node.ts:51-63 | on a join from `Create`, both clone operations equal `CreateWithOn` with the same condition |
| JoinNodes.CloneWithOnInjective | src/operation-node/join-node.ts:51-56 | given whether the input had a condition, the AND clone determines both the input join and the added condition |
| JoinNodes.CloneWithOrOnInjective | src/operation-node/join-node.ts:58-63 | given whether the input had a condition, the OR clone determines both the input join and the added condition |
| JoinNodes.CloneWithOnForgetsPresence | src/operation-node/join-node.ts:54 | without that knowledge the AND clone is ambiguous: adding b to a join on a equals adding AND(a, b) to the unconditioned join |
| ConditionSemantics.ConditionIsJoinOnNode | src/operation-node/join-node.ts:12 | every filter/AND/OR/parens tree is a legal join condition |
| ConditionSemantics.CloneWithOnConjoins | src/operation-node/join-node.ts:54 | the AND clone keeps a condition tree, and its condition means old AND new (an absent old condition means true) |
| ConditionSemantics.CloneWithOrOnDisjoins | src/operation-node/join-node.ts:61 | the OR clone keeps a condition tree, and its condition means old OR new; on an unconditioned join it means the new condition alone |
| JoinChains.ExtendAllKeepsJoin | src/operation-node/join-node.ts:51-63 | any run of clone calls changes only `on`: kind, join type and table are those of the starting join |
| JoinChains.ExtendAllFromCreate | src/operation-node/join-node.ts:51-63 | a run of AND/OR clone calls from `Create` yields `CreateWithOn` of the left-nested combination of the steps, in call order |
| JoinChains.ApplyOnFromCreate | src/operation-node/join-node.ts:54 | successive `CloneWithOn` calls c1..cn from `Create` yield the left-nested AND chain of c1..cn |
| JoinChains.ApplyOnIsExtendAll | src/operation-node/join-node.ts:51-56 | successive `CloneWithOn` calls are the all-AND case of a mixed run of clone calls |
| JoinChains.AndChainIsCombine | src/operation-node/join-node.ts:54 | the left-nested AND chain is the all-AND case of the mixed combination built by clone calls |
| JoinChains.UnchainAndChain | src/operation-node/join-node.ts:54 | peeling n-1 ANDs off the left spine of the chain gives back c1..cn in call order, so nothing is flattened or reordered |
| JoinChains.AndChainMeansAll | src/operation-node/join-node.ts:54 | the AND chain is a condition tree and holds exactly when all of c1..cn hold (three-valued) |
| JoinChains.AllHoldIsStepsHold | src/operation-node/join-node.ts:54 | the meaning "all added conditions hold" is the all-AND case of the meaning of a mixed run |
| JoinChains.CombineMeansSteps | src/operation-node/join-node.ts:51-63 | a mixed run means the left-to-right fold of its steps, each step applied to everything built before it |
| JoinChains.AndOrAndKeepsGrouping | src/operation-node/join-node.ts:51-63 | AND p1, OR p2, AND p3 from `Create` gives the condition AND(OR(p1, p2), p3) |
| JoinChains.GroupingChangesMeaning | src/operation-node/join-node.ts:51-63 | with p1 true and p3 false, the join built by AND p1, OR p2, AND p3 from `Create` has a false condition, while the ungrouped reading OR(p1, AND(p2, p3)) is true |

## Left out

- `freeze` (`join-node.ts:1`, `join-node.ts:24`): runtime immutability. Dafny datatype values are immutable already, so the input of a clone is unchanged by construction.
- The node kinds a join refers to are modelled only as constructors. A table is a bare name and an alias a node with a name. A filter is three strings. The modules that define those nodes are not part of this model, so their own fields and factories are left out.
- `Is` accepts any `OperationNode`. The model's `OperationNode` has only the seven kinds above, not kysely's full set of node kinds.
- SQL compilation, placeholder and parameter collection, dialect quoting, and the parentheses added when rendering live in other files of the repository (the compiler and the dialect adapters); those files are not part of this model.
- The three-valued meaning of conditions (`ConditionSemantics.Eval`) is a reference definition for SQL's AND/OR/parens. The join node itself does not evaluate conditions, and a filter's truth value is a parameter.
- `src/util/type-utils.ts` holds only compile-time type aliases with no runtime behaviour.
- The test setup and the raw-query tests run against a live database (I/O) and are not modelled.
