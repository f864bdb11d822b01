/** The join node and its factories.

    The three type unions of the join node (legal table operands, join kinds
    and legal condition operands) are closed: here they are subset types of
    `OperationNode`, so every factory can only ever build a join whose table
    is a table or an alias and whose condition, when present, is a filter,
    an AND, an OR or a parenthesised node.
 */
module JoinNodes {
  import opened OperationNodes

  /** A table or an aliased table: the only legal `table` of a join,
      told apart by its kind tag. */
  predicate IsJoinTableNode(n: OperationNode): (r: bool)
    ensures r <==> n.Kind() in {"TableNode", "AliasNode"}
  {
    n.Table? || n.Alias?
  }

  /** A filter, AND, OR or parens node: the only legal `on` of a join,
      told apart by its kind tag. */
  predicate IsJoinOnNode(n: OperationNode): (r: bool)
    ensures r <==> n.Kind() in {"FilterNode", "AndNode", "OrNode", "ParensNode"}
  {
    n.Filter? || n.And? || n.Or? || n.Parens?
  }

  /** A join node whose fields have the types the join node declares: the
      kind tag "JoinNode", a table-or-alias `table`, and an `on` that is
      absent or a filter, AND, OR or parens node. */
  predicate IsWellTypedJoin(n: OperationNode): (r: bool)
    ensures r <==> n.Kind() == "JoinNode"
                   && n.table.Kind() in {"TableNode", "AliasNode"}
                   && (n.on.Some? ==> n.on.value.Kind() in {"FilterNode", "AndNode", "OrNode", "ParensNode"})
  {
    n.Join? && IsJoinTableNode(n.table) && (n.on.Some? ==> IsJoinOnNode(n.on.value))
  }

  type JoinTableNode = n: OperationNode | IsJoinTableNode(n) witness Table("")

  type JoinNodeOnNode = n: OperationNode | IsJoinOnNode(n) witness Filter("", "", "")

  type JoinNode = n: OperationNode | IsWellTypedJoin(n) witness Join(InnerJoin, Table(""), None)

  /** The type guard: true exactly for nodes tagged as joins. */
  function Is(node: OperationNode): (r: bool)
    ensures r <==> node.Join?
  {
    node.Kind() == "JoinNode"
  }

  /** Within a tree whose join-tagged nodes are well typed, the guard
      recognises exactly the join nodes. */
  lemma IsNarrowsToJoinNode(node: OperationNode)
    requires node.Join? ==> IsWellTypedJoin(node)
    ensures Is(node) <==> IsWellTypedJoin(node)
  {
  }

  /** The guard looks at the kind tag only: a join-tagged node whose table is
      a filter passes it, though it is not a well-typed join. */
  lemma IsDoesNotCheckFields()
    ensures Is(Join(InnerJoin, Filter("", "", ""), None))
    ensures !IsWellTypedJoin(Join(InnerJoin, Filter("", "", ""), None))
  {
  }

  /** A join with no condition. */
  function Create(joinType: JoinType, table: JoinTableNode): (r: JoinNode)
    ensures Is(r)
    ensures r.joinType == joinType && r.table == table
    ensures r.on == None
  {
    Join(joinType, table, None)
  }

  /** A join with the given condition. */
  function CreateWithOn(joinType: JoinType, table: JoinTableNode, on: JoinNodeOnNode): (r: JoinNode)
    ensures Is(r)
    ensures r.joinType == joinType && r.table == table
    ensures r.on == Some(on)
  {
    Join(joinType, table, Some(on))
  }

  /** A copy of `joinNode` whose condition is extended with `on` under AND.
      The existing condition, if any, becomes the left operand and `on` the
      right one; with no existing condition `on` is installed unchanged. */
  function CloneWithOn(joinNode: JoinNode, on: JoinNodeOnNode): (r: JoinNode)
    ensures r == joinNode.(on := r.on)
    ensures joinNode.on.None? ==> r.on == Some(on)
    ensures joinNode.on.Some? ==> r.on == Some(And(joinNode.on.value, on))
  {
    joinNode.(on := if joinNode.on.Some? then Some(And(joinNode.on.value, on)) else Some(on))
  }

  /** As `CloneWithOn`, with OR in place of AND. */
  function CloneWithOrOn(joinNode: JoinNode, on: JoinNodeOnNode): (r: JoinNode)
    ensures r == joinNode.(on := r.on)
    ensures joinNode.on.None? ==> r.on == Some(on)
    ensures joinNode.on.Some? ==> r.on == Some(Or(joinNode.on.value, on))
  {
    joinNode.(on := if joinNode.on.Some? then Some(Or(joinNode.on.value, on)) else Some(on))
  }

  /** On a join without a condition, both clone operations coincide with
      creating the join with that condition. */
  lemma CloneOfUnconditionedIsCreateWithOn(joinType: JoinType, table: JoinTableNode, on: JoinNodeOnNode)
    ensures CloneWithOn(Create(joinType, table), on) == CreateWithOn(joinType, table, on)
    ensures CloneWithOrOn(Create(joinType, table), on) == CreateWithOn(joinType, table, on)
  {
  }

  /** Cloning loses nothing: from the result, together with whether the input
      had a condition, the input join and the added condition are determined. */
  lemma CloneWithOnInjective(j1: JoinNode, c1: JoinNodeOnNode, j2: JoinNode, c2: JoinNodeOnNode)
    requires j1.on.Some? == j2.on.Some?
    requires CloneWithOn(j1, c1) == CloneWithOn(j2, c2)
    ensures j1 == j2 && c1 == c2
  {
  }

  /** As `CloneWithOnInjective`, for the OR variant. */
  lemma CloneWithOrOnInjective(j1: JoinNode, c1: JoinNodeOnNode, j2: JoinNode, c2: JoinNodeOnNode)
    requires j1.on.Some? == j2.on.Some?
    requires CloneWithOrOn(j1, c1) == CloneWithOrOn(j2, c2)
    ensures j1 == j2 && c1 == c2
  {
  }

  /** Without knowing whether the input had a condition, the result is
      ambiguous: adding `b` to a join on `a` equals adding `And(a, b)` to the
      same join without a condition. */
  lemma CloneWithOnForgetsPresence(joinType: JoinType, table: JoinTableNode, a: JoinNodeOnNode, b: JoinNodeOnNode)
    ensures CloneWithOn(CreateWithOn(joinType, table, a), b) == CloneWithOn(Create(joinType, table), And(a, b))
  {
  }
}
