/** The slice of the query AST that a join node touches.

    Every node of the AST is an immutable value tagged by its kind. Only the
    node kinds a join refers to are modelled here, each as a bare constructor
    with the fields the join factories read or build; they add no behaviour
    of their own.
 */
module OperationNodes {

  /** An optional field: `None` stands for a property that is `undefined`. */
  datatype Option<+T> = None | Some(value: T)

  /** The four kinds of join a join node can carry. */
  datatype JoinType = InnerJoin | LeftJoin | RightJoin | FullJoin

  /** A node of the query AST. */
  datatype OperationNode =
    | Table(name: string)
    | Alias(node: OperationNode, alias: string)
    | Filter(lhs: string, op: string, rhs: string)
    | And(left: OperationNode, right: OperationNode)
    | Or(left: OperationNode, right: OperationNode)
    | Parens(node: OperationNode)
    | Join(joinType: JoinType, table: OperationNode, on: Option<OperationNode>)
  {
    /** The node's kind tag, as the AST stores it in its `kind` property; it
        is one of a closed set of tags. */
    function Kind(): (r: string)
      ensures r in {"TableNode", "AliasNode", "FilterNode", "AndNode", "OrNode", "ParensNode", "JoinNode"}
    {
      match this
      case Table(_) => "TableNode"
      case Alias(_, _) => "AliasNode"
      case Filter(_, _, _) => "FilterNode"
      case And(_, _) => "AndNode"
      case Or(_, _) => "OrNode"
      case Parens(_) => "ParensNode"
      case Join(_, _, _) => "JoinNode"
    }
  }

  /** The kind tag is a discriminant: two nodes carry the same tag exactly
      when they are built by the same constructor. */
  lemma KindIsDiscriminant(a: OperationNode, b: OperationNode)
    ensures a.Kind() == b.Kind() <==>
      (a.Table? && b.Table?) || (a.Alias? && b.Alias?) || (a.Filter? && b.Filter?)
      || (a.And? && b.And?) || (a.Or? && b.Or?) || (a.Parens? && b.Parens?) || (a.Join? && b.Join?)
  {
  }
}
