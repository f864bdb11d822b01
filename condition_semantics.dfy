/** What a join condition means.

    A condition tree built from filters, AND, OR and parens denotes a truth
    value in SQL's three-valued logic once every filter has been given one.
    A join without a condition matches every row pair. This reference meaning
    states what the clone operations promise: extending a condition keeps
    what was there and combines it with the new one, without re-association.
 */
module ConditionSemantics {
  import opened OperationNodes
  import opened JoinNodes

  /** SQL's three truth values. */
  datatype Truth = True | False | Unknown

  function And3(a: Truth, b: Truth): Truth {
    if a == False || b == False then False
    else if a == True && b == True then True
    else Unknown
  }

  function Or3(a: Truth, b: Truth): Truth {
    if a == True || b == True then True
    else if a == False && b == False then False
    else Unknown
  }

  /** A node built only from filters, AND, OR and parens, at every depth. */
  predicate IsCondition(n: OperationNode) {
    match n
    case Filter(_, _, _) => true
    case And(l, r) => IsCondition(l) && IsCondition(r)
    case Or(l, r) => IsCondition(l) && IsCondition(r)
    case Parens(inner) => IsCondition(inner)
    case _ => false
  }

  /** An absent condition, or a present one that is a condition tree. */
  predicate IsConditionOn(on: Option<OperationNode>) {
    on.Some? ==> IsCondition(on.value)
  }

  /** The truth value of a condition tree, given the truth value of each filter. */
  function Eval(n: OperationNode, facts: OperationNode -> Truth): Truth
    requires IsCondition(n)
  {
    match n
    case Filter(_, _, _) => facts(n)
    case And(l, r) => And3(Eval(l, facts), Eval(r, facts))
    case Or(l, r) => Or3(Eval(l, facts), Eval(r, facts))
    case Parens(inner) => Eval(inner, facts)
  }

  /** The truth value of a join's condition; an absent one holds for every row pair. */
  function EvalOn(on: Option<OperationNode>, facts: OperationNode -> Truth): Truth
    requires IsConditionOn(on)
  {
    if on.Some? then Eval(on.value, facts) else True
  }

  /** Every condition tree is a legal join condition. */
  lemma ConditionIsJoinOnNode(n: OperationNode)
    requires IsCondition(n)
    ensures IsJoinOnNode(n)
  {
  }

  /** Extending a join's condition with AND keeps a condition tree, and the
      new condition holds exactly when the old one and the added one both do. */
  lemma CloneWithOnConjoins(joinNode: JoinNode, on: JoinNodeOnNode, facts: OperationNode -> Truth)
    requires IsConditionOn(joinNode.on) && IsCondition(on)
    ensures IsConditionOn(CloneWithOn(joinNode, on).on)
    ensures EvalOn(CloneWithOn(joinNode, on).on, facts) == And3(EvalOn(joinNode.on, facts), Eval(on, facts))
  {
  }

  /** Extending a join's condition with OR keeps a condition tree; the new
      condition is the disjunction of the old and the added one, except that
      on a join without a condition it is the added one alone. */
  lemma CloneWithOrOnDisjoins(joinNode: JoinNode, on: JoinNodeOnNode, facts: OperationNode -> Truth)
    requires IsConditionOn(joinNode.on) && IsCondition(on)
    ensures IsConditionOn(CloneWithOrOn(joinNode, on).on)
    ensures joinNode.on.Some? ==>
      EvalOn(CloneWithOrOn(joinNode, on).on, facts) == Or3(EvalOn(joinNode.on, facts), Eval(on, facts))
    ensures joinNode.on.None? ==>
      EvalOn(CloneWithOrOn(joinNode, on).on, facts) == Eval(on, facts)
  {
  }
}
