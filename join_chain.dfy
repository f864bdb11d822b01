/** Repeated extension of a join's condition.

    A query builder extends a join by calling the clone operations one after
    another. Because each call wraps the whole existing condition as the left
    operand, a run of calls builds a left-nested tree whose right operands are
    the added conditions in call order; nothing is ever flattened.
 */
module JoinChains {
  import opened OperationNodes
  import opened JoinNodes
  import opened ConditionSemantics

  /** One extension step: AND-with or OR-with a condition. */
  datatype Merge = AndOn(cond: JoinNodeOnNode) | OrOn(cond: JoinNodeOnNode)

  /** One clone call. */
  function Extend(joinNode: JoinNode, m: Merge): JoinNode {
    match m
    case AndOn(c) => CloneWithOn(joinNode, c)
    case OrOn(c) => CloneWithOrOn(joinNode, c)
  }

  /** The clone calls `ms`, made in order, starting from `joinNode`. */
  function ExtendAll(joinNode: JoinNode, ms: seq<Merge>): JoinNode
    decreases |ms|
  {
    if ms == [] then joinNode else Extend(ExtendAll(joinNode, ms[..|ms| - 1]), ms[|ms| - 1])
  }

  /** Successive `CloneWithOn` calls with the conditions `cs`. */
  function ApplyOn(joinNode: JoinNode, cs: seq<JoinNodeOnNode>): JoinNode
    decreases |cs|
  {
    if cs == [] then joinNode else CloneWithOn(ApplyOn(joinNode, cs[..|cs| - 1]), cs[|cs| - 1])
  }

  /** The run of AND steps with the conditions `cs`, in order. */
  function AllAnd(cs: seq<JoinNodeOnNode>): (ms: seq<Merge>)
    ensures |ms| == |cs|
    ensures forall i :: 0 <= i < |cs| ==> ms[i] == AndOn(cs[i])
  {
    seq(|cs|, i requires 0 <= i < |cs| => AndOn(cs[i]))
  }

  /** Reference shape: the left-nested AND of `cs`, first condition innermost. */
  function AndChain(cs: seq<JoinNodeOnNode>): JoinNodeOnNode
    requires |cs| > 0
    decreases |cs|
  {
    if |cs| == 1 then cs[0] else And(AndChain(cs[..|cs| - 1]), cs[|cs| - 1])
  }

  /** Reference shape for mixed steps: each step wraps everything before it
      as its left operand; the first step's kind does not matter. */
  function Combine(ms: seq<Merge>): JoinNodeOnNode
    requires |ms| > 0
    decreases |ms|
  {
    if |ms| == 1 then ms[0].cond
    else
      var prior := Combine(ms[..|ms| - 1]);
      match ms[|ms| - 1]
      case AndOn(c) => And(prior, c)
      case OrOn(c) => Or(prior, c)
  }

  /** The inverse of `AndChain`: peels `depth` AND nodes off the left spine
      and lists the operands met, innermost first. */
  function Unchain(n: OperationNode, depth: nat): Option<seq<OperationNode>>
    decreases depth
  {
    if depth == 0 then Some([n])
    else
      match n
      case And(l, r) =>
        (match Unchain(l, depth - 1)
         case Some(s) => Some(s + [r])
         case None => None)
      case _ => None
  }

  /** Clone calls change only the condition, however many are made. */
  lemma {:induction false} ExtendAllKeepsJoin(joinNode: JoinNode, ms: seq<Merge>)
    ensures ExtendAll(joinNode, ms) == joinNode.(on := ExtendAll(joinNode, ms).on)
    decreases |ms|
  {
    if ms != [] {
      ExtendAllKeepsJoin(joinNode, ms[..|ms| - 1]);
    }
  }

  /** Starting from a join without a condition, a run of clone calls yields
      the join with the combined condition; no call is lost or reordered. */
  lemma {:induction false} ExtendAllFromCreate(joinType: JoinType, table: JoinTableNode, ms: seq<Merge>)
    ensures ms == [] ==> ExtendAll(Create(joinType, table), ms) == Create(joinType, table)
    ensures ms != [] ==> ExtendAll(Create(joinType, table), ms) == CreateWithOn(joinType, table, Combine(ms))
    decreases |ms|
  {
    if |ms| > 1 {
      ExtendAllFromCreate(joinType, table, ms[..|ms| - 1]);
    }
  }

  /** Successive `CloneWithOn` calls from `Create` build the left-nested AND
      chain of the conditions. */
  lemma {:induction false} ApplyOnFromCreate(joinType: JoinType, table: JoinTableNode, cs: seq<JoinNodeOnNode>)
    ensures cs == [] ==> ApplyOn(Create(joinType, table), cs) == Create(joinType, table)
    ensures cs != [] ==> ApplyOn(Create(joinType, table), cs) == CreateWithOn(joinType, table, AndChain(cs))
    decreases |cs|
  {
    if |cs| > 1 {
      ApplyOnFromCreate(joinType, table, cs[..|cs| - 1]);
    }
  }

  /** `ApplyOn` is the all-AND special case of `ExtendAll`. */
  lemma {:induction false} ApplyOnIsExtendAll(joinNode: JoinNode, cs: seq<JoinNodeOnNode>)
    ensures ApplyOn(joinNode, cs) == ExtendAll(joinNode, AllAnd(cs))
    decreases |cs|
  {
    if cs != [] {
      var init := cs[..|cs| - 1];
      assert AllAnd(cs)[..|cs| - 1] == AllAnd(init);
      ApplyOnIsExtendAll(joinNode, init);
    }
  }

  /** The AND chain is the all-AND case of the mixed combination. */
  lemma {:induction false} AndChainIsCombine(cs: seq<JoinNodeOnNode>)
    requires |cs| > 0
    ensures AndChain(cs) == Combine(AllAnd(cs))
    decreases |cs|
  {
    if |cs| > 1 {
      var init := cs[..|cs| - 1];
      assert AllAnd(cs)[..|cs| - 1] == AllAnd(init);
      AndChainIsCombine(init);
    }
  }

  /** Round trip: peeling the chain of `cs` gives back `cs`, in call order.
      The chain has exactly one AND per added condition after the first. */
  lemma {:induction false} UnchainAndChain(cs: seq<JoinNodeOnNode>)
    requires |cs| > 0
    ensures Unchain(AndChain(cs), |cs| - 1) == Some(cs)
    decreases |cs|
  {
    if |cs| > 1 {
      var init := cs[..|cs| - 1];
      UnchainAndChain(init);
      assert init + [cs[|cs| - 1]] == cs;
    } else {
      assert [cs[0]] == cs;
    }
  }

  /** The AND of a run of conditions on every row pair. */
  function AllHold(cs: seq<JoinNodeOnNode>, facts: OperationNode -> Truth): Truth
    requires forall i :: 0 <= i < |cs| ==> IsCondition(cs[i])
    decreases |cs|
  {
    if cs == [] then True else And3(AllHold(cs[..|cs| - 1], facts), Eval(cs[|cs| - 1], facts))
  }

  /** The chain built by successive `CloneWithOn` calls holds exactly when
      every added condition holds. */
  lemma {:induction false} AndChainMeansAll(cs: seq<JoinNodeOnNode>, facts: OperationNode -> Truth)
    requires |cs| > 0
    requires forall i :: 0 <= i < |cs| ==> IsCondition(cs[i])
    ensures IsCondition(AndChain(cs))
    ensures Eval(AndChain(cs), facts) == AllHold(cs, facts)
    decreases |cs|
  {
    if |cs| > 1 {
      AndChainMeansAll(cs[..|cs| - 1], facts);
    }
  }

  /** The meaning of a run of mixed steps, folded left to right over truth values. */
  function StepsHold(ms: seq<Merge>, facts: OperationNode -> Truth): Truth
    requires |ms| > 0
    requires forall i :: 0 <= i < |ms| ==> IsCondition(ms[i].cond)
    decreases |ms|
  {
    if |ms| == 1 then Eval(ms[0].cond, facts)
    else
      var prior := StepsHold(ms[..|ms| - 1], facts);
      match ms[|ms| - 1]
      case AndOn(c) => And3(prior, Eval(c, facts))
      case OrOn(c) => Or3(prior, Eval(c, facts))
  }

  /** `AllHold` is the all-AND case of `StepsHold`. */
  lemma {:induction false} AllHoldIsStepsHold(cs: seq<JoinNodeOnNode>, facts: OperationNode -> Truth)
    requires |cs| > 0
    requires forall i :: 0 <= i < |cs| ==> IsCondition(cs[i])
    ensures forall i :: 0 <= i < |cs| ==> IsCondition(AllAnd(cs)[i].cond)
    ensures AllHold(cs, facts) == StepsHold(AllAnd(cs), facts)
    decreases |cs|
  {
    var init := cs[..|cs| - 1];
    assert AllAnd(cs)[..|cs| - 1] == AllAnd(init);
    if |cs| > 1 {
      AllHoldIsStepsHold(init, facts);
    } else {
      assert init == [];
    }
  }

  /** Precedence is fixed at merge time: a run of steps means the left-to-right
      fold of its steps, each applied to everything before it. */
  lemma {:induction false} CombineMeansSteps(ms: seq<Merge>, facts: OperationNode -> Truth)
    requires |ms| > 0
    requires forall i :: 0 <= i < |ms| ==> IsCondition(ms[i].cond)
    ensures IsCondition(Combine(ms))
    ensures Eval(Combine(ms), facts) == StepsHold(ms, facts)
    decreases |ms|
  {
    if |ms| > 1 {
      CombineMeansSteps(ms[..|ms| - 1], facts);
    }
  }

  /** AND-with `p1`, OR-with `p2`, then AND-with `p3` on an unconditioned
      join gives `(p1 OR p2) AND p3`: the OR built first stays grouped. */
  lemma AndOrAndKeepsGrouping(joinType: JoinType, table: JoinTableNode, p1: JoinNodeOnNode, p2: JoinNodeOnNode, p3: JoinNodeOnNode)
    ensures ExtendAll(Create(joinType, table), [AndOn(p1), OrOn(p2), AndOn(p3)])
         == CreateWithOn(joinType, table, And(Or(p1, p2), p3))
  {
    ExtendAllFromCreate(joinType, table, [AndOn(p1), OrOn(p2), AndOn(p3)]);
    var ms := [AndOn(p1), OrOn(p2), AndOn(p3)];
    assert ms[..2] == [AndOn(p1), OrOn(p2)];
    assert ms[..2][..1] == [AndOn(p1)];
    assert Combine(ms[..2]) == Or(p1, p2);
    assert Combine(ms) == And(Or(p1, p2), p3);
  }

  /** The grouping matters: with `p1` true and `p3` false, the join built by
      AND-with `p1`, OR-with `p2`, AND-with `p3` has a false condition, while
      the ungrouped reading `p1 OR (p2 AND p3)` would be true. */
  lemma GroupingChangesMeaning(joinType: JoinType, table: JoinTableNode, p1: JoinNodeOnNode, p2: JoinNodeOnNode, p3: JoinNodeOnNode, facts: OperationNode -> Truth)
    requires IsCondition(p1) && IsCondition(p2) && IsCondition(p3)
    requires Eval(p1, facts) == True && Eval(p3, facts) == False
    ensures IsConditionOn(ExtendAll(Create(joinType, table), [AndOn(p1), OrOn(p2), AndOn(p3)]).on)
    ensures EvalOn(ExtendAll(Create(joinType, table), [AndOn(p1), OrOn(p2), AndOn(p3)]).on, facts) == False
    ensures Eval(Or(p1, And(p2, p3)), facts) == True
  {
    AndOrAndKeepsGrouping(joinType, table, p1, p2, p3);
  }
}
