/** The meaning of the expression that `__if_else_iter!` emits for
    `if (c0) { b0 } else if (c1) { b1 } ... else { bn }`: a right-nested
    chain of `if c { MyIter::A(b) } else { MyIter::B(..) }`. */
module IfElseIter {
  import opened MyIter

  /** One conditioned arm: the value its condition evaluates to and the
      producer its block evaluates to. */
  datatype CondArm = CondArm(cond: bool, block: Iter)

  /** A sub-expression of the emitted chain being evaluated, by arm index;
      the final `else` block has index `|arms|`. */
  datatype Event = TestCond(index: nat) | EvalBlock(index: nat)

  /** The value of the emitted expression and the order in which it
      evaluates conditions and blocks. */
  datatype Expansion = Expansion(value: Iter, trace: seq<Event>)

  /** The emitted expression for the conditioned arms `arms` and the final
      `else` block `otherwise`; `from` is the index of `arms[0]` in the whole
      chain. One arm left is the first macro rule, more is the second. */
  function Expand(arms: seq<CondArm>, otherwise: Iter, from: nat): Expansion
    requires |arms| >= 1
    decreases |arms|
  {
    if arms[0].cond then
      Expansion(A(arms[0].block), [TestCond(from), EvalBlock(from)])
    else if |arms| == 1 then
      Expansion(B(otherwise), [TestCond(from), EvalBlock(from + 1)])
    else
      var rest := Expand(arms[1..], otherwise, from + 1);
      Expansion(B(rest.value), [TestCond(from)] + rest.trace)
  }

  /** Index of the first arm whose condition holds, or `|arms|` (the `else`
      arm) when none does. */
  function FirstTrue(arms: seq<CondArm>): (k: nat)
    ensures k <= |arms|
    ensures forall j :: 0 <= j < k ==> !arms[j].cond
    ensures k < |arms| ==> arms[k].cond
  {
    if arms == [] || arms[0].cond then 0 else 1 + FirstTrue(arms[1..])
  }

  /** The block that ordinary first-true-wins if/else-if selection runs. */
  function Selected(arms: seq<CondArm>, otherwise: Iter): Iter
  {
    var k := FirstTrue(arms);
    if k < |arms| then arms[k].block else otherwise
  }

  /** Condition tests `from`, `from + 1`, ..., `from + count - 1`, in order. */
  function Tests(from: nat, count: nat): seq<Event>
    decreases count
  {
    if count == 0 then [] else [TestCond(from)] + Tests(from + 1, count - 1)
  }

  /** With `k` the first true condition, the chain's value is `B` applied
      `k` times around `A(b_k)`; with none true it is `B` applied `|arms|`
      times around the `else` block. */
  lemma {:induction false} ExpandSelectsFirstTrue(arms: seq<CondArm>, otherwise: Iter, from: nat)
    requires |arms| >= 1
    ensures var k := FirstTrue(arms);
      Expand(arms, otherwise, from).value ==
        (if k < |arms| then BTimes(k, A(arms[k].block)) else BTimes(k, otherwise))
    decreases |arms|
  {
    if !arms[0].cond && |arms| > 1 {
      ExpandSelectsFirstTrue(arms[1..], otherwise, from + 1);
      assert FirstTrue(arms) == 1 + FirstTrue(arms[1..]);
      assert FirstTrue(arms) < |arms| ==> arms[1..][FirstTrue(arms) - 1] == arms[FirstTrue(arms)];
    }
  }

  /** Short-circuiting: conditions are tested left to right up to and
      including the first true one (all of them when none is true), and then
      exactly one block, the selected one, is evaluated. */
  lemma {:induction false} ExpandShortCircuits(arms: seq<CondArm>, otherwise: Iter, from: nat)
    requires |arms| >= 1
    ensures var k := FirstTrue(arms);
      Expand(arms, otherwise, from).trace ==
        Tests(from, if k < |arms| then k + 1 else k) + [EvalBlock(from + k)]
    decreases |arms|
  {
    if !arms[0].cond && |arms| > 1 {
      ExpandShortCircuits(arms[1..], otherwise, from + 1);
      var k := FirstTrue(arms);
      assert k == 1 + FirstTrue(arms[1..]);
      assert Expand(arms, otherwise, from).trace ==
        [TestCond(from)] + Expand(arms[1..], otherwise, from + 1).trace;
    }
  }

  /** Draining the chain yields exactly what draining the selected block
      yields. */
  lemma {:induction false} ExpandDrainsSelected(arms: seq<CondArm>, otherwise: Iter, from: nat)
    requires |arms| >= 1
    ensures Collect(Expand(arms, otherwise, from).value) == Collect(Selected(arms, otherwise))
    ensures Elements(Expand(arms, otherwise, from).value) == Elements(Selected(arms, otherwise))
  {
    ExpandSelectsFirstTrue(arms, otherwise, from);
    var k := FirstTrue(arms);
    if k < |arms| {
      CollectBTimes(k, A(arms[k].block));
      CollectDelegates(arms[k].block);
      CollectIsElements(A(arms[k].block));
      CollectIsElements(arms[k].block);
    } else {
      CollectBTimes(k, otherwise);
    }
  }
}
