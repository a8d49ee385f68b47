/** The two sites of the crate's own tests, with their expected outputs. */
module Scenarios {
  import opened MyIter
  import opened MyIterState
  import opened IfElseIter
  import opened MatchIter
  import opened BandAid

  /** `if (foo < 0) { vec![1,2,3] } else if (foo < 2) { iter::once(4) } else { iter::empty() }` */
  function IfElseSite(foo: int): Site<int>
  {
    IfChain([CondArm(foo < 0, Items([1, 2, 3])), CondArm(foo < 2, Items([4]))], Items([]))
  }

  /** The `if` site drains to the block that ordinary selection picks, for every `foo`. */
  lemma {:induction false} IfElseSiteDrains(foo: int)
    ensures Unify(IfElseSite(foo)).Yields?
    ensures Collect(Unify(IfElseSite(foo)).value) ==
      if foo < 0 then [1, 2, 3] else if foo < 2 then [4] else []
  {
    var site := IfElseSite(foo);
    UnifyIsTransparent(site);
    var chosen := Chosen(site).value;
    CollectIsElements(chosen);
  }

  /** With `foo = 1` the chain tests `foo < 0`, then `foo < 2`, and
      evaluates only the `iter::once(4)` block; with `foo >= 2` it tests
      both conditions and evaluates only the `else` block. */
  lemma {:induction false} IfElseSiteEvaluates(foo: int)
    ensures 0 <= foo < 2 ==>
      IfElseIter.Expand(IfElseSite(foo).arms, Items([]), 0).trace == [TestCond(0), TestCond(1), EvalBlock(1)]
    ensures foo >= 2 ==>
      IfElseIter.Expand(IfElseSite(foo).arms, Items([]), 0).trace == [TestCond(0), TestCond(1), EvalBlock(2)]
  {
    ExpandShortCircuits(IfElseSite(foo).arms, Items([]), 0);
    assert Tests(0, 2) == [TestCond(0), TestCond(1)];
  }

  /** `enum F { A, B, C(i32) }` */
  datatype F = FA | FB | FC(n: int)

  /** `F::A => vec![1,2,3]`, `F::B => iter::empty()`, `F::C(n) => iter::once(n)` */
  function MatchArms(): seq<MatchArm<F>>
  {
    [ MatchArm((f: F) => f.FA?, (f: F) => Items([1, 2, 3])),
      MatchArm((f: F) => f.FB?, (f: F) => Items([])),
      MatchArm((f: F) => f.FC?, (f: F) => Items(if f.FC? then [f.n] else [])) ]
  }

  /** The three arms cover every `F`, so the compiler accepts the site. */
  lemma MatchArmsExhaustive()
    ensures Exhaustive(MatchArms())
  {
    var arms := MatchArms();
    forall w: F
      ensures FirstMatch(w, arms) < |arms|
    {
      assert arms[0].pat(w) == w.FA? && arms[1].pat(w) == w.FB? && arms[2].pat(w) == w.FC?;
      if !w.FA? && !w.FB? {
        assert FirstMatch(w, arms[2..]) == 0;
        assert FirstMatch(w, arms[1..]) == 1 + FirstMatch(w, arms[2..]);
      }
    }
  }

  /** The `match` site drains to the matched arm's producer, for every
      scrutinee, and never reaches its `unimplemented!()` arms. */
  lemma {:induction false} MatchSiteDrains(foo: F)
    ensures Unify(MatchOn(foo, MatchArms())).Yields?
    ensures Collect(Unify(MatchOn(foo, MatchArms())).value) ==
      match foo
      case FA => [1, 2, 3]
      case FB => []
      case FC(n) => [n]
  {
    MatchArmsExhaustive();
    var site := MatchOn(foo, MatchArms());
    UnifyIsTransparent(site);
    var arms := MatchArms();
    assert arms[0].pat(foo) == foo.FA? && arms[1].pat(foo) == foo.FB? && arms[2].pat(foo) == foo.FC?;
    var chosen := Chosen(site).value;
    CollectIsElements(chosen);
  }

  /** A `match` site whose arms miss the variant `F::C`: the compiler
      refuses the site, so it is `NonExhaustive` for every scrutinee, even
      one that an arm matches; the `unimplemented!()` arms play no part. */
  lemma {:induction false} MissingVariantIsNonExhaustive(foo: F)
    ensures Unify(MatchOn(foo, MatchArms()[..2])) == NonExhaustive
  {
    var arms := MatchArms()[..2];
    assert FirstMatch(FC(4), arms[1..]) == 1 + FirstMatch(FC(4), arms[2..]);
    assert FirstMatch(FC(4), arms) == |arms|;
  }

  /** Test `if_else_expr`: `mk_iter(1).collect()` is `[4]`, on the objects
      the emitted expression builds. */
  method IfElseExpr() returns (out: seq<int>)
    ensures out == [4]
  {
    IfElseSiteDrains(1);
    var value := IfElseIter.Expand(IfElseSite(1).arms, IfElseSite(1).otherwise, 0).value;
    assert Unify(IfElseSite(1)) == Yields(value);
    var it := Build(value);
    out := it.CollectAll();
  }

  /** Test `match_expr`: with `foo = F::C(4)`, `collect()` is `[4]`. */
  method MatchExpr() returns (out: seq<int>)
    ensures out == [4]
  {
    MatchSiteDrains(FC(4));
    MatchArmsExhaustive();
    var outcome := MatchSite(FC(4), MatchArms());
    assert Unify(MatchOn(FC(4), MatchArms())) == outcome;
    var it := Build(outcome.value);
    out := it.CollectAll();
  }
}
