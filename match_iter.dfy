/** The meaning of the expression that `__match_iter!` emits for
    `match v { p0 => r0, p1 => r1, ..., pn => rn }` with a fixed scrutinee
    `v`. Every arm but the last becomes
    `match v { p_i => MyIter::A(r_i), _ => MyIter::B(..) }`; the last arm is
    emitted bare, in `match v { pn => rn, d => unimplemented!(), ... }`,
    where the `d` are the patterns of the arms before it (the "done" list). */
module MatchIter {
  import opened MyIter

  /** One arm `pat => body` over scrutinees of type `V`: whether the pattern
      matches, and the producer the body evaluates to under the bindings the
      match makes (so the body sees the scrutinee). */
  datatype MatchArm<!V> = MatchArm(pat: V -> bool, body: V -> Iter)

  /** Whether one of the `done => unimplemented!()` arms matches `v`. */
  predicate AnyMatches<V>(done: seq<V -> bool>, v: V)
  {
    exists i :: 0 <= i < |done| && done[i](v)
  }

  /** `B` applied `k` times around a produced value; other outcomes pass
      through the enclosing `MyIter::B(..)` unchanged. */
  function BOutcome(k: nat, o: Outcome): Outcome
  {
    if o.Yields? then Yields(BTimes(k, o.value)) else o
  }

  /** The emitted expression for `arms` below a level whose done list is
      `done`, evaluated on `v`. One arm left is the first macro rule, more is
      the second, which prepends the arm's pattern to the done list it passes
      down. `NonExhaustive` is `v` having no case in the innermost `match`. */
  function Expand<V>(done: seq<V -> bool>, v: V, arms: seq<MatchArm<V>>): Outcome
    requires |arms| >= 1
    decreases |arms|
  {
    if |arms| == 1 then
      if arms[0].pat(v) then Yields(arms[0].body(v))
      else if AnyMatches(done, v) then Unimplemented
      else NonExhaustive
    else if arms[0].pat(v) then Yields(A(arms[0].body(v)))
    else BOutcome(1, Expand([arms[0].pat] + done, v, arms[1..]))
  }

  /** Index of the first arm whose pattern matches `v`, or `|arms|` when none does. */
  function FirstMatch<V>(v: V, arms: seq<MatchArm<V>>): (k: nat)
    ensures k <= |arms|
    ensures forall j :: 0 <= j < k ==> !arms[j].pat(v)
    ensures k < |arms| ==> arms[k].pat(v)
  {
    if arms == [] || arms[0].pat(v) then 0 else 1 + FirstMatch(v, arms[1..])
  }

  /** The patterns of `arms[..j]`, latest first: the done list the emitted
      expression holds at nesting level `j`. */
  function DoneBefore<V>(arms: seq<MatchArm<V>>, j: nat): (d: seq<V -> bool>)
    requires j <= |arms|
    ensures |d| == j
    ensures forall i :: 0 <= i < j ==> d[i] == arms[j - 1 - i].pat
  {
    seq(j, i requires 0 <= i < j => arms[j - 1 - i].pat)
  }

  /** Level `j` of the nesting, reached when the first `j` patterns fail, is
      the expansion of the remaining arms under a done list that holds the
      patterns of all `j` earlier arms, wrapped in `j` `MyIter::B`s. */
  lemma {:induction false} ExpandUnfolds<V>(done: seq<V -> bool>, v: V, arms: seq<MatchArm<V>>, j: nat)
    requires j < |arms|
    requires forall i :: 0 <= i < j ==> !arms[i].pat(v)
    ensures Expand(done, v, arms) == BOutcome(j, Expand(DoneBefore(arms, j) + done, v, arms[j..]))
    decreases j
  {
    if j == 0 {
      assert arms[0..] == arms;
      assert DoneBefore(arms, 0) + done == done;
    } else {
      var tail := arms[1..];
      ExpandUnfolds([arms[0].pat] + done, v, tail, j - 1);
      assert tail[j - 1..] == arms[j..];
      assert DoneBefore(tail, j - 1) + ([arms[0].pat] + done) == DoneBefore(arms, j) + done;
      BOutcomeShift(j - 1, Expand(DoneBefore(arms, j) + done, v, arms[j..]));
    }
  }

  lemma BOutcomeShift(k: nat, o: Outcome)
    ensures BOutcome(1, BOutcome(k, o)) == BOutcome(k + 1, o)
  {
    if o.Yields? {
      assert BTimes(0, BTimes(k, o.value)) == BTimes(k, o.value);
    }
  }

  /** Below a done list none of whose patterns matches `v`, the first
      matching arm `k` gives `B` applied `k` times around `A(r_k)`, or around
      the bare `r_k` when it is the last arm; no matching arm leaves the
      emitted `match` without a case for `v`. An `unimplemented!()` arm is
      never taken. */
  lemma {:induction false} ExpandSelectsFirstMatch<V>(done: seq<V -> bool>, v: V, arms: seq<MatchArm<V>>)
    requires |arms| >= 1
    requires !AnyMatches(done, v)
    ensures var k := FirstMatch(v, arms);
      Expand(done, v, arms) ==
        if k < |arms| - 1 then Yields(BTimes(k, A(arms[k].body(v))))
        else if k == |arms| - 1 then Yields(BTimes(k, arms[k].body(v)))
        else NonExhaustive
    decreases |arms|
  {
    if |arms| > 1 && !arms[0].pat(v) {
      var done' := [arms[0].pat] + done;
      forall i | 0 <= i < |done'|
        ensures !done'[i](v)
      {
        if i > 0 {
          assert done'[i] == done[i - 1];
        }
      }
      ExpandSelectsFirstMatch(done', v, arms[1..]);
      var k := FirstMatch(v, arms);
      assert k == 1 + FirstMatch(v, arms[1..]);
      var tail := arms[1..];
      if k < |arms| {
        assert tail[k - 1] == arms[k];
        var leaf := if k < |arms| - 1 then A(arms[k].body(v)) else arms[k].body(v);
        BOutcomeShift(k - 1, Yields(leaf));
      }
    }
  }

  /** The arms cover every value of the scrutinee's type: what the compiler
      demands of the innermost emitted `match`, whose patterns are the last
      arm's and, in its done list, all earlier arms'. */
  ghost predicate Exhaustive<V(!new)>(arms: seq<MatchArm<V>>)
  {
    forall w :: FirstMatch(w, arms) < |arms|
  }

  /** The whole site, `__match_iter! { [] match v { .. } }` as the front door
      calls it: nothing is done yet. */
  function MatchSite<V>(v: V, arms: seq<MatchArm<V>>): Outcome
    requires |arms| >= 1
  {
    Expand([], v, arms)
  }

  /** With the scrutinee fixed, the `unimplemented!()` arms cannot be
      reached: by the time a done list reaches the innermost `match`, `v`
      has already failed each of its patterns at an outer level. */
  lemma {:induction false} UnimplementedUnreachable<V>(v: V, arms: seq<MatchArm<V>>)
    requires |arms| >= 1
    ensures MatchSite(v, arms) != Unimplemented
    ensures MatchSite(v, arms) == NonExhaustive <==> FirstMatch(v, arms) == |arms|
  {
    ExpandSelectsFirstMatch([], v, arms);
  }

  /** When some arm matches, draining the emitted value yields exactly what
      draining the first matching arm's own producer yields. */
  lemma {:induction false} MatchDrainsSelected<V>(v: V, arms: seq<MatchArm<V>>)
    requires |arms| >= 1
    requires FirstMatch(v, arms) < |arms|
    ensures MatchSite(v, arms).Yields?
    ensures Collect(MatchSite(v, arms).value) == Collect(arms[FirstMatch(v, arms)].body(v))
  {
    ExpandSelectsFirstMatch([], v, arms);
    var k := FirstMatch(v, arms);
    var r := arms[k].body(v);
    if k < |arms| - 1 {
      CollectBTimes(k, A(r));
      CollectDelegates(r);
    } else {
      CollectBTimes(k, r);
    }
  }
}
