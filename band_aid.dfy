/** `band_aid!`, the front door: an `if`/`else if`/`else` chain goes to
    `__if_else_iter!` unchanged, a `match` goes to `__match_iter!` with an
    empty done list. */
module BandAid {
  import opened MyIter
  import opened IfElseIter
  import opened MatchIter

  /** A unification site: the arms as written, with their run-time selectors. */
  datatype Site<!V> =
    | IfChain(arms: seq<CondArm>, otherwise: Iter)
    | MatchOn(scrutinee: V, matchArms: seq<MatchArm<V>>)

  /** The value of the expression `band_aid!` emits for `site`. A site
      without a first `if` arm or without any `match` arm matches no macro
      rule; a `match` site whose arms miss some value of the scrutinee's
      type is refused by the compiler, whatever the scrutinee is at run
      time. */
  ghost function Unify<V(!new)>(site: Site<V>): Outcome
  {
    match site
    case IfChain(arms, otherwise) =>
      if arms == [] then Malformed else Yields(IfElseIter.Expand(arms, otherwise, 0).value)
    case MatchOn(v, arms) =>
      if arms == [] then Malformed
      else if !Exhaustive(arms) then NonExhaustive
      else MatchSite(v, arms)
  }

  /** The producer that ordinary branch selection runs at `site`: the block
      of the first true condition or the `else` block; the body of the first
      matching arm of an exhaustive `match`; nothing for a malformed site or
      a `match` that does not cover its scrutinee's type. */
  ghost function Chosen<V(!new)>(site: Site<V>): Option<Iter>
  {
    match site
    case IfChain(arms, otherwise) =>
      if arms == [] then None else Some(Selected(arms, otherwise))
    case MatchOn(v, arms) =>
      var k := FirstMatch(v, arms);
      if k < |arms| && Exhaustive(arms) then Some(arms[k].body(v)) else None
  }

  /** The whole rewrite is transparent: it yields a value exactly when
      branch selection picks an arm, and draining that value yields exactly
      what draining the picked arm's producer yields. It never reaches an
      `unimplemented!()` arm; it is malformed exactly when the site has no
      arm, and refused as non-exhaustive exactly when a `match` site's arms
      miss some value of the scrutinee's type. */
  lemma {:induction false} UnifyIsTransparent<V(!new)>(site: Site<V>)
    ensures Unify(site) != Unimplemented
    ensures Unify(site) == Malformed <==>
      (if site.IfChain? then site.arms == [] else site.matchArms == [])
    ensures Unify(site) == NonExhaustive <==>
      site.MatchOn? && site.matchArms != [] && !Exhaustive(site.matchArms)
    ensures Unify(site).Yields? <==> Chosen(site).Some?
    ensures Unify(site).Yields? ==> Collect(Unify(site).value) == Collect(Chosen(site).value)
  {
    match site
    case IfChain(arms, otherwise) =>
      if arms != [] {
        ExpandDrainsSelected(arms, otherwise, 0);
      }
    case MatchOn(v, arms) =>
      if arms != [] && Exhaustive(arms) {
        assert FirstMatch(v, arms) < |arms|;
        UnimplementedUnreachable(v, arms);
        MatchDrainsSelected(v, arms);
      }
  }
}
