/** The two-variant iterator union `MyIter` as values.

    A producer is either a standard producer over a finite sequence
    (`vec![..].into_iter()`, `iter::once(x)`, `iter::empty()`), represented
    by the elements it still has to yield, or `MyIter::A(it)` /
    `MyIter::B(it)` around another producer. Element type is fixed to `int`. */
module MyIter {

  datatype Option<+T> = None | Some(value: T)

  datatype Iter = Items(rest: seq<int>) | A(left: Iter) | B(right: Iter)

  /** The result of one `next` call: what it returned and the producer after it. */
  datatype Step = Step(item: Option<int>, after: Iter)

  /** The nesting of `A`/`B` tags of a producer, with its elements erased. */
  datatype Shape = Base | TagA(ofA: Shape) | TagB(ofB: Shape)

  function ShapeOf(p: Iter): Shape
  {
    match p
    case Items(_) => Base
    case A(it) => TagA(ShapeOf(it))
    case B(it) => TagB(ShapeOf(it))
  }

  /** `Iterator::next`: a sequence producer yields its head and drops it;
      `A(it)` and `B(it)` hand the call to `it` and keep their tag. */
  function Next(p: Iter): Step
  {
    match p
    case Items(s) => if s == [] then Step(None, p) else Step(Some(s[0]), Items(s[1..]))
    case A(it) => var st := Next(it); Step(st.item, A(st.after))
    case B(it) => var st := Next(it); Step(st.item, B(st.after))
  }

  /** The elements a producer still has to yield, read off its structure:
      the reference that `Next` is proved against. */
  function Elements(p: Iter): seq<int>
  {
    match p
    case Items(s) => s
    case A(it) => Elements(it)
    case B(it) => Elements(it)
  }

  /** What evaluating the expression a unification site emits comes to.
      `Yields(p)`: the producer `p`. `Unimplemented`: an `unimplemented!()`
      arm is taken. `NonExhaustive`: a `match` has no case for the value.
      `Malformed`: the site matches no macro rule. */
  datatype Outcome = Yields(value: Iter) | Unimplemented | NonExhaustive | Malformed

  /** `B` applied `k` times around `p`. */
  function BTimes(k: nat, p: Iter): Iter
  {
    if k == 0 then p else B(BTimes(k - 1, p))
  }

  /** One `next` call yields the next element, or `None` exactly when nothing
      is left, and then changes nothing; it never re-tags any level. */
  lemma {:induction false} NextYieldsHead(p: Iter)
    ensures Elements(p) == [] ==> Next(p) == Step(None, p)
    ensures Elements(p) != [] ==>
      Next(p).item == Some(Elements(p)[0]) && Elements(Next(p).after) == Elements(p)[1..]
    ensures ShapeOf(Next(p).after) == ShapeOf(p)
  {
    match p
    case Items(s) =>
    case A(it) => NextYieldsHead(it);
    case B(it) => NextYieldsHead(it);
  }

  /** One step of a drain loop that has gathered `out` of `start` and
      holds `m`: `None` means everything is gathered and nothing is left;
      `Some(x)` appends `x` and leaves less to go. */
  lemma DrainStep(start: Iter, out: seq<int>, m: Iter, st: Step)
    requires Elements(start) == out + Elements(m)
    requires st == Next(m)
    ensures st.item.None? ==> out == Elements(start) && Elements(st.after) == []
    ensures st.item.Some? ==>
      Elements(start) == (out + [st.item.value]) + Elements(st.after) &&
      |Elements(st.after)| < |Elements(m)|
  {
    NextYieldsHead(m);
    if st.item.Some? {
      assert Elements(m) == [st.item.value] + Elements(st.after);
      assert out + ([st.item.value] + Elements(st.after)) == (out + [st.item.value]) + Elements(st.after);
    }
  }

  /** `collect()`: call `next` until it returns `None`. */
  function Collect(p: Iter): seq<int>
    decreases |Elements(p)|
  {
    NextYieldsHead(p);
    var st := Next(p);
    match st.item
    case None => []
    case Some(x) => [x] + Collect(st.after)
  }

  lemma {:induction false} CollectIsElements(p: Iter)
    ensures Collect(p) == Elements(p)
    decreases |Elements(p)|
  {
    NextYieldsHead(p);
    if Elements(p) != [] {
      CollectIsElements(Next(p).after);
    }
  }

  /** Draining `A(it)` or `B(it)` yields exactly what draining `it` yields. */
  lemma {:induction false} CollectDelegates(it: Iter)
    ensures Collect(A(it)) == Collect(it)
    ensures Collect(B(it)) == Collect(it)
  {
    CollectIsElements(A(it));
    CollectIsElements(B(it));
    CollectIsElements(it);
  }

  /** Draining `B` applied `k` times around `p` yields what draining `p` yields. */
  lemma {:induction false} CollectBTimes(k: nat, p: Iter)
    ensures Elements(BTimes(k, p)) == Elements(p)
    ensures Collect(BTimes(k, p)) == Collect(p)
  {
    if k > 0 {
      CollectBTimes(k - 1, p);
    }
    CollectIsElements(BTimes(k, p));
    CollectIsElements(p);
  }

  /** `n` successive `next` calls: their results, in order, and the producer after them. */
  datatype Run = Run(outputs: seq<Option<int>>, after: Iter)

  function NextN(p: Iter, n: nat): Run
    decreases n
  {
    if n == 0 then Run([], p)
    else
      var st := Next(p);
      var rest := NextN(st.after, n - 1);
      Run([st.item] + rest.outputs, rest.after)
  }

  /** Any number of `next` calls on `A(it)` returns exactly what the same
      calls on `it` return, advances only `it` and leaves the tag `A`;
      the same holds for `B`. No interleaving, no re-tagging. */
  lemma {:induction false} NextNDelegates(it: Iter, n: nat)
    ensures NextN(A(it), n) == Run(NextN(it, n).outputs, A(NextN(it, n).after))
    ensures NextN(B(it), n) == Run(NextN(it, n).outputs, B(NextN(it, n).after))
    decreases n
  {
    if n > 0 {
      NextNDelegates(Next(it).after, n - 1);
    }
  }

  /** The `i`-th of `n` calls returns the `i`-th element while there is one
      and `None` ever after: exhaustion passes through and stays. */
  lemma {:induction false} NextNOutputs(p: Iter, n: nat, i: nat)
    requires i < n
    ensures |NextN(p, n).outputs| == n
    ensures NextN(p, n).outputs[i] ==
      if i < |Elements(p)| then Some(Elements(p)[i]) else None
    decreases n
  {
    NextYieldsHead(p);
    NextNLength(Next(p).after, n - 1);
    if i > 0 {
      NextNOutputs(Next(p).after, n - 1, i - 1);
    }
  }

  lemma {:induction false} NextNLength(p: Iter, n: nat)
    ensures |NextN(p, n).outputs| == n
    decreases n
  {
    if n > 0 {
      NextNLength(Next(p).after, n - 1);
    }
  }
}
