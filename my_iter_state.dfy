/** `MyIter` as the source runs it: `next` takes `&mut self` and advances
    the held producer in place. A `Producer` object is either a standard
    producer over a finite sequence with a cursor, or an `A`/`B` tag around
    another `Producer` object that it owns. */
module MyIterState {
  import opened MyIter

  datatype Tag = Leaf | HoldsA | HoldsB

  class Producer {
    /** The variant; fixed when the object is built. */
    const tag: Tag
    /** For `Leaf`: the sequence and the cursor into it. */
    const items: seq<int>
    var pos: nat
    /** For `HoldsA`/`HoldsB`: the held producer. */
    const inner: Producer?
    /** The objects this producer owns: itself and, transitively, what it holds. */
    ghost const Repr: set<object>

    ghost predicate Valid()
      reads this, Repr
      decreases Repr
    {
      this in Repr &&
      (tag == Leaf ==> inner == null && pos <= |items|) &&
      (tag != Leaf ==>
        inner != null && inner in Repr && inner.Repr <= Repr && this !in inner.Repr &&
        inner.Valid())
    }

    /** The producer's current value in the value model. */
    ghost function Model(): Iter
      reads this, Repr
      requires Valid()
      decreases Repr
    {
      match tag
      case Leaf => Items(items[pos..])
      case HoldsA => A(inner.Model())
      case HoldsB => B(inner.Model())
    }

    /** A standard producer over `s`, with its cursor at the start. */
    constructor FromItems(s: seq<int>)
      ensures Valid() && fresh(Repr)
      ensures Model() == Items(s)
    {
      tag, items, pos, inner := Leaf, s, 0, null;
      Repr := {this};
    }

    /** `MyIter::A(it)`: takes ownership of `it`. */
    constructor WrapA(it: Producer)
      requires it.Valid()
      ensures Valid() && Repr == {this} + it.Repr
      ensures Model() == A(it.Model())
    {
      tag, items, pos, inner := HoldsA, [], 0, it;
      Repr := {this} + it.Repr;
    }

    /** `MyIter::B(it)`: takes ownership of `it`. */
    constructor WrapB(it: Producer)
      requires it.Valid()
      ensures Valid() && Repr == {this} + it.Repr
      ensures Model() == B(it.Model())
    {
      tag, items, pos, inner := HoldsB, [], 0, it;
      Repr := {this} + it.Repr;
    }

    /** `Iterator::next`. A `Leaf` yields the element under its cursor and
        moves the cursor; an `A`/`B` tag calls `next` on the producer it
        holds and returns that result unchanged. */
    method Next() returns (r: Option<int>)
      requires Valid()
      modifies Repr
      ensures Valid()
      ensures Step(r, Model()) == MyIter.Next(old(Model()))
      decreases Repr
    {
      if tag == Leaf {
        if pos < |items| {
          r := Some(items[pos]);
          pos := pos + 1;
        } else {
          r := None;
        }
      } else {
        r := inner.Next();
      }
    }

    /** `collect()`: calls `next` until it returns `None` and gathers the
        elements, in order. What it gathers is everything the producer had
        left, and the producer is exhausted afterwards. */
    method CollectAll() returns (out: seq<int>)
      requires Valid()
      modifies Repr
      ensures Valid()
      ensures out == Collect(old(Model()))
      ensures Elements(Model()) == []
    {
      ghost var start := Model();
      ghost var m := start;
      out := [];
      while true
        invariant Valid() && m == Model()
        invariant Elements(start) == out + Elements(m)
        decreases |Elements(m)|
      {
        var x := Next();
        ghost var after := Model();
        DrainStep(start, out, m, Step(x, after));
        m := after;
        if x.None? {
          break;
        }
        out := out + [x.value];
      }
      CollectIsElements(start);
    }
  }

  /** Builds the objects that hold the producer value `p`. */
  method Build(p: Iter) returns (it: Producer)
    ensures it.Valid() && fresh(it.Repr)
    ensures it.Model() == p
    decreases p
  {
    if p.Items? {
      it := new Producer.FromItems(p.rest);
    } else if p.A? {
      var held := Build(p.left);
      it := new Producer.WrapA(held);
    } else {
      var held := Build(p.right);
      it := new Producer.WrapB(held);
    }
  }
}
