# bandaid, modelled in Dafny

The `bandaid` crate lets a function return different iterator types from
the arms of an `if`/`else if`/`else` chain or a `match` without boxing. It
has two parts:

- `MyIter<I, J>`, a two-variant union of iterators over the same item
  type. Its `next` passes the call to whichever iterator it holds.
- The `band_aid!` macro, with its helpers `__if_else_iter!` and
  `__match_iter!`. They rewrite an N-armed branch into a right-nested chain
  `A(b0)`, `B(A(b1))`, `B(B(..))` of `MyIter`s, so all arms have one type.

The model fixes the element type to `int`. It has these parts:

- `my_iter.dfy` (module `MyIter`): producers as values.
  - A std producer (`vec![..].into_iter()`, `iter::once`, `iter::empty`) is
    the sequence it still has to yield (`Items`).
  - `A(it)` and `B(it)` are the union around another producer.
  - `Next` is `Iterator::next` and `Collect` is `collect()`.
  - These are proved against `Elements`, the sequence that a producer's
    structure says it will yield.
- `my_iter_state.dfy` (module `MyIterState`): the same thing run in place.
  - A `Producer` object is either a sequence with a cursor, or an `A`/`B`
    tag owning another `Producer`.
  - Its `Next` method advances the cursor at the bottom of the chain.
  - `CollectAll` is the drain loop.
  - Both are proved against the value model through `Model()`.
- `if_else_iter.dfy` (module `IfElseIter`): the meaning of the expression
  `__if_else_iter!` emits, given the values the conditions take. A trace
  records which conditions and which blocks get evaluated.
- `match_iter.dfy` (module `MatchIter`): the meaning of the expression
  `__match_iter!` emits.
  - Each arm is its pattern, a predicate on the fixed scrutinee, plus its
    body, a producer computed from the scrutinee (so bindings such as
    `F::C(n)` are covered).
  - The done list of earlier patterns is threaded through the recursion as
    the macro does it.
- `band_aid.dfy` (module `BandAid`): the front door, and the theorem that
  the whole rewrite is transparent.
- `scenarios.dfy` (module `Scenarios`): the crate's two tests. Each is
  stated for every input at the value level. Each is also stated as a
  method that builds the heap objects and drains them, verified to return
  `[4]`.

Three points of the code's behaviour are easy to misread. The model
follows the code on each:

- In the `match` form, the base case is ONE arm, emitted bare. It is not
  a final two-arm `A`/`B` match. So the last arm sits under `n - 1` `B`s
  with no `A` around it.
- A `match` value that no arm matches does not reach the
  `unimplemented!()` arms. Those arms cover only patterns the value has
  already failed. Such a value has no case in the innermost emitted
  `match`. The compiler checks that `match` against the whole type of the
  scrutinee, so it refuses the site when the arms miss ANY value of the
  type, whatever value the scrutinee has at run time. The model calls
  this outcome `NonExhaustive`; the front door decides it from the arm
  list alone (`MatchIter.Exhaustive`).
- An `if` site with no conditioned arm, or a `match` site with no arm,
  matches no macro rule. It does not degenerate to the bare `else` block.
  The model calls this outcome `Malformed`.

## Model

| member | source | states |
|---|---|---|
| `MyIter.NextYieldsHead` | src/lib.rs:14-19 | one `next` returns the next element still to come, or `None` exactly when nothing is left; in that case it changes nothing; it never changes the `A`/`B` nesting at any level |
| `MyIter.NextNDelegates` | src/lib.rs:14-18 | any number of `next` calls on `A(it)` return exactly what the same calls on `it` return, advance only `it` and leave the tag `A`; the same holds for `B`; no interleaving, no re-tagging |
| `MyIter.NextNOutputs` | src/lib.rs:14-19 | the `i`-th of `n` calls returns the `i`-th element while there is one and `None` ever after, through any nesting: exhaustion passes through and stays |
| `MyIter.CollectIsElements` | src/lib.rs:14-19 | calling `next` until `None` gathers exactly the elements the producer has left, in order, and terminates |
| `MyIter.DrainStep` | src/lib.rs:14-19 | one step of a drain loop either finds the producer exhausted, with everything gathered, or appends the next element and leaves strictly less to go |
| `MyIter.CollectDelegates` | src/lib.rs:14-19 | draining `A(it)` or `B(it)` yields exactly what draining `it` yields |
| `MyIter.CollectBTimes` | src/lib.rs:45-47 | draining `B` applied `k` times around `p` yields exactly what draining `p` yields |
| `MyIterState.Producer.FromItems` | src/lib.rs:119-123 | a std producer over a finite sequence starts with its whole sequence to yield |
| `MyIterState.Producer.WrapA` | src/lib.rs:3-4 | `MyIter::A(it)` takes ownership of `it` and is the union `A` around `it`'s value |
| `MyIterState.Producer.WrapB` | src/lib.rs:3-5 | `MyIter::B(it)` takes ownership of `it` and is the union `B` around `it`'s value |
| `MyIterState.Producer.Next` | src/lib.rs:14-19 | `next` in place: the result and the new state are one step of the value model, so the tag stays and only the held producer advances |
| `MyIterState.Producer.CollectAll` | src/lib.rs:14-19 | the drain loop returns exactly what `collect()` of the producer's value yields and leaves the producer exhausted |
| `MyIterState.Build` | src/lib.rs:3-6 | builds fresh objects whose value is exactly the given nested union |
| `IfElseIter.FirstTrue` | src/lib.rs:42-47 | the index of the first true condition (every earlier condition is false and this one true), or the `else` index when none is true |
| `IfElseIter.ExpandSelectsFirstTrue` | src/lib.rs:22-51 | with `k` the first true condition, the chain is `B` applied `k` times around `A(b_k)`; with none true it is `B` applied `n` times around the `else` block (for one arm: `A(b0)` or `B(b1)`) |
| `IfElseIter.ExpandShortCircuits` | src/lib.rs:29-33 | conditions are tested left to right up to and including the first true one (all of them when none is), and then exactly one block, the selected one, is evaluated |
| `IfElseIter.ExpandDrainsSelected` | src/lib.rs:22-51 | draining the chain yields exactly what draining the block picked by first-true-wins yields |
| `MatchIter.FirstMatch` | src/lib.rs:71-72 | the index of the first arm whose pattern matches the scrutinee, or `n` when none does |
| `MatchIter.ExpandUnfolds` | src/lib.rs:64-80 | when the first `j` patterns fail, the emitted expression is `j` `B`s around the expansion of the remaining arms under a done list of exactly those `j` patterns, latest first, as each level prepends its own pattern (line 74) |
| `MatchIter.ExpandSelectsFirstMatch` | src/lib.rs:53-81 | under a done list that the scrutinee fails, the first matching arm `k` gives `B` applied `k` times around `A(r_k)`, or around the bare `r_k` for the last arm; no match leaves the emitted `match` without a case; `unimplemented!()` is never taken |
| `MatchIter.UnimplementedUnreachable` | src/lib.rs:59-62 | from the front door (empty done list), an `unimplemented!()` arm is never reached; the innermost emitted `match` lacks a case for the scrutinee exactly when no arm matches it |
| `MatchIter.MatchDrainsSelected` | src/lib.rs:53-81 | when an arm matches, draining the emitted value yields exactly what draining the first matching arm's producer yields |
| `BandAid.UnifyIsTransparent` | src/lib.rs:84-108 | `band_aid!` yields a value exactly when branch selection picks an arm, and draining it equals draining that arm; it never reaches `unimplemented!()`; it is malformed exactly when the site has no arm; a `match` site is refused as non-exhaustive exactly when its arms miss some value of the scrutinee's type, for every scrutinee |
| `Scenarios.IfElseSiteDrains` | src/lib.rs:116-127 | the test's `if` site drains to `[1,2,3]` for `foo < 0`, `[4]` for `0 <= foo < 2` (so `[4]` for `foo = 1`), `[]` otherwise |
| `Scenarios.IfElseSiteEvaluates` | src/lib.rs:117-125 | with `foo = 1` both conditions are tested and only the `iter::once(4)` block is evaluated; with `foo >= 2` only the `else` block is |
| `Scenarios.MatchSiteDrains` | src/lib.rs:131-142 | the test's `match` site drains to `[1,2,3]` for `F::A`, `[]` for `F::B` and `[n]` for `F::C(n)`, so `[4]` for `F::C(4)` |
| `Scenarios.MatchArmsExhaustive` | src/lib.rs:131-142 | the test's three arms cover every value of `F`, so the compiler accepts the site |
| `Scenarios.MissingVariantIsNonExhaustive` | src/lib.rs:53-63 | with the `F::C` arm removed, the site is refused as non-exhaustive for every scrutinee, `F::A` and `F::B` included, because `F::C(4)` has no case; the `unimplemented!()` arms do not make up for it |
| `Scenarios.IfElseExpr` | src/lib.rs:114-128 | test `if_else_expr` on heap objects: draining `mk_iter(1)` gives `[4]` |
| `Scenarios.MatchExpr` | src/lib.rs:129-143 | test `match_expr` on heap objects: draining the site on `F::C(4)` gives `[4]` |

## Left out

- Token-level macro machinery is not modelled: `tt`, `block`, `pat` and
  `expr` fragment matching, parenthesised conditions, trailing commas,
  `#[allow(unused_parens)]` and the `::MyIter` path. The model gives the
  meaning of the emitted expression instead.
- The model fixes one element type, `int`. Rust's trait bounds and the
  distinct nested type at each site are left out: they are compile-time
  typing, not behaviour.
- `unimplemented!()` is modelled as the `Unimplemented` outcome, not as
  a process-terminating panic.
- A compile-time refusal (no macro rule matches; a non-exhaustive emitted
  `match`) is modelled as an outcome (`Malformed`, `NonExhaustive`) of the
  site. The compiler's diagnostics are not modelled. Exhaustiveness is
  stated over every value of the scrutinee's type as a ghost predicate;
  the compiler's own decision procedure for patterns is not modelled.
- Std producers are modelled as finite sequences. Producers that are
  infinite, or that have side effects of their own, are not modelled.
- The scrutinee `$val` is re-evaluated at each nesting level in the emitted
  code. The model treats it as one fixed value. Side effects of
  re-evaluating it are not modelled.
- The order of pattern tests in the `match` form is not traced. Only the
  `if` form carries an evaluation trace.
- Arm conditions and blocks are model inputs: each condition is given as
  the `bool` it evaluates to, and each block as the producer it evaluates
  to. The effects their evaluation may have beyond that are not modelled.
- Determinism across two invocations of a site is not stated as a lemma.
  Every operation of the value model is a function, so equal inputs give
  equal results.
