/** Small data types and sequence facts shared by the other modules. */
module Common {

  datatype Option<+T> = None | Some(value: T)

  function Max(a: int, b: int): int { if a < b then b else a }

  function MaxReal(a: real, b: real): real { if a < b then b else a }

  ghost predicate Distinct<T>(s: seq<T>) {
    forall i, j :: 0 <= i < j < |s| ==> s[i] != s[j]
  }

  /** Left fold, last element outermost, so that it follows a loop over a growing prefix. */
  function FoldL<S, E>(step: (S, E) -> S, s: S, es: seq<E>): S {
    if es == [] then s else step(FoldL(step, s, es[..|es| - 1]), es[|es| - 1])
  }

  lemma {:induction false} FoldConcat<S, E>(step: (S, E) -> S, s: S, a: seq<E>, b: seq<E>)
    ensures FoldL(step, s, a + b) == FoldL(step, FoldL(step, s, a), b)
  {
    if b == [] {
      assert a + b == a;
    } else {
      var init := b[..|b| - 1];
      assert (a + b)[..|a + b| - 1] == a + init;
      FoldConcat(step, s, a, init);
    }
  }

  lemma FoldStep<S, E>(step: (S, E) -> S, s: S, es: seq<E>, i: nat)
    requires i < |es|
    ensures FoldL(step, s, es[..i + 1]) == step(FoldL(step, s, es[..i]), es[i])
  {
    assert es[..i + 1][..i] == es[..i];
  }

  /** Two steps of the fold may be exchanged. */
  ghost predicate Commutes<S(!new), E(!new)>(step: (S, E) -> S) {
    forall s, x, y :: step(step(s, x), y) == step(step(s, y), x)
  }

  lemma {:induction false} FoldBubble<S(!new), E(!new)>(step: (S, E) -> S, s: S, x: E, es: seq<E>)
    requires Commutes(step)
    ensures FoldL(step, step(s, x), es) == step(FoldL(step, s, es), x)
  {
    if es != [] {
      FoldBubble(step, s, x, es[..|es| - 1]);
    }
  }

  lemma TakeOut<T>(b: seq<T>, i: nat)
    requires i < |b|
    ensures b == b[..i] + [b[i]] + b[i + 1..]
    ensures multiset(b) == multiset(b[..i] + b[i + 1..]) + multiset{b[i]}
  {
    assert b == b[..i] + [b[i]] + b[i + 1..];
  }

  lemma Cancel<T>(x: multiset<T>, y: multiset<T>, e: T)
    requires x + multiset{e} == y + multiset{e}
    ensures x == y
  {
    assert x == (x + multiset{e}) - multiset{e};
    assert y == (y + multiset{e}) - multiset{e};
  }

  /** The last element of one sequence taken out of both. */
  lemma Shorter<T>(a: seq<T>, b: seq<T>) returns (i: nat)
    requires a != [] && multiset(a) == multiset(b)
    ensures i < |b| && b[i] == a[|a| - 1] && a == a[..|a| - 1] + [b[i]] && b == b[..i] + [b[i]] + b[i + 1..]
    ensures multiset(a[..|a| - 1]) == multiset(b[..i] + b[i + 1..])
  {
    var n := |a| - 1;
    assert a[n] in multiset(b);
    i :| 0 <= i < |b| && b[i] == a[n];
    TakeOut(b, i);
    assert a == a[..n] + [a[n]];
    Cancel(multiset(a[..n]), multiset(b[..i] + b[i + 1..]), a[n]);
  }

  /** An element in the middle of a commuting fold may come last. */
  lemma FoldMiddle<S(!new), E(!new)>(step: (S, E) -> S, s: S, l: seq<E>, x: E, r: seq<E>)
    requires Commutes(step)
    ensures FoldL(step, s, l + [x] + r) == step(FoldL(step, s, l + r), x)
  {
    FoldConcat(step, s, l + [x], r);
    FoldConcat(step, s, l, r);
    assert (l + [x])[..|l|] == l;
    FoldBubble(step, FoldL(step, s, l), x, r);
  }

  /** A commuting fold depends only on the multiset of its inputs. */
  lemma {:induction false} FoldPermutation<S(!new), E(!new)>(step: (S, E) -> S, s: S, a: seq<E>, b: seq<E>)
    requires Commutes(step)
    requires multiset(a) == multiset(b)
    ensures FoldL(step, s, a) == FoldL(step, s, b)
    decreases |a|
  {
    if a == [] {
      assert |multiset(b)| == 0;
    } else {
      var i := Shorter(a, b);
      FoldPermutation(step, s, a[..|a| - 1], b[..i] + b[i + 1..]);
      FoldMiddle(step, s, b[..i], b[i], b[i + 1..]);
    }
  }

  function SumInts<E>(w: E -> int, es: seq<E>): int {
    if es == [] then 0 else SumInts(w, es[..|es| - 1]) + w(es[|es| - 1])
  }

  /** A sum of weights that are never negative is positive exactly when one of them is. */
  lemma {:induction false} SumIntsPositive<E>(w: E -> int, es: seq<E>)
    requires forall e :: e in es ==> w(e) >= 0
    ensures SumInts(w, es) >= 0
    ensures SumInts(w, es) > 0 <==> exists e :: e in es && w(e) > 0
  {
    if es != [] {
      var init, e := es[..|es| - 1], es[|es| - 1];
      assert es == init + [e];
      SumIntsPositive(w, init);
      assert e in es && forall x :: x in init ==> x in es;
    }
  }

  predicate IsLeast(s: set<int>, m: int) {
    m in s && forall x :: x in s ==> m <= x
  }

  lemma {:induction false} LeastExists(s: set<int>)
    requires s != {}
    ensures exists m :: IsLeast(s, m)
    decreases |s|
  {
    if !exists x :: x in s {
      assert false;
    }
    var x :| x in s;
    var rest := s - {x};
    if rest == {} {
      assert forall y :: y in s ==> y in rest || y == x;
      assert IsLeast(s, x);
    } else {
      LeastExists(rest);
      var m :| IsLeast(rest, m);
      assert forall y :: y in s ==> y in rest || y == x;
      assert IsLeast(s, if m <= x then m else x);
    }
  }
}
