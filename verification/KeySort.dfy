/** Stable sorting by a string key, as Python's `sorted` orders strings: by code point, prefixes first. */
module KeySort {
  import opened Common

  predicate StrLe(a: string, b: string) {
    a == "" || (b != "" && (a[0] < b[0] || (a[0] == b[0] && StrLe(a[1..], b[1..]))))
  }

  lemma {:induction false} StrTotal(a: string, b: string)
    ensures StrLe(a, b) || StrLe(b, a)
    ensures StrLe(a, b) && StrLe(b, a) ==> a == b
  {
    if a != "" && b != "" && a[0] == b[0] {
      StrTotal(a[1..], b[1..]);
      if a[1..] == b[1..] {
        assert a == [a[0]] + a[1..] && b == [b[0]] + b[1..];
      }
    }
  }

  lemma {:induction false} StrTransitive(a: string, b: string, c: string)
    requires StrLe(a, b) && StrLe(b, c)
    ensures StrLe(a, c)
  {
    if a != "" && a[0] == b[0] && b[0] == c[0] {
      StrTransitive(a[1..], b[1..], c[1..]);
    }
  }

  /** Places `x` after every element whose key is not larger. */
  function Insert<T>(key: T -> string, xs: seq<T>, x: T): seq<T> {
    if xs == [] || StrLe(key(xs[|xs| - 1]), key(x)) then xs + [x]
    else Insert(key, xs[..|xs| - 1], x) + [xs[|xs| - 1]]
  }

  function Sort<T>(key: T -> string, xs: seq<T>): seq<T> {
    if xs == [] then [] else Insert(key, Sort(key, xs[..|xs| - 1]), xs[|xs| - 1])
  }

  ghost predicate Sorted<T>(key: T -> string, xs: seq<T>) {
    forall i, j :: 0 <= i < j < |xs| ==> StrLe(key(xs[i]), key(xs[j]))
  }

  ghost predicate DistinctKeys<T>(key: T -> string, xs: seq<T>) {
    forall i, j :: 0 <= i < j < |xs| ==> key(xs[i]) != key(xs[j])
  }

  lemma {:induction false} InsertMembers<T>(key: T -> string, xs: seq<T>, x: T)
    ensures multiset(Insert(key, xs, x)) == multiset(xs) + multiset{x}
  {
    if xs != [] && !StrLe(key(xs[|xs| - 1]), key(x)) {
      InsertMembers(key, xs[..|xs| - 1], x);
      assert xs == xs[..|xs| - 1] + [xs[|xs| - 1]];
    }
  }

  lemma {:induction false} SortMembers<T>(key: T -> string, xs: seq<T>)
    ensures multiset(Sort(key, xs)) == multiset(xs) && |Sort(key, xs)| == |xs|
  {
    if xs != [] {
      SortMembers(key, xs[..|xs| - 1]);
      InsertMembers(key, Sort(key, xs[..|xs| - 1]), xs[|xs| - 1]);
      assert xs == xs[..|xs| - 1] + [xs[|xs| - 1]];
    }
    assert |multiset(Sort(key, xs))| == |multiset(xs)|;
  }

  /** Appending an element that is not smaller than any other keeps a sequence sorted. */
  lemma SortedSnoc<T>(key: T -> string, xs: seq<T>, x: T)
    requires Sorted(key, xs) && forall y :: y in xs ==> StrLe(key(y), key(x))
    ensures Sorted(key, xs + [x])
  {
  }

  lemma {:induction false} InsertSorted<T>(key: T -> string, xs: seq<T>, x: T)
    requires Sorted(key, xs)
    ensures Sorted(key, Insert(key, xs, x))
  {
    if xs != [] {
      var init, last := xs[..|xs| - 1], xs[|xs| - 1];
      if StrLe(key(last), key(x)) {
        forall y | y in xs ensures StrLe(key(y), key(x)) {
          var i :| 0 <= i < |xs| && xs[i] == y;
          if i < |xs| - 1 {
            StrTransitive(key(y), key(last), key(x));
          }
        }
        SortedSnoc(key, xs, x);
      } else {
        InsertSorted(key, init, x);
        InsertMembers(key, init, x);
        StrTotal(key(last), key(x));
        forall y | y in Insert(key, init, x) ensures StrLe(key(y), key(last)) {
          assert y in multiset(Insert(key, init, x));
          assert y in init || y == x;
        }
        SortedSnoc(key, Insert(key, init, x), last);
      }
    }
  }

  lemma {:induction false} SortSorts<T>(key: T -> string, xs: seq<T>)
    ensures Sorted(key, Sort(key, xs))
  {
    if xs != [] {
      SortSorts(key, xs[..|xs| - 1]);
      InsertSorted(key, Sort(key, xs[..|xs| - 1]), xs[|xs| - 1]);
    }
  }

  /** Sorting what is sorted changes nothing, also where keys repeat. */
  lemma {:induction false} SortFixed<T>(key: T -> string, xs: seq<T>)
    requires Sorted(key, xs)
    ensures Sort(key, xs) == xs
  {
    if xs != [] {
      SortFixed(key, xs[..|xs| - 1]);
      assert xs == xs[..|xs| - 1] + [xs[|xs| - 1]];
    }
  }

  lemma LastIsGreatest<T>(key: T -> string, xs: seq<T>, y: T)
    requires Sorted(key, xs) && y in xs
    ensures StrLe(key(y), key(xs[|xs| - 1]))
  {
    var i :| 0 <= i < |xs| && xs[i] == y;
    if i == |xs| - 1 {
      StrTotal(key(y), key(y));
    }
  }

  lemma EqualKeys<T>(key: T -> string, xs: seq<T>, x: T, y: T)
    requires DistinctKeys(key, xs) && x in xs && y in xs && key(x) == key(y)
    ensures x == y
  {
    var i :| 0 <= i < |xs| && xs[i] == x;
    var j :| 0 <= j < |xs| && xs[j] == y;
    assert i == j;
  }

  lemma DropLast<T>(xs: seq<T>)
    requires xs != []
    ensures xs == xs[..|xs| - 1] + [xs[|xs| - 1]]
    ensures multiset(xs[..|xs| - 1]) == multiset(xs) - multiset{xs[|xs| - 1]}
  {
    assert xs == xs[..|xs| - 1] + [xs[|xs| - 1]];
  }

  lemma SameLast<T>(key: T -> string, xs: seq<T>, ys: seq<T>)
    requires multiset(xs) == multiset(ys) && Sorted(key, xs) && Sorted(key, ys) && DistinctKeys(key, xs) && xs != [] && ys != []
    ensures xs[|xs| - 1] == ys[|ys| - 1]
  {
    var x, y := xs[|xs| - 1], ys[|ys| - 1];
    assert y in multiset(xs) && x in multiset(ys);
    LastIsGreatest(key, xs, y);
    LastIsGreatest(key, ys, x);
    StrTotal(key(x), key(y));
    EqualKeys(key, xs, x, y);
  }

  lemma Prefixes<T>(key: T -> string, xs: seq<T>)
    requires Sorted(key, xs) && DistinctKeys(key, xs) && xs != []
    ensures Sorted(key, xs[..|xs| - 1]) && DistinctKeys(key, xs[..|xs| - 1])
  {
  }

  /** Two sorted arrangements of the same elements agree when no key repeats. */
  lemma {:induction false} SortedUnique<T>(key: T -> string, xs: seq<T>, ys: seq<T>)
    requires multiset(xs) == multiset(ys) && Sorted(key, xs) && Sorted(key, ys) && DistinctKeys(key, xs)
    ensures xs == ys
    decreases |xs|
  {
    assert |multiset(xs)| == |xs| && |multiset(ys)| == |ys|;
    if xs == [] {
      assert ys == [];
    } else {
      KeysOfMembers(key, xs, ys);
      SameLast(key, xs, ys);
      DropLast(xs);
      DropLast(ys);
      Prefixes(key, xs);
      Prefixes(key, ys);
      SortedUnique(key, xs[..|xs| - 1], ys[..|ys| - 1]);
    }
  }

  /** Sorting forgets the order of elements with distinct keys. */
  lemma SortForgets<T>(key: T -> string, xs: seq<T>, ys: seq<T>)
    requires multiset(xs) == multiset(ys) && DistinctKeys(key, xs)
    ensures Sort(key, xs) == Sort(key, ys)
  {
    SortMembers(key, xs);
    SortMembers(key, ys);
    SortSorts(key, xs);
    SortSorts(key, ys);
    KeysOfMembers(key, xs, Sort(key, xs));
    SortedUnique(key, Sort(key, xs), Sort(key, ys));
  }

  lemma {:induction false} KeysOfMembers<T>(key: T -> string, xs: seq<T>, ys: seq<T>)
    requires multiset(xs) == multiset(ys) && DistinctKeys(key, xs)
    ensures DistinctKeys(key, ys)
  {
    forall i, j | 0 <= i < j < |ys| ensures key(ys[i]) != key(ys[j]) {
      assert ys[i] in multiset(xs) && ys[j] in multiset(xs);
      if ys[i] == ys[j] {
        assert ys == ys[..i] + [ys[i]] + ys[i + 1..j] + [ys[j]] + ys[j + 1..];
        assert multiset(ys)[ys[i]] >= 2;
        NoRepeats(key, xs, ys[i]);
      }
    }
  }

  lemma {:induction false} NoRepeats<T>(key: T -> string, xs: seq<T>, x: T)
    requires DistinctKeys(key, xs)
    ensures multiset(xs)[x] <= 1
  {
    if xs != [] {
      var n := |xs| - 1;
      assert xs == xs[..n] + [xs[n]];
      NoRepeats(key, xs[..n], x);
      if x == xs[n] {
        assert forall i :: 0 <= i < n ==> xs[..n][i] != x;
        assert x !in xs[..n];
      }
    }
  }

  /* ---- filtering through a partial function ---- */

  /** The results of `f` where it has one, in order. */
  function Collect<A, B>(f: A -> Option<B>, xs: seq<A>): seq<B> {
    if xs == [] then [] else
    var ys := Collect(f, xs[..|xs| - 1]);
    match f(xs[|xs| - 1]) case Some(y) => ys + [y] case None => ys
  }

  /** `f` gives its own results back. */
  ghost predicate Gives<A>(f: A -> Option<A>, ys: seq<A>) { forall i :: 0 <= i < |ys| ==> f(ys[i]) == Some(ys[i]) }

  lemma {:induction false} CollectGives<A>(f: A -> Option<A>, xs: seq<A>)
    requires forall i :: 0 <= i < |xs| && f(xs[i]).Some? ==> f(f(xs[i]).value) == f(xs[i])
    ensures Gives(f, Collect(f, xs))
  {
    if xs != [] {
      CollectGives(f, xs[..|xs| - 1]);
    }
  }

  lemma {:induction false} CollectAgain<A>(f: A -> Option<A>, ys: seq<A>)
    requires Gives(f, ys)
    ensures Collect(f, ys) == ys
  {
    if ys != [] {
      CollectAgain(f, ys[..|ys| - 1]);
      assert ys == ys[..|ys| - 1] + [ys[|ys| - 1]];
    }
  }

  /** Filtering and sorting twice is doing it once, when `f` gives its own results back. */
  lemma SortCollectTwice<A>(key: A -> string, f: A -> Option<A>, xs: seq<A>)
    requires forall i :: 0 <= i < |xs| && f(xs[i]).Some? ==> f(f(xs[i]).value) == f(xs[i])
    ensures var out := Sort(key, Collect(f, xs)); Sort(key, Collect(f, out)) == out
  {
    var ys := Collect(f, xs);
    var out := Sort(key, ys);
    CollectGives(f, xs);
    SortMembers(key, ys);
    forall i | 0 <= i < |out| ensures f(out[i]) == Some(out[i]) {
      assert out[i] in multiset(ys);
      var j :| 0 <= j < |ys| && ys[j] == out[i];
    }
    CollectAgain(f, out);
    SortSorts(key, ys);
    SortFixed(key, out);
  }

  /** Which results come out, and how often, does not depend on the order of the inputs. */
  lemma {:induction false} CollectMembers<A, B>(f: A -> Option<B>, xs: seq<A>, ys: seq<A>)
    requires multiset(xs) == multiset(ys)
    ensures multiset(Collect(f, xs)) == multiset(Collect(f, ys))
    decreases |xs|
  {
    assert |multiset(xs)| == |xs| && |multiset(ys)| == |ys|;
    if xs == [] {
      assert ys == [];
    } else {
      var x := xs[|xs| - 1];
      DropLast(xs);
      assert x in multiset(ys);
      var i :| 0 <= i < |ys| && ys[i] == x;
      var rest := ys[..i] + ys[i + 1..];
      RemoveAt(ys, i);
      CollectMembers(f, xs[..|xs| - 1], rest);
      CollectRemove(f, ys, i);
      CollectConcat(f, xs[..|xs| - 1], [x]);
    }
  }

  lemma RemoveAt<T>(ys: seq<T>, i: nat)
    requires i < |ys|
    ensures multiset(ys[..i] + ys[i + 1..]) == multiset(ys) - multiset{ys[i]}
  {
    assert ys == ys[..i] + [ys[i]] + ys[i + 1..];
  }

  lemma {:induction false} CollectConcat<A, B>(f: A -> Option<B>, a: seq<A>, b: seq<A>)
    ensures Collect(f, a + b) == Collect(f, a) + Collect(f, b)
  {
    if b == [] {
      assert a + b == a;
    } else {
      assert (a + b)[..|a + b| - 1] == a + b[..|b| - 1];
      CollectConcat(f, a, b[..|b| - 1]);
    }
  }

  lemma CollectSplit<A, B>(f: A -> Option<B>, a: seq<A>, x: A, b: seq<A>)
    ensures Collect(f, a + [x] + b) == Collect(f, a) + Collect(f, [x]) + Collect(f, b)
  {
    CollectConcat(f, a, [x]);
    CollectConcat(f, a + [x], b);
  }

  lemma CollectRemove<A, B>(f: A -> Option<B>, ys: seq<A>, i: nat)
    requires i < |ys|
    ensures multiset(Collect(f, ys)) == multiset(Collect(f, ys[..i] + ys[i + 1..])) + multiset(Collect(f, [ys[i]]))
  {
    SplitAt(ys, i);
    CollectAround(f, ys[..i], ys[i], ys[i + 1..]);
  }

  lemma SplitAt<T>(ys: seq<T>, i: nat)
    requires i < |ys|
    ensures ys[..i] + [ys[i]] + ys[i + 1..] == ys
  {
  }

  lemma CollectAround<A, B>(f: A -> Option<B>, a: seq<A>, x: A, b: seq<A>)
    ensures multiset(Collect(f, a + [x] + b)) == multiset(Collect(f, a + b)) + multiset(Collect(f, [x]))
  {
    CollectSplit(f, a, x, b);
    CollectConcat(f, a, b);
    Shuffle(Collect(f, a), Collect(f, [x]), Collect(f, b));
  }

  lemma Shuffle<T>(l: seq<T>, m: seq<T>, r: seq<T>)
    ensures multiset(l + m + r) == multiset(l + r) + multiset(m)
  {
  }
}
