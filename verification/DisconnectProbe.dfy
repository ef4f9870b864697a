/** The debounced disconnect probe of a stream: one true answer is not yet a lost client. */
module DisconnectProbe {
  import opened Common

  /** What one check sees: no probe, a probe that raises, or an answer at a moment of a monotonic clock. */
  datatype Check = NoProbe | Raised | Answer(disconnected: bool, now: real)

  function ClampHits(raw: int): (n: nat)
    ensures 1 <= n <= 12 && (1 <= raw <= 12 ==> n == raw)
  {
    Max(1, if raw < 12 then raw else 12)
  }

  function ClampSpan(raw: real): (s: real)
    ensures 0.0 <= s <= 30.0 && (0.0 <= raw <= 30.0 ==> s == raw)
  {
    MaxReal(0.0, if raw < 30.0 then raw else 30.0)
  }

  predicate Hit(c: Check) { c.Answer? && c.disconnected }

  predicate Miss(c: Check) { c.Answer? && !c.disconnected }

  /** The moments of the hits of a stretch, in order. */
  function Hits(cs: seq<Check>): seq<real> {
    if cs == [] then [] else if Hit(cs[|cs| - 1]) then Hits(cs[..|cs| - 1]) + [cs[|cs| - 1].now] else Hits(cs[..|cs| - 1])
  }

  /** The longest final stretch of a history without a false answer. */
  function Stretch(cs: seq<Check>): seq<Check> {
    if cs == [] || Miss(cs[|cs| - 1]) then [] else Stretch(cs[..|cs| - 1]) + [cs[|cs| - 1]]
  }

  /** Hits enough, and for longer than one is needed over a span that is long enough. */
  predicate Enough(hits: seq<real>, needed: nat, span: real) {
    |hits| >= needed && (needed <= 1 || span <= 0.0 || (hits != [] && hits[|hits| - 1] - hits[0] >= span))
  }

  /** `cs[lo..hi]` ends with a hit, has no false answer, and its hits are enough. */
  ghost predicate Loses(cs: seq<Check>, lo: nat, hi: nat, needed: nat, span: real) {
    && lo < hi <= |cs| && Hit(cs[hi - 1])
    && (forall i :: lo <= i < hi ==> !Miss(cs[i]))
    && Enough(Hits(cs[lo..hi]), needed, span)
  }

  /** At some check so far the client was lost. */
  ghost predicate Lost(cs: seq<Check>, needed: nat, span: real) {
    exists lo: nat, hi: nat :: Loses(cs, lo, hi, needed, span)
  }

  /** The clock does not run backwards. */
  ghost predicate Monotone(cs: seq<Check>) {
    forall i, j :: 0 <= i < j < |cs| && cs[i].Answer? && cs[j].Answer? ==> cs[i].now <= cs[j].now
  }

  lemma {:induction false} HitsConcat(a: seq<Check>, b: seq<Check>)
    ensures Hits(a + b) == Hits(a) + Hits(b)
  {
    if b == [] {
      assert a + b == a;
    } else {
      assert (a + b)[..|a + b| - 1] == a + b[..|b| - 1];
      HitsConcat(a, b[..|b| - 1]);
    }
  }

  /** `t` is the moment of one of the hits. */
  ghost predicate HitAt(cs: seq<Check>, t: real) { exists j :: 0 <= j < |cs| && Hit(cs[j]) && cs[j].now == t }

  lemma {:induction false} HitsFrom(cs: seq<Check>)
    ensures forall i :: 0 <= i < |Hits(cs)| ==> HitAt(cs, Hits(cs)[i])
  {
    if cs != [] {
      var init := cs[..|cs| - 1];
      HitsFrom(init);
      forall i | 0 <= i < |Hits(cs)| ensures HitAt(cs, Hits(cs)[i]) {
        if i < |Hits(init)| {
          assert HitAt(init, Hits(init)[i]);
          var j :| 0 <= j < |init| && Hit(init[j]) && init[j].now == Hits(init)[i];
          assert cs[j] == init[j];
        } else {
          assert cs[|cs| - 1].now == Hits(cs)[i];
        }
      }
    }
  }

  /** Hits of an earlier part are not later than hits of a later part. */
  lemma HitsOrdered(a: seq<Check>, b: seq<Check>)
    requires Monotone(a + b)
    ensures forall i, k :: 0 <= i < |Hits(a)| && 0 <= k < |Hits(b)| ==> Hits(a)[i] <= Hits(b)[k]
  {
    HitsFrom(a);
    HitsFrom(b);
    forall i, k | 0 <= i < |Hits(a)| && 0 <= k < |Hits(b)| ensures Hits(a)[i] <= Hits(b)[k] {
      assert HitAt(a, Hits(a)[i]) && HitAt(b, Hits(b)[k]);
      var j :| 0 <= j < |a| && Hit(a[j]) && a[j].now == Hits(a)[i];
      var m :| 0 <= m < |b| && Hit(b[m]) && b[m].now == Hits(b)[k];
      assert (a + b)[j] == a[j] && (a + b)[|a| + m] == b[m];
    }
  }

  lemma {:induction false} StretchIs(cs: seq<Check>)
    ensures var n := |cs| - |Stretch(cs)|;
            && n >= 0 && Stretch(cs) == cs[n..] && (forall i :: n <= i < |cs| ==> !Miss(cs[i])) && (n > 0 ==> Miss(cs[n - 1]))
  {
    if cs != [] && !Miss(cs[|cs| - 1]) {
      StretchIs(cs[..|cs| - 1]);
    }
  }

  /** A longer stretch with the same end has at least as many hits over at least as long a span. */
  lemma EnoughGrows(a: seq<Check>, b: seq<Check>, needed: nat, span: real)
    requires Monotone(a + b) && Enough(Hits(b), needed, span) && Hits(b) != []
    ensures Enough(Hits(a + b), needed, span)
  {
    HitsConcat(a, b);
    HitsOrdered(a, b);
  }

  lemma SliceSplit<T>(xs: seq<T>, n: nat, lo: nat)
    requires n <= lo <= |xs|
    ensures xs[n..|xs|] == xs[n..] && xs[n..lo] + xs[lo..|xs|] == xs[n..]
  {
  }

  lemma StretchLoses(cs: seq<Check>, needed: nat, span: real)
    requires cs != [] && Hit(cs[|cs| - 1]) && Enough(Hits(Stretch(cs)), needed, span)
    ensures exists lo: nat :: Loses(cs, lo, |cs|, needed, span)
  {
    StretchIs(cs);
    var n: nat := |cs| - |Stretch(cs)|;
    SliceSplit(cs, n, n);
    assert Loses(cs, n, |cs|, needed, span);
  }

  lemma LosesStretch(cs: seq<Check>, lo: nat, needed: nat, span: real)
    requires Monotone(cs) && Loses(cs, lo, |cs|, needed, span)
    ensures Enough(Hits(Stretch(cs)), needed, span)
  {
    StretchIs(cs);
    var n := |cs| - |Stretch(cs)|;
    assert lo >= n;
    var a, b := cs[n..lo], cs[lo..|cs|];
    SliceSplit(cs, n, lo);
    assert b[|b| - 1] == cs[|cs| - 1];
    EnoughGrows(a, b, needed, span);
  }

  /** The last check decides by the hits of the whole final stretch. */
  lemma LosesNow(cs: seq<Check>, needed: nat, span: real)
    requires Monotone(cs) && cs != []
    ensures (exists lo: nat :: Loses(cs, lo, |cs|, needed, span)) <==> Hit(cs[|cs| - 1]) && Enough(Hits(Stretch(cs)), needed, span)
  {
    if Hit(cs[|cs| - 1]) && Enough(Hits(Stretch(cs)), needed, span) {
      StretchLoses(cs, needed, span);
    }
    if exists lo: nat :: Loses(cs, lo, |cs|, needed, span) {
      var lo: nat :| Loses(cs, lo, |cs|, needed, span);
      LosesStretch(cs, lo, needed, span);
    }
  }

  /** Lost after one more check: lost before, or lost by this check. */
  lemma LostStep(cs: seq<Check>, c: Check, needed: nat, span: real)
    requires Monotone(cs + [c])
    ensures Lost(cs + [c], needed, span) <==> Lost(cs, needed, span) || (Hit(c) && Enough(Hits(Stretch(cs + [c])), needed, span))
  {
    var ds := cs + [c];
    LosesNow(ds, needed, span);
    if Lost(cs, needed, span) {
      var lo: nat, hi: nat :| Loses(cs, lo, hi, needed, span);
      assert ds[lo..hi] == cs[lo..hi];
      assert Loses(ds, lo, hi, needed, span);
    }
    if Lost(ds, needed, span) {
      var lo: nat, hi: nat :| Loses(ds, lo, hi, needed, span);
      if hi <= |cs| {
        assert ds[lo..hi] == cs[lo..hi] && forall i :: 0 <= i < hi ==> ds[i] == cs[i];
        assert Loses(cs, lo, hi, needed, span);
      }
    }
  }

  class Probe {
    const hitsNeeded: nat
    const minSpan: real
    var hits: nat
    var firstHitAt: Option<real>
    var gone: bool
    ghost var history: seq<Check>

    constructor (rawHits: int, rawSpan: real)
      ensures hitsNeeded == ClampHits(rawHits) && minSpan == ClampSpan(rawSpan)
      ensures history == [] && !gone && Valid()
    {
      hitsNeeded, minSpan := ClampHits(rawHits), ClampSpan(rawSpan);
      hits, firstHitAt, gone, history := 0, None, false, [];
    }

    /** Latched exactly when the history has lost the client; otherwise the fields count the final stretch. */
    ghost predicate Valid() reads this {
      && 1 <= hitsNeeded <= 12 && 0.0 <= minSpan <= 30.0
      && (gone <==> Lost(history, hitsNeeded, minSpan))
      && var h := Hits(Stretch(history));
         (!gone ==> hits == |h| && firstHitAt == if h == [] then None else Some(h[0]))
    }

    /** One check of the stream loop. */
    method Observe(c: Check) returns (lost: bool)
      requires Valid() && Monotone(history + [c])
      modifies this
      ensures Valid() && history == old(history) + [c]
      ensures lost == gone && (old(gone) ==> gone)
    {
      ghost var ds := history + [c];
      LostStep(history, c, hitsNeeded, minSpan);
      assert ds[..|ds| - 1] == history;
      history := ds;
      if gone {
        return true;
      }
      if !c.Answer? {
        return false;
      }
      if c.disconnected {
        if firstHitAt.None? {
          firstHitAt := Some(c.now);
        }
        hits := hits + 1;
        var spanOk := c.now - firstHitAt.value >= minSpan;
        if hits >= hitsNeeded && (hitsNeeded <= 1 || spanOk || minSpan <= 0.0) {
          gone := true;
          return true;
        }
        return false;
      }
      hits, firstHitAt := 0, None;
      return false;
    }
  }
}
