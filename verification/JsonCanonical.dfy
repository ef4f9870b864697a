/** JSON values as Python holds them after decoding, and their canonical form: object keys sorted at every depth. */
module JsonCanonical {
  import opened Common
  import opened KeySort

  /** A number is the text Python prints for it: `1` and `1.0` are two values, as their texts are. */
  datatype Json =
    | Null
    | Bool(b: bool)
    | Num(text: string)
    | Str(s: string)
    | Arr(items: seq<Json>)
    | Obj(fields: seq<Field>)

  /** A dict entry; a dict is the sequence of its entries in insertion order. */
  datatype Field = Field(key: string, value: Json)

  function KeyOf(f: Field): string { f.key }

  ghost predicate KeysDiffer(fs: seq<Field>) { DistinctKeys(KeyOf, fs) }

  /** Starts like a number, a NaN or an infinity, and holds nothing that could end one. */
  predicate NumberText(t: string) {
    t != "" && (t[0] in {'-', 'I', 'N'} || '0' <= t[0] <= '9') && forall i :: 0 <= i < |t| ==> NumberChar(t[i])
  }

  predicate NumberChar(c: char) { '0' <= c <= '9' || c in {'+', '-', '.', 'e', 'I', 'n', 'f', 'i', 't', 'y', 'N', 'a'} }

  /** No object repeats a key, as in every decoded value. */
  ghost predicate WellFormed(v: Json) {
    match v
    case Num(t) => NumberText(t)
    case Arr(items) => forall i :: 0 <= i < |items| ==> WellFormed(items[i])
    case Obj(fs) => KeysDiffer(fs) && forall i :: 0 <= i < |fs| ==> WellFormed(fs[i].value)
    case _ => true
  }

  function SortFields(fs: seq<Field>): seq<Field> { Sort(KeyOf, fs) }

  function Canon(v: Json): Json {
    match v
    case Arr(items) => Arr(seq(|items|, i requires 0 <= i < |items| => Canon(items[i])))
    case Obj(fs) => Obj(SortFields(seq(|fs|, i requires 0 <= i < |fs| => Field(fs[i].key, Canon(fs[i].value)))))
    case _ => v
  }

  /** The entries of an object with canonical values, still in their own order. */
  function Inner(fs: seq<Field>): seq<Field> {
    seq(|fs|, i requires 0 <= i < |fs| => Field(fs[i].key, Canon(fs[i].value)))
  }

  /** Equal up to the order of object keys, at every depth. */
  ghost predicate Same(a: Json, b: Json)
    decreases a
  {
    match (a, b)
    case (Arr(xs), Arr(ys)) => |xs| == |ys| && forall i :: 0 <= i < |xs| ==> Same(xs[i], ys[i])
    case (Obj(fs), Obj(gs)) => |fs| == |gs| && forall i :: 0 <= i < |fs| ==> Among(fs[i], gs)
    case _ => a == b
  }

  /** Some entry has the same key and the same value up to key order. */
  ghost predicate Among(f: Field, gs: seq<Field>)
    decreases f
  {
    exists j :: 0 <= j < |gs| && gs[j].key == f.key && Same(f.value, gs[j].value)
  }

  lemma InnerKeys(fs: seq<Field>)
    requires KeysDiffer(fs)
    ensures KeysDiffer(Inner(fs))
  {
  }

  /** With distinct keys and equal length, containment one way makes the entries the same multiset. */
  lemma {:induction false} SameMembers(fs: seq<Field>, gs: seq<Field>)
    requires KeysDiffer(fs) && |fs| == |gs| && forall i :: 0 <= i < |fs| ==> fs[i] in gs
    ensures multiset(fs) == multiset(gs)
    decreases |fs|
  {
    if fs != [] {
      var n := |fs| - 1;
      var f, init := fs[n], fs[..n];
      assert fs == init + [f];
      var j :| 0 <= j < |gs| && gs[j] == f;
      var rest := gs[..j] + gs[j + 1..];
      assert gs == gs[..j] + [f] + gs[j + 1..];
      forall i | 0 <= i < |init| ensures init[i] in rest {
        assert fs[i] in gs && fs[i] != f;
        var k :| 0 <= k < |gs| && gs[k] == fs[i];
        assert k < j ==> gs[k] == rest[k];
        assert k > j ==> gs[k] == rest[k - 1];
      }
      SameMembers(init, rest);
      assert multiset(gs) == multiset(rest) + multiset{f};
    }
  }

  /** Values equal up to key order have the same canonical form. */
  lemma {:induction false} SameHasOneCanon(a: Json, b: Json)
    requires WellFormed(a) && Same(a, b)
    ensures Canon(a) == Canon(b)
    decreases a
  {
    match (a, b)
    case (Arr(xs), Arr(ys)) =>
      forall i | 0 <= i < |xs| ensures Canon(xs[i]) == Canon(ys[i]) {
        SameHasOneCanon(xs[i], ys[i]);
      }
      assert Canon(a).items == Canon(b).items;
    case (Obj(fs), Obj(gs)) =>
      forall i | 0 <= i < |fs| ensures Inner(fs)[i] in Inner(gs) {
        assert Among(fs[i], gs);
        var j :| 0 <= j < |gs| && gs[j].key == fs[i].key && Same(fs[i].value, gs[j].value);
        SameHasOneCanon(fs[i].value, gs[j].value);
        assert Inner(gs)[j] == Inner(fs)[i];
      }
      InnerKeys(fs);
      SameMembers(Inner(fs), Inner(gs));
      SortForgets(KeyOf, Inner(fs), Inner(gs));
    case _ =>
  }

  lemma SortedHas(fs: seq<Field>, i: nat)
    requires i < |fs|
    ensures |SortFields(fs)| == |fs| && exists j :: 0 <= j < |fs| && SortFields(fs)[j] == fs[i]
  {
    SortMembers(KeyOf, fs);
    assert fs[i] in multiset(SortFields(fs));
  }

  /** Equal sorted entries: every entry of one object is an entry of the other. */
  lemma SortedShares(fs: seq<Field>, gs: seq<Field>, i: nat)
    requires i < |fs| && SortFields(fs) == SortFields(gs)
    ensures |fs| == |gs| && exists j :: 0 <= j < |gs| && gs[j] == fs[i]
  {
    SortMembers(KeyOf, fs);
    SortMembers(KeyOf, gs);
    assert fs[i] in multiset(gs);
  }

  /** Canonicalising keeps the value: only key order changes. */
  lemma {:induction false} CanonIsSame(v: Json)
    ensures Same(v, Canon(v))
  {
    match v
    case Arr(items) =>
      forall i | 0 <= i < |items| ensures Same(items[i], Canon(items[i])) {
        CanonIsSame(items[i]);
      }
    case Obj(fs) =>
      var gs := SortFields(Inner(fs));
      SortMembers(KeyOf, Inner(fs));
      forall i | 0 <= i < |fs| ensures Among(fs[i], gs) {
        CanonIsSame(fs[i].value);
        SortedHas(Inner(fs), i);
        var j :| 0 <= j < |gs| && gs[j] == Inner(fs)[i];
        assert gs[j].key == fs[i].key && gs[j].value == Canon(fs[i].value);
      }
    case _ =>
  }

  /** One canonical form means equal up to key order. */
  lemma {:induction false} OneCanonIsSame(a: Json, b: Json)
    requires Canon(a) == Canon(b)
    ensures Same(a, b)
    decreases a
  {
    match (a, b)
    case (Arr(xs), Arr(ys)) =>
      assert |xs| == |Canon(a).items| == |ys|;
      forall i | 0 <= i < |xs| ensures Same(xs[i], ys[i]) {
        assert Canon(a).items[i] == Canon(b).items[i];
        OneCanonIsSame(xs[i], ys[i]);
      }
    case (Obj(fs), Obj(gs)) =>
      assert |fs| == |gs| by {
        SortMembers(KeyOf, Inner(fs));
        SortMembers(KeyOf, Inner(gs));
      }
      forall i | 0 <= i < |fs| ensures Among(fs[i], gs) {
        SortedShares(Inner(fs), Inner(gs), i);
        var j :| 0 <= j < |gs| && Inner(gs)[j] == Inner(fs)[i];
        OneCanonIsSame(fs[i].value, gs[j].value);
      }
    case _ =>
  }

  /** Sound and complete for key order: one canonical form exactly when equal up to key order at every depth. */
  lemma CanonDecidesSame(a: Json, b: Json)
    requires WellFormed(a)
    ensures Canon(a) == Canon(b) <==> Same(a, b)
  {
    if Canon(a) == Canon(b) {
      OneCanonIsSame(a, b);
    }
    if Same(a, b) {
      SameHasOneCanon(a, b);
    }
  }

  lemma {:induction false} CanonWellFormed(v: Json)
    requires WellFormed(v)
    ensures WellFormed(Canon(v))
  {
    match v
    case Arr(items) =>
      forall i | 0 <= i < |items| ensures WellFormed(Canon(items[i])) {
        CanonWellFormed(items[i]);
      }
    case Obj(fs) =>
      var gs := SortFields(Inner(fs));
      InnerKeys(fs);
      SortMembers(KeyOf, Inner(fs));
      KeysOfMembers(KeyOf, Inner(fs), gs);
      forall i | 0 <= i < |gs| ensures WellFormed(gs[i].value) {
        assert gs[i] in multiset(Inner(fs));
        var j :| 0 <= j < |fs| && Inner(fs)[j] == gs[i];
        CanonWellFormed(fs[j].value);
      }
    case _ =>
  }

  /** Canonicalising twice is canonicalising once. */
  lemma CanonTwice(v: Json)
    requires WellFormed(v)
    ensures Canon(Canon(v)) == Canon(v)
  {
    CanonIsSame(v);
    SameHasOneCanon(v, Canon(v));
  }
}
