/** Formatting the outbound prompt so that equal conversations reach the upstream as equal bytes. */
module PromptStabilize {
  import opened Common
  import opened KeySort
  import opened JsonCanonical

  /**
   The parts of Python the code leans on: compact printing and parsing of JSON, `str`, `strip`, `lower`,
   and which characters count as white space.
   */
  datatype Lang = Lang(
    dump: Json -> string,
    load: string -> Option<Json>,
    str: Json -> string,
    strip: string -> string,
    lower: string -> string,
    space: char -> bool)

  predicate Container(v: Json) { v.Arr? || v.Obj? }

  /** The contract of those parts. */
  ghost predicate Faithful(l: Lang) {
    && (forall v {:trigger l.dump(v)} :: WellFormed(v) ==> l.load(l.dump(v)) == Some(v))
    && (forall t: string {:trigger l.load(t)} :: l.load(t).Some? ==> WellFormed(l.load(t).value))
    && (forall v {:trigger l.dump(v)} :: WellFormed(v) && Container(v) ==> Compact(l, l.dump(v)))
    && (forall v {:trigger l.str(v)} :: WellFormed(v) && !Container(v) && !v.Str? ==> l.strip(l.str(v)) == "" || l.strip(l.str(v))[0] !in "{[")
    && (forall s: string :: l.str(Str(s)) == s)
    && (forall s: string {:trigger l.strip(l.strip(s))} :: l.strip(l.strip(s)) == l.strip(s))
    && l.dump(Obj([])) == "{}" && l.space('\n') && l.space('\r')
  }

  /** A printed object or array: starts with its bracket, has no white space at its ends and no line breaks. */
  ghost predicate Compact(l: Lang, t: string) {
    && t != "" && t[0] in "{[" && l.strip(t) == t && !l.space(t[|t| - 1])
    && (forall i :: 0 <= i < |t| ==> t[i] != '\r')
  }

  /* ---- argument texts ---- */

  /** Key-sorted compact text of a JSON object or array, or of text that holds one. */
  function CanonText(l: Lang, raw: Json): Option<string> {
    match raw
    case Arr(_) | Obj(_) => Some(l.dump(Canon(raw)))
    case Str(s) =>
      var t := l.strip(s);
      if t == "" || t[0] !in "{[" then None
      else if l.load(t).Some? && Container(l.load(t).value) then Some(l.dump(Canon(l.load(t).value)))
      else None
    case _ => None
  }

  lemma PrintedAgain(l: Lang, v: Json)
    requires Faithful(l) && WellFormed(v) && Container(v)
    ensures CanonText(l, Str(l.dump(Canon(v)))) == Some(l.dump(Canon(v)))
  {
    CanonWellFormed(v);
    CanonTwice(v);
    assert Container(Canon(v));
    assert Compact(l, l.dump(Canon(v)));
  }

  /** Canonical argument text is a fixed point. */
  lemma CanonTextTwice(l: Lang, raw: Json)
    requires Faithful(l) && WellFormed(raw) && CanonText(l, raw).Some?
    ensures CanonText(l, Str(CanonText(l, raw).value)) == CanonText(l, raw)
  {
    match raw
    case Str(s) => PrintedAgain(l, l.load(l.strip(s)).value);
    case _ => PrintedAgain(l, raw);
  }

  /** Two argument texts that hold objects or arrays get one text exactly when they are equal up to key order. */
  lemma CanonTextDecides(l: Lang, v: Json, w: Json)
    requires Faithful(l) && WellFormed(v) && WellFormed(w) && Container(v) && Container(w)
    ensures CanonText(l, v) == CanonText(l, w) <==> Same(v, w)
    ensures CanonText(l, Str(l.dump(v))) == CanonText(l, v)
  {
    CanonDecidesSame(v, w);
    CanonWellFormed(v);
    CanonWellFormed(w);
    assert Compact(l, l.dump(v));
    if l.dump(Canon(v)) == l.dump(Canon(w)) {
      assert l.load(l.dump(Canon(v))) == Some(Canon(v));
    }
  }

  /* ---- dict operations ---- */

  function Get(fs: seq<Field>, k: string): Json {
    if fs == [] then Null else if fs[|fs| - 1].key == k then fs[|fs| - 1].value else Get(fs[..|fs| - 1], k)
  }

  predicate Has(fs: seq<Field>, k: string) { exists i :: 0 <= i < |fs| && fs[i].key == k }

  function Replaced(fs: seq<Field>, k: string, v: Json): seq<Field> {
    seq(|fs|, i requires 0 <= i < |fs| => if fs[i].key == k then Field(k, v) else fs[i])
  }

  /** Assignment to a key: in place when present, at the end otherwise. */
  function Put(fs: seq<Field>, k: string, v: Json): seq<Field> {
    if Has(fs, k) then Replaced(fs, k, v) else fs + [Field(k, v)]
  }

  /** The entries whose keys are not in `drop`, in order. */
  function Without(fs: seq<Field>, drop: set<string>): seq<Field> {
    if fs == [] then [] else
    var rest := Without(fs[..|fs| - 1], drop);
    if fs[|fs| - 1].key in drop then rest else rest + [fs[|fs| - 1]]
  }

  predicate Truthy(v: Json) {
    match v
    case Null => false
    case Bool(b) => b
    case Num(t) => t !in {"0", "0.0", "-0.0"}
    case Str(s) => s != ""
    case Arr(items) => items != []
    case Obj(fs) => fs != []
  }

  lemma {:induction false} GetHas(fs: seq<Field>, k: string)
    ensures !Has(fs, k) ==> Get(fs, k) == Null
    ensures Has(fs, k) ==> exists i :: 0 <= i < |fs| && fs[i] == Field(k, Get(fs, k))
  {
    if fs != [] {
      GetHas(fs[..|fs| - 1], k);
      if !Has(fs, k) {
        assert fs[|fs| - 1].key != k && !Has(fs[..|fs| - 1], k);
      } else if fs[|fs| - 1].key == k {
        assert fs[|fs| - 1] == Field(k, Get(fs, k));
      } else {
        assert Has(fs[..|fs| - 1], k);
      }
    }
  }

  /** With distinct keys, an entry is what its key gets. */
  lemma GetAt(fs: seq<Field>, i: nat)
    requires KeysDiffer(fs) && i < |fs|
    ensures Get(fs, fs[i].key) == fs[i].value
  {
    assert Has(fs, fs[i].key);
    GetHas(fs, fs[i].key);
    var j :| 0 <= j < |fs| && fs[j] == Field(fs[i].key, Get(fs, fs[i].key));
    assert KeyOf(fs[i]) == KeyOf(fs[j]);
  }

  lemma {:induction false} WithoutMembers(fs: seq<Field>, drop: set<string>)
    ensures forall f :: f in Without(fs, drop) <==> f in fs && f.key !in drop
    ensures KeysDiffer(fs) ==> KeysDiffer(Without(fs, drop))
  {
    if fs != [] {
      var n := |fs| - 1;
      WithoutMembers(fs[..n], drop);
      assert fs == fs[..n] + [fs[n]];
      if KeysDiffer(fs) {
        assert forall f :: f in fs[..n] ==> KeyOf(f) != KeyOf(fs[n]);
      }
    }
  }

  lemma {:induction false} WithoutConcat(a: seq<Field>, b: seq<Field>, drop: set<string>)
    ensures Without(a + b, drop) == Without(a, drop) + Without(b, drop)
  {
    if b == [] {
      assert a + b == a;
    } else {
      assert (a + b)[..|a + b| - 1] == a + b[..|b| - 1];
      WithoutConcat(a, b[..|b| - 1], drop);
    }
  }

  lemma {:induction false} WithoutNone(fs: seq<Field>, drop: set<string>)
    ensures (forall i :: 0 <= i < |fs| ==> fs[i].key in drop) ==> Without(fs, drop) == []
    ensures (forall i :: 0 <= i < |fs| ==> fs[i].key !in drop) ==> Without(fs, drop) == fs
  {
    if fs != [] {
      WithoutNone(fs[..|fs| - 1], drop);
      assert fs == fs[..|fs| - 1] + [fs[|fs| - 1]];
    }
  }

  function Keys(fs: seq<Field>): set<string> { set f | f in fs :: f.key }

  /** The chosen entries first, the rest in their own order. */
  function Ordered(head: seq<Field>, fs: seq<Field>): seq<Field> { head + Without(fs, Keys(head)) }

  lemma WithoutOwn(head: seq<Field>)
    ensures Without(head, Keys(head)) == []
  {
    forall i | 0 <= i < |head| ensures head[i].key in Keys(head) {
      assert head[i] in head;
    }
    WithoutNone(head, Keys(head));
  }

  lemma WithoutForeign(rest: seq<Field>, drop: set<string>)
    requires forall f :: f in rest ==> f.key !in drop
    ensures Without(rest, drop) == rest
  {
    forall i | 0 <= i < |rest| ensures rest[i].key !in drop {
      assert rest[i] in rest;
    }
    WithoutNone(rest, drop);
  }

  /** Ordering again with the same head changes nothing. */
  lemma OrderedAgain(head: seq<Field>, rest: seq<Field>)
    requires forall f :: f in rest ==> f.key !in Keys(head)
    ensures Ordered(head, head + rest) == head + rest
  {
    WithoutConcat(head, rest, Keys(head));
    WithoutOwn(head);
    WithoutForeign(rest, Keys(head));
  }

  lemma OrderedKeys(head: seq<Field>, fs: seq<Field>)
    requires KeysDiffer(head) && KeysDiffer(fs)
    ensures KeysDiffer(Ordered(head, fs))
    ensures forall f :: f in Without(fs, Keys(head)) ==> f in fs && f.key !in Keys(head)
  {
    WithoutMembers(fs, Keys(head));
    var rest := Without(fs, Keys(head));
    forall i, j | 0 <= i < |head| && 0 <= j < |rest| ensures KeyOf(head[i]) != KeyOf(rest[j]) {
      assert rest[j] in rest && head[i] in head;
    }
  }

  lemma PutKeys(fs: seq<Field>, k: string, v: Json)
    requires KeysDiffer(fs)
    ensures KeysDiffer(Put(fs, k, v))
    ensures Get(Put(fs, k, v), k) == v && Has(Put(fs, k, v), k)
    ensures forall q :: q != k ==> Get(Put(fs, k, v), q) == Get(fs, q)
    ensures Has(fs, k) && Get(fs, k) == v ==> Put(fs, k, v) == fs
  {
    var gs := Put(fs, k, v);
    if Has(fs, k) {
      var i :| 0 <= i < |fs| && fs[i].key == k;
      GetAt(fs, i);
      GetAt(gs, i);
      ReplacedOthers(fs, k, v);
      if Get(fs, k) == v {
        forall j | 0 <= j < |fs| ensures gs[j] == fs[j] {
          if fs[j].key == k {
            assert KeyOf(fs[i]) == KeyOf(fs[j]);
          }
        }
      }
    } else {
      assert gs[..|fs|] == fs;
      assert gs[|fs|].key == k;
    }
  }

  lemma {:induction false} ReplacedOthers(fs: seq<Field>, k: string, v: Json)
    ensures forall q :: q != k ==> Get(Replaced(fs, k, v), q) == Get(fs, q)
  {
    if fs != [] {
      ReplacedOthers(fs[..|fs| - 1], k, v);
      assert Replaced(fs, k, v)[..|fs| - 1] == Replaced(fs[..|fs| - 1], k, v);
    }
  }

  /* ---- tool schemas ---- */

  const EMPTY: seq<Field> := [Field("type", Str("object")), Field("properties", Obj([]))]

  /** What a schema lacks: a type, and properties when the type is object. */
  function Missing(fs: seq<Field>): seq<Field> {
    var t := if Has(fs, "type") then [] else [Field("type", Str("object"))];
    t + if (t != [] || Get(fs, "type") == Str("object")) && !Has(fs, "properties") then [Field("properties", Obj([]))] else []
  }

  /** Parameters as a JSON schema object. A decoded string is shorter than its text, so unwrapping strings ends. */
  function Ensure(l: Lang, p: Json): seq<Field>
    decreases if p.Str? then |p.s| + 1 else 0
  {
    match p
    case Obj(fs) => fs + Missing(fs)
    case Str(s) =>
      var v := if l.strip(s) == "" then None else l.load(l.strip(s));
      if v.None? then EMPTY
      else if v.value.Str? && |v.value.s| >= |s| then EMPTY
      else Ensure(l, v.value)
    case _ => EMPTY
  }

  function StabParams(l: Lang, p: Json): Json { Canon(Obj(Ensure(l, p))) }

  function CanonFields(fs: seq<Field>): seq<Field> { SortFields(Inner(fs)) }

  /** A schema that has what it needs. */
  predicate Whole(fs: seq<Field>) { Missing(fs) == [] }

  lemma {:induction false} EnsureWhole(l: Lang, p: Json)
    requires Faithful(l) && WellFormed(p)
    ensures WellFormed(Obj(Ensure(l, p))) && Whole(Ensure(l, p))
    decreases if p.Str? then |p.s| + 1 else 0
  {
    match p
    case Obj(fs) =>
      MissingFits(fs);
    case Str(s) =>
      var v := if l.strip(s) == "" then None else l.load(l.strip(s));
      if v.Some? && !(v.value.Str? && |v.value.s| >= |s|) {
        EnsureWhole(l, v.value);
      } else {
        EmptyWhole();
      }
    case _ =>
      EmptyWhole();
  }

  lemma EmptyWhole()
    ensures WellFormed(Obj(EMPTY)) && Whole(EMPTY)
  {
    assert EMPTY[0].key == "type" && EMPTY[1].key == "properties";
    assert Has(EMPTY, "type") && Has(EMPTY, "properties");
  }

  lemma HasSnoc(fs: seq<Field>, f: Field, k: string)
    ensures Has(fs + [f], k) <==> Has(fs, k) || f.key == k
    ensures Get(fs + [f], k) == if f.key == k then f.value else Get(fs, k)
  {
    assert (fs + [f])[..|fs|] == fs;
    assert (fs + [f])[|fs|] == f;
    if Has(fs, k) {
      var i :| 0 <= i < |fs| && fs[i].key == k;
      assert (fs + [f])[i].key == k;
    }
  }

  lemma SnocWellFormed(fs: seq<Field>, f: Field)
    requires WellFormed(Obj(fs)) && !Has(fs, f.key) && WellFormed(f.value)
    ensures WellFormed(Obj(fs + [f]))
  {
    assert forall i :: 0 <= i < |fs| ==> KeyOf(fs[i]) != KeyOf(f);
  }

  lemma MissingFits(fs: seq<Field>)
    requires WellFormed(Obj(fs))
    ensures WellFormed(Obj(fs + Missing(fs))) && Whole(fs + Missing(fs))
  {
    var t, p := Field("type", Str("object")), Field("properties", Obj([]));
    var gs := if Has(fs, "type") then fs else fs + [t];
    if !Has(fs, "type") {
      SnocWellFormed(fs, t);
      HasSnoc(fs, t, "type");
      HasSnoc(fs, t, "properties");
    }
    var hs := if Get(gs, "type") == Str("object") && !Has(gs, "properties") then gs + [p] else gs;
    if hs != gs {
      SnocWellFormed(gs, p);
      HasSnoc(gs, p, "type");
      HasSnoc(gs, p, "properties");
    }
    assert fs + Missing(fs) == hs;
  }

  /** Sorting an object changes neither which keys it has nor, up to canonical form, what they hold. */
  lemma CanonGet(fs: seq<Field>, k: string)
    requires KeysDiffer(fs)
    ensures Has(CanonFields(fs), k) <==> Has(fs, k)
    ensures Get(CanonFields(fs), k) == Canon(Get(fs, k))
  {
    var cs := CanonFields(fs);
    InnerKeys(fs);
    SortMembers(KeyOf, Inner(fs));
    KeysOfMembers(KeyOf, Inner(fs), cs);
    if Has(fs, k) {
      var i :| 0 <= i < |fs| && fs[i].key == k;
      SortedHas(Inner(fs), i);
      var j :| 0 <= j < |cs| && cs[j] == Inner(fs)[i];
      GetAt(fs, i);
      GetAt(cs, j);
    } else {
      GetHas(fs, k);
      GetHas(cs, k);
      forall j | 0 <= j < |cs| ensures cs[j].key != k {
        assert cs[j] in multiset(Inner(fs));
        var i :| 0 <= i < |fs| && Inner(fs)[i] == cs[j];
        assert fs[i].key == cs[j].key;
      }
    }
  }

  /** What a schema lacks does not depend on its key order. */
  lemma MissingCanon(fs: seq<Field>)
    requires KeysDiffer(fs)
    ensures Missing(CanonFields(fs)) == Missing(fs)
  {
    CanonGet(fs, "type");
    CanonGet(fs, "properties");
  }

  lemma WholeCanon(e: seq<Field>)
    requires WellFormed(Obj(e)) && Whole(e)
    ensures var c := CanonFields(e); Whole(c) && c != [] && WellFormed(Obj(c)) && Canon(Obj(c)) == Obj(c)
  {
    MissingCanon(e);
    CanonTwice(Obj(e));
    CanonWellFormed(Obj(e));
    CanonObj(e);
    assert Has(CanonFields(e), "type");
  }

  lemma WholeFixed(l: Lang, e: seq<Field>)
    requires WellFormed(Obj(e)) && Whole(e)
    ensures var q := Canon(Obj(e)); q.Obj? && Obj(Ensure(l, q)) == q && StabParams(l, q) == q && q.fields != [] && WellFormed(q)
  {
    WholeCanon(e);
    CanonObj(e);
    assert CanonFields(e) + [] == CanonFields(e);
  }

  /** Stabilised parameters are a fixed point. */
  lemma ParamsTwice(l: Lang, p: Json)
    requires Faithful(l) && WellFormed(p)
    ensures var q := StabParams(l, p); q.Obj? && Obj(Ensure(l, q)) == q && StabParams(l, q) == q && q.fields != [] && WellFormed(q)
  {
    EnsureWhole(l, p);
    WholeFixed(l, Ensure(l, p));
  }

  lemma CanonObj(fs: seq<Field>)
    ensures Canon(Obj(fs)) == Obj(CanonFields(fs))
  {
  }

  /** Stabilised parameters do not depend on key order at any depth. */
  lemma ParamsForget(l: Lang, p: Json)
    requires Faithful(l) && WellFormed(p)
    ensures StabParams(l, Canon(p)) == StabParams(l, p)
  {
    if p.Obj? {
      var fs, cs := p.fields, CanonFields(p.fields);
      MissingCanon(fs);
      CanonIsSame(p);
      assert Canon(p) == Obj(cs);
      EnsureWhole(l, p);
      SameAppend(fs, cs, Missing(fs));
      SameHasOneCanon(Obj(fs + Missing(fs)), Obj(cs + Missing(fs)));
    }
  }

  lemma {:induction false} SameSelf(v: Json)
    ensures Same(v, v)
  {
    match v
    case Arr(items) =>
      forall i | 0 <= i < |items| ensures Same(items[i], items[i]) {
        SameSelf(items[i]);
      }
    case Obj(fs) =>
      forall i | 0 <= i < |fs| ensures Among(fs[i], fs) {
        SameSelf(fs[i].value);
      }
    case _ =>
  }

  lemma SameAppend(fs: seq<Field>, gs: seq<Field>, e: seq<Field>)
    requires Same(Obj(fs), Obj(gs))
    ensures Same(Obj(fs + e), Obj(gs + e))
  {
    forall i | 0 <= i < |fs + e| ensures Among((fs + e)[i], gs + e) {
      if i < |fs| {
        assert Among(fs[i], gs);
        var j :| 0 <= j < |gs| && gs[j].key == fs[i].key && Same(fs[i].value, gs[j].value);
        assert (gs + e)[j] == gs[j];
      } else {
        SameSelf((fs + e)[i].value);
        assert (gs + e)[i] == (fs + e)[i];
      }
    }
  }

  /* ---- function tools ---- */

  function FirstOf(vs: seq<Json>): Json {
    if vs == [] then Null else if vs[0] != Null then vs[0] else FirstOf(vs[1..])
  }

  /** The first schema found under any of its names, as `parameters`; the other key goes. */
  function OneSchema(l: Lang, named: seq<Field>, t: seq<Field>): seq<Field> {
    var raw := FirstOf([Get(named, "parameters"), Get(named, "input_schema"), Get(t, "parameters"), Get(t, "input_schema")]);
    Without(Put(named, "parameters", Obj(Ensure(l, raw))), {"input_schema"})
  }

  /** The function object of a tool in any of the accepted shapes; None when it has no name. */
  function NormFn(l: Lang, t: seq<Field>): Option<seq<Field>> {
    if Get(t, "function").Obj? then
      var fn := Get(t, "function").fields;
      var name := if Truthy(Get(fn, "name")) then Get(fn, "name") else Get(t, "name");
      if !Truthy(name) then None else
      var fixed := OneSchema(l, Put(fn, "name", name), t);
      Some(if Get(t, "description") != Null && Get(fixed, "description") == Null then Put(fixed, "description", Get(t, "description")) else fixed)
    else if !Truthy(Get(t, "name")) then None
    else
      var raw := FirstOf([Get(t, "parameters"), Get(t, "input_schema")]);
      Some([Field("name", Get(t, "name"))]
           + (if Get(t, "description") != Null then [Field("description", Get(t, "description"))] else [])
           + [Field("parameters", Obj(Ensure(l, raw)))])
  }

  predicate Blank(v: Json) { v == Null || v == Str("") }

  /** Name, description unless empty, parameters; anything else after them in the client's order. */
  function FnHead(f: seq<Field>): seq<Field> {
    [Field("name", Get(f, "name"))]
    + (if Has(f, "description") then [Field("description", Get(f, "description"))] else [])
    + [Field("parameters", if Truthy(Get(f, "parameters")) then Get(f, "parameters") else Obj(EMPTY))]
  }

  function StabFn(l: Lang, fn: seq<Field>): seq<Field> {
    Ordered(FnHead(Trimmed(l, fn)), Trimmed(l, fn))
  }

  function Tool(f: seq<Field>): Json { Obj([Field("type", Str("function")), Field("function", Obj(f))]) }

  /** One outbound tool; None when it is no object or has no name. */
  function StabTool(l: Lang, t: Json): Option<Json> {
    if !t.Obj? then None else
    var fn := NormFn(l, t.fields);
    if fn.None? then None else Some(Tool(StabFn(l, fn.value)))
  }

  function NameOf(l: Lang, t: Json): string {
    if !t.Obj? then ""
    else
      var fn := Get(t.fields, "function");
      if fn.Obj? && Truthy(Get(fn.fields, "name")) then l.lower(l.str(Get(fn.fields, "name")))
      else if Truthy(Get(t.fields, "name")) then l.lower(l.str(Get(t.fields, "name")))
      else l.lower("")
  }

  function ByName(l: Lang): Json -> string { (t: Json) => NameOf(l, t) }

  function Stab(l: Lang): Json -> Option<Json> { (t: Json) => StabTool(l, t) }

  /** The outbound tool list. */
  function StabTools(l: Lang, ts: seq<Json>): seq<Json> { Sort(ByName(l), Collect(Stab(l), ts)) }

  ghost predicate AllWellFormed(vs: seq<Json>) { forall i :: 0 <= i < |vs| ==> WellFormed(vs[i]) }

  lemma WellFormedGet(fs: seq<Field>, k: string)
    requires WellFormed(Obj(fs))
    ensures WellFormed(Get(fs, k))
  {
    GetHas(fs, k);
  }

  lemma PutWellFormed(fs: seq<Field>, k: string, v: Json)
    requires WellFormed(Obj(fs)) && WellFormed(v)
    ensures WellFormed(Obj(Put(fs, k, v)))
  {
    PutKeys(fs, k, v);
  }

  lemma WithoutWellFormed(fs: seq<Field>, drop: set<string>)
    requires WellFormed(Obj(fs))
    ensures WellFormed(Obj(Without(fs, drop)))
    ensures forall k :: k in drop ==> !Has(Without(fs, drop), k)
    ensures forall k :: k !in drop && Has(fs, k) ==> Has(Without(fs, drop), k) && Get(Without(fs, drop), k) == Get(fs, k)
  {
    var gs := Without(fs, drop);
    WithoutMembers(fs, drop);
    forall i | 0 <= i < |gs| ensures WellFormed(gs[i].value) && gs[i].key !in drop {
      assert gs[i] in gs;
      assert gs[i] in fs;
    }
    forall k | k !in drop && Has(fs, k) ensures Has(gs, k) && Get(gs, k) == Get(fs, k) {
      var i :| 0 <= i < |fs| && fs[i].key == k;
      GetAt(fs, i);
      assert fs[i] in gs;
      var j :| 0 <= j < |gs| && gs[j] == fs[i];
      GetAt(gs, j);
    }
  }

  /** A normalised function object: named, with well-kept parameters and no second schema key. */
  ghost predicate Normal(f: seq<Field>) {
    WellFormed(Obj(f)) && Truthy(Get(f, "name")) && Has(f, "name") && Has(f, "parameters") && !Has(f, "input_schema")
  }

  lemma FirstWellFormed(vs: seq<Json>)
    requires AllWellFormed(vs)
    ensures WellFormed(FirstOf(vs))
  {
  }

  lemma RawWellFormed(l: Lang, vs: seq<Json>)
    requires Faithful(l) && AllWellFormed(vs)
    ensures WellFormed(Obj(Ensure(l, FirstOf(vs))))
  {
    FirstWellFormed(vs);
    EnsureWhole(l, FirstOf(vs));
  }

  lemma AllFour(a: Json, b: Json, c: Json, d: Json)
    requires WellFormed(a) && WellFormed(b) && WellFormed(c) && WellFormed(d)
    ensures AllWellFormed([a, b, c, d]) && AllWellFormed([c, d])
  {
  }

  lemma Named(fn: seq<Field>, name: Json)
    requires WellFormed(Obj(fn)) && WellFormed(name) && Truthy(name)
    ensures var f := Put(fn, "name", name); WellFormed(Obj(f)) && Has(f, "name") && Truthy(Get(f, "name"))
  {
    PutWellFormed(fn, "name", name);
    PutKeys(fn, "name", name);
    HasPut(fn, "name", name, "name");
  }

  lemma SchemasOf(l: Lang, named: seq<Field>, t: seq<Field>)
    requires Faithful(l) && WellFormed(Obj(named)) && WellFormed(Obj(t))
    ensures WellFormed(Obj(Ensure(l, FirstOf([Get(named, "parameters"), Get(named, "input_schema"), Get(t, "parameters"), Get(t, "input_schema")]))))
    ensures WellFormed(Obj(Ensure(l, FirstOf([Get(t, "parameters"), Get(t, "input_schema")]))))
  {
    WellFormedGet(named, "parameters");
    WellFormedGet(named, "input_schema");
    WellFormedGet(t, "parameters");
    WellFormedGet(t, "input_schema");
    AllFour(Get(named, "parameters"), Get(named, "input_schema"), Get(t, "parameters"), Get(t, "input_schema"));
    RawWellFormed(l, [Get(named, "parameters"), Get(named, "input_schema"), Get(t, "parameters"), Get(t, "input_schema")]);
    RawWellFormed(l, [Get(t, "parameters"), Get(t, "input_schema")]);
  }

  lemma OneSchemaNormal(l: Lang, named: seq<Field>, t: seq<Field>)
    requires Faithful(l) && WellFormed(Obj(named)) && WellFormed(Obj(t)) && Has(named, "name") && Truthy(Get(named, "name"))
    ensures Normal(OneSchema(l, named, t))
  {
    SchemasOf(l, named, t);
    var raw := FirstOf([Get(named, "parameters"), Get(named, "input_schema"), Get(t, "parameters"), Get(t, "input_schema")]);
    NormRest(named, Obj(Ensure(l, raw)));
  }

  lemma NormNested(l: Lang, t: seq<Field>, fn: seq<Field>)
    requires Faithful(l) && WellFormed(Obj(t)) && Get(t, "function") == Obj(fn) && WellFormed(Obj(fn)) && NormFn(l, t).Some?
    ensures Normal(NormFn(l, t).value)
  {
    var name := if Truthy(Get(fn, "name")) then Get(fn, "name") else Get(t, "name");
    WellFormedGet(fn, "name");
    WellFormedGet(t, "name");
    WellFormedGet(t, "description");
    Named(fn, name);
    OneSchemaNormal(l, Put(fn, "name", name), t);
    NormPut(OneSchema(l, Put(fn, "name", name), t), Get(t, "description"));
  }

  lemma NormRest(named: seq<Field>, params: Json)
    requires WellFormed(Obj(named)) && Has(named, "name") && Truthy(Get(named, "name")) && WellFormed(params)
    ensures Normal(Without(Put(named, "parameters", params), {"input_schema"}))
  {
    PutWellFormed(named, "parameters", params);
    PutKeys(named, "parameters", params);
    HasPut(named, "parameters", params, "name");
    WithoutWellFormed(Put(named, "parameters", params), {"input_schema"});
  }

  lemma HasPut(fs: seq<Field>, k: string, v: Json, q: string)
    ensures Has(Put(fs, k, v), q) <==> Has(fs, q) || q == k
  {
    if Has(fs, k) {
      var gs := Replaced(fs, k, v);
      if Has(fs, q) {
        var i :| 0 <= i < |fs| && fs[i].key == q;
        assert gs[i].key == q;
      }
      if q == k {
        var i :| 0 <= i < |fs| && fs[i].key == k;
        assert gs[i].key == k;
      }
      forall i | 0 <= i < |gs| && gs[i].key == q ensures Has(fs, q) || q == k {
        assert fs[i].key == q;
      }
    } else {
      HasSnoc(fs, Field(k, v), q);
    }
  }

  lemma NormPut(f: seq<Field>, d: Json)
    requires Normal(f) && WellFormed(d)
    ensures Normal(Put(f, "description", d))
  {
    PutWellFormed(f, "description", d);
    PutKeys(f, "description", d);
    HasPut(f, "description", d, "name");
    HasPut(f, "description", d, "parameters");
    HasPut(f, "description", d, "input_schema");
  }

  lemma NormalSnoc(f: seq<Field>, params: Json)
    requires WellFormed(Obj(f)) && Has(f, "name") && Truthy(Get(f, "name")) && !Has(f, "parameters") && !Has(f, "input_schema")
    requires WellFormed(params)
    ensures Normal(f + [Field("parameters", params)])
  {
    var p := Field("parameters", params);
    SnocWellFormed(f, p);
    HasSnoc(f, p, "name");
    HasSnoc(f, p, "parameters");
    HasSnoc(f, p, "input_schema");
  }

  lemma OneWellFormed(f: Field)
    requires WellFormed(f.value)
    ensures WellFormed(Obj([f])) && Has([f], f.key) && Get([f], f.key) == f.value && forall q :: q != f.key ==> !Has([f], q)
  {
    assert [f][0].key == f.key;
  }

  lemma DescribedNormal(n: Field, d: Field, params: Json)
    requires n.key == "name" && d.key == "description" && WellFormed(n.value) && Truthy(n.value) && WellFormed(d.value) && WellFormed(params)
    ensures Normal([n] + [d] + [Field("parameters", params)])
  {
    OneWellFormed(n);
    SnocWellFormed([n], d);
    HasSnoc([n], d, "name");
    HasSnoc([n], d, "parameters");
    HasSnoc([n], d, "input_schema");
    NormalSnoc([n] + [d], params);
  }

  lemma FlatNormal(name: Json, description: Json, params: Json)
    requires WellFormed(name) && Truthy(name) && WellFormed(description) && WellFormed(params)
    ensures Normal([Field("name", name)] + (if description != Null then [Field("description", description)] else []) + [Field("parameters", params)])
  {
    var n := Field("name", name);
    if description != Null {
      DescribedNormal(n, Field("description", description), params);
    } else {
      OneWellFormed(n);
      NormalSnoc([n], params);
      assert [n] + [] == [n];
    }
  }

  lemma NormFlat(l: Lang, t: seq<Field>)
    requires Faithful(l) && WellFormed(Obj(t)) && !Get(t, "function").Obj? && NormFn(l, t).Some?
    ensures Normal(NormFn(l, t).value)
  {
    WellFormedGet(t, "name");
    WellFormedGet(t, "description");
    SchemasOf(l, t, t);
    FlatNormal(Get(t, "name"), Get(t, "description"), Obj(Ensure(l, FirstOf([Get(t, "parameters"), Get(t, "input_schema")]))));
  }

  lemma NormFnNormal(l: Lang, t: seq<Field>)
    requires Faithful(l) && WellFormed(Obj(t)) && NormFn(l, t).Some?
    ensures Normal(NormFn(l, t).value)
  {
    WellFormedGet(t, "function");
    if Get(t, "function").Obj? {
      NormNested(l, t, Get(t, "function").fields);
    } else {
      NormFlat(l, t);
    }
  }

  /** A function object in outbound form: nothing about it changes when it is stabilised again. */
  ghost predicate Settled(l: Lang, o: seq<Field>) {
    && Normal(o) && Ordered(FnHead(o), o) == o
    && (Has(o, "description") ==> !Blank(Get(o, "description")))
    && var p := Get(o, "parameters"); p.Obj? && p.fields != [] && StabParams(l, p) == p && Obj(Ensure(l, p)) == p
  }

  /** Reading keys of `head + rest`. */
  lemma HeadGet(head: seq<Field>, rest: seq<Field>, i: nat)
    requires KeysDiffer(head + rest) && i < |head|
    ensures Has(head + rest, head[i].key) && Get(head + rest, head[i].key) == head[i].value
  {
    assert (head + rest)[i] == head[i];
    GetAt(head + rest, i);
  }

  /** Parameters stabilised, empty description dropped. */
  function Trimmed(l: Lang, fn: seq<Field>): seq<Field> {
    var f := Put(fn, "parameters", StabParams(l, Get(fn, "parameters")));
    if Blank(Get(f, "description")) then Without(f, {"description"}) else f
  }

  lemma ParamsPut(fn: seq<Field>, p: Json)
    requires Normal(fn) && WellFormed(p)
    ensures var f := Put(fn, "parameters", p); Normal(f) && Get(f, "parameters") == p
  {
    PutWellFormed(fn, "parameters", p);
    PutKeys(fn, "parameters", p);
    HasPut(fn, "parameters", p, "name");
    HasPut(fn, "parameters", p, "parameters");
    HasPut(fn, "parameters", p, "input_schema");
  }

  lemma DropDescription(f: seq<Field>)
    requires Normal(f)
    ensures var g := Without(f, {"description"}); Normal(g) && !Has(g, "description") && Get(g, "parameters") == Get(f, "parameters")
  {
    WithoutWellFormed(f, {"description"});
    WithoutMembers(f, {"description"});
  }

  lemma TrimmedNormal(l: Lang, fn: seq<Field>)
    requires Faithful(l) && Normal(fn)
    ensures var g := Trimmed(l, fn); Normal(g) && Get(g, "parameters") == StabParams(l, Get(fn, "parameters"))
    ensures var g := Trimmed(l, fn); Has(g, "description") ==> !Blank(Get(g, "description"))
  {
    WellFormedGet(fn, "parameters");
    ParamsTwice(l, Get(fn, "parameters"));
    ParamsPut(fn, StabParams(l, Get(fn, "parameters")));
    DropDescription(Put(fn, "parameters", StabParams(l, Get(fn, "parameters"))));
  }

  lemma HeadWellFormed(g: seq<Field>)
    requires Normal(g) && Truthy(Get(g, "parameters"))
    ensures var h := FnHead(g);
            && WellFormed(Obj(h)) && "name" in Keys(h) && "parameters" in Keys(h) && "input_schema" !in Keys(h)
            && ("description" in Keys(h) <==> Has(g, "description"))
            && (forall i :: 0 <= i < |h| ==> Get(g, h[i].key) == h[i].value)
  {
    WellFormedGet(g, "name");
    WellFormedGet(g, "description");
    WellFormedGet(g, "parameters");
    var h := FnHead(g);
    assert h[0] in h && h[|h| - 1] in h;
    if Has(g, "description") {
      assert h[1] in h;
    }
  }

  lemma OrderedGet(h: seq<Field>, g: seq<Field>, k: string)
    requires KeysDiffer(h) && KeysDiffer(g) && forall i :: 0 <= i < |h| ==> Get(g, h[i].key) == h[i].value
    ensures k in Keys(h) ==> Has(Ordered(h, g), k) && Get(Ordered(h, g), k) == Get(g, k)
    ensures k !in Keys(h) && !Has(g, k) ==> !Has(Ordered(h, g), k)
  {
    OrderedKeys(h, g);
    var rest := Without(g, Keys(h));
    if k in Keys(h) {
      var f :| f in h && f.key == k;
      var i :| 0 <= i < |h| && h[i] == f;
      HeadGet(h, rest, i);
    } else if !Has(g, k) {
      forall i | 0 <= i < |h + rest| ensures (h + rest)[i].key != k {
        if i < |h| {
          assert h[i] in h;
        } else {
          assert rest[i - |h|] in rest;
        }
      }
    }
  }

  /** Ordering a function object by its own head keeps what the head looks at. */
  lemma OrderedNormal(g: seq<Field>)
    requires Normal(g) && Truthy(Get(g, "parameters"))
    ensures var o := Ordered(FnHead(g), g);
            && Normal(o) && FnHead(o) == FnHead(g) && Get(o, "parameters") == Get(g, "parameters")
            && (Has(o, "description") ==> Has(g, "description") && Get(o, "description") == Get(g, "description"))
  {
    HeadWellFormed(g);
    var h := FnHead(g);
    OrderedGet(h, g, "name");
    OrderedGet(h, g, "parameters");
    OrderedGet(h, g, "description");
    OrderedGet(h, g, "input_schema");
    OrderedWellFormed(h, g);
  }

  lemma StabFnNormal(l: Lang, fn: seq<Field>)
    requires Faithful(l) && Normal(fn)
    ensures var g := Trimmed(l, fn);
            var o := StabFn(l, fn);
            && Normal(o) && FnHead(o) == FnHead(g) && Get(o, "parameters") == Get(g, "parameters")
            && (Has(o, "description") ==> !Blank(Get(o, "description")))
  {
    TrimmedNormal(l, fn);
    WellFormedGet(fn, "parameters");
    ParamsTwice(l, Get(fn, "parameters"));
    OrderedNormal(Trimmed(l, fn));
  }

  lemma OrderedWellFormed(h: seq<Field>, g: seq<Field>)
    requires WellFormed(Obj(h)) && WellFormed(Obj(g))
    ensures WellFormed(Obj(Ordered(h, g)))
  {
    OrderedKeys(h, g);
    WithoutWellFormed(g, Keys(h));
    var rest := Without(g, Keys(h));
    assert forall i :: 0 <= i < |h + rest| ==> WellFormed((h + rest)[i].value);
  }

  /** Stabilised functions are settled. */
  lemma StabFnSettled(l: Lang, fn: seq<Field>)
    requires Faithful(l) && Normal(fn)
    ensures Settled(l, StabFn(l, fn))
  {
    var g, h := Trimmed(l, fn), FnHead(Trimmed(l, fn));
    TrimmedNormal(l, fn);
    StabFnNormal(l, fn);
    WellFormedGet(fn, "parameters");
    ParamsTwice(l, Get(fn, "parameters"));
    WithoutMembers(g, Keys(h));
    OrderedAgain(h, Without(g, Keys(h)));
  }

  lemma ToolGet(o: seq<Field>)
    ensures var t := Tool(o).fields; Get(t, "function") == Obj(o) && Get(t, "description") == Null && Get(t, "type") == Str("function")
  {
    var a, b := Field("type", Str("function")), Field("function", Obj(o));
    assert Tool(o).fields == [a] + [b] && [a] == [] + [a];
    HasSnoc([a], b, "function");
    HasSnoc([a], b, "description");
    HasSnoc([a], b, "type");
    HasSnoc([], a, "description");
    HasSnoc([], a, "type");
  }

  lemma SettledStab(l: Lang, o: seq<Field>)
    requires Settled(l, o)
    ensures StabFn(l, o) == o
  {
    PutKeys(o, "parameters", Get(o, "parameters"));
    GetHas(o, "description");
    if Blank(Get(o, "description")) {
      SameWithout(o, {"description"});
    }
  }

  lemma FirstIs(a: Json, b: Json, c: Json, d: Json)
    requires a != Null
    ensures FirstOf([a, b, c, d]) == a
  {
  }

  lemma SettledSchema(l: Lang, o: seq<Field>, t: seq<Field>)
    requires Settled(l, o)
    ensures OneSchema(l, o, t) == o
  {
    var p := Get(o, "parameters");
    FirstIs(p, Get(o, "input_schema"), Get(t, "parameters"), Get(t, "input_schema"));
    PutKeys(o, "parameters", p);
    assert Put(o, "parameters", p) == o;
    SameWithout(o, {"input_schema"});
  }

  lemma SettledNorm(l: Lang, o: seq<Field>)
    requires Settled(l, o)
    ensures NormFn(l, Tool(o).fields) == Some(o)
  {
    ToolGet(o);
    PutKeys(o, "name", Get(o, "name"));
    SettledSchema(l, o, Tool(o).fields);
  }

  lemma SameWithout(fs: seq<Field>, drop: set<string>)
    requires forall k :: k in drop ==> !Has(fs, k)
    ensures Without(fs, drop) == fs
  {
    WithoutNone(fs, drop);
    forall i | 0 <= i < |fs| ensures fs[i].key !in drop {
      assert Has(fs, fs[i].key);
    }
  }

  /** Stabilising a stabilised tool gives it back. */
  lemma ToolTwice(l: Lang, t: Json)
    requires Faithful(l) && WellFormed(t) && StabTool(l, t).Some?
    ensures StabTool(l, StabTool(l, t).value) == StabTool(l, t)
  {
    var fn := NormFn(l, t.fields).value;
    NormFnNormal(l, t.fields);
    StabFnSettled(l, fn);
    SettledStab(l, StabFn(l, fn));
    SettledNorm(l, StabFn(l, fn));
  }

  /** Stabilising a stabilised tool list changes nothing, whatever the tools. */
  lemma ToolsTwice(l: Lang, ts: seq<Json>)
    requires Faithful(l) && AllWellFormed(ts)
    ensures StabTools(l, StabTools(l, ts)) == StabTools(l, ts)
  {
    var f := Stab(l);
    forall i | 0 <= i < |ts| && f(ts[i]).Some? ensures f(f(ts[i]).value) == f(ts[i]) {
      ToolTwice(l, ts[i]);
    }
    SortCollectTwice(ByName(l), f, ts);
  }

  /* ---- tool lists up to order ---- */

  predicate Only(fs: seq<Field>, keys: set<string>) { forall i :: 0 <= i < |fs| ==> fs[i].key in keys }

  /** A tool in the chat-completions shape whose function holds only a name, a description and parameters. */
  ghost predicate Plain(t: Json) {
    && WellFormed(t) && t.Obj? && Only(t.fields, {"type", "function"}) && Get(t.fields, "function").Obj?
    && var fs := Get(t.fields, "function").fields;
       Only(fs, {"name", "description", "parameters"}) && Get(fs, "name").Str? && (Get(fs, "description").Str? || Get(fs, "description") == Null)
  }

  lemma OnlyGet(fs: seq<Field>, keys: set<string>, k: string)
    requires Only(fs, keys) && k !in keys
    ensures !Has(fs, k) && Get(fs, k) == Null
  {
    GetHas(fs, k);
  }

  lemma OnlyPut(fs: seq<Field>, keys: set<string>, k: string, v: Json)
    requires Only(fs, keys) && k in keys
    ensures Only(Put(fs, k, v), keys)
  {
  }

  lemma OnlyWithout(fs: seq<Field>, keys: set<string>, drop: set<string>)
    requires Only(fs, keys)
    ensures Only(Without(fs, drop), keys)
  {
    WithoutMembers(fs, drop);
    forall i | 0 <= i < |Without(fs, drop)| ensures Without(fs, drop)[i].key in keys {
      assert Without(fs, drop)[i] in fs;
    }
  }

  /** The function object a plain tool becomes: fixed order, canonical parameters. */
  function PlainForm(l: Lang, name: Json, description: Json, params: Json): seq<Field> {
    [Field("name", name)]
    + (if Blank(description) then [] else [Field("description", description)])
    + [Field("parameters", StabParams(l, params))]
  }

  lemma PlainNorm(l: Lang, t: Json)
    requires Faithful(l) && Plain(t)
    ensures var fs := Get(t.fields, "function").fields;
            NormFn(l, t.fields) ==
              if Get(fs, "name") == Str("") then None
              else Some(Put(fs, "parameters", Obj(Ensure(l, Get(fs, "parameters")))))
  {
    var fs := Get(t.fields, "function").fields;
    OnlyGet(t.fields, {"type", "function"}, "name");
    OnlyGet(t.fields, {"type", "function"}, "description");
    OnlyGet(t.fields, {"type", "function"}, "parameters");
    OnlyGet(t.fields, {"type", "function"}, "input_schema");
    OnlyGet(fs, {"name", "description", "parameters"}, "input_schema");
    WellFormedGet(t.fields, "function");
    if Get(fs, "name") != Str("") {
      GetHas(fs, "name");
      PutKeys(fs, "name", Get(fs, "name"));
      PlainRaw(Get(fs, "parameters"));
      var p := Put(fs, "parameters", Obj(Ensure(l, Get(fs, "parameters"))));
      OnlyPut(fs, {"name", "description", "parameters"}, "parameters", Obj(Ensure(l, Get(fs, "parameters"))));
      OnlyGet(p, {"name", "description", "parameters"}, "input_schema");
      SameWithout(p, {"input_schema"});
    }
  }

  lemma PlainRaw(p: Json)
    ensures FirstOf([p, Null, Null, Null]) == p
  {
    assert [p, Null, Null, Null][1..] == [Null, Null, Null];
    assert [Null, Null, Null][1..] == [Null, Null] && [Null, Null][1..] == [Null] && [Null][1..] == [];
  }

  lemma EnsureAgain(l: Lang, p: Json)
    requires Faithful(l) && WellFormed(p)
    ensures StabParams(l, Obj(Ensure(l, p))) == StabParams(l, p) && WellFormed(Obj(Ensure(l, p)))
  {
    EnsureWhole(l, p);
    assert Ensure(l, p) + [] == Ensure(l, p);
  }

  /** A settled head with nothing else. */
  lemma OrderedHeadOnly(g: seq<Field>)
    requires Normal(g) && Truthy(Get(g, "parameters")) && Only(g, {"name", "description", "parameters"})
    ensures Ordered(FnHead(g), g) == FnHead(g)
  {
    HeadWellFormed(g);
    forall i | 0 <= i < |g| ensures g[i].key in Keys(FnHead(g)) {
      assert Has(g, g[i].key);
    }
    WithoutNone(g, Keys(FnHead(g)));
  }

  lemma PlainStab(l: Lang, t: Json)
    requires Faithful(l) && Plain(t)
    ensures var fs := Get(t.fields, "function").fields;
            StabTool(l, t) == if Get(fs, "name") == Str("") then None
                              else Some(Tool(PlainForm(l, Get(fs, "name"), Get(fs, "description"), Get(fs, "parameters"))))
  {
    var fs := Get(t.fields, "function").fields;
    PlainNorm(l, t);
    if Get(fs, "name") != Str("") {
      WellFormedGet(t.fields, "function");
      NormFnNormal(l, t.fields);
      PlainTrim(l, fs);
    }
  }

  lemma PutGets(fn: seq<Field>, q: Json)
    requires KeysDiffer(fn)
    ensures var f := Put(fn, "parameters", q);
            && Get(f, "name") == Get(fn, "name") && Get(f, "description") == Get(fn, "description")
            && Get(f, "parameters") == q && KeysDiffer(f)
  {
    PutKeys(fn, "parameters", q);
  }

  lemma DroppedGets(f: seq<Field>)
    requires WellFormed(Obj(f)) && Has(f, "name")
    ensures var g := Without(f, {"description"}); Get(g, "name") == Get(f, "name") && !Has(g, "description")
  {
    WithoutWellFormed(f, {"description"});
  }

  /** What trimming keeps. */
  lemma TrimmedGets(l: Lang, fn: seq<Field>)
    requires Normal(fn) && WellFormed(StabParams(l, Get(fn, "parameters")))
    ensures var g := Trimmed(l, fn);
            && Get(g, "name") == Get(fn, "name")
            && (Has(g, "description") <==> !Blank(Get(fn, "description")))
            && (Has(g, "description") ==> Get(g, "description") == Get(fn, "description"))
  {
    var q := StabParams(l, Get(fn, "parameters"));
    var f := Put(fn, "parameters", q);
    PutGets(fn, q);
    ParamsPut(fn, q);
    if Blank(Get(f, "description")) {
      DroppedGets(f);
    } else {
      GetHas(f, "description");
    }
  }

  lemma TrimmedOnly(l: Lang, fn: seq<Field>, keys: set<string>)
    requires Only(fn, keys) && "parameters" in keys
    ensures Only(Trimmed(l, fn), keys)
  {
    var f := Put(fn, "parameters", StabParams(l, Get(fn, "parameters")));
    OnlyPut(fn, keys, "parameters", StabParams(l, Get(fn, "parameters")));
    OnlyWithout(f, keys, {"description"});
  }

  lemma TrimmedForm(l: Lang, fn: seq<Field>)
    requires Faithful(l) && Normal(fn) && Only(fn, {"name", "description", "parameters"})
    ensures StabFn(l, fn) == PlainForm(l, Get(fn, "name"), Get(fn, "description"), Get(fn, "parameters"))
  {
    WellFormedGet(fn, "parameters");
    ParamsTwice(l, Get(fn, "parameters"));
    TrimmedNormal(l, fn);
    TrimmedGets(l, fn);
    TrimmedOnly(l, fn, {"name", "description", "parameters"});
    OrderedHeadOnly(Trimmed(l, fn));
  }

  lemma TrimmedFormOf(l: Lang, fn: seq<Field>, name: Json, description: Json, e: Json, p: Json)
    requires Faithful(l) && Normal(fn) && Only(fn, {"name", "description", "parameters"})
    requires Get(fn, "name") == name && Get(fn, "description") == description && Get(fn, "parameters") == e
    requires StabParams(l, e) == StabParams(l, p)
    ensures StabFn(l, fn) == PlainForm(l, name, description, p)
  {
    TrimmedForm(l, fn);
  }

  lemma PlainTrim(l: Lang, fs: seq<Field>)
    requires Faithful(l) && WellFormed(Obj(fs)) && Only(fs, {"name", "description", "parameters"})
    requires Normal(Put(fs, "parameters", Obj(Ensure(l, Get(fs, "parameters")))))
    ensures StabFn(l, Put(fs, "parameters", Obj(Ensure(l, Get(fs, "parameters"))))) ==
            PlainForm(l, Get(fs, "name"), Get(fs, "description"), Get(fs, "parameters"))
  {
    var p := Get(fs, "parameters");
    WellFormedGet(fs, "parameters");
    EnsureAgain(l, p);
    PutGets(fs, Obj(Ensure(l, p)));
    OnlyPut(fs, {"name", "description", "parameters"}, "parameters", Obj(Ensure(l, p)));
    TrimmedFormOf(l, Put(fs, "parameters", Obj(Ensure(l, p))), Get(fs, "name"), Get(fs, "description"), Obj(Ensure(l, p)), p);
  }

  /** Key order, at any depth, does not matter for a plain tool. */
  lemma PlainCanon(l: Lang, t: Json)
    requires Faithful(l) && Plain(t)
    ensures Plain(Canon(t)) && StabTool(l, Canon(t)) == StabTool(l, t)
  {
    var ts, fs := t.fields, Get(t.fields, "function").fields;
    WellFormedGet(ts, "function");
    CanonWellFormed(t);
    CanonObj(ts);
    CanonObj(fs);
    CanonGet(ts, "function");
    CanonGet(fs, "name");
    CanonGet(fs, "description");
    CanonGet(fs, "parameters");
    OnlyCanon(ts, {"type", "function"});
    OnlyCanon(fs, {"name", "description", "parameters"});
    PlainStab(l, t);
    PlainStab(l, Canon(t));
    WellFormedGet(fs, "parameters");
    ParamsForget(l, Get(fs, "parameters"));
  }

  lemma OnlyCanon(fs: seq<Field>, keys: set<string>)
    requires Only(fs, keys)
    ensures Only(CanonFields(fs), keys)
  {
    var cs := CanonFields(fs);
    SortMembers(KeyOf, Inner(fs));
    forall i | 0 <= i < |cs| ensures cs[i].key in keys {
      assert cs[i] in multiset(Inner(fs));
      var j :| 0 <= j < |fs| && Inner(fs)[j] == cs[i];
    }
  }

  function CanonAll(ts: seq<Json>): seq<Json> { seq(|ts|, i requires 0 <= i < |ts| => Canon(ts[i])) }

  lemma CollectSnoc(l: Lang, ts: seq<Json>, t: Json)
    ensures var cs := Collect(Stab(l), ts);
            Collect(Stab(l), ts + [t]) == if StabTool(l, t).Some? then cs + [StabTool(l, t).value] else cs
  {
    assert (ts + [t])[..|ts|] == ts;
  }

  lemma CanonAllSnoc(ts: seq<Json>, t: Json)
    ensures CanonAll(ts + [t]) == CanonAll(ts) + [Canon(t)]
  {
  }

  lemma {:induction false} CollectCanon(l: Lang, ts: seq<Json>)
    requires Faithful(l) && forall i :: 0 <= i < |ts| ==> Plain(ts[i])
    ensures Collect(Stab(l), CanonAll(ts)) == Collect(Stab(l), ts)
  {
    if ts != [] {
      var init, t := ts[..|ts| - 1], ts[|ts| - 1];
      assert ts == init + [t];
      CollectCanon(l, init);
      PlainCanon(l, t);
      CanonAllSnoc(init, t);
      CollectSnoc(l, init, t);
      CollectSnoc(l, CanonAll(init), Canon(t));
    }
  }

  /**
   Tool lists that are the same tools in another order, each with its keys in any order at any depth, go
   out as one and the same list, as long as no two lower-cased names agree.
   */
  lemma ToolsForget(l: Lang, xs: seq<Json>, ys: seq<Json>)
    requires Faithful(l)
    requires (forall i :: 0 <= i < |xs| ==> Plain(xs[i])) && (forall i :: 0 <= i < |ys| ==> Plain(ys[i]))
    requires multiset(CanonAll(xs)) == multiset(CanonAll(ys))
    requires DistinctKeys(ByName(l), Collect(Stab(l), xs))
    ensures StabTools(l, xs) == StabTools(l, ys)
  {
    CollectCanon(l, xs);
    CollectCanon(l, ys);
    CollectMembers(Stab(l), CanonAll(xs), CanonAll(ys));
    SortForgets(ByName(l), Collect(Stab(l), xs), Collect(Stab(l), ys));
  }

  /* ---- assistant tool calls in the history ---- */

  const VOLATILE: set<string> := {"index", "extra_content", "thought_signature"}

  /** Arguments as canonical text, or as the text they are. */
  function ArgsText(l: Lang, args: Json): Json {
    match CanonText(l, args)
    case Some(t) => Str(t)
    case None => if args == Null then Str("{}") else if args.Str? then args else Str(l.str(args))
  }

  function StabArgs(l: Lang, fn: seq<Field>): seq<Field> { Put(fn, "arguments", ArgsText(l, Get(fn, "arguments"))) }

  /** One call without its volatile extras and with canonical arguments. */
  function CallItem(l: Lang, fs: seq<Field>): seq<Field> {
    var item := Without(fs, VOLATILE);
    if Get(item, "function").Obj? then Put(item, "function", Obj(StabArgs(l, Get(item, "function").fields))) else item
  }

  function TypeEntry(item: seq<Field>): Field {
    Field("type", if Truthy(Get(item, "type")) then Get(item, "type") else Str("function"))
  }

  function CallHead(item: seq<Field>): seq<Field> {
    (if Get(item, "id") != Null then [Field("id", Get(item, "id"))] else [])
    + [TypeEntry(item)]
    + (if Has(item, "function") then [Field("function", Get(item, "function"))] else [])
  }

  function StabCall(l: Lang, tc: Json): Json {
    if !tc.Obj? then tc else
    var item := CallItem(l, tc.fields);
    Obj(Ordered(CallHead(item), item))
  }

  /** Argument text is a fixed point. */
  lemma ArgsTwice(l: Lang, args: Json)
    requires Faithful(l) && WellFormed(args)
    ensures ArgsText(l, args).Str? && ArgsText(l, ArgsText(l, args)) == ArgsText(l, args)
  {
    if CanonText(l, args).Some? {
      CanonTextTwice(l, args);
    } else if args == Null {
      var none: seq<Field> := [];
      assert Canon(Obj(none)) == Obj(none) by {
        assert SortFields(Inner(none)) == [];
      }
      PrintedAgain(l, Obj(none));
    } else if !args.Str? {
      assert l.strip(l.str(args)) == "" || l.strip(l.str(args))[0] !in "{[";
    }
  }

  lemma StabArgsTwice(l: Lang, fn: seq<Field>)
    requires Faithful(l) && WellFormed(Obj(fn))
    ensures var g := StabArgs(l, fn); WellFormed(Obj(g)) && StabArgs(l, g) == g
  {
    WellFormedGet(fn, "arguments");
    var a := ArgsText(l, Get(fn, "arguments"));
    ArgsTwice(l, Get(fn, "arguments"));
    PutWellFormed(fn, "arguments", a);
    PutKeys(fn, "arguments", a);
    PutKeys(StabArgs(l, fn), "arguments", a);
    HasPut(fn, "arguments", a, "arguments");
  }

  lemma PutFunction(item: seq<Field>, g: Json)
    requires WellFormed(Obj(item)) && WellFormed(g) && forall k :: k in VOLATILE ==> !Has(item, k)
    ensures var o := Put(item, "function", g);
            WellFormed(Obj(o)) && Get(o, "function") == g && forall k :: k in VOLATILE ==> !Has(o, k)
  {
    PutWellFormed(item, "function", g);
    PutKeys(item, "function", g);
    forall k | k in VOLATILE ensures !Has(Put(item, "function", g), k) {
      HasPut(item, "function", g, k);
    }
  }

  lemma CallItemReady(l: Lang, fs: seq<Field>)
    requires Faithful(l) && WellFormed(Obj(fs))
    ensures var item := CallItem(l, fs);
            && WellFormed(Obj(item)) && (forall k :: k in VOLATILE ==> !Has(item, k))
            && (Get(item, "function").Obj? ==> StabArgs(l, Get(item, "function").fields) == Get(item, "function").fields)
  {
    WithoutWellFormed(fs, VOLATILE);
    var item := Without(fs, VOLATILE);
    if Get(item, "function").Obj? {
      WellFormedGet(item, "function");
      StabArgsTwice(l, Get(item, "function").fields);
      PutFunction(item, Obj(StabArgs(l, Get(item, "function").fields)));
    }
  }

  /** Nothing is left to change in such an item. */
  lemma CallFixed(l: Lang, o: seq<Field>)
    requires WellFormed(Obj(o)) && (forall k :: k in VOLATILE ==> !Has(o, k))
    requires Get(o, "function").Obj? ==> StabArgs(l, Get(o, "function").fields) == Get(o, "function").fields
    ensures CallItem(l, o) == o
  {
    SameWithout(o, VOLATILE);
    if Get(o, "function").Obj? {
      GetHas(o, "function");
      PutKeys(o, "function", Get(o, "function"));
    }
  }

  lemma KeysSnoc(fs: seq<Field>, f: Field)
    requires WellFormed(Obj(fs)) && f.key !in Keys(fs) && WellFormed(f.value)
    ensures WellFormed(Obj(fs + [f])) && Keys(fs + [f]) == Keys(fs) + {f.key}
  {
    assert forall i :: 0 <= i < |fs| ==> fs[i] in fs && fs[i].key != f.key;
    SnocWellFormed(fs, f);
    assert forall g :: g in fs + [f] <==> g in fs || g == f;
  }

  lemma CallHeadFacts(item: seq<Field>)
    requires WellFormed(Obj(item))
    ensures var h := CallHead(item);
            && WellFormed(Obj(h)) && Keys(h) == {"type"} + (if Get(item, "id") != Null then {"id"} else {}) + (if Has(item, "function") then {"function"} else {})
  {
    WellFormedGet(item, "id");
    WellFormedGet(item, "type");
    WellFormedGet(item, "function");
    var a := if Get(item, "id") != Null then [Field("id", Get(item, "id"))] else [];
    var t := TypeEntry(item);
    assert Keys(a) == if Get(item, "id") != Null then {"id"} else {};
    KeysSnoc(a, t);
    if Has(item, "function") {
      KeysSnoc(a + [t], Field("function", Get(item, "function")));
    } else {
      assert CallHead(item) == a + [t];
    }
  }

  lemma CallGet(item: seq<Field>, k: string)
    requires WellFormed(Obj(item)) && k != "type"
    ensures var o := Ordered(CallHead(item), item); Get(o, k) == Get(item, k) && (Has(o, k) <==> Has(item, k))
  {
    CallHeadFacts(item);
    OrderedFinds(CallHead(item), item, k);
    GetHas(item, k);
    if k in Keys(CallHead(item)) {
      HeadValues(item);
    }
  }

  lemma CallType(item: seq<Field>)
    requires WellFormed(Obj(item))
    ensures var o := Ordered(CallHead(item), item);
            Has(o, "type") && Get(o, "type") == if Truthy(Get(item, "type")) then Get(item, "type") else Str("function")
  {
    CallHeadFacts(item);
    OrderedFinds(CallHead(item), item, "type");
    HeadValues(item);
  }

  /** The head only looks at these entries. */
  lemma SameHead(o: seq<Field>, item: seq<Field>)
    requires Get(o, "id") == Get(item, "id") && Get(o, "type") == TypeEntry(item).value && Truthy(Get(o, "type"))
    requires Get(o, "function") == Get(item, "function") && (Has(o, "function") <==> Has(item, "function"))
    ensures CallHead(o) == CallHead(item)
  {
  }

  lemma CallClean(item: seq<Field>)
    requires WellFormed(Obj(item)) && forall k :: k in VOLATILE ==> !Has(item, k)
    ensures forall k :: k in VOLATILE ==> !Has(Ordered(CallHead(item), item), k)
  {
    forall k | k in VOLATILE ensures !Has(Ordered(CallHead(item), item), k) {
      CallGet(item, k);
    }
  }

  /** Reordering keeps what the head and the checks look at. */
  lemma CallOrderedGets(item: seq<Field>)
    requires WellFormed(Obj(item)) && forall k :: k in VOLATILE ==> !Has(item, k)
    ensures var o := Ordered(CallHead(item), item);
            WellFormed(Obj(o)) && (forall k :: k in VOLATILE ==> !Has(o, k)) && CallHead(o) == CallHead(item)
  {
    CallHeadFacts(item);
    OrderedWellFormed(CallHead(item), item);
    CallGet(item, "function");
    CallGet(item, "id");
    CallType(item);
    SameHead(Ordered(CallHead(item), item), item);
    CallClean(item);
  }

  lemma TwoGet(a: Field, b: Field)
    requires a.key != b.key
    ensures var h := [a] + [b];
            && Has(h, a.key) && Has(h, b.key) && Get(h, a.key) == a.value && Get(h, b.key) == b.value
            && forall k :: k != a.key && k != b.key ==> !Has(h, k)
  {
    var h := [a] + [b];
    OneGet(a);
    HasSnoc([a], b, a.key);
    HasSnoc([a], b, b.key);
    forall k | k != a.key && k != b.key ensures !Has(h, k) {
      HasSnoc([a], b, k);
    }
  }

  lemma OneGet(a: Field)
    ensures Has([a], a.key) && Get([a], a.key) == a.value && forall k :: k != a.key ==> !Has([a], k)
  {
    assert [a][0].key == a.key;
  }

  /** The head of a call without its function entry. */
  lemma ShortHead(item: seq<Field>)
    ensures var h := (if Get(item, "id") != Null then [Field("id", Get(item, "id"))] else []) + [TypeEntry(item)];
            && Has(h, "type") && Get(h, "type") == TypeEntry(item).value && !Has(h, "function")
            && (Has(h, "id") ==> Get(h, "id") == Get(item, "id"))
  {
    if Get(item, "id") != Null {
      TwoGet(Field("id", Get(item, "id")), TypeEntry(item));
    } else {
      OneGet(TypeEntry(item));
      assert [] + [TypeEntry(item)] == [TypeEntry(item)];
    }
  }

  lemma HeadValues(item: seq<Field>)
    ensures var h := CallHead(item);
            && (Has(h, "type") && Get(h, "type") == TypeEntry(item).value)
            && (Has(h, "function") ==> Get(h, "function") == Get(item, "function"))
            && (Has(h, "id") ==> Get(h, "id") == Get(item, "id"))
  {
    var h := (if Get(item, "id") != Null then [Field("id", Get(item, "id"))] else []) + [TypeEntry(item)];
    ShortHead(item);
    if Has(item, "function") {
      var f := Field("function", Get(item, "function"));
      HasSnoc(h, f, "id");
      HasSnoc(h, f, "type");
      HasSnoc(h, f, "function");
      assert CallHead(item) == h + [f];
    } else {
      assert CallHead(item) == h;
    }
  }

  lemma HasInKeys(h: seq<Field>, k: string)
    ensures k in Keys(h) <==> Has(h, k)
  {
    if k in Keys(h) {
      var f :| f in h && f.key == k;
      var i :| 0 <= i < |h| && h[i] == f;
      assert h[i].key == k;
    } else {
      forall i | 0 <= i < |h| ensures h[i].key != k {
        assert h[i] in h;
      }
    }
  }

  lemma PartKeys(h: seq<Field>, rest: seq<Field>)
    requires KeysDiffer(h + rest)
    ensures KeysDiffer(h) && KeysDiffer(rest)
    ensures forall k :: Has(h, k) ==> !Has(rest, k)
  {
    assert forall i :: 0 <= i < |h| ==> (h + rest)[i] == h[i];
    assert forall i :: 0 <= i < |rest| ==> (h + rest)[|h| + i] == rest[i];
    forall i, j | 0 <= i < |h| && 0 <= j < |rest| ensures h[i].key != rest[j].key {
      assert KeyOf((h + rest)[i]) != KeyOf((h + rest)[|h| + j]);
    }
  }

  /** A key of a joined object is found in the part that has it. */
  lemma JoinedFinds(h: seq<Field>, rest: seq<Field>, k: string)
    requires KeysDiffer(h + rest)
    ensures Has(h + rest, k) <==> Has(h, k) || Has(rest, k)
    ensures Get(h + rest, k) == if Has(h, k) then Get(h, k) else Get(rest, k)
  {
    PartKeys(h, rest);
    if Has(h, k) {
      var i :| 0 <= i < |h| && h[i].key == k;
      GetAt(h, i);
      HeadGet(h, rest, i);
    } else if Has(rest, k) {
      var j :| 0 <= j < |rest| && rest[j].key == k;
      GetAt(rest, j);
      assert (h + rest)[|h| + j] == rest[j];
      GetAt(h + rest, |h| + j);
    } else {
      JoinedNot(h, rest, k);
    }
  }

  lemma JoinedNot(h: seq<Field>, rest: seq<Field>, k: string)
    requires !Has(h, k) && !Has(rest, k)
    ensures !Has(h + rest, k) && Get(h + rest, k) == Get(rest, k) == Null
  {
    forall i | 0 <= i < |h + rest| ensures (h + rest)[i].key != k {
      if i < |h| {
        assert h[i].key != k;
      } else {
        assert rest[i - |h|].key != k;
      }
    }
    GetHas(h + rest, k);
    GetHas(rest, k);
  }

  /** Dropping keys leaves what the other keys get. */
  lemma WithoutFinds(g: seq<Field>, drop: set<string>, k: string)
    requires KeysDiffer(g) && k !in drop
    ensures (Has(Without(g, drop), k) <==> Has(g, k)) && Get(Without(g, drop), k) == Get(g, k)
  {
    var r := Without(g, drop);
    WithoutMembers(g, drop);
    if Has(g, k) {
      var i :| 0 <= i < |g| && g[i].key == k;
      GetAt(g, i);
      assert g[i] in r;
      var j :| 0 <= j < |r| && r[j] == g[i];
      GetAt(r, j);
    } else {
      forall j | 0 <= j < |r| ensures r[j].key != k {
        assert r[j] in r;
      }
      GetHas(g, k);
      GetHas(r, k);
    }
  }

  /** A key of an ordered object is the head's if the head has it, the rest's otherwise. */
  lemma OrderedFinds(h: seq<Field>, g: seq<Field>, k: string)
    requires KeysDiffer(h) && KeysDiffer(g)
    ensures Has(Ordered(h, g), k) <==> Has(h, k) || Has(g, k)
    ensures Get(Ordered(h, g), k) == if k in Keys(h) then Get(h, k) else Get(g, k)
    ensures k in Keys(h) <==> Has(h, k)
  {
    OrderedKeys(h, g);
    HasInKeys(h, k);
    JoinedFinds(h, Without(g, Keys(h)), k);
    if k !in Keys(h) {
      WithoutFinds(g, Keys(h), k);
    }
  }

  /** Stabilising a stabilised call gives it back. */
  lemma CallTwice(l: Lang, tc: Json)
    requires Faithful(l) && WellFormed(tc)
    ensures WellFormed(StabCall(l, tc)) && StabCall(l, StabCall(l, tc)) == StabCall(l, tc)
  {
    if tc.Obj? {
      var item := CallItem(l, tc.fields);
      CallItemReady(l, tc.fields);
      var h := CallHead(item);
      var o := Ordered(h, item);
      CallOrderedGets(item);
      CallGet(item, "function");
      CallFixed(l, o);
      WithoutMembers(item, Keys(h));
      OrderedAgain(h, Without(item, Keys(h)));
    }
  }
}
