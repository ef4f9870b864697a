/** A concrete instance of the text operations the prompt code leans on: their contract can be met. */
module PrintedJson {
  import opened Common
  import opened JsonCanonical
  import opened PromptStabilize
  import PromptMessages

  /* ---- white space ---- */

  predicate Space(c: char) { c in " \t\n\r" }

  function TrimRight(s: string): string {
    if s != "" && Space(s[|s| - 1]) then TrimRight(s[..|s| - 1]) else s
  }

  function TrimLeft(s: string): string {
    if s != "" && Space(s[0]) then TrimLeft(s[1..]) else s
  }

  function Trim(s: string): string { TrimLeft(TrimRight(s)) }

  predicate Bare(s: string) { s == "" || (!Space(s[0]) && !Space(s[|s| - 1])) }

  lemma {:induction false} TrimLeftEnds(s: string)
    requires s == "" || !Space(s[|s| - 1])
    ensures Bare(TrimLeft(s))
  {
    if s != "" && Space(s[0]) {
      TrimLeftEnds(s[1..]);
    }
  }

  lemma {:induction false} TrimRightEnds(s: string)
    ensures var t := TrimRight(s); t == "" || !Space(t[|t| - 1])
  {
    if s != "" && Space(s[|s| - 1]) {
      TrimRightEnds(s[..|s| - 1]);
    }
  }

  lemma Trimmed(s: string)
    ensures Bare(Trim(s)) && Trim(Trim(s)) == Trim(s)
  {
    TrimRightEnds(s);
    TrimLeftEnds(TrimRight(s));
  }

  /* ---- printing ---- */

  function Escaped(c: char): string {
    match c
    case '"' => "\\\""
    case '\\' => "\\\\"
    case '\n' => "\\n"
    case '\r' => "\\r"
    case _ => [c]
  }

  function Escape(s: string): string { if s == "" then "" else Escaped(s[0]) + Escape(s[1..]) }

  function Quoted(s: string): string { "\"" + Escape(s) + "\"" }

  /** Compact JSON text. */
  function Print(v: Json): string
    decreases v
  {
    match v
    case Null => "null"
    case Bool(b) => if b then "true" else "false"
    case Num(t) => t
    case Str(s) => Quoted(s)
    case Arr(items) => "[" + Inside(items)
    case Obj(fs) => "{" + Members(fs)
  }

  function Inside(items: seq<Json>): string
    decreases items
  {
    if items == [] then "]" else Print(items[0]) + Rest(items[1..])
  }

  function Rest(items: seq<Json>): string
    decreases items
  {
    if items == [] then "]" else "," + Print(items[0]) + Rest(items[1..])
  }

  function Members(fs: seq<Field>): string
    decreases fs
  {
    if fs == [] then "}" else Entry(fs[0]) + Entries(fs[1..])
  }

  function Entry(f: Field): string
    decreases f
  {
    Quoted(f.key) + ":" + Print(f.value)
  }

  function Entries(fs: seq<Field>): string
    decreases fs
  {
    if fs == [] then "}" else "," + Entry(fs[0]) + Entries(fs[1..])
  }

  /** What may follow a printed value. */
  predicate Stops(s: string) { s == "" || s[0] in {',', ']', '}'} }

  /** The first character of a printed value, numbers apart. */
  function Mark(v: Json): char {
    match v
    case Null => 'n'
    case Bool(b) => if b then 't' else 'f'
    case Num(t) => if t != "" then t[0] else '0'
    case Str(_) => '"'
    case Arr(_) => '['
    case Obj(_) => '{'
  }

  /** Every value announces its kind by its first character. */
  lemma Leads(v: Json)
    requires WellFormed(v)
    ensures Print(v) != "" && Print(v)[0] == Mark(v) && Mark(v) !in {',', ']', '}'} && !Space(Mark(v))
    ensures v.Num? <==> Mark(v) in {'-', 'I', 'N'} || '0' <= Mark(v) <= '9'
  {
    match v
    case Arr(items) => assert Print(v) == "[" + Print(v)[1..];
    case Obj(fs) => assert Print(v) == "{" + Print(v)[1..];
    case _ =>
  }

  /** Texts that start with the same value start alike. */
  lemma SameMark(v: Json, w: Json, s: string, t: string)
    requires WellFormed(v) && WellFormed(w) && Print(v) + s == Print(w) + t
    ensures Mark(v) == Mark(w) && (v.Num? <==> w.Num?)
  {
    Leads(v);
    Leads(w);
    assert (Print(v) + s)[0] == (Print(w) + t)[0];
  }

  /* ---- printed text determines the value ---- */

  lemma EscapedUnique(c: char, d: char, s: string, t: string)
    requires Escaped(c) + s == Escaped(d) + t
    ensures c == d && s == t
  {
    var x, y := Escaped(c) + s, Escaped(d) + t;
    assert x[0] == y[0];
    if |Escaped(c)| == 2 || |Escaped(d)| == 2 {
      assert x[0] == '\\';
      assert x[1] == y[1];
    }
    assert s == x[|Escaped(c)|..] && t == y[|Escaped(d)|..];
  }

  lemma EscapeStarts(a: string, z: string)
    ensures Escape(a) + z == if a == "" then z else Escaped(a[0]) + (Escape(a[1..]) + z)
  {
    if a != "" {
      Join(Escaped(a[0]), Escape(a[1..]), z);
    } else {
      assert "" + z == z;
    }
  }

  /** A quoted string ends at its own closing quote. */
  lemma {:induction false} EscapeUnique(a: string, b: string, s: string, t: string)
    requires Escape(a) + ("\"" + s) == Escape(b) + ("\"" + t)
    ensures a == b && s == t
    decreases |a|
  {
    EscapeStarts(a, "\"" + s);
    EscapeStarts(b, "\"" + t);
    assert (Escape(a) + ("\"" + s))[0] == (Escape(b) + ("\"" + t))[0];
    if a == "" {
      Cut("\"", "\"", s, t);
    } else {
      EscapedUnique(a[0], b[0], Escape(a[1..]) + ("\"" + s), Escape(b[1..]) + ("\"" + t));
      EscapeUnique(a[1..], b[1..], s, t);
    }
  }

  lemma QuotedStarts(a: string, s: string)
    ensures Quoted(a) + s == "\"" + (Escape(a) + ("\"" + s))
  {
    Join("\"" + Escape(a), "\"", s);
    Join("\"", Escape(a), "\"" + s);
  }

  lemma QuotedUnique(a: string, b: string, s: string, t: string)
    requires Quoted(a) + s == Quoted(b) + t
    ensures a == b && s == t
  {
    QuotedStarts(a, s);
    QuotedStarts(b, t);
    Cut("\"", "\"", Escape(a) + ("\"" + s), Escape(b) + ("\"" + t));
    EscapeUnique(a, b, s, t);
  }

  /** What overlaps when one of two equal texts is cut later than the other. */
  lemma Overlap(a: string, b: string, s: string, t: string)
    requires a + s == b + t && |a| < |b|
    ensures s != "" && s[0] == b[|a|]
  {
    assert |a + s| == |b + t|;
    assert (a + s)[|a|] == (b + t)[|a|];
  }

  /** Number texts end where something else begins. */
  lemma NumberUnique(a: string, b: string, s: string, t: string)
    requires NumberText(a) && NumberText(b) && Stops(s) && Stops(t) && a + s == b + t
    ensures a == b && s == t
  {
    if |a| < |b| {
      Overlap(a, b, s, t);
    } else if |b| < |a| {
      Overlap(b, a, t, s);
    }
    Cut(a, b, s, t);
  }

  lemma Cut(a: string, b: string, s: string, t: string)
    requires a + s == b + t && |a| == |b|
    ensures a == b && s == t
  {
    assert a == (a + s)[..|a|] && b == (b + t)[..|b|] && s == (a + s)[|a|..] && t == (b + t)[|b|..];
  }

  lemma Join(a: string, b: string, s: string)
    ensures a + b + s == a + (b + s)
  {
  }

  lemma {:induction false} PrintUnique(v: Json, w: Json, s: string, t: string)
    requires WellFormed(v) && WellFormed(w) && Stops(s) && Stops(t) && Print(v) + s == Print(w) + t
    ensures v == w && s == t
    decreases v, 1
  {
    SameMark(v, w, s, t);
    match (v, w)
    case (Num(a), Num(b)) => NumberUnique(a, b, s, t);
    case (Str(a), Str(b)) => QuotedUnique(a, b, s, t);
    case (Arr(xs), Arr(ys)) => ArrUnique(xs, ys, s, t);
    case (Obj(fs), Obj(gs)) => ObjUnique(fs, gs, s, t);
    case _ => Cut(Print(v), Print(w), s, t);
  }

  lemma {:induction false} ArrUnique(xs: seq<Json>, ys: seq<Json>, s: string, t: string)
    requires AllWell(xs) && AllWell(ys) && Stops(s) && Stops(t) && Print(Arr(xs)) + s == Print(Arr(ys)) + t
    ensures xs == ys && s == t
    decreases Arr(xs), 0
  {
    Join("[", Inside(xs), s);
    Join("[", Inside(ys), t);
    Cut("[", "[", Inside(xs) + s, Inside(ys) + t);
    InsideUnique(xs, ys, s, t);
  }

  lemma InsideLeads(xs: seq<Json>)
    requires AllWell(xs)
    ensures Inside(xs) != "" && Inside(xs)[0] == if xs == [] then ']' else Mark(xs[0])
    ensures xs != [] ==> Mark(xs[0]) != ']'
  {
    if xs != [] {
      Leads(xs[0]);
    }
  }

  lemma {:induction false} InsideUnique(xs: seq<Json>, ys: seq<Json>, s: string, t: string)
    requires AllWell(xs) && AllWell(ys) && Stops(s) && Stops(t) && Inside(xs) + s == Inside(ys) + t
    ensures xs == ys && s == t
    decreases xs, 1
  {
    InsideLeads(xs);
    InsideLeads(ys);
    assert (Inside(xs) + s)[0] == (Inside(ys) + t)[0];
    if xs != [] && ys != [] {
      Join(Print(xs[0]), Rest(xs[1..]), s);
      Join(Print(ys[0]), Rest(ys[1..]), t);
      PrintUnique(xs[0], ys[0], Rest(xs[1..]) + s, Rest(ys[1..]) + t);
      RestUnique(xs[1..], ys[1..], s, t);
    } else {
      Cut("]", "]", s, t);
    }
  }

  ghost predicate AllWell(xs: seq<Json>) { forall i :: 0 <= i < |xs| ==> WellFormed(xs[i]) }

  lemma RestStarts(xs: seq<Json>, s: string)
    ensures Rest(xs) + s == if xs == [] then "]" + s else "," + (Inside(xs) + s)
  {
    if xs != [] {
      assert Rest(xs) == "," + Inside(xs);
      Join(",", Inside(xs), s);
    }
  }

  lemma {:induction false} RestUnique(xs: seq<Json>, ys: seq<Json>, s: string, t: string)
    requires AllWell(xs) && AllWell(ys) && Stops(s) && Stops(t) && Rest(xs) + s == Rest(ys) + t
    ensures xs == ys && s == t
    decreases xs, 2
  {
    RestStarts(xs, s);
    RestStarts(ys, t);
    assert (Rest(xs) + s)[0] == (Rest(ys) + t)[0];
    if xs != [] && ys != [] {
      Cut(",", ",", Inside(xs) + s, Inside(ys) + t);
      InsideUnique(xs, ys, s, t);
    } else {
      Cut("]", "]", s, t);
    }
  }

  ghost predicate AllValuesWell(fs: seq<Field>) { forall i :: 0 <= i < |fs| ==> WellFormed(fs[i].value) }

  lemma EntryStarts(f: Field, s: string)
    ensures Entry(f) + s == Quoted(f.key) + (":" + (Print(f.value) + s))
  {
    Join(Quoted(f.key) + ":", Print(f.value), s);
    Join(Quoted(f.key), ":", Print(f.value) + s);
  }

  lemma {:induction false} EntryUnique(f: Field, g: Field, s: string, t: string)
    requires WellFormed(f.value) && WellFormed(g.value) && Stops(s) && Stops(t) && Entry(f) + s == Entry(g) + t
    ensures f == g && s == t
    decreases f
  {
    var x, y := Print(f.value) + s, Print(g.value) + t;
    EntryStarts(f, s);
    EntryStarts(g, t);
    QuotedUnique(f.key, g.key, ":" + x, ":" + y);
    Cut(":", ":", x, y);
    PrintUnique(f.value, g.value, s, t);
  }

  lemma {:induction false} ObjUnique(fs: seq<Field>, gs: seq<Field>, s: string, t: string)
    requires AllValuesWell(fs) && AllValuesWell(gs) && Stops(s) && Stops(t) && Print(Obj(fs)) + s == Print(Obj(gs)) + t
    ensures fs == gs && s == t
    decreases Obj(fs), 0
  {
    Join("{", Members(fs), s);
    Join("{", Members(gs), t);
    Cut("{", "{", Members(fs) + s, Members(gs) + t);
    MembersUnique(fs, gs, s, t);
  }

  lemma {:induction false} MembersUnique(fs: seq<Field>, gs: seq<Field>, s: string, t: string)
    requires AllValuesWell(fs) && AllValuesWell(gs) && Stops(s) && Stops(t) && Members(fs) + s == Members(gs) + t
    ensures fs == gs && s == t
    decreases fs, 1
  {
    assert (Members(fs) + s)[0] == (Members(gs) + t)[0];
    if fs != [] && gs != [] {
      Join(Entry(fs[0]), Entries(fs[1..]), s);
      Join(Entry(gs[0]), Entries(gs[1..]), t);
      EntryUnique(fs[0], gs[0], Entries(fs[1..]) + s, Entries(gs[1..]) + t);
      EntriesUnique(fs[1..], gs[1..], s, t);
    } else {
      Cut("}", "}", s, t);
    }
  }

  lemma EntriesStart(fs: seq<Field>, s: string)
    ensures Entries(fs) + s == if fs == [] then "}" + s else "," + (Members(fs) + s)
  {
    if fs != [] {
      assert Entries(fs) == "," + Members(fs);
      Join(",", Members(fs), s);
    }
  }

  lemma {:induction false} EntriesUnique(fs: seq<Field>, gs: seq<Field>, s: string, t: string)
    requires AllValuesWell(fs) && AllValuesWell(gs) && Stops(s) && Stops(t) && Entries(fs) + s == Entries(gs) + t
    ensures fs == gs && s == t
    decreases fs, 2
  {
    EntriesStart(fs, s);
    EntriesStart(gs, t);
    assert (Entries(fs) + s)[0] == (Entries(gs) + t)[0];
    if fs != [] && gs != [] {
      Cut(",", ",", Members(fs) + s, Members(gs) + t);
      MembersUnique(fs, gs, s, t);
    } else {
      Cut("}", "}", s, t);
    }
  }

  /** Different values print differently. */
  lemma PrintInjective(v: Json, w: Json)
    requires WellFormed(v) && WellFormed(w) && Print(v) == Print(w)
    ensures v == w
  {
    assert Print(v) + "" == Print(v) && Print(w) + "" == Print(w);
    PrintUnique(v, w, "", "");
  }

  /* ---- what printed containers look like ---- */

  ghost predicate NoReturn(s: string) { forall i :: 0 <= i < |s| ==> s[i] != '\r' }

  lemma {:induction false} EscapeNoReturn(s: string)
    ensures NoReturn(Escape(s))
  {
    if s != "" {
      EscapeNoReturn(s[1..]);
    }
  }

  lemma {:induction false} PrintNoReturn(v: Json)
    requires WellFormed(v)
    ensures NoReturn(Print(v))
    decreases v
  {
    match v
    case Num(t) =>
      forall i | 0 <= i < |t| ensures t[i] != '\r' {
        assert NumberChar(t[i]);
      }
    case Str(s) => EscapeNoReturn(s);
    case Arr(items) =>
      if items != [] {
        PrintNoReturn(items[0]);
        RestNoReturn(items[1..]);
      }
    case Obj(fs) =>
      if fs != [] {
        EntryNoReturn(fs[0]);
        EntriesNoReturn(fs[1..]);
      }
    case _ =>
  }

  lemma {:induction false} RestNoReturn(items: seq<Json>)
    requires AllWell(items)
    ensures NoReturn(Rest(items)) && Rest(items) != "" && Rest(items)[|Rest(items)| - 1] == ']'
    decreases items
  {
    if items != [] {
      PrintNoReturn(items[0]);
      RestNoReturn(items[1..]);
    }
  }

  lemma {:induction false} EntryNoReturn(f: Field)
    requires WellFormed(f.value)
    ensures NoReturn(Entry(f))
    decreases f
  {
    EscapeNoReturn(f.key);
    PrintNoReturn(f.value);
  }

  lemma {:induction false} EntriesNoReturn(fs: seq<Field>)
    requires AllValuesWell(fs)
    ensures NoReturn(Entries(fs)) && Entries(fs) != "" && Entries(fs)[|Entries(fs)| - 1] == '}'
    decreases fs
  {
    if fs != [] {
      EntryNoReturn(fs[0]);
      EntriesNoReturn(fs[1..]);
    }
  }

  lemma PrintEnds(v: Json)
    requires WellFormed(v) && Container(v)
    ensures Print(v) != "" && Print(v)[|Print(v)| - 1] in {']', '}'}
  {
    match v
    case Arr(items) =>
      if items != [] {
        RestNoReturn(items[1..]);
      }
    case Obj(fs) =>
      if fs != [] {
        EntriesNoReturn(fs[1..]);
      }
  }

  /* ---- the instance ---- */

  /** The value a text was printed from, if any. */
  ghost function Parse(t: string): Option<Json> {
    if exists v :: WellFormed(v) && Print(v) == t
    then var v :| WellFormed(v) && Print(v) == t; Some(v)
    else None
  }

  function Text(v: Json): string { if v.Str? then v.s else Print(v) }

  function Lower(c: char): char { if 'A' <= c <= 'Z' then c - 'A' + 'a' else c }

  function Lowered(s: string): string { seq(|s|, i requires 0 <= i < |s| => Lower(s[i])) }

  ghost function Python(): Lang {
    Lang((v: Json) => Print(v), (t: string) => Parse(t), (v: Json) => Text(v), (s: string) => Trim(s),
         (s: string) => Lowered(s), (c: char) => Space(c))
  }

  lemma ParsePrinted(v: Json)
    requires WellFormed(v)
    ensures Parse(Print(v)) == Some(v)
  {
    var w := Parse(Print(v)).value;
    PrintInjective(v, w);
  }

  lemma PrintedCompact(v: Json)
    requires WellFormed(v) && Container(v)
    ensures Compact(Python(), Print(v))
  {
    Leads(v);
    PrintNoReturn(v);
    PrintEnds(v);
  }

  lemma PlainText(v: Json)
    requires WellFormed(v) && !Container(v) && !v.Str?
    ensures Trim(Text(v)) == "" || Trim(Text(v))[0] !in "{["
  {
    Leads(v);
    TrimFirst(Text(v));
  }

  /** Trimming a text that starts with something keeps its first character. */
  lemma TrimFirst(s: string)
    requires s != "" && !Space(s[0])
    ensures Trim(s) != "" && Trim(s)[0] == s[0]
  {
    if Space(s[|s| - 1]) {
      TrimFirst(s[..|s| - 1]);
    }
  }

  /** Everything the prompt results ask of these operations holds of one concrete choice of them. */
  lemma ContractIsMet()
    ensures exists l :: Faithful(l) && PromptMessages.LowersText(l) && l.strip("user") == "user"
  {
    var l := Python();
    forall v | WellFormed(v) ensures l.load(l.dump(v)) == Some(v) && (Container(v) ==> Compact(l, l.dump(v))) {
      ParsePrinted(v);
      if Container(v) {
        PrintedCompact(v);
      }
    }
    forall v | WellFormed(v) && !Container(v) && !v.Str? ensures l.strip(l.str(v)) == "" || l.strip(l.str(v))[0] !in "{[" {
      PlainText(v);
    }
    forall s: string ensures l.strip(l.strip(s)) == l.strip(s) {
      Trimmed(s);
    }
    assert Lowered("text") == "text";
    assert Faithful(l);
  }
}
