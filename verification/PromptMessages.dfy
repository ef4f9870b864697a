/** The message part of the prompt, and the request body whose tools and messages are rewritten in place. */
module PromptMessages {
  import opened Common
  import opened KeySort
  import opened JsonCanonical
  import opened PromptStabilize

  /* ---- text content ---- */

  /** CRLF and lone CR become LF. */
  function Unify(s: string): string {
    if s == "" then ""
    else if s[0] == '\r' then "\n" + Unify(if |s| > 1 && s[1] == '\n' then s[2..] else s[1..])
    else [s[0]] + Unify(s[1..])
  }

  function RStrip(l: Lang, s: string): string {
    if s == "" || !l.space(s[|s| - 1]) then s else RStrip(l, s[..|s| - 1])
  }

  predicate EndsNewline(s: string) { s != "" && s[|s| - 1] == '\n' }

  /** System prompts keep at most one trailing newline; other text is left alone. */
  function StabText(l: Lang, text: string, role: string): string {
    if role != "system" then text else
    var norm := Unify(text);
    var body := RStrip(l, norm);
    if EndsNewline(norm) || EndsNewline(text) then (if body != "" then body + "\n" else "") else body
  }

  ghost predicate NoReturn(s: string) { forall i :: 0 <= i < |s| ==> s[i] != '\r' }

  lemma {:induction false} Unified(s: string)
    ensures NoReturn(Unify(s)) && (NoReturn(s) ==> Unify(s) == s)
    decreases |s|
  {
    if s != "" {
      if s[0] == '\r' {
        Unified(if |s| > 1 && s[1] == '\n' then s[2..] else s[1..]);
      } else {
        Unified(s[1..]);
        assert s == [s[0]] + s[1..];
      }
    }
  }

  lemma {:induction false} Stripped(l: Lang, s: string)
    ensures var b := RStrip(l, s); b <= s && (b != "" ==> !l.space(b[|b| - 1])) && (NoReturn(s) ==> NoReturn(b))
    ensures s != "" && !l.space(s[|s| - 1]) ==> RStrip(l, s) == s
  {
    if s != "" && l.space(s[|s| - 1]) {
      Stripped(l, s[..|s| - 1]);
    }
  }

  /** Text that is already in system form. */
  ghost predicate Tidy(l: Lang, t: string) { NoReturn(t) && RStrip(l, t) == t }

  lemma TidyFixed(l: Lang, t: string, role: string)
    requires Tidy(l, t) && l.space('\n')
    ensures StabText(l, t, role) == t
    ensures t != "" ==> StabText(l, t + "\n", role) == t + "\n"
  {
    Unified(t);
    Unified(t + "\n");
    Stripped(l, t);
    assert (t + "\n")[..|t|] == t;
  }

  /** Stabilising text twice is doing it once. */
  lemma TextTwice(l: Lang, s: string, role: string)
    requires Faithful(l)
    ensures StabText(l, StabText(l, s, role), role) == StabText(l, s, role)
  {
    var body := RStrip(l, Unify(s));
    Unified(s);
    Stripped(l, Unify(s));
    if body != "" {
      Stripped(l, body);
    }
    TidyFixed(l, body, role);
  }

  /** Canonical JSON text is tidy. */
  lemma PrintedTidy(l: Lang, v: Json, role: string)
    requires Faithful(l) && WellFormed(v) && Container(v)
    ensures StabText(l, l.dump(v), role) == l.dump(v)
  {
    assert Compact(l, l.dump(v));
    Stripped(l, l.dump(v));
    TidyFixed(l, l.dump(v), role);
  }

  /* ---- content parts ---- */

  function TextPart(s: string): Json { Obj([Field("type", Str("text")), Field("text", Str(s))]) }

  /** The lower-cased type of a content part; a missing or empty type means text. */
  function Kind(l: Lang, fs: seq<Field>): string {
    if Truthy(Get(fs, "type")) then l.lower(l.str(Get(fs, "type"))) else l.lower("text")
  }

  predicate Textual(kind: string) { kind in {"text", "input_text", "output_text"} }

  function Part(l: Lang, p: Json): Option<Json> {
    match p
    case Str(s) => if s != "" then Some(TextPart(s)) else None
    case Obj(fs) =>
      if !Textual(Kind(l, fs)) then Some(p)
      else if Get(fs, "text") == Null then None
      else Some(TextPart(l.str(Get(fs, "text"))))
    case _ => Some(p)
  }

  function Parts(l: Lang): Json -> Option<Json> { (p: Json) => Part(l, p) }

  predicate IsText(p: Json) { p.Obj? && Get(p.fields, "type") == Str("text") }

  predicate AllText(ps: seq<Json>) { forall i :: 0 <= i < |ps| ==> IsText(ps[i]) }

  /** The texts of text parts, joined by newlines. */
  function Joined(l: Lang, ps: seq<Json>): string
    requires AllText(ps)
  {
    if ps == [] then ""
    else if |ps| == 1 then TextOf(l, ps[0])
    else Joined(l, ps[..|ps| - 1]) + "\n" + TextOf(l, ps[|ps| - 1])
  }

  function TextOf(l: Lang, p: Json): string
    requires IsText(p)
  {
    if Truthy(Get(p.fields, "text")) then l.str(Get(p.fields, "text")) else ""
  }

  function StabContent(l: Lang, content: Json, role: string, calls: bool): Json {
    match content
    case Null => if calls then Null else Str("")
    case Str(s) => Str(StabText(l, s, role))
    case Arr(items) =>
      var parts := Collect(Parts(l), items);
      if parts == [] then Str("")
      else if AllText(parts) then Str(StabText(l, Joined(l, parts), role))
      else Arr(parts)
    case Obj(fs) =>
      if Get(fs, "type") in {Str("text"), Str("input_text")} && Has(fs, "text") then
        Str(StabText(l, if Truthy(Get(fs, "text")) then l.str(Get(fs, "text")) else "", role))
      else Str(l.dump(Canon(content)))
    case _ => content
  }

  /** The contract of lower-casing that parts rely on. */
  ghost predicate LowersText(l: Lang) { l.lower("text") == "text" }

  lemma TextPartGets(s: string)
    ensures var fs := TextPart(s).fields; Get(fs, "type") == Str("text") && Get(fs, "text") == Str(s)
  {
    var a, b := Field("type", Str("text")), Field("text", Str(s));
    assert TextPart(s).fields == [a] + [b] && [a] == [] + [a];
    HasSnoc([a], b, "type");
    HasSnoc([a], b, "text");
    HasSnoc([], a, "type");
  }

  lemma PartTwice(l: Lang, p: Json)
    requires Faithful(l) && LowersText(l) && Part(l, p).Some?
    ensures Part(l, Part(l, p).value) == Part(l, p)
  {
    var q := Part(l, p).value;
    if q != p {
      var s := Get(q.fields, "text");
      match p
      case Str(t) => TextPartGets(t);
      case Obj(fs) => TextPartGets(l.str(Get(fs, "text")));
    } else if p.Obj? {
      if Textual(Kind(l, p.fields)) {
        TextPartGets(l.str(Get(p.fields, "text")));
      }
    }
  }

  lemma ContentTwice(l: Lang, content: Json, role: string, calls: bool)
    requires Faithful(l) && LowersText(l) && WellFormed(content)
    ensures StabContent(l, StabContent(l, content, role, calls), role, calls) == StabContent(l, content, role, calls)
  {
    match content
    case Null =>
      TextTwice(l, "", role);
      TidyFixed(l, "", role);
    case Str(s) => TextTwice(l, s, role);
    case Arr(items) => ArrTwice(l, items, role, calls);
    case Obj(fs) =>
      if Get(fs, "type") in {Str("text"), Str("input_text")} && Has(fs, "text") {
        TextTwice(l, if Truthy(Get(fs, "text")) then l.str(Get(fs, "text")) else "", role);
      } else {
        CanonWellFormed(content);
        PrintedTidy(l, Canon(content), role);
      }
    case _ =>
  }

  lemma ArrTwice(l: Lang, items: seq<Json>, role: string, calls: bool)
    requires Faithful(l) && LowersText(l)
    ensures var c := StabContent(l, Arr(items), role, calls); StabContent(l, c, role, calls) == c
  {
    var f := Parts(l);
    var parts := Collect(f, items);
    forall i | 0 <= i < |items| && f(items[i]).Some? ensures f(f(items[i]).value) == f(items[i]) {
      PartTwice(l, items[i]);
    }
    CollectGives(f, items);
    CollectAgain(f, parts);
    if parts == [] {
      TidyFixed(l, "", role);
    } else if AllText(parts) {
      TextTwice(l, Joined(l, parts), role);
    }
  }

  /* ---- messages ---- */

  /** A chat message by the keys the code reads; an absent key reads as null. */
  datatype Message =
    | NotAnObject(value: Json)
    | Message(role: string, name: Json, toolCallId: Json, toolCalls: Json, functionCall: Json, content: Json, reasoning: Json)

  function StabCalls(l: Lang, tcs: seq<Json>): seq<Json> {
    seq(|tcs|, i requires 0 <= i < |tcs| => StabCall(l, tcs[i]))
  }

  function StabFunctionCall(l: Lang, fc: Json): Json {
    if fc.Obj? && Truthy(Get(fc.fields, "name"))
    then Obj([Field("name", Get(fc.fields, "name")), Field("arguments", ArgsText(l, Get(fc.fields, "arguments")))])
    else Null
  }

  function StabMessage(l: Lang, m: Message): Message {
    match m
    case NotAnObject(_) => m
    case Message(role, name, id, tcs, fc, content, reasoning) =>
      var r := if l.strip(role) != "" then l.strip(role) else "user";
      var calls := if tcs.Arr? && tcs.items != [] then Arr(StabCalls(l, tcs.items)) else Null;
      var call := StabFunctionCall(l, fc);
      Message(r, if Blank(name) then Null else name, if Blank(id) then Null else id, calls, call,
              StabContent(l, content, r, calls != Null || call != Null),
              if reasoning.Str? && l.strip(reasoning.s) != "" then reasoning else Null)
  }

  ghost predicate MessageWellFormed(m: Message) {
    m.Message? ==> WellFormed(m.toolCalls) && WellFormed(m.functionCall) && WellFormed(m.content)
  }

  lemma FunctionCallTwice(l: Lang, fc: Json)
    requires Faithful(l) && WellFormed(fc)
    ensures StabFunctionCall(l, StabFunctionCall(l, fc)) == StabFunctionCall(l, fc)
  {
    if fc.Obj? && Truthy(Get(fc.fields, "name")) {
      WellFormedGet(fc.fields, "arguments");
      ArgsTwice(l, Get(fc.fields, "arguments"));
      var a, b := Field("name", Get(fc.fields, "name")), Field("arguments", ArgsText(l, Get(fc.fields, "arguments")));
      assert StabFunctionCall(l, fc).fields == [a] + [b] && [a] == [] + [a];
      HasSnoc([a], b, "name");
      HasSnoc([a], b, "arguments");
      HasSnoc([], a, "name");
    }
  }

  lemma CallsTwice(l: Lang, tcs: seq<Json>)
    requires Faithful(l) && AllWellFormed(tcs)
    ensures StabCalls(l, StabCalls(l, tcs)) == StabCalls(l, tcs) && |StabCalls(l, tcs)| == |tcs|
  {
    forall i | 0 <= i < |tcs| ensures StabCall(l, StabCall(l, tcs[i])) == StabCall(l, tcs[i]) {
      CallTwice(l, tcs[i]);
    }
  }

  /** Stabilising a stabilised message gives it back. */
  lemma MessageTwice(l: Lang, m: Message)
    requires Faithful(l) && LowersText(l) && MessageWellFormed(m) && l.strip("user") == "user"
    ensures StabMessage(l, StabMessage(l, m)) == StabMessage(l, m)
  {
    if m.Message? {
      var n := StabMessage(l, m);
      assert l.strip(l.strip(m.role)) == l.strip(m.role);
      if m.toolCalls.Arr? && m.toolCalls.items != [] {
        CallsTwice(l, m.toolCalls.items);
        assert n.toolCalls.items != [];
      }
      FunctionCallTwice(l, m.functionCall);
      ContentTwice(l, m.content, n.role, n.toolCalls != Null || n.functionCall != Null);
    }
  }

  /** The order and number of messages and of the calls inside them stay as they are. */
  function StabMessages(l: Lang, ms: seq<Message>): seq<Message> {
    seq(|ms|, i requires 0 <= i < |ms| => StabMessage(l, ms[i]))
  }

  /* ---- the body ---- */

  /** Tools only when the body's `tools` is a list with something in it. */
  function NewTools(l: Lang, tools: Json): Json {
    if tools.Arr? && tools.items != [] then Arr(StabTools(l, tools.items)) else tools
  }

  class PromptBody {
    var tools: Json
    var messages: seq<Message>
    var metadata: Json

    constructor (tools: Json, messages: seq<Message>, metadata: Json)
      ensures this.tools == tools && this.messages == messages && this.metadata == metadata
    {
      this.tools, this.messages, this.metadata := tools, messages, metadata;
    }

    static method CleanTools(l: Lang, ts: seq<Json>) returns (cleaned: seq<Json>)
      ensures cleaned == StabTools(l, ts)
    {
      cleaned := [];
      for i := 0 to |ts|
        invariant cleaned == Collect(Stab(l), ts[..i])
      {
        assert ts[..i + 1][..i] == ts[..i];
        var norm := StabTool(l, ts[i]);
        if norm.Some? {
          cleaned := cleaned + [norm.value];
        }
      }
      assert ts[..|ts|] == ts;
      cleaned := Sort(ByName(l), cleaned);
    }

    /** Rewrites tools and messages in place and drops the metadata. */
    method Stabilize(l: Lang)
      modifies this
      ensures tools == NewTools(l, old(tools)) && messages == StabMessages(l, old(messages)) && metadata == Null
    {
      if tools.Arr? && tools.items != [] {
        var cleaned := CleanTools(l, tools.items);
        tools := Arr(cleaned);
      }
      var rewritten: seq<Message> := [];
      for i := 0 to |messages|
        invariant |rewritten| == i && messages == old(messages) && tools == NewTools(l, old(tools))
        invariant forall j :: 0 <= j < i ==> rewritten[j] == StabMessage(l, messages[j])
      {
        rewritten := rewritten + [StabMessage(l, messages[i])];
      }
      messages := rewritten;
      metadata := Null;
    }
  }

  /** A body that went through once comes out unchanged the second time: tools, arguments and messages. */
  lemma BodyTwice(l: Lang, tools: Json, ms: seq<Message>)
    requires Faithful(l) && LowersText(l) && l.strip("user") == "user"
    requires WellFormed(tools) && forall i :: 0 <= i < |ms| ==> MessageWellFormed(ms[i])
    ensures NewTools(l, NewTools(l, tools)) == NewTools(l, tools)
    ensures StabMessages(l, StabMessages(l, ms)) == StabMessages(l, ms) && |StabMessages(l, ms)| == |ms|
  {
    if tools.Arr? && tools.items != [] {
      ToolsTwice(l, tools.items);
    }
    forall i | 0 <= i < |ms| ensures StabMessage(l, StabMessage(l, ms[i])) == StabMessage(l, ms[i]) {
      MessageTwice(l, ms[i]);
    }
  }
}
