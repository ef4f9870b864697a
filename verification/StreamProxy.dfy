/**
 The streaming chat proxy: one request, a chain of accounts, and whatever each upstream sends. Frames
 follow Server-Sent Events (section 9.2 of the WHATWG HTML Standard) and are modelled as values.
 */
module StreamProxy {
  import opened Common
  import opened ToolCalls
  import opened ReasoningCompat

  datatype Frame =
    | Role
    | Keepalive
    | Content(text: Shown, reasoning: string)
    | Tool(item: Item)
    | Finish(reason: string)
    | UsageOnly
    | Error
    | Done

  /**
   One line of an upstream event stream; `gone` is what the disconnect probe answers at that line. A line
   that makes the proxy raise is the end of a `broken` stream.
   */
  datatype Line =
    | Idle(gone: bool)
    | Junk(gone: bool)
    | EndOfData(gone: bool)
    | Chunk(gone: bool, content: string, reasoning: string, tools: seq<Delta>, finish: string)

  /** A whole JSON answer; `messageTools` are the message's calls, read only when there are no delta calls. */
  datatype JsonBody = JsonBody(content: string, reasoning: string, tools: seq<Delta>, messageTools: seq<Delta>, finish: string)

  /** What one account's upstream does. `broken` streams raise after their last line. */
  datatype Upstream =
    | Unreachable
    | Refused(status: int)
    | Events(lines: seq<Line>, broken: bool)
    | Whole(body: Option<JsonBody>)

  function Retryable(status: int): bool { status in {401, 403, 429, 500, 502, 503, 504} }

  /** The finish reason is forced to `tool_calls` once tools were streamed. */
  function TerminalReason(finish: Option<string>, sawTools: bool): string {
    var r := match finish
      case None => if sawTools then "tool_calls" else ""
      case Some(f) => if sawTools && f in {"stop", "end_turn", ""} then "tool_calls" else f;
    if r != "" then r else if sawTools then "tool_calls" else "stop"
  }

  /** Settling the reason early does not change it, even when a tool leaves later. */
  lemma ReasonTwice(f: string, early: bool)
    ensures TerminalReason(Some(TerminalReason(Some(f), early)), true) == TerminalReason(Some(f), true)
    ensures !early ==> TerminalReason(Some(TerminalReason(Some(f), early)), false) == TerminalReason(Some(f), false)
  {
  }

  /* ---- reading a frame sequence ---- */

  predicate Quiet(f: Frame) { f.Role? || f.Keepalive? }

  ghost predicate AllQuiet(fs: seq<Frame>) { forall i :: 0 <= i < |fs| ==> Quiet(fs[i]) }

  /** Nothing that ends a stream. */
  ghost predicate Open(fs: seq<Frame>) {
    forall i :: 0 <= i < |fs| ==> Quiet(fs[i]) || fs[i].Content? || fs[i].Tool?
  }

  /** The role frame, if any, is the very first frame and is not repeated. */
  ghost predicate RoleFirst(fs: seq<Frame>) {
    forall i :: 0 <= i < |fs| && (fs[i].Role? || fs[i].Content? || fs[i].Tool? || fs[i].Finish?) ==> fs[0].Role? && (fs[i].Role? ==> i == 0)
  }

  ghost predicate NoTool(fs: seq<Frame>) { forall i :: 0 <= i < |fs| ==> !fs[i].Tool? }

  ghost predicate NoContent(fs: seq<Frame>) { forall i :: 0 <= i < |fs| ==> !fs[i].Content? }

  /** The tool items on the wire, in order. */
  function Items(fs: seq<Frame>): seq<Item> {
    if fs == [] then [] else
    var items := Items(fs[..|fs| - 1]);
    if fs[|fs| - 1].Tool? then items + [fs[|fs| - 1].item] else items
  }

  /** The visible text on the wire, without think tags. */
  function SentText(fs: seq<Frame>): string {
    if fs == [] then "" else
    var text := SentText(fs[..|fs| - 1]);
    if fs[|fs| - 1].Content? then text + fs[|fs| - 1].text.plain else text
  }

  function SentReasoning(fs: seq<Frame>): string {
    if fs == [] then "" else
    var text := SentReasoning(fs[..|fs| - 1]);
    if fs[|fs| - 1].Content? then text + fs[|fs| - 1].reasoning else text
  }

  lemma Reading(fs: seq<Frame>, f: Frame)
    ensures Items(fs + [f]) == (if f.Tool? then Items(fs) + [f.item] else Items(fs))
    ensures SentText(fs + [f]) == (if f.Content? then SentText(fs) + f.text.plain else SentText(fs))
    ensures SentReasoning(fs + [f]) == (if f.Content? then SentReasoning(fs) + f.reasoning else SentReasoning(fs))
  {
    assert (fs + [f])[..|fs|] == fs;
  }

  /** Text held back until it is known that no tool leaves. */
  type Preface = seq<(Shown, string)>

  function HeldText(h: Preface): string { if h == [] then "" else HeldText(h[..|h| - 1]) + h[|h| - 1].0.plain }

  function HeldReasoning(h: Preface): string { if h == [] then "" else HeldReasoning(h[..|h| - 1]) + h[|h| - 1].1 }

  lemma HeldSnoc(h: Preface, p: (Shown, string))
    ensures HeldText(h + [p]) == HeldText(h) + p.0.plain && HeldReasoning(h + [p]) == HeldReasoning(h) + p.1
  {
    assert (h + [p])[..|h|] == h;
  }

  /**
   What a client of the upstream has heard so far: its texts, both texts interleaved as they came, tool
   slots, last finish reason, disconnect flag.
   */
  datatype Said = Said(content: string, reasoning: string, mixed: string, slots: set<int>, finish: Option<string>, gone: bool)

  const NOTHING := Said("", "", "", {}, None, false)

  function HearText(s: Said, content: string, reasoning: string): Said {
    s.(content := s.content + content, reasoning := s.reasoning + reasoning, mixed := s.mixed + (reasoning + content))
  }

  function Hear(s: Said, l: Line): Said {
    match l
    case Chunk(gone, content, reasoning, tools, finish) =>
      HearText(s, content, reasoning).(slots := s.slots + SlotsOf(tools), finish := if finish != "" then Some(finish) else s.finish, gone := gone)
    case _ => s.(gone := l.gone)
  }

  function HearFinish(s: Said, finish: string): Said { if finish != "" then s.(finish := Some(finish)) else s }

  lemma HearInParts(s: Said, gone: bool, content: string, reasoning: string, tools: seq<Delta>, finish: string)
    ensures Hear(s, Chunk(gone, content, reasoning, tools, finish)) == HearFinish(Hear(s, Chunk(gone, content, reasoning, tools, "")), finish)
  {
  }

  lemma HearTools(s: Said, gone: bool, content: string, reasoning: string, tools: seq<Delta>)
    requires gone == s.gone
    ensures var t := HearText(s, content, reasoning);
            Hear(s, Chunk(gone, content, reasoning, tools, "")) == t.(slots := t.slots + SlotsOf(tools))
  {
  }

  lemma HearTwice(s: Said, l: Line)
    ensures Hear(s.(gone := l.gone), l) == Hear(s, l) && (!l.Chunk? ==> Hear(s, l) == s.(gone := l.gone))
  {
  }

  /** Everything up to the end-of-data line. */
  function HearAll(ls: seq<Line>, s: Said): Said {
    if ls == [] then s
    else if ls[0].EndOfData? then Hear(s, ls[0])
    else HearAll(ls[1..], Hear(s, ls[0]))
  }

  function Calls(body: JsonBody): seq<Delta> { if body.tools != [] then body.tools else body.messageTools }

  function BodySaid(body: JsonBody): Said {
    Said(body.content, body.reasoning, body.reasoning + body.content, SlotsOf(Calls(body)),
         Some(if body.finish != "" then body.finish else "stop"), false)
  }

  /** What an upstream means to say. */
  function Meant(u: Upstream): Said {
    match u
    case Events(lines, _) => HearAll(lines, NOTHING)
    case Whole(Some(body)) => BodySaid(body)
    case _ => NOTHING
  }

  /* ---- one attempt, as a value ---- */

  /** What one account's attempt remembers; `sent` are the frames it has put on the wire. */
  datatype Attempt = Attempt(
    limit: int, mode: Mode, requested: bool, pending: bool, st: State, open: bool, started: bool, saw: bool,
    gone: bool, finish: Option<string>, held: Preface, parts: string, reasoningParts: string, mixed: string, sent: seq<Frame>)

  /** Fixed for one attempt: earlier frames, whether tools were asked for, whether text and tools must not mix, whether text may be dropped. */
  datatype Context = Context(prior: seq<Frame>, asked: bool, strict: bool, lossy: bool, said: Said)

  /** The wire: earlier attempts silent, one leading role frame, nothing that ends the stream. */
  ghost predicate WireInv(prior: seq<Frame>, mine: seq<Frame>, started: bool) {
    && AllQuiet(prior) && Open(mine) && RoleFirst(prior + mine) && prior + mine != [] && (prior + mine)[0].Role?
    && (!started ==> AllQuiet(mine))
  }

  /** Tool frames are the built items in order, capped by the limit. */
  ghost predicate ToolsKept(limit: int, st: State, items: seq<Item>) {
    Dense(st) && items <= st.built && (limit > 0 ==> |items| <= limit) && (items == st.built || (limit > 0 && |items| == limit))
  }

  /** The same while `due` is built and about to leave. */
  ghost predicate ToolsInv(limit: int, st: State, items: seq<Item>, due: seq<Item>) {
    ToolsKept(limit, st, items + due)
  }

  /** The texts the upstream has sent, as this mode shows them. */
  function ShownText(a: Attempt): string { if a.mode == Off then a.parts else a.mixed }

  function ShownReasoning(a: Attempt): string { if a.mode == Off then a.reasoningParts else "" }

  /** No upstream text is lost while no tool has left, in any mode; `c` and `r` are in flight. */
  ghost predicate TextInv(a: Attempt, lossy: bool, c: string, r: string) {
    !a.saw && !lossy ==>
      && SentText(a.sent) + HeldText(a.held) + c == ShownText(a)
      && if a.mode == Off then SentReasoning(a.sent) + HeldReasoning(a.held) + r == a.reasoningParts
         else SentReasoning(a.sent) == HeldReasoning(a.held) == r == ""
  }

  /** The same with nothing in flight. */
  ghost predicate TextTold(a: Attempt, lossy: bool) {
    !a.saw && !lossy ==>
      && SentText(a.sent) + HeldText(a.held) == ShownText(a)
      && if a.mode == Off then SentReasoning(a.sent) + HeldReasoning(a.held) == a.reasoningParts
         else SentReasoning(a.sent) == HeldReasoning(a.held) == ""
  }

  ghost predicate FlagsInv(a: Attempt, strict: bool, due: seq<Item>, c: string, r: string) {
    && (a.saw <==> a.st.built != []) && (a.saw ==> a.held == [] && (a.started || due != []))
    && (a.saw || a.held != [] || a.st.acc != map[] ==> a.requested)
    && (a.mode == Off ==> !a.open)
    && (a.open ==> a.started || a.saw || a.held != [] || c != "" || r != "")
    && (strict ==> a.requested && NoContent(a.sent) && (a.open && !a.saw ==> a.held != [] || c != "" || r != ""))
  }

  /** `begun` is whether frames with content may already be on the wire. */
  ghost predicate Inv(x: Context, a: Attempt, due: seq<Item>, c: string, r: string, begun: bool) {
    match x
    case Context(prior, asked, strict, lossy, said) =>
      && WireInv(prior, a.sent, begun)
      && ToolsInv(a.limit, a.st, Items(a.sent), due)
      && TextInv(a, lossy, c, r)
      && FlagsInv(a, strict, due, c, r) && (asked ==> a.requested)
  }

  /** Between chunks: nothing is in flight. */
  ghost predicate Steady(x: Context, a: Attempt) {
    match x
    case Context(prior, asked, strict, lossy, said) =>
      && WireInv(prior, a.sent, a.started)
      && ToolsKept(a.limit, a.st, Items(a.sent))
      && TextTold(a, lossy)
      && FlagsInv(a, strict, [], "", "") && (asked ==> a.requested)
  }

  lemma NothingInFlight(x: Context, a: Attempt)
    ensures Steady(x, a) <==> Inv(x, a, [], "", "", a.started)
  {
    assert Items(a.sent) + [] == Items(a.sent);
    assert SentText(a.sent) + HeldText(a.held) + "" == SentText(a.sent) + HeldText(a.held);
    assert SentReasoning(a.sent) + HeldReasoning(a.held) + "" == SentReasoning(a.sent) + HeldReasoning(a.held);
  }

  /* ---- the steps of one chunk ---- */

  function Received(a: Attempt, content: string, reasoning: string): Attempt {
    a.(parts := a.parts + content, reasoningParts := a.reasoningParts + reasoning, mixed := a.mixed + (reasoning + content))
  }

  /** Tool deltas are merged, and at most one complete tool is taken out while the budget lasts. */
  ghost predicate Take(rules: Rules, limit: int, emitted: nat, s: State, tools: seq<Delta>, t: State, due: seq<Item>) {
    && t.built == s.built + due && |due| <= 1
    && (if Budget(limit, emitted) == Some(0) then t == Fed(rules, s, tools) else LiveStep(rules, Fed(rules, s, tools), t))
  }

  /** A tool that leaves wins the turn: held text is forgotten. */
  function AfterTools(a: Attempt, t: State, due: seq<Item>): Attempt {
    a.(pending := true, requested := true, st := t, saw := a.saw || due != [],
       held := if due != [] then [] else a.held,
       open := if due != [] && a.held != [] then false else a.open)
  }

  /** Text as it may leave now: held while tools may still come, dropped once a tool has left. */
  function Filtered(a: Attempt, c: Shown, r: string): (Attempt, Shown, string) {
    if !a.requested then (a, c, r)
    else if !a.saw && (c.full != "" || r != "") then (a.(held := a.held + [(c, r)]), SILENT, "")
    else (a, SILENT, "")
  }

  /** The finish reason is kept for the terminal frame; an open think block is closed unless text is held or dropped. */
  function Finishing(a: Attempt, finish: string): Attempt { ClosedEarly(a.(finish := Some(finish))) }

  function ClosedEarly(a: Attempt): Attempt {
    if !a.gone && !(a.requested && (a.saw || a.held != [])) && a.mode == ThinkTag && a.open
    then a.(open := false, sent := a.sent + [Content(CLOSING, "")])
    else a
  }

  lemma TextReceived(a: Attempt, lossy: bool, content: string, reasoning: string)
    requires TextTold(a, lossy)
    ensures TextInv(Received(a, content, reasoning), lossy, Visible(a.mode, content, reasoning), Apart(a.mode, reasoning))
  {
    RewrittenText(a.mode, false, content, reasoning);
  }

  lemma FlagsComing(a: Attempt, strict: bool, due: seq<Item>, c: string, r: string)
    requires FlagsInv(a, strict, due, "", "")
    ensures FlagsInv(a, strict, due, c, r)
  {
  }

  lemma InvReceived(x: Context, a: Attempt, content: string, reasoning: string)
    requires Steady(x, a)
    ensures Inv(x, Received(a, content, reasoning), [], Visible(a.mode, content, reasoning), Apart(a.mode, reasoning), a.started)
  {
    NothingInFlight(x, a);
    TextReceived(a, x.lossy, content, reasoning);
    FlagsComing(Received(a, content, reasoning), x.strict, [], Visible(a.mode, content, reasoning), Apart(a.mode, reasoning));
  }

  lemma ToolsInvStep(rules: Rules, limit: int, s: State, items: seq<Item>, tools: seq<Delta>, t: State, due: seq<Item>)
    requires ToolsInv(limit, s, items, []) && Take(rules, limit, |items|, s, tools, t, due)
    ensures ToolsInv(limit, t, items, due)
  {
    DenseFed(rules, s, tools);
    if Budget(limit, |items|) != Some(0) {
      LiveStepMeaning(rules, Fed(rules, s, tools), t);
    }
    assert items + [] == items;
    if due == [] {
      assert items + due == items;
    }
  }

  lemma TakeKeys(rules: Rules, limit: int, emitted: nat, s: State, tools: seq<Delta>, t: State, due: seq<Item>)
    requires Take(rules, limit, emitted, s, tools, t, due)
    ensures t.acc.Keys == s.acc.Keys + SlotsOf(tools)
  {
    FedKeys(rules, s, tools);
  }

  lemma InvTools(x: Context, rules: Rules, a: Attempt, tools: seq<Delta>, t: State, due: seq<Item>, c: string, r: string)
    requires Inv(x, a, [], c, r, a.started) && Take(rules, a.limit, |Items(a.sent)|, a.st, tools, t, due)
    ensures Inv(x, AfterTools(a, t, due), due, c, r, a.started)
  {
    ToolsInvStep(rules, a.limit, a.st, Items(a.sent), tools, t, due);
  }

  lemma Regroup(s: string, h: string, c: string)
    ensures s + (h + c) + "" == s + h + c && s + "" + c == s + c && s + c + "" == s + c
  {
    assert s + (h + c) + "" == s + h + c;
    assert s + "" + c == s + c;
  }

  /** Rewriting may open or close a block; the text it shows is the text received. */
  lemma InvRewritten(x: Context, a: Attempt, due: seq<Item>, c: string, r: string, open: bool)
    requires Inv(x, a, due, c, r, a.started) && (open ==> a.open || c != "") && (a.mode == Off ==> open == a.open)
    ensures Inv(x, a.(open := open), due, c, r, a.started)
  {
    TextKept(a, a.(open := open), x.lossy, c, r);
  }

  lemma TextFiltered(a: Attempt, lossy: bool, c: Shown, r: string)
    requires TextInv(a, lossy, c.plain, r)
    ensures var (b, c', r') := Filtered(a, c, r); TextInv(b, lossy, c'.plain, r')
  {
    if !a.saw && !lossy && a.requested && (c.full != "" || r != "") {
      HeldSnoc(a.held, (c, r));
      Regroup(SentText(a.sent), HeldText(a.held), c.plain);
      Regroup(SentReasoning(a.sent), HeldReasoning(a.held), r);
    }
  }

  /** Text about to leave: it is shown exactly when there is some, and only while nothing is held back. */
  ghost predicate Fits(c: Shown, r: string, requested: bool) {
    (c.full == "" <==> c.plain == "") && (c.full != "" || r != "" ==> !requested)
  }

  lemma FlagsFiltered(a: Attempt, strict: bool, due: seq<Item>, c: Shown, r: string)
    requires FlagsInv(a, strict, due, c.plain, r) && (c.full == "" <==> c.plain == "")
    ensures var (b, c', r') := Filtered(a, c, r); FlagsInv(b, strict, due, c'.plain, r') && Fits(c', r', b.requested)
  {
  }

  lemma InvFiltered(x: Context, a: Attempt, due: seq<Item>, c: Shown, r: string)
    requires Inv(x, a, due, c.plain, r, a.started) && (c.full == "" <==> c.plain == "")
    ensures var (b, c', r') := Filtered(a, c, r); Inv(x, b, due, c'.plain, r', b.started) && Fits(c', r', b.requested)
  {
    TextFiltered(a, x.lossy, c, r);
    FlagsFiltered(a, x.strict, due, c, r);
    var (b, c', r') := Filtered(a, c, r);
    InvKept(x, a, b, due, c.plain, r, c'.plain, r');
  }

  /** Only texts and flags have changed. */
  lemma InvKept(x: Context, a: Attempt, b: Attempt, due: seq<Item>, c: string, r: string, c': string, r': string)
    requires Inv(x, a, due, c, r, a.started) && TextInv(b, x.lossy, c', r') && FlagsInv(b, x.strict, due, c', r')
    requires b.sent == a.sent && b.started == a.started && b.limit == a.limit && b.st == a.st && b.requested == a.requested
    ensures Inv(x, b, due, c', r', b.started)
  {
  }

  /** A close tag is no visible text. */
  lemma TagSaysNothing(fs: seq<Frame>)
    ensures var gs := fs + [Content(CLOSING, "")];
            Items(gs) == Items(fs) && SentText(gs) == SentText(fs) && SentReasoning(gs) == SentReasoning(fs)
  {
    Reading(fs, Content(CLOSING, ""));
  }

  lemma InvClosed(x: Context, a: Attempt, due: seq<Item>, c: string, r: string)
    requires Inv(x, a, due, c, r, a.started) && (c != "" || r != "" ==> !a.requested)
    ensures Inv(x, ClosedEarly(a), due, c, r, a.started || c != "" || r != "")
  {
    var b := ClosedEarly(a);
    InvBegun(x, a, due, c, r);
    if b != a {
      TagSaysNothing(a.sent);
      WireAppend(x.prior, a.sent, a.started, Content(CLOSING, ""), true);
      TextKept(a, b, x.lossy, c, r);
    }
  }

  lemma InvFinishing(x: Context, a: Attempt, due: seq<Item>, c: string, r: string, finish: string)
    requires Inv(x, a, due, c, r, a.started) && (c != "" || r != "" ==> !a.requested)
    ensures Inv(x, Finishing(a, finish), due, c, r, a.started || c != "" || r != "")
  {
    InvClosed(x, a.(finish := Some(finish)), due, c, r);
  }

  lemma InvBegun(x: Context, a: Attempt, due: seq<Item>, c: string, r: string)
    requires Inv(x, a, due, c, r, a.started)
    ensures Inv(x, a, due, c, r, a.started || c != "" || r != "")
  {
  }

  lemma WireAppend(prior: seq<Frame>, mine: seq<Frame>, started: bool, f: Frame, started': bool)
    requires WireInv(prior, mine, started)
    requires f.Content? || f.Tool? || f.Keepalive?
    requires started ==> started'
    requires !started' ==> f.Keepalive?
    ensures WireInv(prior, mine + [f], started')
  {
    assert prior + (mine + [f]) == (prior + mine) + [f];
  }

  lemma InvSent(x: Context, a: Attempt, due: seq<Item>, c: Shown, r: string, begun: bool)
    requires Inv(x, a, due, c.plain, r, begun) && !a.requested
    ensures due == [] && Steady(x, a.(started := true, sent := a.sent + [Content(c, r)]))
  {
    WireAppend(x.prior, a.sent, begun, Content(c, r), true);
    Reading(a.sent, Content(c, r));
    Regroup(SentText(a.sent), "", c.plain);
    Regroup(SentReasoning(a.sent), "", r);
  }

  /* ---- runs of tool frames ---- */

  /** What the budget lets through of `items`. */
  function Capped(limit: int, emitted: nat, items: seq<Item>): seq<Item> {
    match Budget(limit, emitted)
    case None => items
    case Some(b) => if |items| <= b then items else items[..b]
  }

  /** `gs` is `fs` followed by tool frames for `items`, with keepalives between. */
  ghost predicate Grew(fs: seq<Frame>, gs: seq<Frame>, items: seq<Item>) {
    && fs <= gs && (forall i :: |fs| <= i < |gs| ==> gs[i].Tool? || gs[i].Keepalive?)
    && Items(gs) == Items(fs) + items && SentText(gs) == SentText(fs) && SentReasoning(gs) == SentReasoning(fs)
  }

  lemma GrewStep(fs: seq<Frame>, gs: seq<Frame>, items: seq<Item>, f: Frame)
    requires Grew(fs, gs, items) && (f.Tool? || f.Keepalive?)
    ensures Grew(fs, gs + [f], if f.Tool? then items + [f.item] else items)
  {
    Reading(gs, f);
    if f.Tool? {
      assert Items(fs) + items + [f.item] == Items(fs) + (items + [f.item]);
    }
  }

  lemma WireGrew(prior: seq<Frame>, fs: seq<Frame>, gs: seq<Frame>, items: seq<Item>)
    requires WireInv(prior, fs, true) && Grew(fs, gs, items)
    ensures WireInv(prior, gs, true) && (NoContent(fs) ==> NoContent(gs))
  {
    assert forall i :: 0 <= i < |fs| ==> gs[i] == fs[i];
    forall i | 0 <= i < |prior + gs|
      ensures i < |prior + fs| ==> (prior + gs)[i] == (prior + fs)[i]
      ensures i >= |prior + fs| ==> (prior + gs)[i].Tool? || (prior + gs)[i].Keepalive?
    {
      if i >= |prior + fs| {
        assert (prior + gs)[i] == gs[i - |prior|];
      } else if i >= |prior| {
        assert gs[i - |prior|] == fs[i - |prior|];
      }
    }
  }

  lemma InvGrew(x: Context, a: Attempt, due: seq<Item>, gs: seq<Frame>)
    requires Inv(x, a, due, "", "", true) && a.started && Grew(a.sent, gs, due)
    ensures Steady(x, a.(sent := gs))
  {
    WireGrew(x.prior, a.sent, gs, due);
  }

  /** A call without new deltas that yields a tool leaves fewer slots held. */
  lemma TakeShrinks(rules: Rules, limit: int, emitted: nat, s: State, t: State, due: seq<Item>)
    requires Dense(s) && Take(rules, limit, emitted, s, [], t, due)
    ensures due != [] ==> |ToolCalls.Held(t.acc)| < |ToolCalls.Held(s.acc)|
  {
    if due != [] {
      LiveStepMeaning(rules, s, t);
      var slot := t.built[|s.built|].slot;
      assert slot in ToolCalls.Held(s.acc);
      assert ToolCalls.Held(t.acc) == ToolCalls.Held(s.acc) - {slot};
    }
  }

  lemma InvDrain(x: Context, rules: Rules, a: Attempt, t: State, due: seq<Item>)
    requires Steady(x, a) && a.saw && a.started
    requires Take(rules, a.limit, |Items(a.sent)|, a.st, [], t, due)
    ensures Inv(x, a.(st := t), due, "", "", true)
  {
    NothingInFlight(x, a);
    ToolsInvStep(rules, a.limit, a.st, Items(a.sent), [], t, due);
  }

  lemma CappedAll(a: Attempt, due: seq<Item>)
    requires ToolsInv(a.limit, a.st, Items(a.sent), due)
    ensures Capped(a.limit, |Items(a.sent)|, due) == due
  {
  }

  lemma InvStarted(x: Context, a: Attempt, due: seq<Item>)
    requires Inv(x, a, due, "", "", a.started) && due != []
    ensures Inv(x, a.(started := true), due, "", "", true) && a.saw
  {
    assert Items(a.sent) + due != [];
  }

  /** Nothing said, nothing held, nothing received: the texts still add up. */
  lemma TextKept(a: Attempt, b: Attempt, lossy: bool, c: string, r: string)
    requires TextInv(a, lossy, c, r) && b.saw == a.saw && b.mode == a.mode && b.held == a.held
    requires b.parts == a.parts && b.reasoningParts == a.reasoningParts && b.mixed == a.mixed
    requires SentText(b.sent) == SentText(a.sent) && SentReasoning(b.sent) == SentReasoning(a.sent)
    ensures TextInv(b, lossy, c, r)
  {
  }

  lemma QuietFrame(fs: seq<Frame>)
    ensures var gs := fs + [Keepalive]; Items(gs) == Items(fs) && SentText(gs) == SentText(fs) && SentReasoning(gs) == SentReasoning(fs)
  {
    Reading(fs, Keepalive);
  }

  lemma InvKeepalive(x: Context, a: Attempt)
    requires Steady(x, a)
    ensures Steady(x, a.(sent := a.sent + [Keepalive]))
  {
    WireAppend(x.prior, a.sent, a.started, Keepalive, a.started);
    QuietFrame(a.sent);
  }

  lemma InvGone(x: Context, a: Attempt, gone: bool)
    requires Steady(x, a)
    ensures Steady(x, a.(gone := gone))
  {
  }

  /* ---- the end of an attempt ---- */

  datatype Outcome = NextAccount | Answered | Failed

  /** Up to the finish reason, the attempt has taken in all that was said. */
  ghost predicate Took(a: Attempt, s: Said) {
    match s
    case Said(content, reasoning, mixed, slots, _, gone) =>
      a.parts == content && a.reasoningParts == reasoning && a.mixed == mixed && a.st.acc.Keys == slots && a.gone == gone
  }

  /** When the upstream is done: text and tools unmixed if asked for, and nothing in flight. */
  ghost predicate Settled(x: Context, a: Attempt) {
    match x
    case Context(prior, asked, strict, lossy, said) =>
      && WireInv(prior, a.sent, a.started || a.saw)
      && ToolsKept(a.limit, a.st, Items(a.sent))
      && TextTold(a, lossy)
      && (a.saw <==> a.st.built != []) && (a.saw ==> a.held == []) && (a.st.acc != map[] ==> a.requested)
      && (a.mode == Off ==> !a.open)
      && (strict ==> NoContent(a.sent) || a.st.acc == map[]) && (asked ==> a.requested) && Took(a, said)
  }

  function Tail(a: Attempt, outcome: Outcome): seq<Frame> {
    match outcome
    case NextAccount => []
    case Answered => [Finish(TerminalReason(a.finish, a.saw)), UsageOnly, Done]
    case Failed => [Error, Done]
  }

  /** What is known of an attempt once its terminal frames, if any, are due. */
  ghost predicate Ended(x: Context, a: Attempt, outcome: Outcome) {
    match x
    case Context(prior, asked, strict, lossy, said) =>
      && WireInv(prior, a.sent, outcome != NextAccount)
      && ToolsKept(a.limit, a.st, Items(a.sent))
      && (a.saw <==> !NoTool(a.sent))
      && (strict ==> NoContent(a.sent) || NoTool(a.sent)) && (asked ==> a.requested) && Took(a, said)
      && (outcome.Answered? && !a.gone && !a.saw && !lossy ==>
            SentText(a.sent) == ShownText(a) && SentReasoning(a.sent) == ShownReasoning(a))
  }

  lemma InvSettled(x: Context, a: Attempt)
    requires Steady(x, a) && Took(a, x.said)
    ensures Settled(x, a)
  {
  }

  lemma {:induction false} NoItems(fs: seq<Frame>)
    ensures NoTool(fs) <==> Items(fs) == []
  {
    if fs != [] {
      NoItems(fs[..|fs| - 1]);
      assert NoTool(fs) <==> NoTool(fs[..|fs| - 1]) && !fs[|fs| - 1].Tool?;
    }
  }

  lemma SawMeans(a: Attempt)
    requires ToolsKept(a.limit, a.st, Items(a.sent)) && (a.saw <==> a.st.built != [])
    ensures a.saw <==> !NoTool(a.sent)
  {
    NoItems(a.sent);
    assert Items(a.sent) + [] == Items(a.sent);
  }

  function AfterFlush(a: Attempt, t: State, frames: seq<Item>, gs: seq<Frame>): Attempt {
    if frames == [] then a.(st := t, sent := gs)
    else a.(st := t, saw := true, held := [], open := false, sent := gs)
  }

  /** The terminal flush took `frames` out of the accumulator and put them on the wire. */
  ghost predicate Shipped(rules: Rules, a: Attempt, t: State, frames: seq<Item>, gs: seq<Frame>) {
    match t
    case State(acc, _) =>
      && FlushInv(rules, a.st, t, frames, a.limit, |Items(a.sent)|) && acc.Keys == a.st.acc.Keys
      && Grew(a.sent, gs, frames) && (frames == [] ==> gs == a.sent)
  }

  /** The terminal flush ships the rest of the tools. */
  lemma SettledFlush(x: Context, a: Attempt, rules: Rules, t: State, frames: seq<Item>, gs: seq<Frame>)
    requires Settled(x, a) && a.st.acc != map[] && Shipped(rules, a, t, frames, gs)
    ensures Settled(x, AfterFlush(a, t, frames, gs))
  {
    WireWeakens(x.prior, a.sent, a.started || a.saw);
    WireGrew(x.prior, a.sent, gs, frames);
  }

  lemma WireWeakens(prior: seq<Frame>, mine: seq<Frame>, started: bool)
    requires WireInv(prior, mine, started)
    ensures WireInv(prior, mine, true)
  {
  }

  lemma SawRequested(x: Context, a: Attempt)
    requires Settled(x, a) && a.saw
    ensures a.requested
  {
    assert a.st.built[0].slot in a.st.acc;
  }

  /** `gs` is `fs` followed by text frames for the preface `h`. */
  ghost predicate Told(fs: seq<Frame>, gs: seq<Frame>, h: Preface) {
    && fs <= gs && Items(gs) == Items(fs) && (NoTool(fs) ==> NoTool(gs))
    && SentText(gs) == SentText(fs) + HeldText(h) && SentReasoning(gs) == SentReasoning(fs) + HeldReasoning(h)
  }

  lemma ToldStep(fs: seq<Frame>, gs: seq<Frame>, h: Preface, p: (Shown, string))
    requires Told(fs, gs, h)
    ensures Told(fs, gs + [Content(p.0, p.1)], h + [p])
  {
    Reading(gs, Content(p.0, p.1));
    HeldSnoc(h, p);
    Shift(SentText(fs), HeldText(h), p.0.plain);
    Shift(SentReasoning(fs), HeldReasoning(h), p.1);
  }

  lemma ToldNothing(fs: seq<Frame>, gs: seq<Frame>, h: Preface, p: (Shown, string))
    requires Told(fs, gs, h) && p.0.full == "" && p.1 == ""
    ensures Told(fs, gs, h + [p])
  {
    HeldSnoc(h, p);
    Shift(HeldText(h), "", "");
    Shift(HeldReasoning(h), "", "");
  }

  /** The held preface leaves at the end of a turn without tools. */
  lemma EndedTold(x: Context, a: Attempt, gs: seq<Frame>, started: bool)
    requires Settled(x, a) && !a.saw && Told(a.sent, gs, a.held) && WireInv(x.prior, gs, true)
    ensures Ended(x, a.(held := [], sent := gs, started := started), Answered)
  {
    SawMeans(a);
    SawMeans(a.(held := [], sent := gs, started := started));
  }

  /** Nothing more leaves: a tool turn, a client that is gone, or no preface. */
  lemma EndedQuietly(x: Context, a: Attempt, outcome: Outcome)
    requires Settled(x, a) && (outcome == NextAccount ==> !a.started && !a.saw)
    requires outcome.Answered? ==> a.saw || a.gone || a.held == []
    ensures Ended(x, a, outcome)
  {
    SawMeans(a);
    if a.st.built != [] {
      assert a.st.built[0].slot in a.st.acc;
    }
    Regroup(SentText(a.sent), "", "");
    Regroup(SentReasoning(a.sent), "", "");
  }

  lemma EndedOpen(x: Context, a: Attempt)
    requires Ended(x, a, Answered)
    ensures Ended(x, a.(open := false), Answered)
  {
  }

  /** A close tag leaves after the text of a turn without tools. */
  lemma EndedTag(x: Context, a: Attempt)
    requires Ended(x, a, Answered) && !a.saw
    ensures Ended(x, a.(sent := a.sent + [Content(CLOSING, "")]), Answered)
  {
    var gs := a.sent + [Content(CLOSING, "")];
    SayOne(x.prior, a.sent, CLOSING, "");
    NoItems(a.sent);
    NoItems(gs);
    assert NoTool(gs);
  }

  lemma LiveDense(rules: Rules, tools: seq<Delta>, t: State)
    requires LiveStep(rules, Fed(rules, State(map[], []), tools), t)
    ensures Dense(t) && t.acc.Keys == SlotsOf(tools)
  {
    DenseFed(rules, State(map[], []), tools);
    FedKeys(rules, State(map[], []), tools);
    LiveStepMeaning(rules, Fed(rules, State(map[], []), tools), t);
  }

  /* ---- a whole JSON answer ---- */

  /** An attempt that has said nothing yet. */
  ghost predicate Untouched(x: Context, a: Attempt) {
    && WireInv(x.prior, a.sent, false) && a.st == State(map[], []) && !a.open && !a.started && !a.saw && !a.pending
    && a.held == [] && a.parts == a.reasoningParts == a.mixed == ""
  }

  lemma {:induction false} QuietReading(fs: seq<Frame>)
    requires AllQuiet(fs)
    ensures Items(fs) == [] && SentText(fs) == "" && SentReasoning(fs) == "" && NoContent(fs) && NoTool(fs)
  {
    if fs != [] {
      QuietReading(fs[..|fs| - 1]);
    }
  }

  lemma UntouchedInv(x: Context, a: Attempt)
    requires Untouched(x, a) && (x.strict || x.asked ==> a.requested)
    ensures Steady(x, a)
  {
    QuietReading(a.sent);
  }

  lemma UntouchedSettled(x: Context, a: Attempt)
    requires Untouched(x, a) && (x.asked ==> a.requested) && Took(a, x.said)
    ensures Settled(x, a)
  {
    QuietReading(a.sent);
  }

  /** A JSON answer with tools: only tool frames leave. */
  lemma SettledTools(x: Context, a: Attempt, b: Attempt, items: seq<Item>)
    requires Untouched(x, a) && x.lossy && Took(b, x.said)
    requires Dense(b.st) && b.st.built == items && (b.saw <==> items != []) && b.requested && b.held == [] && !b.open
    requires b.limit == a.limit && Grew(a.sent, b.sent, Capped(a.limit, 0, items)) && (items == [] ==> b.sent == a.sent)
    ensures Settled(x, b)
  {
    QuietReading(a.sent);
    WireWeakens(x.prior, a.sent, false);
    WireGrew(x.prior, a.sent, b.sent, Capped(a.limit, 0, items));
    assert Items(b.sent) == Capped(a.limit, 0, items);
  }

  function TextFrames(c: Shown, r: string): seq<Frame> {
    (if c.full != "" then [Content(c, "")] else []) + (if r != "" then [Content(SILENT, r)] else [])
  }

  lemma SayOne(prior: seq<Frame>, fs: seq<Frame>, c: Shown, r: string)
    requires WireInv(prior, fs, true)
    ensures var gs := fs + [Content(c, r)];
            && WireInv(prior, gs, true) && Items(gs) == Items(fs)
            && SentText(gs) == SentText(fs) + c.plain && SentReasoning(gs) == SentReasoning(fs) + r
  {
    WireAppend(prior, fs, true, Content(c, r), true);
    Reading(fs, Content(c, r));
  }

  /** `gs` is on the wire, without tools, and says exactly these texts. */
  ghost predicate Says(prior: seq<Frame>, gs: seq<Frame>, t: string, r: string) {
    WireInv(prior, gs, true) && Items(gs) == [] && SentText(gs) == t && SentReasoning(gs) == r
  }

  lemma SayMore(prior: seq<Frame>, fs: seq<Frame>, t: string, r: string, c: Shown, more: string)
    requires Says(prior, fs, t, r)
    ensures Says(prior, fs + [Content(c, more)], t + c.plain, r + more)
  {
    SayOne(prior, fs, c, more);
  }

  lemma SayText(prior: seq<Frame>, fs: seq<Frame>, c: Shown, r: string)
    requires Says(prior, fs, "", "")
    ensures Says(prior, fs + TextFrames(c, r), c.plain, r)
  {
    var gs := if c.full != "" then fs + [Content(c, "")] else fs;
    if c.full != "" {
      SayMore(prior, fs, "", "", c, "");
    }
    assert Says(prior, gs, c.plain, "");
    if r != "" {
      SayMore(prior, gs, c.plain, "", SILENT, r);
      Regroup(c.plain, "", "");
      assert fs + TextFrames(c, r) == gs + [Content(SILENT, r)];
    } else {
      assert fs + TextFrames(c, r) == gs;
    }
  }

  /** A JSON answer without tools: its text leaves as at most two frames. */
  lemma SettledText(x: Context, a: Attempt, b: Attempt, c: Shown, r: string)
    requires Untouched(x, a) && (x.asked ==> b.requested) && Took(b, x.said)
    requires b.st == a.st && !b.saw && b.held == [] && (b.mode == Off ==> !b.open) && (c.full != "" || r != "" ==> b.started)
    requires c.plain == ShownText(b) && r == ShownReasoning(b)
    requires b.sent == a.sent + TextFrames(c, r)
    ensures Settled(x, b)
  {
    QuietReading(a.sent);
    WireWeakens(x.prior, a.sent, false);
    SayText(x.prior, a.sent, c, r);
    Regroup(c.plain, "", "");
    Regroup(r, "", "");
    if c.full == "" && r == "" {
      assert b.sent == a.sent;
    }
  }

  lemma SettledFinish(x: Context, a: Attempt, finish: string)
    requires Settled(x, a)
    ensures Settled(x, a.(finish := Some(finish)))
  {
  }

  /* ---- what an attempt and a request amount to ---- */

  /** Nothing but one leading role frame and keepalives. */
  ghost predicate Silent(out: seq<Frame>, roleSent: bool) {
    AllQuiet(out) && RoleFirst(out) && (roleSent <==> out != []) && (out != [] ==> out[0].Role?)
  }

  /** The stream breaks before its end-of-data line. */
  predicate Raises(lines: seq<Line>, broken: bool) {
    broken && forall i :: 0 <= i < |lines| ==> !lines[i].EndOfData?
  }

  /** An event stream that ends properly, or a JSON answer, that says something. */
  predicate Healthy(rules: Rules, u: Upstream) {
    && ((u.Events? && !Raises(u.lines, u.broken)) || (u.Whole? && u.body.Some?))
    && (rules.strip(Meant(u).content) != "" || rules.strip(Meant(u).reasoning) != "")
  }

  /** Text next to tools in a JSON answer is dropped. */
  predicate Swallows(u: Upstream) { u.Whole? && u.body.Some? && Calls(u.body.value) != [] }

  /** What one attempt leaves on the wire, and how it ends. */
  ghost predicate Story(rules: Rules, u: Upstream, strict: bool, last: bool, a: Attempt, prior: seq<Frame>, tail: seq<Frame>, outcome: Outcome) {
    && Open(a.sent) && RoleFirst(prior + a.sent) && (strict ==> a.requested)
    && (outcome.NextAccount? ==> !last && tail == [] && AllQuiet(a.sent))
    && (outcome.Failed? ==> tail == [Error, Done])
    && (u.Events? || u.Whole? ==> prior + a.sent != []) && (prior + a.sent != [] ==> (prior + a.sent)[0].Role?)
    && (!(u.Events? || u.Whole?) ==> outcome == if !last && (u.Refused? ==> Retryable(u.status)) then NextAccount else Failed)
    && (outcome.Answered? ==> tail == [Finish(TerminalReason(Meant(u).finish, !NoTool(a.sent))), UsageOnly, Done])
    && (strict || u.Whole? ==> NoTool(a.sent) || NoContent(a.sent))
    && ToolsKept(a.limit, a.st, Items(a.sent))
    && (outcome.Answered? && !Meant(u).gone && NoTool(a.sent) && !Swallows(u) ==>
          && SentText(a.sent) == (if a.mode == Off then Meant(u).content else Meant(u).mixed)
          && SentReasoning(a.sent) == (if a.mode == Off then Meant(u).reasoning else ""))
    && (Healthy(rules, u) ==> outcome.Answered?)
    && (outcome.Answered? ==> a.st.acc.Keys == Meant(u).slots)
    && (outcome.Answered? && !Meant(u).gone && Stable(rules) && (a.limit <= 0 || |Items(a.sent)| < a.limit) ==> FlushSet(rules, a.st.acc) == {})
  }

  /** An attempt that never got past the response status. */
  lemma StoryUnopened(rules: Rules, u: Upstream, strict: bool, last: bool, a: Attempt, prior: seq<Frame>, outcome: Outcome)
    requires (u.Unreachable? || u.Refused?) && (strict ==> a.requested) && a.sent == [] && a.st == State(map[], []) && Silent(prior, prior != [])
    requires outcome == if !last && (u.Refused? ==> Retryable(u.status)) then NextAccount else Failed
    ensures Story(rules, u, strict, last, a, prior, Tail(a, outcome), outcome)
  {
    assert prior + [] == prior;
  }

  /** An abandoned attempt leaves the wire as silent as it found it. */
  lemma StorySilent(rules: Rules, u: Upstream, strict: bool, last: bool, a: Attempt, prior: seq<Frame>, tail: seq<Frame>)
    requires Story(rules, u, strict, last, a, prior, tail, NextAccount) && AllQuiet(prior)
    ensures Silent(prior + a.sent + tail, prior + a.sent != [])
  {
    assert prior + a.sent + tail == prior + a.sent;
  }

  lemma StoryEnded(rules: Rules, u: Upstream, strict: bool, last: bool, x: Context, a: Attempt, outcome: Outcome)
    requires Ended(x, a, outcome) && (outcome == NextAccount ==> !last)
    requires (u.Events? || u.Whole?) && (strict ==> x.asked) && (strict || u.Whole? ==> x.strict)
    requires x.lossy ==> Swallows(u)
    requires x.said == Meant(u) && TerminalReason(a.finish, a.saw) == TerminalReason(Meant(u).finish, a.saw)
    requires Healthy(rules, u) ==> outcome.Answered?
    requires outcome.Answered? && !a.gone && Stable(rules) && (a.limit <= 0 || |Items(a.sent)| < a.limit) ==> FlushSet(rules, a.st.acc) == {}
    ensures Story(rules, u, strict, last, a, x.prior, Tail(a, outcome), outcome)
  {
  }

  lemma FramesOf(prior: seq<Frame>, mine: seq<Frame>, tail: seq<Frame>, i: nat)
    requires AllQuiet(prior) && Open(mine) && i < |prior + mine + tail|
    ensures var f := (prior + mine + tail)[i];
            if i < |prior + mine| then f == (prior + mine)[i] && (Quiet(f) || f.Content? || f.Tool?) else f == tail[i - |prior + mine|]
    ensures (prior + mine + tail)[i].Tool? && (forall j :: 0 <= j < |tail| ==> !tail[j].Tool?) ==> !NoTool(mine)
  {
    var f := (prior + mine + tail)[i];
    if |prior| <= i < |prior + mine| {
      assert f == mine[i - |prior|];
    }
  }

  lemma TailMeans(tail: seq<Frame>, f: Option<string>, tools: bool)
    requires tail == [Error, Done] || tail == [Finish(TerminalReason(f, tools)), UsageOnly, Done]
    ensures forall j :: 0 <= j < |tail| ==> !tail[j].Role? && !tail[j].Tool? && !tail[j].Content? && (tail[j].Done? <==> j == |tail| - 1)
    ensures forall j :: 0 <= j < |tail| && tail[j].Finish? && tools ==> tail[j].reason != "stop"
  {
  }

  /**
   What the client reads, whatever the upstreams did: at most one role frame, before all content; exactly
   one `Done`, the very last frame; and after a tool frame the finish reason is never "stop".
   */
  lemma StoryMeans(rules: Rules, u: Upstream, strict: bool, last: bool, a: Attempt, prior: seq<Frame>, tail: seq<Frame>, outcome: Outcome)
    requires Story(rules, u, strict, last, a, prior, tail, outcome) && AllQuiet(prior) && !outcome.NextAccount?
    ensures var out := prior + a.sent + tail;
            && (forall i :: 0 <= i < |out| ==> (out[i].Done? <==> i == |out| - 1))
            && (forall i :: 0 <= i < |out| && out[i].Role? ==> i == 0)
            && (forall i :: 0 <= i < |out| && (out[i].Content? || out[i].Tool?) ==> out[0].Role?)
            && (forall i, j :: 0 <= i < |out| && 0 <= j < |out| && out[i].Tool? && out[j].Finish? ==> out[j].reason != "stop")
  {
    var out, n := prior + a.sent + tail, |prior + a.sent|;
    TailMeans(tail, Meant(u).finish, !NoTool(a.sent));
    forall i: nat | i < |out|
      ensures if i < n then out[i] == (prior + a.sent)[i] && !out[i].Done? && !out[i].Finish? else out[i] == tail[i - n]
      ensures out[i].Tool? ==> !NoTool(a.sent)
    {
      FramesOf(prior, a.sent, tail, i);
    }
  }

  /** Tool frames carry dense indices and distinct slots and never exceed the limit. */
  lemma StoryTools(rules: Rules, u: Upstream, strict: bool, last: bool, a: Attempt, prior: seq<Frame>, tail: seq<Frame>, outcome: Outcome)
    requires Story(rules, u, strict, last, a, prior, tail, outcome)
    ensures var items := Items(a.sent);
            && (forall i :: 0 <= i < |items| ==> items[i].index == i && items[i].slot in a.st.acc)
            && (forall i, j :: 0 <= i < j < |items| ==> items[i].slot != items[j].slot)
            && (a.limit > 0 ==> |items| <= a.limit)
  {
    assert Items(a.sent) + [] == Items(a.sent);
  }

  /* ---- the proxy object ---- */

  /** One request: the wire `out`, and the flags and buffers of the current attempt. */
  class Turn {
    const rules: Rules
    const limit: int
    const rawMode: string
    var out: seq<Frame>
    var roleSent: bool
    var toolsRequested: bool
    var acc: ToolAccumulator
    var compat: Compat
    var streamStarted: bool
    var sawTools: bool
    var toolsPending: bool
    var clientGone: bool
    var finished: bool
    var heldFinish: string
    var held: Preface
    var contentParts: string
    var reasoningParts: string
    var toolsEmitted: nat
    ghost var mixed: string      // both texts interleaved as they came
    ghost var prior: seq<Frame>  // the frames of earlier attempts
    ghost var mine: seq<Frame>   // the frames of this attempt

    constructor (rules: Rules, limit: int, rawMode: string, toolsRequested: bool)
      ensures this.rules == rules && this.limit == limit && this.rawMode == rawMode
      ensures this.toolsRequested == toolsRequested && out == [] && !roleSent
    {
      this.rules, this.limit, this.rawMode, this.toolsRequested := rules, limit, rawMode, toolsRequested;
      out, roleSent := [], false;
      acc := new ToolAccumulator(rules);
      compat := new Compat(rawMode);
      streamStarted, sawTools, toolsPending, clientGone, finished, heldFinish := false, false, false, false, false, "";
      held, contentParts, reasoningParts, toolsEmitted := [], "", "", 0;
      mixed, prior, mine := "", [], [];
    }

    ghost function Now(): Attempt reads this, acc, compat {
      Attempt(limit, compat.mode, toolsRequested, toolsPending, acc.St(), compat.thinkOpen, streamStarted, sawTools,
              clientGone, if finished then Some(heldFinish) else None, held, contentParts, reasoningParts, mixed, mine)
    }

    ghost function Heard(): Said reads this, acc {
      Said(contentParts, reasoningParts, mixed, acc.acc.Keys, if finished then Some(heldFinish) else None, clientGone)
    }

    ghost predicate Counted() reads this`roleSent, this`out, this`prior, this`mine, this`toolsEmitted {
      roleSent && out == prior + mine && toolsEmitted == |Items(mine)|
    }

    ghost predicate Linked() reads this, acc, compat {
      acc.rules == rules && compat.mode == ParseMode(rawMode) && Counted()
    }

    method TakeTools(tools: seq<Delta>) returns (due: seq<Item>)
      modifies acc
      ensures acc.rules == old(acc.rules) && Take(acc.rules, limit, toolsEmitted, old(acc.St()), tools, acc.St(), due)
      ensures acc.acc.Keys == old(acc.acc.Keys) + SlotsOf(tools)
    {
      ghost var s := acc.St();
      var budget := Budget(limit, toolsEmitted);
      due := [];
      if budget.Some? && budget.value <= 0 {
        acc.IngestDeltas(tools);
      } else {
        due := acc.ArgumentDelta(tools);
      }
      TakeKeys(acc.rules, limit, toolsEmitted, s, tools, acc.St(), due);
    }

    method OnTools(tools: seq<Delta>) returns (due: seq<Item>)
      modifies this`toolsPending, this`toolsRequested, this`sawTools, this`held, acc, compat`thinkOpen
      ensures Take(acc.rules, limit, toolsEmitted, old(acc.St()), tools, acc.St(), due)
      ensures Now() == AfterTools(old(Now()), acc.St(), due)
      ensures acc.acc.Keys == old(acc.acc.Keys) + SlotsOf(tools)
    {
      due := TakeTools(tools);
      NoteTools(due);
    }

    /** A tool that leaves wins the turn. */
    method NoteTools(due: seq<Item>)
      modifies this`toolsPending, this`toolsRequested, this`sawTools, this`held, compat`thinkOpen
      ensures Now() == AfterTools(old(Now()), acc.St(), due)
    {
      toolsPending, toolsRequested := true, true;
      if due != [] {
        sawTools := true;
        if held != [] {
          held := [];
          compat.thinkOpen := false;
        }
      }
    }

    /** Holds, drops or passes on the rewritten text of one chunk. */
    method Filter(c: Shown, r: string) returns (c': Shown, r': string)
      modifies this`held
      ensures (Now(), c', r') == Filtered(old(Now()), c, r)
    {
      c', r' := c, r;
      if toolsRequested && !sawTools {
        if c.full != "" || r != "" {
          held := held + [(c, r)];
        }
        c', r' := SILENT, "";
      } else if toolsRequested && sawTools {
        c', r' := SILENT, "";
      }
    }

    method Send(f: Frame)
      requires Counted() && !f.Tool?
      modifies this`out, this`mine
      ensures Counted() && mine == old(mine) + [f]
    {
      Reading(mine, f);
      out, mine := out + [f], mine + [f];
    }

    method SendTool(item: Item)
      requires Counted()
      modifies this`out, this`mine, this`toolsEmitted
      ensures Counted() && mine == old(mine) + [Tool(item)]
    {
      Reading(mine, Tool(item));
      out, mine := out + [Tool(item)], mine + [Tool(item)];
      toolsEmitted := toolsEmitted + 1;
    }

    /** Keeps the finish reason for the terminal frame and may close an open think block. */
    method OnFinish(finish: string)
      requires Counted()
      modifies this`finished, this`heldFinish, this`out, this`mine, compat
      ensures Counted() && Now() == Finishing(old(Now()), finish) && finished && heldFinish == finish
    {
      finished, heldFinish := true, finish;
      CloseEarly();
    }

    method CloseEarly()
      requires Counted()
      modifies this`out, this`mine, compat
      ensures Counted() && Now() == ClosedEarly(old(Now()))
    {
      if !clientGone && !(toolsRequested && !sawTools && held != []) && !(toolsRequested && sawTools) {
        var tag := compat.CloseTagChunk();
        if tag.Some? {
          Send(Content(tag.value, ""));
        }
      }
    }

    /** Tool frames one by one with a keepalive between, never more than the budget. */
    method EmitSerial(items: seq<Item>)
      requires Counted()
      modifies this`out, this`mine, this`toolsEmitted
      ensures Counted() && Grew(old(mine), mine, Capped(limit, old(toolsEmitted), items)) && (items == [] ==> mine == old(mine))
    {
      var budget := Budget(limit, toolsEmitted);
      var i := 0;
      while i < |items|
        invariant 0 <= i <= |Capped(limit, old(toolsEmitted), items)|
        invariant Counted() && Grew(old(mine), mine, items[..i]) && (i == 0 ==> mine == old(mine))
      {
        if budget.Some? && i >= budget.value {
          break;
        }
        if i > 0 {
          GrewStep(old(mine), mine, items[..i], Keepalive);
          Send(Keepalive);
        }
        GrewStep(old(mine), mine, items[..i], Tool(items[i]));
        SendTool(items[i]);
        assert items[..i + 1] == items[..i] + [items[i]];
        i := i + 1;
      }
      assert items[..i] == Capped(limit, old(toolsEmitted), items);
    }

    method EmitDue(ghost x: Context, due: seq<Item>)
      requires Counted() && streamStarted && Inv(x, Now(), due, "", "", true)
      modifies this`out, this`mine, this`toolsEmitted
      ensures Counted() && Steady(x, Now())
    {
      ghost var a := Now();
      CappedAll(a, due);
      EmitSerial(due);
      InvGrew(x, a, due, mine);
    }

    method DrainTake(ghost x: Context) returns (due: seq<Item>)
      requires Linked() && streamStarted && sawTools && Steady(x, Now())
      modifies acc
      ensures Inv(x, Now(), due, "", "", true) && acc.acc.Keys == old(acc.acc.Keys)
      ensures due != [] ==> |ToolCalls.Held(acc.acc)| < old(|ToolCalls.Held(acc.acc)|)
    {
      ghost var a := Now();
      due := TakeTools([]);
      TakeShrinks(rules, limit, toolsEmitted, a.st, acc.St(), due);
      InvDrain(x, rules, a, acc.St(), due);
    }

    method DrainOne(ghost x: Context) returns (more: bool)
      requires Linked() && streamStarted && sawTools && Steady(x, Now())
      modifies this`out, this`mine, this`toolsEmitted, acc
      ensures Counted() && Steady(x, Now())
      ensures more ==> |ToolCalls.Held(acc.acc)| < old(|ToolCalls.Held(acc.acc)|)
      ensures acc.acc.Keys == old(acc.acc.Keys)
    {
      var due := DrainTake(x);
      EmitDue(x, due);
      more := due != [];
    }

    /** After a tool frame: every further complete tool, one at a time, while the budget lasts. */
    method Drain(ghost x: Context)
      requires Linked() && streamStarted && sawTools && Steady(x, Now())
      modifies this`out, this`mine, this`toolsEmitted, acc
      ensures Counted() && Steady(x, Now()) && acc.acc.Keys == old(acc.acc.Keys)
    {
      while true
        invariant Counted() && Steady(x, Now()) && acc.acc.Keys == old(acc.acc.Keys)
        decreases |ToolCalls.Held(acc.acc)|
      {
        var budget := Budget(limit, toolsEmitted);
        if budget.Some? && budget.value <= 0 {
          break;
        }
        var more := DrainOne(x);
        if !more {
          break;
        }
      }
    }

    method EmitTools(ghost x: Context, due: seq<Item>)
      requires Linked() && streamStarted && sawTools && Inv(x, Now(), due, "", "", true)
      modifies this`out, this`mine, this`toolsEmitted, acc
      ensures Counted() && Steady(x, Now()) && acc.acc.Keys == old(acc.acc.Keys)
    {
      EmitDue(x, due);
      Drain(x);
    }

    method DeliverText(ghost x: Context, c: Shown, r: string, ghost due: seq<Item>)
      requires Counted() && Inv(x, Now(), due, c.plain, r, true) && (c.full != "" || r != "") && !toolsRequested
      modifies this`out, this`mine, this`streamStarted
      ensures Counted() && Steady(x, Now()) && streamStarted
    {
      ghost var a := Now();
      InvSent(x, a, due, c, r, true);
      streamStarted := true;
      Send(Content(c, r));
    }

    /** Puts the text and the tool of one chunk on the wire; from the first of them failover is locked. */
    method Deliver(ghost x: Context, c: Shown, r: string, due: seq<Item>)
      requires Linked() && Inv(x, Now(), due, c.plain, r, streamStarted || c.full != "" || r != "")
      requires Fits(c, r, toolsRequested)
      modifies this`out, this`mine, this`toolsEmitted, this`streamStarted, acc
      ensures Counted() && Steady(x, Now()) && acc.acc.Keys == old(acc.acc.Keys)
    {
      if c.full != "" || r != "" {
        DeliverText(x, c, r, due);
      } else if due != [] {
        InvStarted(x, Now(), due);
        streamStarted := true;
        EmitTools(x, due);
      }
    }

    /** Merges the tools of a chunk. */
    method ChunkTools(ghost x: Context, ghost c: string, ghost r: string, tools: seq<Delta>) returns (due: seq<Item>)
      requires Linked() && Inv(x, Now(), [], c, r, streamStarted)
      modifies this`toolsPending, this`toolsRequested, this`sawTools, this`held, acc, compat`thinkOpen
      ensures Inv(x, Now(), due, c, r, streamStarted)
      ensures Heard() == old(Heard()).(slots := old(Heard()).slots + SlotsOf(tools))
    {
      due := [];
      if tools != [] {
        ghost var a := Now();
        due := OnTools(tools);
        InvTools(x, rules, a, tools, acc.St(), due, c, r);
      }
    }

    method RewriteText(ghost x: Context, content: string, reasoning: string, ghost due: seq<Item>) returns (c: Shown, r: string)
      requires Inv(x, Now(), due, Visible(compat.mode, content, reasoning), Apart(compat.mode, reasoning), streamStarted)
      modifies compat
      ensures Inv(x, Now(), due, c.plain, r, streamStarted) && (c.full == "" <==> c.plain == "")
    {
      ghost var a := Now();
      RewrittenText(compat.mode, compat.thinkOpen, content, reasoning);
      c, r := compat.Rewrite(content, reasoning);
      InvRewritten(x, a, due, c.plain, r, compat.thinkOpen);
    }

    method ChunkText(ghost x: Context, content: string, reasoning: string, ghost due: seq<Item>) returns (c: Shown, r: string)
      requires Inv(x, Now(), due, Visible(compat.mode, content, reasoning), Apart(compat.mode, reasoning), streamStarted)
      modifies this`held, compat
      ensures Inv(x, Now(), due, c.plain, r, streamStarted) && Fits(c, r, toolsRequested)
      ensures Heard() == old(Heard())
    {
      c, r := RewriteText(x, content, reasoning, due);
      InvFiltered(x, Now(), due, c, r);
      c, r := Filter(c, r);
    }

    method ChunkFinish(ghost x: Context, c: Shown, r: string, ghost due: seq<Item>, finish: string)
      requires Counted() && Inv(x, Now(), due, c.plain, r, streamStarted) && Fits(c, r, toolsRequested)
      modifies this`finished, this`heldFinish, this`out, this`mine, compat
      ensures Counted() && Inv(x, Now(), due, c.plain, r, streamStarted || c.full != "" || r != "")
      ensures Heard() == HearFinish(old(Heard()), finish)
    {
      InvBegun(x, Now(), due, c.plain, r);
      if finish != "" {
        InvFinishing(x, Now(), due, c.plain, r, finish);
        OnFinish(finish);
      }
    }

    /** The texts of one chunk are noted before its tools are looked at. */
    method NoteText(ghost x: Context, content: string, reasoning: string)
      requires Steady(x, Now())
      modifies this`contentParts, this`reasoningParts, this`mixed
      ensures Inv(x, Now(), [], Visible(compat.mode, content, reasoning), Apart(compat.mode, reasoning), streamStarted)
      ensures Heard() == HearText(old(Heard()), content, reasoning)
    {
      ghost var a := Now();
      InvReceived(x, a, content, reasoning);
      contentParts, reasoningParts := contentParts + content, reasoningParts + reasoning;
      mixed := mixed + (reasoning + content);
      assert Now() == Received(a, content, reasoning);
    }

    /** Takes in the texts and tools of one chunk. */
    method ChunkTake(ghost x: Context, content: string, reasoning: string, tools: seq<Delta>) returns (due: seq<Item>)
      requires Linked() && Steady(x, Now())
      modifies this`contentParts, this`reasoningParts, this`mixed, this`toolsPending, this`toolsRequested, this`sawTools, this`held
      modifies acc, compat`thinkOpen
      ensures Inv(x, Now(), due, Visible(compat.mode, content, reasoning), Apart(compat.mode, reasoning), streamStarted)
      ensures Heard() == Hear(old(Heard()), Chunk(clientGone, content, reasoning, tools, ""))
    {
      ghost var s := Heard();
      NoteText(x, content, reasoning);
      ghost var t := Heard();
      due := ChunkTools(x, Visible(compat.mode, content, reasoning), Apart(compat.mode, reasoning), tools);
      assert Heard() == t.(slots := t.slots + SlotsOf(tools));
      HearTools(s, clientGone, content, reasoning, tools);
    }

    method ChunkIn(ghost x: Context, content: string, reasoning: string, tools: seq<Delta>)
        returns (c: Shown, r: string, due: seq<Item>)
      requires Linked() && Steady(x, Now())
      modifies this`contentParts, this`reasoningParts, this`mixed, this`toolsPending, this`toolsRequested, this`sawTools, this`held
      modifies acc, compat
      ensures Inv(x, Now(), due, c.plain, r, streamStarted) && Fits(c, r, toolsRequested)
      ensures Heard() == Hear(old(Heard()), Chunk(clientGone, content, reasoning, tools, ""))
    {
      due := ChunkTake(x, content, reasoning, tools);
      c, r := ChunkText(x, content, reasoning, due);
    }

    method ChunkOut(ghost x: Context, c: Shown, r: string, due: seq<Item>, finish: string)
      requires Linked() && Inv(x, Now(), due, c.plain, r, streamStarted) && Fits(c, r, toolsRequested)
      modifies this`finished, this`heldFinish, this`out, this`mine, this`toolsEmitted, this`streamStarted, acc, compat
      ensures Counted() && Steady(x, Now())
      ensures Heard() == HearFinish(old(Heard()), finish)
    {
      ChunkFinish(x, c, r, due, finish);
      ghost var t := Heard();
      Deliver(x, c, r, due);
      assert Heard() == t;
    }

    /** One parsed chunk of an event stream. */
    method OnChunk(ghost x: Context, content: string, reasoning: string, tools: seq<Delta>, finish: string)
      requires Linked() && Steady(x, Now())
      modifies this`contentParts, this`reasoningParts, this`mixed, this`toolsPending, this`toolsRequested, this`sawTools, this`held
      modifies this`finished, this`heldFinish, this`out, this`mine, this`toolsEmitted, this`streamStarted, acc, compat
      ensures Counted() && Steady(x, Now())
      ensures Heard() == Hear(old(Heard()), Chunk(clientGone, content, reasoning, tools, finish))
    {
      ghost var s := Heard();
      var c, r, due := ChunkIn(x, content, reasoning, tools);
      ghost var t := Heard();
      ChunkOut(x, c, r, due, finish);
      assert Heard() == HearFinish(t, finish);
      HearInParts(s, clientGone, content, reasoning, tools, finish);
    }

    /** Reads an event stream to its end-of-data line; `raised` when it breaks before that. */
    method ServeEvents(ghost x: Context, lines: seq<Line>, broken: bool) returns (raised: bool)
      requires Linked() && Steady(x, Now()) && Heard() == NOTHING
      modifies this`contentParts, this`reasoningParts, this`mixed, this`toolsPending, this`toolsRequested, this`sawTools, this`held
      modifies this`finished, this`heldFinish, this`out, this`mine, this`toolsEmitted, this`streamStarted, acc, compat
      modifies this`clientGone
      ensures Counted() && Steady(x, Now())
      ensures Heard() == HearAll(lines, NOTHING) && raised == Raises(lines, broken)
    {
      var i := 0;
      assert lines[0..] == lines;
      while i < |lines|
        invariant 0 <= i <= |lines|
        invariant Counted() && Steady(x, Now())
        invariant HearAll(lines[i..], Heard()) == HearAll(lines, NOTHING)
        invariant forall j :: 0 <= j < i ==> !lines[j].EndOfData?
      {
        assert lines[i..][1..] == lines[i + 1..];
        StepLine(x, lines[i]);
        if lines[i].EndOfData? {
          return false;
        }
        i := i + 1;
      }
      raised := broken;
    }

    method Beat(ghost x: Context)
      requires Counted() && Steady(x, Now())
      modifies this`out, this`mine
      ensures Counted() && Steady(x, Now()) && Heard() == old(Heard())
    {
      InvKeepalive(x, Now());
      Send(Keepalive);
    }

    method NoteGone(ghost x: Context, gone: bool)
      requires Steady(x, Now())
      modifies this`clientGone
      ensures Steady(x, Now()) && Heard() == old(Heard()).(gone := gone)
    {
      InvGone(x, Now(), gone);
      clientGone := gone;
    }

    method HearChunk(ghost x: Context, l: Line)
      requires l.Chunk? && Linked() && Steady(x, Now()) && clientGone == l.gone
      modifies this`contentParts, this`reasoningParts, this`mixed, this`toolsPending, this`toolsRequested, this`sawTools, this`held
      modifies this`finished, this`heldFinish, this`out, this`mine, this`toolsEmitted, this`streamStarted, acc, compat
      ensures Counted() && Steady(x, Now())
      ensures Heard() == Hear(old(Heard()), l)
    {
      OnChunk(x, l.content, l.reasoning, l.tools, l.finish);
    }

    method StepLine(ghost x: Context, l: Line)
      requires Linked() && Steady(x, Now())
      modifies this`contentParts, this`reasoningParts, this`mixed, this`toolsPending, this`toolsRequested, this`sawTools, this`held
      modifies this`finished, this`heldFinish, this`out, this`mine, this`toolsEmitted, this`streamStarted, acc, compat
      modifies this`clientGone
      ensures Counted() && Steady(x, Now())
      ensures Heard() == Hear(old(Heard()), l)
    {
      ghost var s := Heard();
      NoteGone(x, l.gone);
      assert Heard() == s.(gone := l.gone);
      HearTwice(s, l);
      if l.Chunk? {
        HearChunk(x, l);
      } else if l.Idle? && !clientGone {
        Beat(x);
      }
    }

    method SendTools(items: seq<Item>)
      requires Counted()
      modifies this`out, this`mine, this`toolsEmitted
      ensures Counted() && Grew(old(mine), mine, items) && (items == [] ==> mine == old(mine))
    {
      var i := 0;
      while i < |items|
        invariant 0 <= i <= |items|
        invariant Counted() && Grew(old(mine), mine, items[..i]) && (i == 0 ==> mine == old(mine))
      {
        GrewStep(old(mine), mine, items[..i], Tool(items[i]));
        SendTool(items[i]);
        assert items[..i + 1] == items[..i] + [items[i]];
        i := i + 1;
      }
      assert items[..i] == items;
    }

    method ShipHeld(ghost a: Attempt) returns (frames: seq<Item>)
      requires Linked() && Dense(acc.St()) && a == Now()
      modifies this`out, this`mine, this`toolsEmitted, acc
      ensures Counted() && Shipped(rules, a, acc.St(), frames, mine) && Now() == a.(st := acc.St(), sent := mine)
      ensures AllShipped()
    {
      frames := acc.FlushAll(limit, toolsEmitted);
      SendTools(frames);
    }

    /** No tool that could ship is left, unless the cap is reached. */
    ghost predicate AllShipped() reads this`acc, this`toolsEmitted, acc {
      Stable(rules) && (limit <= 0 || toolsEmitted < limit) ==> FlushSet(rules, acc.acc) == {}
    }

    /** Once a tool has left, held text is forgotten. */
    method ToolsWin(frames: seq<Item>)
      modifies this`sawTools, this`held, compat`thinkOpen
      ensures Now() == AfterFlush(old(Now()), acc.St(), frames, mine) && (old(sawTools) ==> sawTools)
    {
      if frames != [] {
        sawTools, held := true, [];
        compat.thinkOpen := false;
      }
    }

    method WinTools(ghost x: Context, ghost a: Attempt, frames: seq<Item>)
      requires Settled(x, AfterFlush(a, acc.St(), frames, mine)) && Now() == a.(st := acc.St(), sent := mine)
      modifies this`sawTools, this`held, compat`thinkOpen
      ensures Settled(x, Now()) && (old(sawTools) ==> sawTools)
    {
      ToolsWin(frames);
    }

    method SettleTools(ghost x: Context, ghost a: Attempt, frames: seq<Item>)
      requires Settled(x, a) && a.st.acc != map[] && Now() == a.(st := acc.St(), sent := mine) && AllShipped()
      requires Shipped(rules, a, acc.St(), frames, mine)
      modifies this`sawTools, this`held, compat`thinkOpen
      ensures Settled(x, Now()) && (old(sawTools) ==> sawTools) && AllShipped()
    {
      SettledFlush(x, a, rules, acc.St(), frames, mine);
      WinTools(x, a, frames);
    }

    /** The terminal flush: every held tool that may ship, lowest slot first, while the budget lasts. */
    method FlushTools(ghost x: Context)
      requires Linked() && Settled(x, Now()) && acc.acc != map[]
      modifies this`out, this`mine, this`toolsEmitted, this`sawTools, this`held, acc, compat`thinkOpen
      ensures Counted() && Settled(x, Now()) && (old(sawTools) ==> sawTools)
      ensures AllShipped()
    {
      ghost var a := Now();
      var frames := ShipHeld(a);
      SettleTools(x, a, frames);
    }

    /** Sends the held preface, piece by piece. */
    method TellHeld()
      requires Counted() && WireInv(prior, mine, streamStarted)
      modifies this`out, this`mine, this`streamStarted
      ensures Counted() && WireInv(prior, mine, true) && Told(old(mine), mine, held)
    {
      WireWeakens(prior, mine, streamStarted);
      var i := 0;
      while i < |held|
        invariant 0 <= i <= |held|
        invariant Counted() && WireInv(prior, mine, true) && Told(old(mine), mine, held[..i])
      {
        assert held[..i + 1] == held[..i] + [held[i]];
        if held[i].0.full == "" && held[i].1 == "" {
          ToldNothing(old(mine), mine, held[..i], held[i]);
        } else {
          ToldStep(old(mine), mine, held[..i], held[i]);
          streamStarted := true;
          WireAppend(prior, mine, true, Content(held[i].0, held[i].1), true);
          Send(Content(held[i].0, held[i].1));
        }
        i := i + 1;
      }
      assert held[..i] == held;
    }

    /** No model output at all: nothing to hold, nothing said, no tool that could ship. */
    predicate Blank() reads this, acc {
      && !clientGone && !sawTools
      && !(exists i :: 0 <= i < |held| && (held[i].0.full != "" || held[i].1 != ""))
      && !(exists k :: k in acc.acc && Shippable(rules, acc.acc[k]))
      && rules.strip(contentParts) == "" && rules.strip(reasoningParts) == ""
    }

    method ForgetHeld()
      modifies this`held
      ensures Now() == old(Now()).(held := [])
    {
      held := [];
    }

    method TellAll(ghost x: Context)
      requires Counted() && Settled(x, Now()) && x.prior == prior && !sawTools
      modifies this`out, this`mine, this`held, this`streamStarted
      ensures Counted() && Ended(x, Now(), Answered)
    {
      ghost var a := Now();
      TellHeld();
      assert Now() == a.(sent := mine, started := streamStarted);
      EndedTold(x, a, mine, streamStarted);
      ForgetHeld();
    }

    /** The text that is still due before the terminal frames. */
    method CloseText(ghost x: Context)
      requires Linked() && Settled(x, Now()) && x.prior == prior
      modifies this`out, this`mine, this`held, this`streamStarted, compat
      ensures Counted() && Ended(x, Now(), Answered)
    {
      if clientGone {
        EndedQuietly(x, Now(), Answered);
        held := [];
        return;
      }
      if sawTools {
        SawRequested(x, Now());
      }
      if held != [] && !sawTools {
        TellAll(x);
      } else {
        EndedQuietly(x, Now(), Answered);
        held := [];
      }
      CloseBlock(x);
    }

    method CloseBlock(ghost x: Context)
      requires Linked() && Ended(x, Now(), Answered) && !clientGone && (sawTools ==> toolsRequested)
      modifies this`out, this`mine, compat
      ensures Counted() && Ended(x, Now(), Answered)
    {
      EndedOpen(x, Now());
      var tag := compat.CloseTagChunk();
      if tag.Some? && !(toolsRequested && sawTools) {
        SendTag(x);
      }
    }

    method SendTag(ghost x: Context)
      requires Counted() && Ended(x, Now(), Answered) && !sawTools
      modifies this`out, this`mine
      ensures Counted() && Ended(x, Now(), Answered)
    {
      EndedTag(x, Now());
      Send(Content(CLOSING, ""));
    }

    method FirstTool(tools: seq<Delta>) returns (items: seq<Item>)
      requires acc.St() == State(map[], [])
      modifies acc
      ensures Dense(acc.St()) && acc.built == items && acc.acc.Keys == SlotsOf(tools)
    {
      items := acc.ArgumentDelta(tools);
      LiveDense(acc.rules, tools, acc.St());
    }

    method RestOfTools() returns (items: seq<Item>)
      requires Dense(acc.St())
      modifies acc
      ensures Dense(acc.St()) && acc.built == old(acc.built) + items && acc.acc.Keys == old(acc.acc.Keys)
    {
      items := acc.FlushAll(0, 0);
    }

    /** Tools of a JSON answer: one live call, then everything that may ship. */
    method BodyTools(tools: seq<Delta>) returns (items: seq<Item>)
      requires acc.St() == State(map[], []) && !sawTools
      modifies this`toolsPending, this`toolsRequested, this`sawTools, acc
      ensures toolsPending && toolsRequested && (sawTools <==> items != [])
      ensures Dense(acc.St()) && acc.built == items && acc.acc.Keys == SlotsOf(tools)
    {
      toolsPending, toolsRequested := true, true;
      items := FirstTool(tools);
      if items != [] {
        sawTools := true;
      }
      if acc.acc != map[] {
        var flushed := RestOfTools();
        if flushed != [] {
          sawTools := true;
          items := items + flushed;
        }
      }
    }

    /** Text of a JSON answer, with an open think block closed at once; nothing when tools are pending. */
    method BodyText(content: string, reasoning: string) returns (c: Shown, r: string)
      requires !compat.thinkOpen && held == [] && (toolsPending ==> toolsRequested) && (sawTools ==> toolsPending)
      modifies this`held, compat
      ensures held == [] && (toolsPending ==> c == SILENT && r == "" && !compat.thinkOpen)
      ensures c.full != "" || r != "" ==> content != "" || reasoning != ""
      ensures !toolsPending ==> c.plain == Visible(compat.mode, content, reasoning) && r == Apart(compat.mode, reasoning)
      ensures (compat.mode == Off ==> !compat.thinkOpen)
    {
      RewrittenText(compat.mode, compat.thinkOpen, content, reasoning);
      c, r := compat.Rewrite(content, reasoning);
      if toolsRequested && (sawTools || toolsPending) {
        c, r := SILENT, "";
        held := [];
        compat.thinkOpen := false;
      }
      var tag := compat.CloseTagChunk();
      if tag.Some? && !(toolsRequested && (sawTools || toolsPending)) {
        c := c.(full := c.full + tag.value.full);
      }
    }

    method SendBodyText(c: Shown, r: string)
      requires Counted()
      modifies this`out, this`mine
      ensures Counted() && mine == old(mine) + TextFrames(c, r)
    {
      if c.full != "" {
        Send(Content(c, ""));
      }
      if r != "" {
        Send(Content(SILENT, r));
      }
    }

    method SendBodyTools(ghost x: Context, ghost a: Attempt, items: seq<Item>)
      requires Linked() && x.lossy && Untouched(x, a) && a.limit == limit && mine == a.sent && Took(Now(), x.said)
      requires Dense(acc.St()) && acc.built == items && (sawTools <==> items != []) && toolsRequested && held == [] && !compat.thinkOpen
      modifies this`out, this`mine, this`toolsEmitted
      ensures Counted() && Settled(x, Now())
    {
      QuietReading(mine);
      EmitSerial(items);
      assert items == [] ==> mine == a.sent;
      SettledTools(x, a, Now(), items);
    }

    method ToolBodyText(body: JsonBody, items: seq<Item>)
      requires toolsPending && toolsRequested && held == [] && !compat.thinkOpen
      modifies this`contentParts, this`reasoningParts, this`mixed, this`held, this`streamStarted, compat
      ensures contentParts == body.content && reasoningParts == body.reasoning && mixed == body.reasoning + body.content
      ensures held == [] && !compat.thinkOpen
    {
      contentParts, reasoningParts := body.content, body.reasoning;
      mixed := body.reasoning + body.content;
      if body.content != "" || body.reasoning != "" || items != [] || body.tools == [] {
        streamStarted := true;
      }
      var c, r := BodyText(body.content, body.reasoning);
      assert c.full == "" && r == "";  // text next to pending tools is dropped
    }

    method ToolBody(ghost x: Context, body: JsonBody)
      requires Linked() && Untouched(x, Now()) && !clientGone && x.lossy && x.said == BodySaid(body)
      modifies this`contentParts, this`reasoningParts, this`mixed, this`toolsPending, this`toolsRequested, this`sawTools, this`held
      modifies this`out, this`mine, this`toolsEmitted, this`streamStarted, acc, compat
      ensures Counted() && Settled(x, Now())
    {
      ghost var a := Now();
      var items := BodyTools(Calls(body));
      ToolBodyText(body, items);
      SendBodyTools(x, a, items);
    }

    method TextBody(ghost x: Context, body: JsonBody)
      requires Linked() && Untouched(x, Now()) && !clientGone && !x.lossy && (x.asked ==> toolsRequested)
      requires x.said == BodySaid(body) && Calls(body) == []
      modifies this`contentParts, this`reasoningParts, this`mixed, this`held, this`out, this`mine, this`streamStarted, compat
      ensures Counted() && Settled(x, Now())
    {
      ghost var a := Now();
      contentParts, reasoningParts := body.content, body.reasoning;
      mixed := body.reasoning + body.content;
      if body.content != "" || body.reasoning != "" {
        streamStarted := true;
      }
      SpeakBody(x, a, body);
    }

    method SpeakBody(ghost x: Context, ghost a: Attempt, body: JsonBody)
      requires Counted() && Untouched(x, a) && (x.asked ==> toolsRequested) && acc.St() == a.st && mine == a.sent && limit == a.limit
      requires !sawTools && !toolsPending && held == [] && !compat.thinkOpen && Took(Now(), BodySaid(body)) && x.said == BodySaid(body)
      requires body.content != "" || body.reasoning != "" ==> streamStarted
      modifies this`held, this`out, this`mine, compat
      ensures Counted() && Settled(x, Now())
    {
      var c, r := BodyText(body.content, body.reasoning);
      SayBody(x, a, c, r);
    }

    method SayBody(ghost x: Context, ghost a: Attempt, c: Shown, r: string)
      requires Counted() && Untouched(x, a) && (x.asked ==> toolsRequested) && acc.St() == a.st && mine == a.sent && limit == a.limit
      requires !sawTools && held == [] && (compat.mode == Off ==> !compat.thinkOpen) && (c.full != "" || r != "" ==> streamStarted)
      requires c.plain == ShownText(Now()) && r == ShownReasoning(Now()) && Took(Now(), x.said)
      modifies this`out, this`mine
      ensures Counted() && Settled(x, Now())
    {
      SendBodyText(c, r);
      SettledText(x, a, Now(), c, r);
    }

    method TakeBody(ghost x: Context, body: JsonBody)
      requires Linked() && Untouched(x, Now()) && !clientGone && (x.asked ==> toolsRequested)
      requires (x.lossy <==> Calls(body) != []) && x.said == BodySaid(body)
      modifies this`contentParts, this`reasoningParts, this`mixed, this`toolsPending, this`toolsRequested, this`sawTools, this`held
      modifies this`out, this`mine, this`toolsEmitted, this`streamStarted, acc, compat
      ensures Counted() && Settled(x, Now())
    {
      if Calls(body) != [] {
        ToolBody(x, body);
      } else {
        TextBody(x, body);
      }
    }

    /** A JSON answer instead of an event stream: tools first, text only when no tool is pending. */
    method OnBody(ghost x: Context, body: JsonBody)
      requires Linked() && Untouched(x, Now()) && !clientGone && (x.asked ==> toolsRequested)
      requires (x.lossy <==> Calls(body) != []) && x.said == BodySaid(body)
      modifies this`contentParts, this`reasoningParts, this`mixed, this`toolsPending, this`toolsRequested, this`sawTools, this`held
      modifies this`finished, this`heldFinish, this`out, this`mine, this`toolsEmitted, this`streamStarted, acc, compat
      ensures Counted() && Settled(x, Now())
      ensures finished && heldFinish == TerminalReason(Some(if body.finish != "" then body.finish else "stop"), sawTools)
    {
      TakeBody(x, body);
      KeepFinish(x, TerminalReason(Some(if body.finish != "" then body.finish else "stop"), sawTools));
    }

    method KeepFinish(ghost x: Context, reason: string)
      requires Settled(x, Now())
      modifies this`finished, this`heldFinish
      ensures Settled(x, Now()) && finished && heldFinish == reason
    {
      SettledFinish(x, Now(), reason);
      finished, heldFinish := true, reason;
    }

    method Report(ghost x: Context, last: bool) returns (outcome: Outcome)
      requires Linked() && Settled(x, Now()) && (sawTools ==> streamStarted)
      modifies this`out
      ensures outcome == if !streamStarted && !last then NextAccount else Failed
      ensures Ended(x, Now(), outcome) && out == prior + mine + Tail(Now(), outcome)
    {
      outcome := if !streamStarted && !last then NextAccount else Failed;
      EndedQuietly(x, Now(), outcome);
      if !(!streamStarted && !last) {
        out := out + [Error, Done];
      } else {
        assert prior + mine + [] == prior + mine;
      }
    }

    method Finalise(ghost x: Context)
      requires Linked() && Settled(x, Now()) && x.prior == prior
      modifies this`out, this`mine, this`held, this`streamStarted, compat
      ensures Ended(x, Now(), Answered) && out == prior + mine + Tail(Now(), Answered)
      ensures toolsEmitted == |Items(mine)|
    {
      CloseText(x);
      Terminate();
    }

    method Terminate()
      requires Counted()
      modifies this`out
      ensures out == prior + mine + Tail(Now(), Answered)
    {
      var reason := TerminalReason(if finished then Some(heldFinish) else None, sawTools);
      out := out + [Finish(reason)];
      out := out + [UsageOnly];
      out := out + [Done];
      assert out == prior + mine + [Finish(reason), UsageOnly, Done];
    }

    method FlushIfAny(ghost x: Context)
      requires Linked() && Settled(x, Now())
      modifies this`out, this`mine, this`toolsEmitted, this`sawTools, this`held, acc, compat`thinkOpen
      ensures Counted() && Settled(x, Now()) && (old(sawTools) ==> sawTools)
      ensures !clientGone ==> AllShipped()
    {
      if acc.acc == map[] || clientGone {
        return;
      }
      FlushTools(x);
    }

    method WrapUp(ghost x: Context, last: bool) returns (outcome: Outcome)
      requires Linked() && Settled(x, Now()) && x.prior == prior
      modifies this`out, this`mine, this`held, this`streamStarted, compat
      ensures Ended(x, Now(), outcome) && out == prior + mine + Tail(Now(), outcome)
      ensures clientGone || rules.strip(contentParts) != "" || rules.strip(reasoningParts) != "" ==> outcome.Answered?
      ensures !outcome.Answered? ==> outcome == if !streamStarted && !last then NextAccount else Failed
      ensures toolsEmitted == |Items(mine)|
    {
      if Blank() {
        outcome := Report(x, last);
      } else {
        outcome := Answered;
        Finalise(x);
      }
    }

    /**
     After the upstream is done: terminal flush, the empty-answer check, then the terminal frames. The
     source's second look at emitted slots changes nothing: `sawTools` holds exactly when one was built.
     */
    method Conclude(ghost x: Context, last: bool) returns (outcome: Outcome)
      requires Linked() && Settled(x, Now()) && x.prior == prior
      modifies this`out, this`mine, this`toolsEmitted, this`sawTools, this`held, this`streamStarted, acc, compat
      ensures Ended(x, Now(), outcome) && out == prior + mine + Tail(Now(), outcome)
      ensures old(sawTools) ==> sawTools
      ensures clientGone || rules.strip(contentParts) != "" || rules.strip(reasoningParts) != "" ==> outcome.Answered?
      ensures !outcome.Answered? ==> outcome == if !streamStarted && !last then NextAccount else Failed
      ensures toolsEmitted == |Items(mine)| && (outcome.Answered? && !clientGone ==> AllShipped())
    {
      FlushIfAny(x);
      outcome := WrapUp(x, last);
    }

    ghost predicate NewParts() reads this, acc, compat {
      acc.rules == rules && acc.acc == map[] && acc.built == [] && compat.mode == ParseMode(rawMode) && !compat.thinkOpen
    }

    ghost predicate NewFlags() reads this {
      && !streamStarted && !sawTools && !toolsPending && !clientGone && !finished
      && held == [] && contentParts == "" && reasoningParts == "" && mixed == "" && toolsEmitted == 0 && mine == []
    }

    method ResetTexts()
      modifies this`held, this`contentParts, this`reasoningParts, this`mixed, this`toolsEmitted, this`prior, this`mine
      ensures held == [] && contentParts == "" && reasoningParts == "" && mixed == "" && toolsEmitted == 0 && mine == [] && prior == out
    {
      held, contentParts, reasoningParts, toolsEmitted := [], "", "", 0;
      mixed, prior, mine := "", out, [];
    }

    method ResetFlags()
      modifies this`streamStarted, this`sawTools, this`toolsPending, this`clientGone, this`finished
      modifies this`heldFinish, this`held, this`contentParts, this`reasoningParts, this`mixed, this`toolsEmitted, this`prior, this`mine
      ensures NewFlags() && prior == out
    {
      ResetTexts();
      streamStarted, sawTools, toolsPending, clientGone, finished, heldFinish := false, false, false, false, false, "";
    }

    /** Every account starts with a new accumulator and new flags. */
    method Begin()
      modifies this`acc, this`compat, this`streamStarted, this`sawTools, this`toolsPending, this`clientGone, this`finished
      modifies this`heldFinish, this`held, this`contentParts, this`reasoningParts, this`mixed, this`toolsEmitted, this`prior, this`mine
      ensures fresh(acc) && fresh(compat) && NewParts() && NewFlags() && prior == out
    {
      ResetFlags();
      acc := new ToolAccumulator(rules);
      compat := new Compat(rawMode);
    }

    /** The role frame goes out once, when an upstream first accepts. */
    method Envelope(ghost x: Context)
      requires Silent(out, roleSent) && out == prior == x.prior && NewParts() && NewFlags()
      modifies this`out, this`mine, this`roleSent
      ensures Linked() && Untouched(x, Now())
    {
      if !roleSent {
        Reading(mine, Role);
        assert prior + [Role] == [Role];
        assert mine + [Role] == [Role];
        out, mine := out + [Role], mine + [Role];
        roleSent := true;
      } else {
        assert prior + mine == prior;
      }
    }

    method ReadEvents(ghost x: Context, lines: seq<Line>, broken: bool) returns (raised: bool)
      requires Linked() && Untouched(x, Now()) && (x.strict || x.asked ==> toolsRequested) && !clientGone && !finished
      requires x.said == HearAll(lines, NOTHING)
      modifies this`contentParts, this`reasoningParts, this`mixed, this`toolsPending, this`toolsRequested, this`sawTools, this`held
      modifies this`finished, this`heldFinish, this`out, this`mine, this`toolsEmitted, this`streamStarted, acc, compat
      modifies this`clientGone
      ensures Counted() && Settled(x, Now()) && (sawTools ==> streamStarted)
      ensures (if finished then Some(heldFinish) else None) == x.said.finish && raised == Raises(lines, broken)
    {
      UntouchedInv(x, Now());
      raised := ServeEvents(x, lines, broken);
      InvSettled(x, Now());
    }

    /** The attempt ends: an exception is reported, anything else is concluded. */
    method EndAttempt(ghost x: Context, raised: bool, last: bool) returns (outcome: Outcome)
      requires Linked() && Settled(x, Now()) && x.prior == prior && (raised && sawTools ==> streamStarted)
      modifies this`out, this`mine, this`toolsEmitted, this`sawTools, this`held, this`streamStarted, acc, compat
      ensures Ended(x, Now(), outcome) && out == prior + mine + Tail(Now(), outcome)
      ensures old(sawTools) ==> sawTools
      ensures !raised && (rules.strip(contentParts) != "" || rules.strip(reasoningParts) != "") ==> outcome.Answered?
      ensures !outcome.Answered? ==> outcome == if !streamStarted && !last then NextAccount else Failed
      ensures toolsEmitted == |Items(mine)| && (outcome.Answered? && !clientGone ==> AllShipped())
    {
      if raised {
        outcome := Report(x, last);
      } else {
        outcome := Conclude(x, last);
      }
    }

    /** The terminal reason comes from the finish reason the upstream gave. */
    ghost predicate SameReason(u: Upstream, s: bool) reads this`finished, this`heldFinish {
      TerminalReason(if finished then Some(heldFinish) else None, s) == TerminalReason(Meant(u).finish, s)
    }

    ghost predicate SameReasons(u: Upstream) reads this { (!sawTools ==> SameReason(u, false)) && SameReason(u, true) }

    method EndStory(ghost x: Context, ghost u: Upstream, ghost strict: bool, raised: bool, last: bool) returns (outcome: Outcome)
      requires Linked() && Settled(x, Now()) && x.prior == prior && (raised && sawTools ==> streamStarted)
      requires x.said == Meant(u) && SameReasons(u) && (Healthy(rules, u) ==> !raised)
      requires (u.Events? || u.Whole?) && (strict ==> x.asked) && (strict || u.Whole? ==> x.strict) && (x.lossy ==> Swallows(u))
      modifies this`out, this`mine, this`toolsEmitted, this`sawTools, this`held, this`streamStarted, acc, compat
      ensures out == prior + mine + Tail(Now(), outcome)
      ensures Story(rules, u, strict, last, Now(), prior, Tail(Now(), outcome), outcome)
    {
      outcome := EndAttempt(x, raised, last);
      assert SameReason(u, sawTools);
      StoryEnded(rules, u, strict, last, x, Now(), outcome);
    }

    /** An account that streams events. */
    method OnEvents(ghost x: Context, u: Upstream, last: bool) returns (outcome: Outcome)
      requires u.Events? && Linked() && Untouched(x, Now()) && !clientGone && !finished && x == Context(prior, toolsRequested, toolsRequested, false, Meant(u))
      modifies this`contentParts, this`reasoningParts, this`mixed, this`toolsPending, this`toolsRequested, this`sawTools, this`held
      modifies this`finished, this`heldFinish, this`out, this`mine, this`toolsEmitted, this`streamStarted, acc, compat
      modifies this`clientGone
      ensures out == prior + mine + Tail(Now(), outcome)
      ensures Story(rules, u, x.strict, last, Now(), prior, Tail(Now(), outcome), outcome)
    {
      var raised := ReadEvents(x, u.lines, u.broken);
      outcome := EndStory(x, u, x.strict, raised, last);
    }

    method ReadWhole(ghost x: Context, u: Upstream) returns (raised: bool)
      requires u.Whole? && Linked() && Untouched(x, Now()) && !clientGone && !finished && x.lossy == Swallows(u)
      requires (x.asked ==> toolsRequested) && x.said == Meant(u)
      modifies this`contentParts, this`reasoningParts, this`mixed, this`toolsPending, this`toolsRequested, this`sawTools, this`held
      modifies this`finished, this`heldFinish, this`out, this`mine, this`toolsEmitted, this`streamStarted, acc, compat
      ensures Counted() && Settled(x, Now()) && SameReasons(u)
      ensures raised == u.body.None? && (raised ==> !sawTools)
    {
      raised := u.body.None?;
      if raised {
        UntouchedSettled(x, Now());
      } else {
        OnBody(x, u.body.value);
        ReasonTwice(Meant(u).finish.value, sawTools);
      }
    }

    /** An account that answers with one JSON body. */
    method OnWhole(ghost x: Context, u: Upstream, last: bool) returns (outcome: Outcome)
      requires u.Whole? && Linked() && Untouched(x, Now()) && !clientGone && !finished && x == Context(prior, toolsRequested, true, Swallows(u), Meant(u))
      modifies this`contentParts, this`reasoningParts, this`mixed, this`toolsPending, this`toolsRequested, this`sawTools, this`held
      modifies this`finished, this`heldFinish, this`out, this`mine, this`toolsEmitted, this`streamStarted, acc, compat
      ensures out == prior + mine + Tail(Now(), outcome)
      ensures Story(rules, u, x.asked, last, Now(), prior, Tail(Now(), outcome), outcome)
    {
      var raised := ReadWhole(x, u);
      outcome := EndStory(x, u, x.asked, raised, last);
    }

    /** One account of the chain. */
    method TryAccount(u: Upstream, last: bool) returns (outcome: Outcome)
      requires Silent(out, roleSent)
      modifies this
      ensures prior == old(out) && out == prior + mine + Tail(Now(), outcome)
      ensures Story(rules, u, old(toolsRequested), last, Now(), prior, Tail(Now(), outcome), outcome)
      ensures outcome.NextAccount? ==> Silent(out, roleSent)
    {
      ghost var strict := toolsRequested;
      Begin();
      outcome := Attend(u, last);
      if outcome.NextAccount? {
        StorySilent(rules, u, strict, last, Now(), prior, Tail(Now(), outcome));
      }
    }

    method Attend(u: Upstream, last: bool) returns (outcome: Outcome)
      requires Silent(out, roleSent) && out == prior && NewParts() && NewFlags()
      modifies this, acc, compat
      ensures prior == old(prior) && out == prior + mine + Tail(Now(), outcome) && roleSent == (prior + mine != [])
      ensures Story(rules, u, old(toolsRequested), last, Now(), prior, Tail(Now(), outcome), outcome)
    {
      if u.Events? {
        outcome := AcceptEvents(u, last);
      } else if u.Whole? {
        outcome := AcceptWhole(u, last);
      } else {
        outcome := Refuse(u, toolsRequested, last);
      }
    }

    method AcceptEvents(u: Upstream, last: bool) returns (outcome: Outcome)
      requires u.Events? && Silent(out, roleSent) && out == prior && NewParts() && NewFlags()
      modifies this, acc, compat
      ensures prior == old(prior) && out == prior + mine + Tail(Now(), outcome) && roleSent && prior + mine != []
      ensures Story(rules, u, old(toolsRequested), last, Now(), prior, Tail(Now(), outcome), outcome)
    {
      ghost var x := Context(prior, toolsRequested, toolsRequested, false, Meant(u));
      Envelope(x);
      outcome := OnEvents(x, u, last);
    }

    method AcceptWhole(u: Upstream, last: bool) returns (outcome: Outcome)
      requires u.Whole? && Silent(out, roleSent) && out == prior && NewParts() && NewFlags()
      modifies this, acc, compat
      ensures prior == old(prior) && out == prior + mine + Tail(Now(), outcome) && roleSent && prior + mine != []
      ensures Story(rules, u, old(toolsRequested), last, Now(), prior, Tail(Now(), outcome), outcome)
    {
      ghost var x := Context(prior, toolsRequested, true, Swallows(u), Meant(u));
      Envelope(x);
      outcome := OnWhole(x, u, last);
    }

    /** No answer from this account: on to the next one, or an error. */
    method Refuse(u: Upstream, ghost strict: bool, last: bool) returns (outcome: Outcome)
      requires (u.Unreachable? || u.Refused?) && (strict ==> toolsRequested)
      requires Silent(out, roleSent) && out == prior && NewParts() && NewFlags()
      modifies this`out
      ensures out == prior + mine + Tail(Now(), outcome)
      ensures mine == []
      ensures Story(rules, u, strict, last, Now(), prior, Tail(Now(), outcome), outcome)
    {
      var again := !last && (u.Refused? ==> Retryable(u.status));
      outcome := if again then NextAccount else Failed;
      assert prior + mine == prior && prior + [] == prior;
      StoryUnopened(rules, u, strict, last, Now(), prior, outcome);
      if !again {
        out := out + [Error];
        out := out + [Done];
        assert out == prior + [Error, Done];
      }
    }

    /** The whole request: accounts in order until one answers or may not be left. */
    method Run(chain: seq<Upstream>) returns (outcome: Outcome, used: nat, ghost strict: bool)
      requires out == [] && !roleSent
      modifies this
      ensures used <= |chain| && (used == 0 <==> chain == []) && !outcome.NextAccount? && (old(toolsRequested) ==> strict)
      ensures chain == [] ==> out == [Error, Done]
      ensures chain != [] ==> AllQuiet(prior) && out == prior + mine + Tail(Now(), outcome)
      ensures chain != [] ==> Story(rules, chain[used - 1], strict, used == |chain|, Now(), prior, Tail(Now(), outcome), outcome)
      ensures forall j :: 0 <= j < used - 1 ==> !Healthy(rules, chain[j])
    {
      used, strict := 0, toolsRequested;
      while used < |chain|
        invariant 0 <= used <= |chain| && Silent(out, roleSent) && (used == 0 ==> out == [])
        invariant strict == toolsRequested && (old(toolsRequested) ==> strict)
        invariant chain != [] ==> used < |chain|
        invariant forall j :: 0 <= j < used ==> !Healthy(rules, chain[j])
      {
        outcome := TryAccount(chain[used], used == |chain| - 1);
        used := used + 1;
        if !outcome.NextAccount? {
          return;
        }
        strict := toolsRequested;
      }
      out := out + [Error];
      out := out + [Done];
      outcome := Failed;
    }
  }

  lemma Shift(c: string, d: string, u: string)
    ensures c + (d + u) == (c + d) + u && c + "" == c
  {
  }
}
