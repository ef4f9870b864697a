/** Rewriting of reasoning deltas into visible content for clients that cannot show them separately. */
module ReasoningCompat {
  import opened Common

  datatype Mode = Off | ThinkTag | PlainContent

  /** What a rewritten content string is made of; the tags are `<think>` and `</think>` on their own lines. */
  datatype Piece = OpenTag | CloseTag | Text(s: string)

  function ParseMode(raw: string): Mode {
    if raw in {"1", "true", "yes", "on", "think_tag"} then ThinkTag
    else if raw == "content" then PlainContent
    else Off
  }

  function Render(ps: seq<Piece>): string {
    if ps == [] then "" else
    Render(ps[..|ps| - 1]) + match ps[|ps| - 1]
      case OpenTag => "<think>\n"
      case CloseTag => "\n</think>\n"
      case Text(s) => s
  }

  /** The pieces one delta turns into, and whether a block is open afterwards. */
  function Pieces(mode: Mode, open: bool, content: string, reasoning: string): (seq<Piece>, bool) {
    var think := if reasoning == "" then [] else (if mode == ThinkTag && !open then [OpenTag] else []) + [Text(reasoning)];
    var inside := open || (reasoning != "" && mode == ThinkTag);
    if content == "" then (think, inside)
    else if mode == ThinkTag && inside then (think + [CloseTag, Text(content)], false)
    else (think + [Text(content)], inside)
  }

  /** Visible text as it goes out, and the same text without the tags. */
  datatype Marked = Marked(full: string, plain: string)

  type Shown = m: Marked | m.full == "" ==> m.plain == "" witness Marked("", "")

  const SILENT := Marked("", "")
  const CLOSING := Marked("\n</think>\n", "")

  lemma PlainWithin(ps: seq<Piece>)
    ensures |Untagged(ps)| <= |Render(ps)|
  {
    if ps != [] {
      PlainWithin(ps[..|ps| - 1]);
    }
  }

  /** Content and reasoning as they go out, and whether a block is open afterwards. */
  function Rewritten(mode: Mode, open: bool, content: string, reasoning: string): (Shown, string, bool) {
    if mode == Off then (Marked(content, content), reasoning, open) else
    var (ps, open') := Pieces(mode, open, content, reasoning);
    PlainWithin(ps);
    (Marked(Render(ps), Untagged(ps)), "", open')
  }

  /** The visible text of one delta before it is rewritten. */
  function Visible(mode: Mode, content: string, reasoning: string): string {
    if mode == Off then content else reasoning + content
  }

  /** The reasoning of one delta that is sent apart from the visible text. */
  function Apart(mode: Mode, reasoning: string): string { if mode == Off then reasoning else "" }

  class Compat {
    const mode: Mode
    var thinkOpen: bool
    var sawReasoning: bool

    constructor (raw: string)
      ensures mode == ParseMode(raw) && !thinkOpen && !sawReasoning
    {
      mode, thinkOpen, sawReasoning := ParseMode(raw), false, false;
    }

    /** Content and reasoning as they go out. */
    method Rewrite(content: string, reasoning: string) returns (c: Shown, r: string)
      modifies this
      ensures (c, r, thinkOpen) == Rewritten(mode, old(thinkOpen), content, reasoning)
      ensures sawReasoning == (old(sawReasoning) || (mode != Off && reasoning != ""))
    {
      if mode == Off {
        return Marked(content, content), reasoning;
      }
      var pieces: seq<Piece> := [];
      if reasoning != "" {
        sawReasoning := true;
        if mode == ThinkTag && !thinkOpen {
          pieces := pieces + [OpenTag];
          thinkOpen := true;
        }
        pieces := pieces + [Text(reasoning)];
      }
      if content != "" {
        if mode == ThinkTag && thinkOpen {
          pieces := pieces + [CloseTag];
          thinkOpen := false;
        }
        pieces := pieces + [Text(content)];
      }
      assert pieces == Pieces(mode, old(thinkOpen), content, reasoning).0;
      c, r := Marked(Render(pieces), Untagged(pieces)), "";
    }

    /** The closing tag of a block that is still open. */
    method CloseTagChunk() returns (tag: Option<Shown>)
      modifies this
      ensures tag == if mode == ThinkTag && old(thinkOpen) then Some(CLOSING) else None
      ensures thinkOpen == (old(thinkOpen) && mode != ThinkTag)
    {
      if mode == ThinkTag && thinkOpen {
        thinkOpen := false;
        return Some(CLOSING);
      }
      tag := None;
    }
  }

  /* ---- whole streams in think-tag mode ---- */

  datatype Deltas = Deltas(content: string, reasoning: string)

  /** All rewritten pieces of a stream, and whether a block is open at its end. */
  function RewriteAll(ds: seq<Deltas>): (seq<Piece>, bool) {
    if ds == [] then ([], false) else
    var (ps, open) := RewriteAll(ds[..|ds| - 1]);
    var (qs, open') := Pieces(ThinkTag, open, ds[|ds| - 1].content, ds[|ds| - 1].reasoning);
    (ps + qs, open')
  }

  function Closed(ds: seq<Deltas>): seq<Piece> {
    RewriteAll(ds).0 + if RewriteAll(ds).1 then [CloseTag] else []
  }

  /** Tags alternate from a closed start; the result says whether a block is open at the end. */
  function Scan(ps: seq<Piece>): Option<bool> {
    if ps == [] then Some(false) else
    match (Scan(ps[..|ps| - 1]), ps[|ps| - 1])
    case (Some(open), Text(_)) => Some(open)
    case (Some(false), OpenTag) => Some(true)
    case (Some(true), CloseTag) => Some(false)
    case _ => None
  }

  /** The text with all tags removed. */
  function Untagged(ps: seq<Piece>): string {
    if ps == [] then "" else
    Untagged(ps[..|ps| - 1]) + match ps[|ps| - 1] case Text(s) => s case _ => ""
  }

  /** Reasoning before content within a delta, deltas in order. */
  function Plain(ds: seq<Deltas>): string {
    if ds == [] then "" else Plain(ds[..|ds| - 1]) + ds[|ds| - 1].reasoning + ds[|ds| - 1].content
  }

  lemma PiecesSnoc(ps: seq<Piece>, p: Piece)
    ensures Untagged(ps + [p]) == Untagged(ps) + match p case Text(s) => s case _ => ""
    ensures Scan(ps + [p]) == match (Scan(ps), p)
              case (Some(open), Text(_)) => Some(open)
              case (Some(false), OpenTag) => Some(true)
              case (Some(true), CloseTag) => Some(false)
              case _ => None
  {
    assert (ps + [p])[..|ps|] == ps;
  }

  lemma UntaggedConcat(ps: seq<Piece>, qs: seq<Piece>)
    ensures Untagged(ps + qs) == Untagged(ps) + Untagged(qs)
  {
    if qs == [] {
      assert ps + qs == ps && Untagged(ps) + "" == Untagged(ps);
    } else {
      assert (ps + qs)[..|ps + qs| - 1] == ps + qs[..|qs| - 1];
      UntaggedConcat(ps, qs[..|qs| - 1]);
    }
  }

  lemma UntaggedOne(p: Piece)
    ensures Untagged([p]) == match p case Text(s) => s case _ => ""
  {
    PiecesSnoc([], p);
    assert [] + [p] == [p];
  }

  /** A run of tags and texts, at most one of each, in front of `s`. */
  lemma ThinkText(tag: seq<Piece>, s: string)
    requires tag == [] || tag == [OpenTag] || tag == [CloseTag]
    ensures s != "" ==> Untagged(tag + [Text(s)]) == s
  {
    UntaggedConcat(tag, [Text(s)]);
    UntaggedOne(Text(s));
    if tag != [] {
      UntaggedOne(tag[0]);
    }
  }

  /** Rewriting only adds tags: without them the texts are those of the delta, reasoning before content. */
  lemma PiecesText(mode: Mode, open: bool, content: string, reasoning: string)
    ensures Untagged(Pieces(mode, open, content, reasoning).0) == reasoning + content
  {
    var think := if reasoning == "" then [] else (if mode == ThinkTag && !open then [OpenTag] else []) + [Text(reasoning)];
    var inside := open || (reasoning != "" && mode == ThinkTag);
    var say := if content == "" then [] else (if mode == ThinkTag && inside then [CloseTag] else []) + [Text(content)];
    assert Pieces(mode, open, content, reasoning).0 == think + say;
    ThinkText(if mode == ThinkTag && !open then [OpenTag] else [], reasoning);
    ThinkText(if mode == ThinkTag && inside then [CloseTag] else [], content);
    UntaggedConcat(think, say);
  }

  lemma RenderLast(ps: seq<Piece>, p: Piece)
    ensures p.Text? ==> Render(ps + [p]) == Render(ps) + p.s
  {
    assert (ps + [p])[..|ps|] == ps;
  }

  /** Rewriting never drops a delta and never invents one. */
  lemma RenderedNonEmpty(mode: Mode, open: bool, content: string, reasoning: string)
    ensures Render(Pieces(mode, open, content, reasoning).0) != "" <==> content != "" || reasoning != ""
    ensures Pieces(mode, open, content, reasoning).1 ==> open || reasoning != ""
  {
    var ps := Pieces(mode, open, content, reasoning).0;
    if content != "" {
      RenderLast(ps[..|ps| - 1], Text(content));
      assert ps == ps[..|ps| - 1] + [Text(content)];
    } else if reasoning != "" {
      assert ps == ps[..|ps| - 1] + [Text(reasoning)];
      RenderLast(ps[..|ps| - 1], Text(reasoning));
    }
  }

  /** What one delta shows, in every mode. */
  lemma RewrittenText(mode: Mode, open: bool, content: string, reasoning: string)
    ensures var (c, r, open') := Rewritten(mode, open, content, reasoning);
            && c.plain == Visible(mode, content, reasoning) && r == Apart(mode, reasoning)
            && (c.full == "" <==> c.plain == "") && (open' ==> open || c.full != "")
            && (mode == Off ==> open' == open)
  {
    if mode != Off {
      PiecesText(mode, open, content, reasoning);
      RenderedNonEmpty(mode, open, content, reasoning);
    }
  }

  lemma ReasoningPieces(ps: seq<Piece>, open: bool, reasoning: string)
    requires Scan(ps) == Some(open) && reasoning != ""
    ensures var qs := (if open then [] else [OpenTag]) + [Text(reasoning)];
            Scan(ps + qs) == Some(true) && Untagged(ps + qs) == Untagged(ps) + reasoning
  {
    if open {
      PiecesSnoc(ps, Text(reasoning));
      assert ps + ([] + [Text(reasoning)]) == ps + [Text(reasoning)];
    } else {
      PiecesSnoc(ps, OpenTag);
      PiecesSnoc(ps + [OpenTag], Text(reasoning));
      assert Untagged(ps) + "" == Untagged(ps);
      assert ps + ([OpenTag] + [Text(reasoning)]) == ps + [OpenTag] + [Text(reasoning)];
    }
  }

  lemma ContentPieces(ps: seq<Piece>, open: bool, content: string)
    requires Scan(ps) == Some(open) && content != ""
    ensures var qs := if open then [CloseTag, Text(content)] else [Text(content)];
            Scan(ps + qs) == Some(false) && Untagged(ps + qs) == Untagged(ps) + content
  {
    if open {
      PiecesSnoc(ps, CloseTag);
      PiecesSnoc(ps + [CloseTag], Text(content));
      assert Untagged(ps) + "" == Untagged(ps);
      assert ps + [CloseTag, Text(content)] == ps + [CloseTag] + [Text(content)];
    } else {
      PiecesSnoc(ps, Text(content));
    }
  }

  /** Appending the pieces of one delta keeps the tags alternating and adds exactly its texts. */
  lemma DeltaPieces(ps: seq<Piece>, open: bool, d: Deltas)
    requires Scan(ps) == Some(open)
    ensures var (qs, open') := Pieces(ThinkTag, open, d.content, d.reasoning);
            Scan(ps + qs) == Some(open') && Untagged(ps + qs) == Untagged(ps) + d.reasoning + d.content
  {
    var think := if d.reasoning == "" then [] else (if open then [] else [OpenTag]) + [Text(d.reasoning)];
    var inside := open || d.reasoning != "";
    if d.reasoning != "" {
      ReasoningPieces(ps, open, d.reasoning);
    } else {
      assert ps + think == ps && Untagged(ps) + d.reasoning == Untagged(ps);
    }
    if d.content != "" {
      ContentPieces(ps + think, inside, d.content);
      var say := if inside then [CloseTag, Text(d.content)] else [Text(d.content)];
      assert ps + think + say == ps + (think + say);
    }
  }

  lemma {:induction false} RewriteAllBalanced(ds: seq<Deltas>)
    ensures Scan(RewriteAll(ds).0) == Some(RewriteAll(ds).1)
    ensures Untagged(RewriteAll(ds).0) == Plain(ds)
  {
    if ds != [] {
      RewriteAllBalanced(ds[..|ds| - 1]);
      DeltaPieces(RewriteAll(ds[..|ds| - 1]).0, RewriteAll(ds[..|ds| - 1]).1, ds[|ds| - 1]);
    }
  }

  /**
   For every stream, the rewritten pieces plus the closing chunk open and close blocks alternately, end
   closed, and without the tags are exactly the reasoning and content in order.
   */
  lemma ThinkTagsBalanced(ds: seq<Deltas>)
    ensures Scan(Closed(ds)) == Some(false)
    ensures Untagged(Closed(ds)) == Plain(ds)
  {
    RewriteAllBalanced(ds);
    if RewriteAll(ds).1 {
      PiecesSnoc(RewriteAll(ds).0, CloseTag);
    } else {
      assert Closed(ds) == RewriteAll(ds).0;
    }
  }
}
