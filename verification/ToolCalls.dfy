/**
 The streamed tool-call accumulator of the chat proxy: deltas are merged per slot, at most one complete
 tool leaves per call, and a terminal flush ships what is still held.
 */
module ToolCalls {
  import opened Common

  /**
   What other modules of the proxy decide about names and argument texts: trimming, the outbound
   spelling of a name, the normal form of an argument text, how fragments merge, when arguments are
   complete, which tools have a schema with required keys, and the id given to a call without one.
   */
  datatype Rules = Rules(
    strip: string -> string,
    rename: string -> string,
    coerce: (string, string) -> string,
    merge: (string, string, string) -> string,
    complete: (string, string) -> bool,
    required: string -> bool,
    newId: nat -> string)

  datatype Entry = Entry(id: string, kind: string, name: string, args: string, emitted: bool, outIndex: Option<nat>)

  type Acc = map<int, Entry>

  const BLANK := Entry("", "function", "", "", false, None)

  /**
   The fields are those of the delta's `function` object, or the flat ones when it has none. `index` is
   `None` when it is missing or converts to no integer.
   */
  datatype Delta =
    | NotAnObject
    | Delta(index: Option<int>, id: string, kind: string, name: string, args: Option<string>)

  /** One outbound tool frame; `slot` records which accumulator slot it came from. */
  datatype Item = Item(slot: int, index: nat, id: string, kind: string, name: string, args: string)

  function MergeName(r: Rules, current: string, incoming: string): string {
    var cur, name := r.strip(current), r.strip(incoming);
    var merged :=
      if name == "" then cur
      else if cur == "" then name
      else if name == cur then cur
      else if cur <= name then name
      else if name <= cur then cur
      else name;
    if merged == "" then merged else r.rename(merged)
  }

  function Absorb(r: Rules, e: Entry, d: Delta): Entry
    requires d.Delta?
  {
    var name := if d.name != "" then MergeName(r, e.name, d.name) else e.name;
    Entry(if d.id != "" && e.id == "" then d.id else e.id,
          if d.kind != "" then d.kind else e.kind,
          name,
          if d.args.Some? then r.merge(e.args, r.coerce(d.args.value, name), name) else e.args,
          e.emitted, e.outIndex)
  }

  /** A delta without a usable index belongs to slot 0. */
  function SlotOf(d: Delta): int
    requires d.Delta?
  {
    match d.index case Some(i) => i case None => 0
  }

  function IngestOne(r: Rules, acc: Acc, d: Delta): Acc {
    if d.NotAnObject? then acc else
    acc[SlotOf(d) := Absorb(r, if SlotOf(d) in acc then acc[SlotOf(d)] else BLANK, d)]
  }

  function Ingest(r: Rules, acc: Acc, ds: seq<Delta>): Acc {
    if ds == [] then acc else IngestOne(r, Ingest(r, acc, ds[..|ds| - 1]), ds[|ds| - 1])
  }

  /** The slot has an id, a name or argument text worth ordering. */
  predicate Known(r: Rules, e: Entry) { e.id != "" || r.strip(e.name) != "" || r.strip(e.args) != "" }

  /* ---- building one outbound item ---- */

  function Used(acc: Acc): set<nat> { set k | k in acc && acc[k].outIndex.Some? :: acc[k].outIndex.value }

  function LeastFree(used: set<nat>, i: nat): nat
    decreases |used|
  {
    if i in used then LeastFree(used - {i}, i + 1) else i
  }

  function OutName(r: Rules, e: Entry): string { r.rename(r.strip(e.name)) }

  /** The stored name changes only when the outbound spelling differs. */
  function Respelled(r: Rules, e: Entry): string {
    if OutName(r, e) != "" && OutName(r, e) != r.strip(e.name) then OutName(r, e) else e.name
  }

  function Remaining(r: Rules, e: Entry, remaining: string): string {
    if r.strip(remaining) == "" then remaining
    else r.coerce(remaining, if OutName(r, e) != "" then OutName(r, e) else r.strip(e.name))
  }

  function BuildIndex(acc: Acc, e: Entry): nat {
    if e.outIndex.Some? then e.outIndex.value else LeastFree(Used(acc), 0)
  }

  function BuildId(r: Rules, e: Entry, serial: nat): string {
    if r.strip(e.id) != "" then r.strip(e.id) else r.newId(serial)
  }

  /** The entry once its frame has been built. */
  function Sent(r: Rules, acc: Acc, e: Entry, serial: nat): Entry {
    e.(emitted := true, outIndex := Some(BuildIndex(acc, e)),
       id := if r.strip(e.id) != "" then e.id else r.newId(serial),
       name := Respelled(r, e))
  }

  function ItemOf(r: Rules, acc: Acc, k: int, remaining: string, serial: nat): Item
    requires k in acc
  {
    Item(k, BuildIndex(acc, acc[k]), BuildId(r, acc[k], serial), acc[k].kind, OutName(r, acc[k]), Remaining(r, acc[k], remaining))
  }

  /** The accumulator and every item built from it so far, in order. */
  datatype State = State(acc: Acc, built: seq<Item>)

  function Build(r: Rules, s: State, k: int, remaining: string): State
    requires k in s.acc
  {
    State(s.acc[k := Sent(r, s.acc, s.acc[k], |s.built|)], s.built + [ItemOf(r, s.acc, k, remaining, |s.built|)])
  }

  /* ---- live emission: only the front slot may leave ---- */

  predicate Waiting(r: Rules, acc: Acc, k: int) { k in acc && !acc[k].emitted && Known(r, acc[k]) }

  /** The lowest slot that is known and not yet emitted. */
  predicate IsFront(r: Rules, acc: Acc, k: int) {
    Waiting(r, acc, k) && forall j :: j in acc && j < k ==> !Waiting(r, acc, j)
  }

  predicate Complete(r: Rules, e: Entry) {
    r.strip(e.name) != "" && r.coerce(e.args, r.strip(e.name)) != "" && r.complete(r.coerce(e.args, r.strip(e.name)), r.strip(e.name))
  }

  /** The front slot with its arguments brought to normal form. */
  function Touch(r: Rules, e: Entry): Entry {
    if r.strip(e.name) == "" then e else e.(args := r.coerce(e.args, r.strip(e.name)))
  }

  /** What one live call does when `k` is the front slot. */
  function LiveAt(r: Rules, s: State, k: int): State
    requires k in s.acc
  {
    var t := s.(acc := s.acc[k := Touch(r, s.acc[k])]);
    if Complete(r, s.acc[k]) then Build(r, t, k, t.acc[k].args) else t
  }

  ghost predicate LiveStep(r: Rules, s: State, t: State) {
    if exists k :: IsFront(r, s.acc, k)
    then exists k :: IsFront(r, s.acc, k) && t == LiveAt(r, s, k)
    else t == s
  }

  /* ---- terminal flush ---- */

  /** A held slot as the flush rewrites it while passing over it. */
  function Normal(r: Rules, e: Entry): Entry {
    e.(name := Respelled(r, e), args := r.coerce(e.args, OutName(r, e)))
  }

  function FlushText(r: Rules, e: Entry): string {
    var a := r.coerce(e.args, OutName(r, e));
    if r.strip(a) != "" then a else "{}"
  }

  /** Named, and complete or without required keys. */
  predicate Shippable(r: Rules, e: Entry) {
    OutName(r, e) != "" && (r.complete(FlushText(r, e), OutName(r, e)) || !r.required(OutName(r, e)))
  }

  predicate Flushable(r: Rules, acc: Acc, k: int) { k in acc && !acc[k].emitted && Shippable(r, acc[k]) }

  predicate IsFirstFlushable(r: Rules, acc: Acc, k: int) {
    Flushable(r, acc, k) && forall j :: j in acc && j < k ==> !Flushable(r, acc, j)
  }

  /** Every held slot in `seen` rewritten. */
  function Normalised(r: Rules, acc: Acc, seen: set<int>): Acc {
    map k | k in acc :: if acc[k].emitted || k !in seen then acc[k] else Normal(r, acc[k])
  }

  function UpTo(acc: Acc, k: int): set<int> { set j | j in acc && j <= k }

  function FlushAt(r: Rules, s: State, k: int): State
    requires k in s.acc
  {
    Build(r, s.(acc := Normalised(r, s.acc, UpTo(s.acc, k))), k, FlushText(r, s.acc[k]))
  }

  ghost predicate FlushStep(r: Rules, s: State, t: State) {
    if exists k :: Flushable(r, s.acc, k)
    then exists k :: IsFirstFlushable(r, s.acc, k) && t == FlushAt(r, s, k)
    else t == s.(acc := Normalised(r, s.acc, s.acc.Keys))
  }

  /** Contract of the argument and name rules: rewriting a held slot does not change whether it may ship. */
  ghost predicate Stable(r: Rules) {
    forall e :: Shippable(r, Normal(r, e)) <==> Shippable(r, e)
  }

  /** How many more tools may leave: no limit when `limit` is not positive. */
  function Budget(limit: int, emitted: nat): Option<nat> {
    if limit <= 0 then None else Some(Max(0, limit - emitted))
  }

  /* ---- the bookkeeping invariant ---- */

  /** An item was built for slot `k` if it has an outbound index. */
  ghost predicate Placed(s: State, k: int)
    requires k in s.acc
  {
    s.acc[k].outIndex.Some? ==> s.acc[k].outIndex.value < |s.built| && s.built[s.acc[k].outIndex.value].slot == k
  }

  /** Slots and outbound indices correspond one to one, and the i-th item carries index i. */
  ghost predicate Dense(s: State) {
    && (forall k :: k in s.acc ==> (s.acc[k].emitted <==> s.acc[k].outIndex.Some?))
    && (forall i :: 0 <= i < |s.built| ==> s.built[i].index == i && s.built[i].slot in s.acc && s.acc[s.built[i].slot].outIndex == Some(i))
    && (forall k {:trigger Placed(s, k)} :: k in s.acc ==> Placed(s, k))
  }

  lemma {:induction false} LeastFreeIs(used: set<nat>, i: nat, n: nat)
    requires i <= n && n !in used && forall j: nat :: i <= j < n ==> j in used
    ensures LeastFree(used, i) == n
    decreases n - i
  {
    if i < n {
      LeastFreeIs(used - {i}, i + 1, n);
    }
  }

  /** The next outbound index is the number of items built so far. */
  lemma NextIndexIsCount(s: State)
    requires Dense(s)
    ensures LeastFree(Used(s.acc), 0) == |s.built|
  {
    forall j: nat | j < |s.built| ensures j in Used(s.acc) {
      assert s.acc[s.built[j].slot].outIndex.value == j;
    }
    forall k | k in s.acc && s.acc[k].outIndex.Some? ensures s.acc[k].outIndex.value < |s.built| {
      assert Placed(s, k);
    }
    LeastFreeIs(Used(s.acc), 0, |s.built|);
  }

  lemma DenseIngest(r: Rules, s: State, d: Delta)
    requires Dense(s)
    ensures Dense(s.(acc := IngestOne(r, s.acc, d)))
  {
    var t := s.(acc := IngestOne(r, s.acc, d));
    forall k | k in t.acc ensures Placed(t, k) {
      assert k in s.acc ==> Placed(s, k);
    }
  }

  lemma DenseBuild(r: Rules, s: State, k: int, remaining: string)
    requires Dense(s) && k in s.acc && !s.acc[k].emitted
    ensures Dense(Build(r, s, k, remaining))
  {
    NextIndexIsCount(s);
    var t := Build(r, s, k, remaining);
    forall j | j in t.acc ensures Placed(t, j) {
      assert Placed(s, j);
    }
  }

  lemma DenseTouch(s: State, k: int, e: Entry)
    requires Dense(s) && k in s.acc && e.emitted == s.acc[k].emitted && e.outIndex == s.acc[k].outIndex
    ensures Dense(s.(acc := s.acc[k := e]))
  {
    var t := s.(acc := s.acc[k := e]);
    forall j | j in t.acc ensures Placed(t, j) {
      assert Placed(s, j);
    }
  }

  /** There is at most one front slot, and one exists as soon as any slot waits. */
  lemma {:induction false} FrontExists(r: Rules, acc: Acc, k: int)
    requires Waiting(r, acc, k)
    ensures exists f :: IsFront(r, acc, f)
  {
    var w := set j | j in acc && Waiting(r, acc, j);
    assert k in w;
    LeastExists(w);
    var f :| IsLeast(w, f);
    forall j | j in acc && j < f ensures !Waiting(r, acc, j) {
      assert j !in w;
    }
    assert IsFront(r, acc, f);
  }

  /**
   One live call, from any well-kept state: at most one item leaves; it leaves exactly when the lowest
   waiting slot has a name and complete arguments, it carries the next dense index, it was not emitted
   before, and every known slot below it has been emitted already.
   */
  lemma LiveStepMeaning(r: Rules, s: State, t: State)
    requires Dense(s) && LiveStep(r, s, t)
    ensures Dense(t) && t.acc.Keys == s.acc.Keys
    ensures s.built <= t.built && |t.built| <= |s.built| + 1
    ensures |t.built| > |s.built| <==> exists k :: IsFront(r, s.acc, k) && Complete(r, s.acc[k])
    ensures |t.built| > |s.built| ==>
      var item := t.built[|s.built|];
      && item.index == |s.built| && item.slot in s.acc && !s.acc[item.slot].emitted && t.acc[item.slot].emitted
      && (forall j :: j in s.acc && j < item.slot && Known(r, s.acc[j]) ==> s.acc[j].emitted)
    ensures forall k :: k in s.acc && t.acc[k].emitted != s.acc[k].emitted ==> |t.built| > |s.built| && k == t.built[|s.built|].slot
  {
    if exists k :: IsFront(r, s.acc, k) {
      var k :| IsFront(r, s.acc, k) && t == LiveAt(r, s, k);
      var m := s.(acc := s.acc[k := Touch(r, s.acc[k])]);
      DenseTouch(s, k, Touch(r, s.acc[k]));
      NextIndexIsCount(m);
      if Complete(r, s.acc[k]) {
        DenseBuild(r, m, k, m.acc[k].args);
      }
    }
  }

  lemma DenseNormalised(r: Rules, s: State, seen: set<int>)
    requires Dense(s)
    ensures Dense(s.(acc := Normalised(r, s.acc, seen)))
  {
    var t := s.(acc := Normalised(r, s.acc, seen));
    forall j | j in t.acc ensures Placed(t, j) {
      assert Placed(s, j);
    }
  }

  function Held(acc: Acc): set<int> { set k | k in acc && !acc[k].emitted }

  /** The slots a flush may still ship. */
  function FlushSet(r: Rules, acc: Acc): set<int> { set k | k in acc && Flushable(r, acc, k) }

  lemma NormalisedFacts(r: Rules, acc: Acc, seen: set<int>)
    ensures Normalised(r, acc, seen).Keys == acc.Keys && Held(Normalised(r, acc, seen)) == Held(acc)
    ensures Stable(r) ==> FlushSet(r, Normalised(r, acc, seen)) == FlushSet(r, acc)
  {
    var m := Normalised(r, acc, seen);
    assert m.Keys == acc.Keys;
    forall k | k in acc ensures k in Held(m) <==> k in Held(acc) {
      assert m[k].emitted == acc[k].emitted;
    }
    assert forall k :: k in Held(m) ==> k in m;
  }

  lemma BuildFacts(r: Rules, s: State, k: int, remaining: string)
    requires k in s.acc
    ensures var t := Build(r, s, k, remaining);
            && t.acc.Keys == s.acc.Keys && Held(t.acc) == Held(s.acc) - {k}
            && FlushSet(r, t.acc) == FlushSet(r, s.acc) - {k}
  {
  }

  /**
   One flush pass ships the lowest slot that may ship, if there is one, under the next dense index; under
   the stability contract exactly that slot stops being flushable.
   */
  lemma FlushStepMeaning(r: Rules, s: State, t: State)
    requires Dense(s) && FlushStep(r, s, t)
    ensures Dense(t)
    ensures if FlushSet(r, s.acc) != {}
            then && |t.built| == |s.built| + 1 && s.built <= t.built
                 && IsLeast(FlushSet(r, s.acc), t.built[|s.built|].slot)
                 && Held(t.acc) == Held(s.acc) - {t.built[|s.built|].slot} && t.built[|s.built|].slot in Held(s.acc)
                 && (Stable(r) ==> FlushSet(r, t.acc) == FlushSet(r, s.acc) - {t.built[|s.built|].slot})
            else t.built == s.built && (Stable(r) ==> FlushSet(r, t.acc) == {})
  {
    if exists k :: Flushable(r, s.acc, k) {
      var k :| IsFirstFlushable(r, s.acc, k) && t == FlushAt(r, s, k);
      var m := s.(acc := Normalised(r, s.acc, UpTo(s.acc, k)));
      assert k in FlushSet(r, s.acc);
      DenseNormalised(r, s, UpTo(s.acc, k));
      NormalisedFacts(r, s.acc, UpTo(s.acc, k));
      BuildFacts(r, m, k, FlushText(r, s.acc[k]));
      DenseBuild(r, m, k, FlushText(r, s.acc[k]));
    } else {
      if !(FlushSet(r, s.acc) == {}) {
        if !exists x :: x in FlushSet(r, s.acc) {
          assert false;
        }
        assert false;
      }
      DenseNormalised(r, s, s.acc.Keys);
      NormalisedFacts(r, s.acc, s.acc.Keys);
    }
  }

  /** A flush pass forgets no slot. */
  lemma FlushKeys(r: Rules, s: State, t: State)
    requires FlushStep(r, s, t)
    ensures t.acc.Keys == s.acc.Keys
  {
    if exists k :: Flushable(r, s.acc, k) {
      var k :| IsFirstFlushable(r, s.acc, k) && t == FlushAt(r, s, k);
      NormalisedFacts(r, s.acc, UpTo(s.acc, k));
    } else {
      NormalisedFacts(r, s.acc, s.acc.Keys);
    }
  }

  function Slots(items: seq<Item>): set<int> { set i | i in items :: i.slot }

  ghost predicate Ascending(items: seq<Item>) {
    forall i, j :: 0 <= i < j < |items| ==> items[i].slot < items[j].slot
  }

  /** The slots of `frames`, in order, and after them those in `left` make up `all`. */
  ghost predicate Ordered(all: set<int>, frames: seq<Item>, left: set<int>) {
    && Ascending(frames) && all == Slots(frames) + left
    && (forall i, k :: 0 <= i < |frames| && k in left ==> frames[i].slot < k)
  }

  /** The frames of a flush so far, and with a stable completeness check the slots that may still ship. */
  ghost predicate FlushInv(r: Rules, s: State, t: State, frames: seq<Item>, limit: int, already: nat) {
    && Dense(t) && t.built == s.built + frames
    && (limit > 0 ==> already + |frames| <= Max(limit, already))
    && (Stable(r) ==> Ordered(FlushSet(r, s.acc), frames, FlushSet(r, t.acc)))
  }

  /** One more frame: its slot is the least of what is left. */
  lemma OrderedSnoc(all: set<int>, frames: seq<Item>, item: Item, left: set<int>)
    requires Ordered(all, frames, left) && IsLeast(left, item.slot)
    ensures Ordered(all, frames + [item], left - {item.slot})
  {
    SlotsSnoc(frames, item);
  }

  lemma OneMoreBuilt(s: seq<Item>, frames: seq<Item>, b: seq<Item>, t: seq<Item>)
    requires b == s + frames && b <= t && |t| == |b| + 1
    ensures t == s + (frames + [t[|b|]])
  {
    assert t == b + [t[|b|]];
  }

  lemma FlushInvGrows(r: Rules, s: State, b: State, t: State, frames: seq<Item>, limit: int, already: nat)
    requires FlushInv(r, s, b, frames, limit, already) && FlushStep(r, b, t)
    requires Budget(limit, already + |frames|) != Some(0)
    requires |t.built| > |b.built|
    ensures FlushInv(r, s, t, frames + [t.built[|b.built|]], limit, already)
    ensures |Held(t.acc)| < |Held(b.acc)|
  {
    FlushStepMeaning(r, b, t);
    OneMoreBuilt(s.built, frames, b.built, t.built);
    if Stable(r) {
      OrderedSnoc(FlushSet(r, s.acc), frames, t.built[|b.built|], FlushSet(r, b.acc));
    }
  }

  lemma FlushInvEnds(r: Rules, s: State, b: State, t: State, frames: seq<Item>, limit: int, already: nat)
    requires FlushInv(r, s, b, frames, limit, already) && FlushStep(r, b, t)
    requires t.built == b.built
    ensures FlushInv(r, s, t, frames, limit, already)
    ensures Stable(r) ==> FlushSet(r, t.acc) == {}
  {
    FlushStepMeaning(r, b, t);
  }

  lemma SlotsSnoc(items: seq<Item>, i: Item)
    ensures Slots(items + [i]) == Slots(items) + {i.slot}
  {
    assert i in items + [i];
    forall x | x in Slots(items) ensures x in Slots(items + [i]) {
      var y :| y in items && y.slot == x;
      assert y in items + [i];
    }
  }

  /** A run of live calls, one batch of deltas each. */
  ghost predicate LiveRun(r: Rules, states: seq<State>, batches: seq<seq<Delta>>) {
    && |states| == |batches| + 1
    && states[0] == State(map[], [])
    && forall i :: 0 <= i < |batches| ==> LiveStep(r, Fed(r, states[i], batches[i]), states[i + 1])
  }

  /** At most one new item, and every known slot below it has been emitted. */
  ghost predicate InOrder(r: Rules, s: State, t: State) {
    && s.built <= t.built && |t.built| <= |s.built| + 1
    && (|t.built| > |s.built| ==>
          forall j :: j in s.acc && j < t.built[|s.built|].slot && Known(r, s.acc[j]) ==> s.acc[j].emitted)
  }

  function Fed(r: Rules, s: State, ds: seq<Delta>): State { State(Ingest(r, s.acc, ds), s.built) }

  lemma {:induction false} DenseFed(r: Rules, s: State, ds: seq<Delta>)
    requires Dense(s)
    ensures Dense(Fed(r, s, ds))
  {
    if ds != [] {
      DenseFed(r, s, ds[..|ds| - 1]);
      DenseIngest(r, Fed(r, s, ds[..|ds| - 1]), ds[|ds| - 1]);
    }
  }

  /** The slots a batch of deltas speaks of. */
  function SlotsOf(ds: seq<Delta>): set<int> { set d | d in ds && d.Delta? :: SlotOf(d) }

  lemma {:induction false} FedKeys(r: Rules, s: State, ds: seq<Delta>)
    ensures Fed(r, s, ds).acc.Keys == s.acc.Keys + SlotsOf(ds)
  {
    if ds != [] {
      var init, d := ds[..|ds| - 1], ds[|ds| - 1];
      FedKeys(r, s, init);
      assert ds == init + [d];
      assert SlotsOf(ds) == SlotsOf(init) + (if d.Delta? then {SlotOf(d)} else {});
    }
  }

  /**
   Over every delta sequence: the i-th emitted tool carries outbound index i, no slot is emitted twice,
   each call adds at most one tool, and no tool overtakes a lower slot known at that moment.
   */
  lemma {:induction false} LiveRunsAreOrdered(r: Rules, states: seq<State>, batches: seq<seq<Delta>>)
    requires LiveRun(r, states, batches)
    ensures var built := states[|batches|].built;
            && Dense(states[|batches|])
            && |built| <= |batches|
            && (forall i :: 0 <= i < |built| ==> built[i].index == i)
            && (forall i, j :: 0 <= i < j < |built| ==> built[i].slot != built[j].slot)
    ensures forall i :: 0 <= i < |batches| ==> InOrder(r, Fed(r, states[i], batches[i]), states[i + 1])
    decreases |batches|
  {
    var n := |batches|;
    if n > 0 {
      LiveRunsAreOrdered(r, states[..n], batches[..n - 1]);
      DenseFed(r, states[n - 1], batches[n - 1]);
      LiveStepMeaning(r, Fed(r, states[n - 1], batches[n - 1]), states[n]);
    }
  }

  /* ---- the accumulator object ---- */

  class ToolAccumulator {
    const rules: Rules
    var acc: Acc
    var built: seq<Item>

    function St(): State reads this { State(acc, built) }

    constructor (rules: Rules)
      ensures this.rules == rules && St() == State(map[], [])
    {
      this.rules := rules;
      acc, built := map[], [];
    }

    /** Merges deltas into the slots; nothing is emitted. */
    method IngestDeltas(deltas: seq<Delta>)
      modifies this`acc
      ensures acc == Ingest(rules, old(acc), deltas)
    {
      for i := 0 to |deltas|
        invariant acc == Ingest(rules, old(acc), deltas[..i])
      {
        assert deltas[..i + 1][..i] == deltas[..i];
        IngestDelta(deltas[i]);
      }
      assert deltas[..|deltas|] == deltas;
    }

    method IngestDelta(raw: Delta)
      modifies this`acc
      ensures acc == IngestOne(rules, old(acc), raw)
    {
      if raw.NotAnObject? {
        return;
      }
      var idx := if raw.index.Some? then raw.index.value else 0;
      var entry := MergeDelta(if idx in acc then acc[idx] else BLANK, raw);
      acc := acc[idx := entry];
    }

    /** The fields of one delta, in the order in which they are merged. */
    method MergeDelta(before: Entry, raw: Delta) returns (entry: Entry)
      requires raw.Delta?
      ensures entry == Absorb(rules, before, raw)
    {
      entry := before;
      if raw.id != "" && entry.id == "" {
        entry := entry.(id := raw.id);
      }
      if raw.kind != "" {
        entry := entry.(kind := raw.kind);
      }
      if raw.name != "" {
        entry := entry.(name := MergeName(rules, entry.name, raw.name));
      }
      if raw.args.Some? {
        entry := entry.(args := rules.merge(entry.args, rules.coerce(raw.args.value, entry.name), entry.name));
      }
    }

    /** The least outbound index no slot has taken. */
    method FreeIndex() returns (i: nat)
      ensures i == LeastFree(Used(acc), 0)
    {
      var used := Used(acc);
      i := 0;
      while i in used
        invariant forall j: nat :: j < i ==> j in used
        decreases |set x | x in used && x >= i|
      {
        assert (set x | x in used && x >= i) == (set x | x in used && x >= i + 1) + {i};
        i := i + 1;
      }
      LeastFreeIs(used, 0, i);
    }

    method BuildItem(k: int, remaining: string) returns (item: Item)
      requires k in acc
      modifies this
      ensures St() == Build(rules, old(St()), k, remaining)
      ensures item == ItemOf(rules, old(acc), k, remaining, |old(built)|)
    {
      var entry := acc[k];
      var outIndex;
      if entry.outIndex.Some? {
        outIndex := entry.outIndex.value;
      } else {
        outIndex := FreeIndex();
      }
      var rawName := rules.strip(entry.name);
      var name := rules.rename(rawName);
      if name != "" && name != rawName {
        entry := entry.(name := name);
      }
      var text := remaining;
      if rules.strip(remaining) != "" {
        text := rules.coerce(remaining, if name != "" then name else rawName);
      }
      var toolId := rules.strip(entry.id);
      if toolId == "" {
        toolId := rules.newId(|built|);
        entry := entry.(id := toolId);
      }
      item := Item(k, outIndex, toolId, entry.kind, name, text);
      acc := acc[k := entry.(emitted := true, outIndex := Some(outIndex))];
      built := built + [item];
    }

    /** Merges the deltas and emits the front slot when it is complete. */
    method ArgumentDelta(deltas: seq<Delta>) returns (out: seq<Item>)
      modifies this
      ensures LiveStep(rules, State(Ingest(rules, old(acc), deltas), old(built)), St())
      ensures built == old(built) + out && |out| <= 1
    {
      IngestDeltas(deltas);
      ghost var start := St();
      var todo := acc.Keys;
      while todo != {}
        invariant St() == start && todo <= acc.Keys
        invariant forall x, y :: x in acc && x !in todo && y in todo ==> x < y
        invariant forall x :: x in acc && x !in todo ==> !Waiting(rules, acc, x)
        decreases todo
      {
        LeastExists(todo);
        var idx :| IsLeast(todo, idx);
        todo := todo - {idx};
        var entry := acc[idx];
        if entry.emitted {
          continue;
        }
        var blocked := false;
        var lower := 0;
        while lower < idx
          invariant !blocked
        {
          if lower in acc && !acc[lower].emitted && Known(rules, acc[lower]) {
            assert Waiting(rules, acc, lower);
            blocked := true;
          }
          lower := lower + 1;
        }
        assert !blocked;  // the slots passed over so far are emitted or unknown
        var name := rules.strip(entry.name);
        if name == "" {
          if entry.id != "" || rules.strip(entry.args) != "" {
            assert IsFront(rules, acc, idx);
            return [];
          }
          continue;
        }
        assert IsFront(rules, acc, idx);
        var args := rules.coerce(entry.args, name);
        acc := acc[idx := entry.(args := args)];
        if args == "" || !rules.complete(args, name) {
          return [];
        }
        var item := BuildItem(idx, args);
        return [item];
      }
      out := [];
    }

    /** Rewrites one held slot to its outbound name and normal argument text. */
    method RewriteSlot(idx: int) returns (name: string, args: string)
      requires idx in acc
      modifies this`acc
      ensures acc == old(acc)[idx := Normal(rules, old(acc)[idx])]
      ensures name == OutName(rules, old(acc)[idx]) && args == acc[idx].args
    {
      var entry := acc[idx];
      var rawName := rules.strip(entry.name);
      name := rules.rename(rawName);
      if name != "" && name != rawName {
        entry := entry.(name := name);
      }
      args := rules.coerce(entry.args, name);
      acc := acc[idx := entry.(args := args)];
    }

    /** Ships at most one held tool, rewriting the held slots it passes over. */
    method FlushOne() returns (out: seq<Item>)
      modifies this
      ensures FlushStep(rules, old(St()), St())
      ensures built == old(built) + out && |out| <= 1
    {
      ghost var start := St();
      ghost var seen: set<int> := {};
      var todo := acc.Keys;
      assert acc == Normalised(rules, start.acc, {});
      while todo != {}
        invariant todo + seen == start.acc.Keys && todo !! seen && built == start.built
        invariant forall x, y :: x in seen && y in todo ==> x < y
        invariant forall x :: x in seen ==> !Flushable(rules, start.acc, x)
        invariant acc == Normalised(rules, start.acc, seen)
        decreases todo
      {
        LeastExists(todo);
        var idx :| IsLeast(todo, idx);
        NormalisedMore(rules, start.acc, seen, idx);
        if !acc[idx].emitted {
          var name, args := RewriteSlot(idx);
          if name != "" {
            var remaining := if rules.strip(args) != "" then args else "{}";
            if rules.complete(remaining, name) || !rules.required(name) {
              assert IsFirstFlushable(rules, start.acc, idx);
              assert seen + {idx} == UpTo(start.acc, idx);
              var item := BuildItem(idx, remaining);
              return [item];
            }
          }
        }
        todo := todo - {idx};
        seen := seen + {idx};
      }
      assert seen == start.acc.Keys;
      out := [];
    }

    /** One round of the terminal loop. */
    method FlushRound(ghost start: State, ghost frames: seq<Item>, ghost limit: int, ghost already: nat) returns (one: seq<Item>)
      requires FlushInv(rules, start, St(), frames, limit, already) && Budget(limit, already + |frames|) != Some(0)
      modifies this
      ensures FlushInv(rules, start, St(), frames + one, limit, already) && acc.Keys == old(acc.Keys)
      ensures one == [] ==> Stable(rules) ==> FlushSet(rules, acc) == {}
      ensures one != [] ==> |Held(acc)| < |Held(old(acc))|
    {
      ghost var before := St();
      one := FlushOne();
      FlushKeys(rules, before, St());
      if one == [] {
        FlushInvEnds(rules, start, before, St(), frames, limit, already);
        assert frames + one == frames;
      } else {
        FlushInvGrows(rules, start, before, St(), frames, limit, already);
        assert one == [built[|before.built|]];
      }
    }

    /** The terminal loop: one tool at a time until nothing ships or the budget is used up. */
    method FlushAll(limit: int, already: nat) returns (frames: seq<Item>)
      requires Dense(St())
      modifies this
      ensures FlushInv(rules, old(St()), St(), frames, limit, already) && acc.Keys == old(acc.Keys)
      ensures Stable(rules) && (limit <= 0 || already + |frames| < limit) ==> FlushSet(rules, acc) == {}
    {
      ghost var start := St();
      FlushStart(rules, start, limit, already);
      frames := [];
      while true
        invariant FlushInv(rules, start, St(), frames, limit, already) && acc.Keys == start.acc.Keys
        decreases |Held(acc)|
      {
        var budget := Budget(limit, already + |frames|);
        if budget.Some? && budget.value <= 0 {
          break;
        }
        var one := FlushRound(start, frames, limit, already);
        frames := frames + one;
        if one == [] {
          break;
        }
      }
    }
  }

  lemma FlushStart(r: Rules, s: State, limit: int, already: nat)
    requires Dense(s)
    ensures FlushInv(r, s, s, [], limit, already)
  {
  }

  lemma NormalisedMore(r: Rules, acc: Acc, seen: set<int>, k: int)
    requires k in acc && k !in seen
    ensures var m := Normalised(r, acc, seen);
            && m[k] == acc[k]
            && Normalised(r, acc, seen + {k}) == if acc[k].emitted then m else m[k := Normal(r, acc[k])]
  {
  }
}
