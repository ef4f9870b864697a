/**
 Account counters: one writer batch is first folded into one delta per account, and the deltas are
 then upserted into `account_pool`. The fold is shown to be insensitive to order and to batch splits.
 */
module AccountStats {
  import opened Common
  import opened WriterEvents

  datatype Tokens = Tokens(prompt: int, completion: int, total: int)

  datatype Row = Row(
    requests: int, success: int, fail: int, lastUsedAt: Option<real>,
    stateVersion: int, consecutiveFails: Option<int>, tokens: Tokens)

  type Pool = map<string, Row>

  datatype Delta = Delta(requests: int, success: int, fail: int, reset: bool, stateVersion: int, lastUsedAt: real)

  type Deltas = map<string, Delta>

  const ZERO_TOKENS := Tokens(0, 0, 0)
  const ZERO_DELTA := Delta(0, 0, 0, false, 0, 0.0)

  function Get<T>(m: map<string, T>, a: string): Option<T> { if a in m then Some(m[a]) else None }

  function GetOr<T>(m: map<string, T>, a: string, d: T): T { if a in m then m[a] else d }

  /** The sequence number a stats event carries for the account state: only successes have one. */
  function SuccessSeq(f: StatsFields): int { if f.success != 0 then f.stateSeq else 0 }

  function UsedAt(f: StatsFields): real { if f.lastUsedAt != 0.0 then f.lastUsedAt else f.occurredAt }

  function Absorb(d: Delta, f: StatsFields): Delta {
    var newer := SuccessSeq(f) > d.stateVersion;
    Delta(d.requests + f.requests, d.success + f.success, d.fail + f.fail,
          if newer then f.reset else d.reset,
          if newer then SuccessSeq(f) else d.stateVersion,
          MaxReal(d.lastUsedAt, UsedAt(f)))
  }

  /** One turn of the grouping loop; an event without an account id is skipped. */
  function Group(g: Deltas, e: Event): Deltas {
    if e.body.Stats? && e.body.stats.accountId != "" then
      var a := e.body.stats.accountId;
      g[a := Absorb(GetOr(g, a, ZERO_DELTA), e.body.stats)]
    else g
  }

  function Grouped(es: seq<Event>): Deltas { FoldL(Group, map[], es) }

  function Greatest(prev: Option<real>, t: real): Option<real> {
    Some(if prev.Some? then MaxReal(prev.value, t) else t)
  }

  /** `INSERT ... ON CONFLICT (account_id) DO UPDATE` for one delta row. */
  function Upsert(prev: Option<Row>, d: Delta): Row {
    match prev
    case None => Row(d.requests, d.success, d.fail, Some(d.lastUsedAt), d.stateVersion,
                     if d.reset then Some(0) else None, ZERO_TOKENS)
    case Some(r) =>
      Row(r.requests + d.requests, r.success + d.success, r.fail + d.fail, Greatest(r.lastUsedAt, d.lastUsedAt),
          Max(r.stateVersion, d.stateVersion),
          if d.stateVersion > r.stateVersion && d.reset then Some(0) else r.consecutiveFails, r.tokens)
  }

  function Upserted(pool: Pool, g: Deltas): Pool {
    map a | a in pool.Keys + g.Keys :: if a in g then Upsert(Get(pool, a), g[a]) else pool[a]
  }

  function ApplyStats(pool: Pool, es: seq<Event>): Pool { Upserted(pool, Grouped(es)) }

  /* ---- the order-insensitive part of a row ---- */

  datatype CoreRow = CoreRow(requests: int, success: int, fail: int, lastUsedAt: Option<real>, stateVersion: int)

  type CorePool = map<string, CoreRow>

  function CoreOfRow(r: Row): CoreRow { CoreRow(r.requests, r.success, r.fail, r.lastUsedAt, r.stateVersion) }

  function CoreOf(pool: Pool): CorePool { map a | a in pool :: CoreOfRow(pool[a]) }

  const ZERO_CORE := CoreRow(0, 0, 0, None, 0)

  function CoreCount(r: CoreRow, f: StatsFields): CoreRow {
    CoreRow(r.requests + f.requests, r.success + f.success, r.fail + f.fail,
            Greatest(r.lastUsedAt, MaxReal(0.0, UsedAt(f))),
            Max(r.stateVersion, Max(0, SuccessSeq(f))))
  }

  /** The plain meaning of one stats event: add the counters, keep the later time and version. */
  function CoreStats(pool: CorePool, f: StatsFields): CorePool {
    if f.accountId == "" then pool
    else pool[f.accountId := CoreCount(GetOr(pool, f.accountId, ZERO_CORE), f)]
  }

  predicate Sane(d: Delta) { d.stateVersion >= 0 && d.lastUsedAt >= 0.0 }

  lemma {:induction false} GroupedSane(es: seq<Event>)
    ensures forall a :: a in Grouped(es) ==> Sane(Grouped(es)[a])
  {
    if es != [] {
      GroupedSane(es[..|es| - 1]);
      assert Grouped(es) == Group(Grouped(es[..|es| - 1]), es[|es| - 1]);
    }
  }

  lemma UpsertAbsorb(prev: Option<Row>, d: Delta, f: StatsFields)
    requires Sane(d)
    ensures CoreOfRow(Upsert(prev, Absorb(d, f))) == CoreCount(CoreOfRow(Upsert(prev, d)), f)
    ensures d == ZERO_DELTA ==>
      CoreOfRow(Upsert(prev, Absorb(d, f))) == CoreCount(if prev.Some? then CoreOfRow(prev.value) else ZERO_CORE, f)
  {
  }

  lemma CoreGroupAt(pool: Pool, g: Deltas, e: Event, a: string)
    requires e.body.Stats?
    requires forall k :: k in g ==> Sane(g[k])
    ensures var l, r := CoreOf(Upserted(pool, Group(g, e))), CoreStats(CoreOf(Upserted(pool, g)), e.body.stats);
            (a in l <==> a in r) && (a in l ==> l[a] == r[a])
  {
    if e.body.stats.accountId == a && a != "" {
      UpsertAbsorb(Get(pool, a), GetOr(g, a, ZERO_DELTA), e.body.stats);
    }
  }

  lemma CoreGroup(pool: Pool, g: Deltas, e: Event)
    requires e.body.Stats?
    requires forall a :: a in g ==> Sane(g[a])
    ensures CoreOf(Upserted(pool, Group(g, e))) == CoreStats(CoreOf(Upserted(pool, g)), e.body.stats)
  {
    var l, r := CoreOf(Upserted(pool, Group(g, e))), CoreStats(CoreOf(Upserted(pool, g)), e.body.stats);
    forall a ensures (a in l <==> a in r) && (a in l ==> l[a] == r[a]) {
      CoreGroupAt(pool, g, e, a);
    }
  }

  /* ---- queued state patches ---- */

  function Patched(fails: Option<int>, p: FailsPatch): Option<int> {
    match p
    case Untouched => fails
    case Removed => None
    case SetTo(n) => Some(n)
  }

  /** A state patch applies only when its sequence number is newer than the stored version. */
  function ApplyState(pool: Pool, e: Event): Pool {
    if !e.body.State? || e.body.state.accountId == "" then pool else
    var f := e.body.state;
    var r := GetOr(pool, f.accountId, Row(0, 0, 0, None, 0, None, ZERO_TOKENS));
    if Max(0, f.stateSeq) <= r.stateVersion then pool
    else pool[f.accountId := r.(stateVersion := Max(0, f.stateSeq), consecutiveFails := Patched(r.consecutiveFails, f.patch))]
  }

  function CoreState(pool: CorePool, f: StateFields): CorePool {
    if f.accountId == "" then pool else
    var r := GetOr(pool, f.accountId, ZERO_CORE);
    if Max(0, f.stateSeq) <= r.stateVersion then pool
    else pool[f.accountId := r.(stateVersion := Max(0, f.stateSeq))]
  }

  lemma CoreOfState(pool: Pool, e: Event)
    requires e.body.State?
    ensures CoreOf(ApplyState(pool, e)) == CoreState(CoreOf(pool), e.body.state)
  {
  }

  /* ---- what one batch can do to the failure counter ---- */

  predicate Touches(e: Event, a: string) {
    e.body.Stats? && e.body.stats.accountId == a && a != ""
  }

  function SeqOf(e: Event): int { if e.body.Stats? then SuccessSeq(e.body.stats) else 0 }

  predicate Resets(e: Event) { e.body.Stats? && e.body.stats.reset }

  /** The grouped delta carries the greatest success sequence of the batch, and the flag that came with it. */
  lemma {:induction false} GroupedMeaning(es: seq<Event>, a: string)
    ensures a in Grouped(es) <==> exists e :: e in es && Touches(e, a)
    ensures a in Grouped(es) ==> Sane(Grouped(es)[a])
    ensures a in Grouped(es) ==> forall e :: e in es && Touches(e, a) ==> SeqOf(e) <= Grouped(es)[a].stateVersion
    ensures a in Grouped(es) ==>
      var d := Grouped(es)[a];
      if d.stateVersion == 0 then !d.reset
      else exists e :: e in es && Touches(e, a) && SeqOf(e) == d.stateVersion && Resets(e) == d.reset
  {
    if es != [] {
      var init, last := es[..|es| - 1], es[|es| - 1];
      assert es == init + [last];
      GroupedMeaning(init, a);
      assert Grouped(es) == Group(Grouped(init), last);
      assert forall e :: e in es <==> e in init || e == last;
      assert last in es;
    }
  }

  function Version(pool: Pool, a: string): int { if a in pool then pool[a].stateVersion else 0 }

  function Fails(pool: Pool, a: string): Option<int> { if a in pool then pool[a].consecutiveFails else None }

  /**
   For every batch: no version ever decreases, and the failure counter of an existing row changes only
   to zero and only because of a resetting success strictly newer than the stored version.
   */
  lemma ClearedOnlyByNewerSuccess(pool: Pool, es: seq<Event>, a: string)
    requires a in pool
    ensures a in ApplyStats(pool, es)
    ensures Version(ApplyStats(pool, es), a) >= Version(pool, a)
    ensures Fails(ApplyStats(pool, es), a) != Fails(pool, a) ==>
      && Fails(ApplyStats(pool, es), a) == Some(0)
      && exists e :: e in es && Touches(e, a) && Resets(e) && SeqOf(e) > Version(pool, a)
  {
    GroupedMeaning(es, a);
  }

  /* ---- batch splits and orders ---- */

  function Flatten(batches: seq<seq<Event>>): seq<Event> {
    if batches == [] then [] else Flatten(batches[..|batches| - 1]) + batches[|batches| - 1]
  }

  function ApplyBatches(pool: Pool, batches: seq<seq<Event>>): Pool { FoldL(ApplyStats, pool, batches) }

  lemma ApplyBatchesStep(pool: Pool, batches: seq<seq<Event>>)
    requires batches != []
    ensures ApplyBatches(pool, batches) == ApplyStats(ApplyBatches(pool, batches[..|batches| - 1]), batches[|batches| - 1])
  {
  }

  /** No positive-sequence success of the account resets, or all those with the greatest sequence do. */
  ghost predicate Decided(es: seq<Event>, a: string) {
    || (forall e :: e in es && Touches(e, a) && SeqOf(e) > 0 ==> !Resets(e))
    || (forall e :: e in es && Touches(e, a) && SeqOf(e) > 0 && Newest(es, a, SeqOf(e)) ==> Resets(e))
  }

  ghost predicate Newest(es: seq<Event>, a: string, m: int) {
    forall e :: e in es && Touches(e, a) ==> SeqOf(e) <= m
  }

  lemma {:induction false} NeverCleared(pool: Pool, batches: seq<seq<Event>>, a: string)
    requires forall e :: e in Flatten(batches) && Touches(e, a) && SeqOf(e) > 0 ==> !Resets(e)
    ensures Fails(ApplyBatches(pool, batches), a) == Fails(pool, a)
  {
    if batches != [] {
      var init, last := batches[..|batches| - 1], batches[|batches| - 1];
      assert forall e :: e in Flatten(batches) <==> e in Flatten(init) || e in last;
      NeverCleared(pool, init, a);
      ApplyBatchesStep(pool, batches);
      GroupedMeaning(last, a);
    }
  }

  /** Once every success at sequence `m` resets and nothing is newer, the counter is cleared exactly when `m` is news. */
  lemma {:induction false} ClearedByNewest(pool: Pool, batches: seq<seq<Event>>, a: string, m: int)
    requires m > 0
    requires Newest(Flatten(batches), a, m)
    requires forall e :: e in Flatten(batches) && Touches(e, a) && SeqOf(e) == m ==> Resets(e)
    ensures var r := ApplyBatches(pool, batches);
      if Version(pool, a) >= m then Fails(r, a) == Fails(pool, a) && Version(r, a) == Version(pool, a)
      else if exists e :: e in Flatten(batches) && Touches(e, a) && SeqOf(e) == m
      then Fails(r, a) == Some(0) && Version(r, a) == m
      else Version(r, a) < m
  {
    if batches != [] {
      var init, last := batches[..|batches| - 1], batches[|batches| - 1];
      assert forall e :: e in Flatten(batches) <==> e in Flatten(init) || e in last;
      ClearedByNewest(pool, init, a, m);
      ApplyBatchesStep(pool, batches);
      GroupedMeaning(last, a);
    }
  }

  lemma {:induction false} TokensKept(pool: Pool, batches: seq<seq<Event>>, a: string)
    ensures var r := ApplyBatches(pool, batches);
            a in pool ==> a in r && r[a].tokens == pool[a].tokens
    ensures var r := ApplyBatches(pool, batches);
            a !in pool && a in r ==> r[a].tokens == ZERO_TOKENS
  {
    if batches != [] {
      TokensKept(pool, batches[..|batches| - 1], a);
      ApplyBatchesStep(pool, batches);
    }
  }

  /* ---- the core of a row is a plain, commuting fold ---- */

  function CoreStep(pool: CorePool, e: Event): CorePool {
    match e.body
    case Stats(f) => CoreStats(pool, f)
    case State(f) => CoreState(pool, f)
    case _ => pool
  }

  lemma CoreStatsCommute(p: CorePool, f: StatsFields, g: StatsFields)
    ensures CoreStats(CoreStats(p, f), g) == CoreStats(CoreStats(p, g), f)
  {
    if f.accountId == g.accountId {
      CoreCountCommutes(GetOr(p, f.accountId, ZERO_CORE), f, g);
    }
  }

  lemma CoreStatesCommute(p: CorePool, f: StateFields, g: StateFields)
    ensures CoreState(CoreState(p, f), g) == CoreState(CoreState(p, g), f)
  {
  }

  lemma CoreMixedCommute(p: CorePool, f: StatsFields, g: StateFields)
    ensures CoreState(CoreStats(p, f), g) == CoreStats(CoreState(p, g), f)
  {
  }

  lemma CoreStepCommutes()
    ensures Commutes(CoreStep)
  {
    forall s, x, y ensures CoreStep(CoreStep(s, x), y) == CoreStep(CoreStep(s, y), x) {
      match (x.body, y.body)
      case (Stats(f), Stats(g)) => CoreStatsCommute(s, f, g);
      case (State(f), State(g)) => CoreStatesCommute(s, f, g);
      case (Stats(f), State(g)) => CoreMixedCommute(s, f, g);
      case (State(f), Stats(g)) => CoreMixedCommute(s, g, f);
      case _ =>
    }
  }

  lemma CoreCountCommutes(r: CoreRow, f: StatsFields, g: StatsFields)
    ensures CoreCount(CoreCount(r, f), g) == CoreCount(CoreCount(r, g), f)
  {
  }

  lemma {:induction false} CoreOfStats(pool: Pool, es: seq<Event>)
    requires All(es, StatsKind)
    ensures CoreOf(ApplyStats(pool, es)) == FoldL(CoreStep, CoreOf(pool), es)
  {
    if es == [] {
      assert ApplyStats(pool, es) == pool;
    } else {
      var init, last := es[..|es| - 1], es[|es| - 1];
      CoreOfStats(pool, init);
      GroupedSane(init);
      assert last in es;
      CoreGroup(pool, Grouped(init), last);
      assert Grouped(es) == Group(Grouped(init), last);
    }
  }

  lemma {:induction false} CoreOfStates(pool: Pool, es: seq<Event>)
    requires All(es, StateKind)
    ensures CoreOf(FoldL(ApplyState, pool, es)) == FoldL(CoreStep, CoreOf(pool), es)
  {
    if es != [] {
      var init, last := es[..|es| - 1], es[|es| - 1];
      CoreOfStates(pool, init);
      assert last in es;
      CoreOfState(FoldL(ApplyState, pool, init), last);
    }
  }

  lemma {:induction false} CoreOfBatches(pool: Pool, batches: seq<seq<Event>>)
    requires All(Flatten(batches), StatsKind)
    ensures CoreOf(ApplyBatches(pool, batches)) == FoldL(CoreStep, CoreOf(pool), Flatten(batches))
  {
    if batches != [] {
      var init, last := batches[..|batches| - 1], batches[|batches| - 1];
      assert forall e :: e in Flatten(batches) <==> e in Flatten(init) || e in last;
      CoreOfBatches(pool, init);
      CoreOfStats(ApplyBatches(pool, init), last);
      FoldConcat(CoreStep, CoreOf(pool), Flatten(init), last);
      ApplyBatchesStep(pool, batches);
    }
  }

  /** Counters, last use and version: any split of any order of the events gives the same pool. */
  lemma RegroupingKeepsCore(pool: Pool, b1: seq<seq<Event>>, b2: seq<seq<Event>>)
    requires All(Flatten(b1), StatsKind)
    requires multiset(Flatten(b1)) == multiset(Flatten(b2))
    ensures CoreOf(ApplyBatches(pool, b1)) == CoreOf(ApplyBatches(pool, b2))
  {
    SameMembers(Flatten(b1), Flatten(b2));
    CoreOfBatches(pool, b1);
    CoreOfBatches(pool, b2);
    CoreStepCommutes();
    FoldPermutation(CoreStep, CoreOf(pool), Flatten(b1), Flatten(b2));
  }

  lemma SameMembers<T>(a: seq<T>, b: seq<T>)
    requires multiset(a) == multiset(b)
    ensures forall x :: x in a <==> x in b
  {
    forall x ensures x in a <==> x in b {
      assert x in a <==> x in multiset(a);
      assert x in b <==> x in multiset(b);
    }
  }

  /** Every split of every order of `es`, from every pool, leaves the same row for account `a`. */
  ghost predicate RegroupingFree(es: seq<Event>, a: string) {
    forall pool: Pool, b1, b2 | multiset(Flatten(b1)) == multiset(es) && multiset(Flatten(b2)) == multiset(es) ::
      Get(ApplyBatches(pool, b1), a) == Get(ApplyBatches(pool, b2), a)
  }

  /** Batching is a homomorphism on whole rows exactly when the greatest sequence settles the reset flag. */
  lemma RegroupingFreeIffDecided(es: seq<Event>, a: string)
    requires All(es, StatsKind)
    ensures RegroupingFree(es, a) <==> Decided(es, a)
  {
    if Decided(es, a) {
      forall pool: Pool, b1, b2 | multiset(Flatten(b1)) == multiset(es) && multiset(Flatten(b2)) == multiset(es)
        ensures Get(ApplyBatches(pool, b1), a) == Get(ApplyBatches(pool, b2), a)
      {
        DecidedSuffices(es, a, pool, b1, b2);
      }
    } else {
      UndecidedDiffers(es, a);
    }
  }

  lemma DecidedSuffices(es: seq<Event>, a: string, pool: Pool, b1: seq<seq<Event>>, b2: seq<seq<Event>>)
    requires All(es, StatsKind)
    requires Decided(es, a)
    requires multiset(Flatten(b1)) == multiset(es) && multiset(Flatten(b2)) == multiset(es)
    ensures Get(ApplyBatches(pool, b1), a) == Get(ApplyBatches(pool, b2), a)
  {
    SameMembers(es, Flatten(b1));
    SameMembers(es, Flatten(b2));
    RegroupingKeepsCore(pool, b1, b2);
    TokensKept(pool, b1, a);
    TokensKept(pool, b2, a);
    var r1, r2 := ApplyBatches(pool, b1), ApplyBatches(pool, b2);
    assert a in r1 <==> a in CoreOf(r1);
    assert a in r2 <==> a in CoreOf(r2);
    if forall e :: e in es && Touches(e, a) && SeqOf(e) > 0 ==> !Resets(e) {
      NeverCleared(pool, b1, a);
      NeverCleared(pool, b2, a);
    } else {
      GroupedMeaning(es, a);
      var m := Grouped(es)[a].stateVersion;
      ClearedByNewest(pool, b1, a, m);
      ClearedByNewest(pool, b2, a, m);
    }
    if a in r1 {
      assert CoreOf(r1)[a] == CoreOf(r2)[a];
    }
  }

  /** Delivering a resetting success first clears the counter; delivering a newest non-resetting one first prevents it. */
  lemma UndecidedDiffers(es: seq<Event>, a: string)
    requires !Decided(es, a)
    ensures !RegroupingFree(es, a)
  {
    var f :| f in es && Touches(f, a) && SeqOf(f) > 0 && Resets(f);
    var e :| e in es && Touches(e, a) && SeqOf(e) > 0 && Newest(es, a, SeqOf(e)) && !Resets(e);
    var b1 := FirstAlone(es, f);
    var b2 := FirstAlone(es, e);
    var pool: Pool := map[];
    ResetFirst(pool, f, b1[1], a);
    PlainFirst(pool, e, b2[1], a);
    assert Get(ApplyBatches(pool, b1), a) != Get(ApplyBatches(pool, b2), a);
  }

  lemma ResetFirst(pool: Pool, f: Event, rest: seq<Event>, a: string)
    requires a !in pool && Touches(f, a) && SeqOf(f) > 0 && Resets(f)
    ensures var r := ApplyBatches(pool, [[f], rest]); a in r && Fails(r, a) == Some(0)
  {
    ApplyTwo(pool, [f], rest);
    assert f in [f];
    GroupedMeaning([f], a);
    GroupedMeaning(rest, a);
  }

  lemma PlainFirst(pool: Pool, e: Event, rest: seq<Event>, a: string)
    requires a !in pool && Touches(e, a) && SeqOf(e) > 0 && !Resets(e) && Newest(rest, a, SeqOf(e))
    ensures var r := ApplyBatches(pool, [[e], rest]); a in r && Fails(r, a) == None
  {
    ApplyTwo(pool, [e], rest);
    assert e in [e];
    GroupedMeaning([e], a);
    GroupedMeaning(rest, a);
  }

  lemma ApplyTwo(pool: Pool, x: seq<Event>, y: seq<Event>)
    ensures ApplyBatches(pool, [x, y]) == ApplyStats(ApplyStats(pool, x), y)
  {
    assert [x, y][..1] == [x];
    ApplyBatchesStep(pool, [x, y]);
    assert [x][..0] == [];
    ApplyBatchesStep(pool, [x]);
  }

  /** The two-batch split that delivers one chosen event before all the others. */
  lemma FirstAlone(es: seq<Event>, e: Event) returns (b: seq<seq<Event>>)
    requires e in es
    ensures |b| == 2 && b == [[e], b[1]]
    ensures multiset(Flatten(b)) == multiset(es)
    ensures forall x :: x in b[1] ==> x in es
  {
    var i :| 0 <= i < |es| && es[i] == e;
    var rest := es[..i] + es[i + 1..];
    b := [[e], rest];
    assert b[..1] == [[e]];
    assert [[e]][..0] == [];
    assert Flatten([[e]]) == [] + [e] == [e];
    assert Flatten(b) == [e] + rest;
    assert es == es[..i] + [e] + es[i + 1..];
  }
}
