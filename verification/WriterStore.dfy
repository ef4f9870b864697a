/**
 One writer batch against PostgreSQL: the inbox insert, the grouping loops and the upserts, all in one
 transaction. The whole transaction is shown to be the plain fold of the accepted events.
 */
module WriterStore {
  import opened Common
  import opened WriterEvents
  import opened AccountStats
  import opened UsageAggregation

  datatype Database = Database(inbox: set<string>, pool: Pool, daily: Daily, keys: map<string, KeyRow>)

  /** `INSERT ... ON CONFLICT DO NOTHING RETURNING`: the first event with each new, non-empty id. */
  function Accept(inbox: set<string>, es: seq<Event>): seq<Event> {
    if es == [] then [] else
    var init, e := Accept(inbox, es[..|es| - 1]), es[|es| - 1];
    if e.id == "" || e.id in inbox + Ids(init) then init else init + [e]
  }

  lemma {:induction false} AcceptMeaning(inbox: set<string>, es: seq<Event>)
    ensures var r := Accept(inbox, es);
            && (forall e :: e in r ==> e in es && e.id != "" && e.id !in inbox)
            && (forall e :: e in es && e.id != "" ==> e.id in inbox + Ids(r))
            && Distinct(IdSeq(r))
  {
    if es != [] {
      var init, e := es[..|es| - 1], es[|es| - 1];
      assert es == init + [e];
      AcceptMeaning(inbox, init);
      var r := Accept(inbox, init);
      if e.id != "" && e.id !in inbox + Ids(r) {
        assert forall i :: 0 <= i < |r| ==> r[i].id in Ids(r);
        assert IdSeq(r + [e]) == IdSeq(r) + [e.id];
        IdsSnoc(r, e);
      }
    }
  }

  function Ids(es: seq<Event>): set<string> { set e | e in es :: e.id }

  function IdSeq(es: seq<Event>): seq<string> { seq(|es|, i requires 0 <= i < |es| => es[i].id) }

  /** The effect of a transaction on the database, given the inbox rows the retention step removes. */
  function Commit(db: Database, es: seq<Event>, expired: set<string>): Database {
    var acc := Accept(db.inbox, es);
    var stats := ApplyStats(db.pool, Select(acc, StatsKind));
    var states := FoldL(ApplyState, stats, Select(acc, StateKind));
    var usage := Select(acc, UsageKind);
    Database(
      db.inbox + Ids(acc) - expired,
      UpdateTokens(states, AccountTokens(usage)),
      MergeDaily(db.daily, DailyOf(usage)),
      UpdateKeys(db.keys, KeyDeltas(usage)))
  }

  /* ---- the plain meaning ---- */

  datatype Core = Core(pool: CorePool, daily: Daily, keys: map<string, KeyRow>)

  function CoreDb(db: Database): Core { Core(CoreOf(db.pool), db.daily, db.keys) }

  /** One event, counted once. */
  function Count(c: Core, e: Event): Core {
    Core(CoreStep(c.pool, e), AddUsage(c.daily, e), KeyStep(c.keys, e))
  }

  lemma CountCommutes()
    ensures Commutes(Count)
  {
    CoreStepCommutes();
    AddUsageCommutes();
    KeyStepCommutes();
    forall s, x, y ensures Count(Count(s, x), y) == Count(Count(s, y), x) {
      assert CoreStep(CoreStep(s.pool, x), y) == CoreStep(CoreStep(s.pool, y), x);
      assert AddUsage(AddUsage(s.daily, x), y) == AddUsage(AddUsage(s.daily, y), x);
      assert KeyStep(KeyStep(s.keys, x), y) == KeyStep(KeyStep(s.keys, y), x);
    }
  }

  lemma {:induction false} CountParts(c: Core, es: seq<Event>)
    ensures FoldL(Count, c, es) == Core(FoldL(CoreStep, c.pool, es), FoldL(AddUsage, c.daily, es), FoldL(KeyStep, c.keys, es))
  {
    if es != [] {
      CountParts(c, es[..|es| - 1]);
    }
  }

  lemma {:induction false} OnlyPool(p: CorePool, d: Daily, k: map<string, KeyRow>, es: seq<Event>)
    ensures (forall e :: e in es ==> !e.body.Stats? && !e.body.State?) ==> FoldL(CoreStep, p, es) == p
    ensures (forall e :: e in es ==> !e.body.Usage?) ==> FoldL(AddUsage, d, es) == d && FoldL(KeyStep, k, es) == k
  {
    if es != [] {
      var init := es[..|es| - 1];
      assert forall e :: e in init ==> e in es;
      assert es[|es| - 1] in es;
      OnlyPool(p, d, k, init);
    }
  }

  lemma CoreIgnoresTokens(pool: Pool, g: map<string, Tokens>)
    ensures CoreOf(UpdateTokens(pool, g)) == CoreOf(pool)
  {
  }

  /** Events sorted by kind and applied by the three aggregations: the same as counting them in that order. */
  lemma SortedIsFold(db: Database, stats: seq<Event>, states: seq<Event>, usage: seq<Event>, other: seq<Event>)
    requires All(stats, StatsKind) && All(states, StateKind) && All(usage, UsageKind)
    requires forall e :: e in other ==> e.body.Other? || e.body.Poison?
    ensures FoldL(Count, CoreDb(db), stats + states + usage + other) ==
            Core(CoreOf(UpdateTokens(FoldL(ApplyState, ApplyStats(db.pool, stats), states), AccountTokens(usage))),
                 MergeDaily(db.daily, DailyOf(usage)), UpdateKeys(db.keys, KeyDeltas(usage)))
  {
    CountParts(CoreDb(db), stats + states + usage + other);
    PoolOfSorted(db, stats, states, usage, other);
    UsageOfSorted(db, stats, states, usage, other);
  }

  /** Committing a batch counts each accepted event exactly once, whatever the order of the batch. */
  lemma CommitIsFold(db: Database, es: seq<Event>, expired: set<string>)
    ensures CoreDb(Commit(db, es, expired)) == FoldL(Count, CoreDb(db), Accept(db.inbox, es))
  {
    var acc := Accept(db.inbox, es);
    var stats, states, usage := Select(acc, StatsKind), Select(acc, StateKind), Select(acc, UsageKind);
    var other := Select(acc, OtherKind) + Select(acc, PoisonKind);
    SortedMembers(acc);
    CountCommutes();
    FoldPermutation(Count, CoreDb(db), acc, stats + states + usage + other);
    SelectPartitions(acc);
    SortedIsFold(db, stats, states, usage, other);
  }

  lemma SortedMembers(acc: seq<Event>)
    ensures multiset(acc) == multiset(Select(acc, StatsKind) + Select(acc, StateKind) + Select(acc, UsageKind)
                                      + (Select(acc, OtherKind) + Select(acc, PoisonKind)))
  {
    SelectPartitions(acc);
  }

  lemma PoolOfSorted(db: Database, stats: seq<Event>, states: seq<Event>, usage: seq<Event>, other: seq<Event>)
    requires All(stats, StatsKind) && All(states, StateKind) && All(usage, UsageKind)
    requires forall e :: e in other ==> e.body.Other? || e.body.Poison?
    ensures FoldL(CoreStep, CoreOf(db.pool), stats + states + usage + other) ==
            CoreOf(UpdateTokens(FoldL(ApplyState, ApplyStats(db.pool, stats), states), AccountTokens(usage)))
  {
    var p := CoreOf(db.pool);
    FoldConcat(CoreStep, p, stats + states + usage, other);
    FoldConcat(CoreStep, p, stats + states, usage);
    FoldConcat(CoreStep, p, stats, states);
    CoreOfStats(db.pool, stats);
    CoreOfStates(ApplyStats(db.pool, stats), states);
    OnlyPool(FoldL(CoreStep, p, stats + states), map[], map[], usage);
    OnlyPool(FoldL(CoreStep, p, stats + states + usage), map[], map[], other);
    CoreIgnoresTokens(FoldL(ApplyState, ApplyStats(db.pool, stats), states), AccountTokens(usage));
  }

  lemma UsageOfSorted(db: Database, stats: seq<Event>, states: seq<Event>, usage: seq<Event>, other: seq<Event>)
    requires All(stats, StatsKind) && All(states, StateKind) && All(usage, UsageKind)
    requires forall e :: e in other ==> e.body.Other? || e.body.Poison?
    ensures FoldL(AddUsage, db.daily, stats + states + usage + other) == MergeDaily(db.daily, DailyOf(usage))
    ensures FoldL(KeyStep, db.keys, stats + states + usage + other) == UpdateKeys(db.keys, KeyDeltas(usage))
  {
    var pre := stats + states;
    assert forall e :: e in pre ==> !e.body.Usage?;
    OnlyPool(map[], db.daily, db.keys, pre);
    FoldConcat(AddUsage, db.daily, pre + usage, other);
    FoldConcat(AddUsage, db.daily, pre, usage);
    FoldConcat(KeyStep, db.keys, pre + usage, other);
    FoldConcat(KeyStep, db.keys, pre, usage);
    OnlyPool(map[], FoldL(AddUsage, db.daily, pre + usage), FoldL(KeyStep, db.keys, pre + usage), other);
    MergeIsFold(db.daily, usage);
    UpdateKeysIsFold(db.keys, usage);
  }

  /* ---- token totals on account rows ---- */

  function TokensFor(es: seq<Event>, a: string): Tokens { GetOr(AccountTokens(es), a, ZERO_TOKENS) }

  function TokensFrom(e: Event, a: string): Tokens {
    if e.body.Usage? && e.body.usage.ok && e.body.usage.accountId == a && a != "" then TokensOf(e.body.usage) else ZERO_TOKENS
  }

  lemma GroupAccountAt(g: map<string, Tokens>, e: Event, a: string)
    ensures GetOr(GroupAccount(g, e), a, ZERO_TOKENS) == TokenPlus(GetOr(g, a, ZERO_TOKENS), TokensFrom(e, a))
  {
  }

  /** A sum of tokens over events, for any way of charging one event. */
  function SumTokens(f: Event -> Tokens, es: seq<Event>): Tokens {
    if es == [] then ZERO_TOKENS else TokenPlus(SumTokens(f, es[..|es| - 1]), f(es[|es| - 1]))
  }

  lemma {:induction false} SumTokensConcat(f: Event -> Tokens, x: seq<Event>, y: seq<Event>)
    ensures SumTokens(f, x + y) == TokenPlus(SumTokens(f, x), SumTokens(f, y))
  {
    if y == [] {
      assert x + y == x;
    } else {
      assert (x + y)[..|x + y| - 1] == x + y[..|y| - 1];
      SumTokensConcat(f, x, y[..|y| - 1]);
    }
  }

  lemma {:induction false} SumTokensSelect(f: Event -> Tokens, es: seq<Event>, k: Kind)
    requires forall e :: KindOf(e) != k ==> f(e) == ZERO_TOKENS
    ensures SumTokens(f, Select(es, k)) == SumTokens(f, es)
  {
    if es != [] {
      SumTokensSelect(f, es[..|es| - 1], k);
      assert KindOf(es[|es| - 1]) == k ==> Select(es, k)[..|Select(es, k)| - 1] == Select(es[..|es| - 1], k);
    }
  }

  function Charge(a: string): Event -> Tokens { e => TokensFrom(e, a) }

  lemma {:induction false} TokensForIsSum(es: seq<Event>, a: string)
    ensures TokensFor(es, a) == SumTokens(Charge(a), es)
  {
    if es != [] {
      var init, e := es[..|es| - 1], es[|es| - 1];
      TokensForIsSum(init, a);
      AggregateStep(es, |init|);
      assert es[..|es|] == es;
      GroupAccountAt(AccountTokens(init), e, a);
    }
  }

  lemma TokensForConcat(x: seq<Event>, y: seq<Event>, a: string)
    ensures TokensFor(x + y, a) == TokenPlus(TokensFor(x, a), TokensFor(y, a))
  {
    SumTokensConcat(Charge(a), x, y);
    TokensForIsSum(x, a);
    TokensForIsSum(y, a);
    TokensForIsSum(x + y, a);
  }

  lemma TokensForSelect(es: seq<Event>, a: string)
    ensures TokensFor(Select(es, UsageKind), a) == TokensFor(es, a)
  {
    SumTokensSelect(Charge(a), es, UsageKind);
    TokensForIsSum(es, a);
    TokensForIsSum(Select(es, UsageKind), a);
  }

  /** The token totals stored for an account; an account without a row has none. */
  function RowTokens(pool: Pool, a: string): Tokens { if a in pool then pool[a].tokens else ZERO_TOKENS }

  lemma {:induction false} StatesKeepTokens(pool: Pool, es: seq<Event>, a: string)
    ensures var r := FoldL(ApplyState, pool, es); RowTokens(r, a) == RowTokens(pool, a) && (a in pool ==> a in r)
  {
    if es != [] {
      StatesKeepTokens(pool, es[..|es| - 1], a);
    }
  }

  lemma StatsKeepTokens(pool: Pool, es: seq<Event>, a: string)
    ensures var r := ApplyStats(pool, es); RowTokens(r, a) == RowTokens(pool, a) && (a in pool ==> a in r)
  {
  }

  /**
   One commit and any account: rows never vanish, and an account that has a row afterwards, even one that
   this commit created, receives exactly the tokens of the usage events accepted with it.
   */
  lemma CommitTokens(db: Database, es: seq<Event>, expired: set<string>, a: string)
    ensures var r := Commit(db, es, expired).pool;
            && (a in db.pool ==> a in r)
            && RowTokens(r, a) == if a in r then TokenPlus(RowTokens(db.pool, a), TokensFor(Accept(db.inbox, es), a)) else ZERO_TOKENS
  {
    var acc := Accept(db.inbox, es);
    StatsKeepTokens(db.pool, Select(acc, StatsKind), a);
    StatesKeepTokens(ApplyStats(db.pool, Select(acc, StatsKind)), Select(acc, StateKind), a);
    TokensForSelect(acc, a);
  }

  function WeightFor(a: string): Event -> int {
    (e: Event) => if e.body.Usage? && e.body.usage.ok && e.body.usage.accountId == a && a != "" then WeightOf(e.body.usage) else 0
  }

  lemma {:induction false} SumTokensWeight(f: Event -> Tokens, w: Event -> int, es: seq<Event>)
    requires forall e :: w(e) == f(e).prompt + f(e).completion + f(e).total
    ensures var t := SumTokens(f, es); t.prompt + t.completion + t.total == SumInts(w, es)
  {
    if es != [] {
      SumTokensWeight(f, w, es[..|es| - 1]);
    }
  }

  lemma WeightFrom(e: Event, a: string)
    ensures var t := TokensFrom(e, a); WeightFor(a)(e) == t.prompt + t.completion + t.total
    ensures WeightFor(a)(e) >= 0 && (WeightFor(a)(e) > 0 <==> Carries(TokensFrom(e, a)))
  {
    if e.body.Usage? {
      WeightOfEvent(e.body.usage);
    }
  }

  lemma {:induction false} TokensNonNegative(es: seq<Event>, a: string)
    ensures var t := TokensFor(es, a); t.prompt >= 0 && t.completion >= 0 && t.total >= 0
  {
    TokensForIsSum(es, a);
    if es != [] {
      TokensForIsSum(es[..|es| - 1], a);
      TokensNonNegative(es[..|es| - 1], a);
    }
  }

  /** Token counts are never negative, so a sum of them vanishes only with each of its events. */
  lemma TokensVanish(es: seq<Event>, a: string)
    ensures var t := TokensFor(es, a); t.prompt + t.completion + t.total > 0 <==> exists e :: e in es && Carries(TokensFrom(e, a))
  {
    TokensForIsSum(es, a);
    forall e ensures WeightFor(a)(e) == Charge(a)(e).prompt + Charge(a)(e).completion + Charge(a)(e).total {
      WeightFrom(e, a);
    }
    SumTokensWeight(Charge(a), WeightFor(a), es);
    forall e | e in es ensures WeightFor(a)(e) >= 0 && (WeightFor(a)(e) > 0 <==> Carries(TokensFrom(e, a))) {
      WeightFrom(e, a);
    }
    SumIntsPositive(WeightFor(a), es);
  }

  /* ---- versions and failure counts ---- */

  /** An event that may set the failure count of an account whose stored version is `v`. */
  predicate Decides(e: Event, a: string, v: int) {
    || (Touches(e, a) && Resets(e) && SeqOf(e) > v)
    || (e.body.State? && e.body.state.accountId == a && a != "" && !e.body.state.patch.Untouched? && e.body.state.stateSeq > v)
  }

  lemma StateChanges(pool: Pool, e: Event, a: string)
    requires a in pool && pool[a].stateVersion >= 0
    ensures var r := ApplyState(pool, e);
            && a in r && Version(r, a) >= Version(pool, a)
            && (Fails(r, a) != Fails(pool, a) ==> Decides(e, a, Version(pool, a)))
  {
  }

  lemma {:induction false} StatesChange(pool: Pool, es: seq<Event>, a: string)
    requires a in pool && pool[a].stateVersion >= 0
    ensures var r := FoldL(ApplyState, pool, es);
            && a in r && Version(r, a) >= Version(pool, a)
            && (Fails(r, a) != Fails(pool, a) ==> exists e :: e in es && Decides(e, a, Version(pool, a)))
  {
    if es != [] {
      var init, e := es[..|es| - 1], es[|es| - 1];
      StatesChange(pool, init, a);
      var mid := FoldL(ApplyState, pool, init);
      StateChanges(mid, e, a);
      assert e in es;
      if Fails(mid, a) != Fails(pool, a) {
        var x :| x in init && Decides(x, a, Version(pool, a));
        assert x in es;
      } else if Fails(ApplyState(mid, e), a) != Fails(mid, a) {
        assert Decides(e, a, Version(pool, a));
      }
    }
  }

  /**
   One commit and an account with a row: its version does not decrease, and its failure count changes only
   by an accepted event that is newer than the stored version, a resetting success or a state patch.
   */
  lemma CommitDecides(db: Database, es: seq<Event>, expired: set<string>, a: string)
    requires a in db.pool && db.pool[a].stateVersion >= 0
    ensures var r := Commit(db, es, expired).pool;
            && a in r && Version(r, a) >= Version(db.pool, a)
            && (Fails(r, a) != Fails(db.pool, a) ==> exists e :: e in Accept(db.inbox, es) && Decides(e, a, Version(db.pool, a)))
  {
    var acc := Accept(db.inbox, es);
    var stats := ApplyStats(db.pool, Select(acc, StatsKind));
    ClearedOnlyByNewerSuccess(db.pool, Select(acc, StatsKind), a);
    StatesChange(stats, Select(acc, StateKind), a);
    DecidesEarlier(acc, StatsKind, a, Version(db.pool, a), Version(db.pool, a));
    DecidesEarlier(acc, StateKind, a, Version(stats, a), Version(db.pool, a));
  }

  lemma DecidesEarlier(acc: seq<Event>, k: Kind, a: string, v: int, w: int)
    requires w <= v
    ensures (exists e :: e in Select(acc, k) && Decides(e, a, v)) ==> exists e :: e in acc && Decides(e, a, w)
  {
    if e :| e in Select(acc, k) && Decides(e, a, v) {
      assert e in acc && Decides(e, a, w);
    }
  }

  /* ---- usage before its account row ---- */

  /** Tokens that arrive before any row of their account exists are not stored anywhere. */
  lemma TokensBeforeRowAreLost(db: Database, u: Event, stats: Event)
    requires u.body.Usage? && stats.body.Stats?
    requires u.id != "" && stats.id != "" && u.id != stats.id && db.inbox == {}
    requires u.body.usage.accountId == stats.body.stats.accountId != "" && u.body.usage.accountId !in db.pool
    ensures var a := u.body.usage.accountId;
            var usageFirst := Commit(Commit(db, [u], {}), [stats], {}).pool;
            var rowFirst := Commit(Commit(db, [stats], {}), [u], {}).pool;
            && a in usageFirst && usageFirst[a].tokens == ZERO_TOKENS
            && a in rowFirst && rowFirst[a].tokens == TokensFor([u], a)
  {
    var a := u.body.usage.accountId;
    CommitUsageOnly(db, u);
    CommitStatsOnly(db, stats);
    var afterUsage, afterRow := Commit(db, [u], {}), Commit(db, [stats], {});
    CommitStatsOnly(afterUsage, stats);
    CommitTokens(afterRow, [u], {}, a);
    AcceptOne(afterRow.inbox, u);
  }

  lemma AcceptOne(inbox: set<string>, e: Event)
    requires e.id != "" && e.id !in inbox
    ensures Accept(inbox, [e]) == [e] && Ids([e]) == {e.id}
  {
    assert [e][..0] == [];
    assert Accept(inbox, []) == [] && Ids([]) == {};
    IdsSnoc([], e);
    assert [] + [e] == [e];
  }

  lemma SelectOne(e: Event, k: Kind)
    ensures Select([e], k) == if KindOf(e) == k then [e] else []
  {
    assert [e][..0] == [];
    assert [] + [e] == [e];
  }

  lemma NoStatsNoRow(pool: Pool)
    ensures FoldL(ApplyState, ApplyStats(pool, []), []) == pool
  {
    assert Grouped([]) == map[];
  }

  lemma CommitUsageOnly(db: Database, u: Event)
    requires u.body.Usage? && u.id != "" && u.id !in db.inbox
    ensures Commit(db, [u], {}).pool.Keys == db.pool.Keys && Commit(db, [u], {}).inbox == db.inbox + {u.id}
  {
    AcceptOne(db.inbox, u);
    SelectOne(u, StatsKind);
    SelectOne(u, StateKind);
    NoStatsNoRow(db.pool);
  }

  lemma CommitStatsOnly(db: Database, e: Event)
    requires e.body.Stats? && e.id != "" && e.id !in db.inbox
    requires e.body.stats.accountId != "" && e.body.stats.accountId !in db.pool
    ensures var r := Commit(db, [e], {});
            r.inbox == db.inbox + {e.id} && e.body.stats.accountId in r.pool && r.pool[e.body.stats.accountId].tokens == ZERO_TOKENS
  {
    AcceptOne(db.inbox, e);
    SelectOne(e, StatsKind);
    SelectOne(e, StateKind);
    SelectOne(e, UsageKind);
    StatsCreateRow(db.pool, e);
  }

  lemma StatsCreateRow(pool: Pool, e: Event)
    requires e.body.Stats? && e.body.stats.accountId != "" && e.body.stats.accountId !in pool
    ensures var p := UpdateTokens(FoldL(ApplyState, ApplyStats(pool, [e]), []), AccountTokens([]));
            e.body.stats.accountId in p && p[e.body.stats.accountId].tokens == ZERO_TOKENS
  {
    assert e in [e];
    GroupedMeaning([e], e.body.stats.accountId);
    assert AccountTokens([]) == map[];
  }

  /* ---- the transaction itself ---- */

  class Store {
    var inbox: set<string>
    var pool: Pool
    var daily: Daily
    var keys: map<string, KeyRow>

    function Db(): Database reads this { Database(inbox, pool, daily, keys) }

    constructor (keys: map<string, KeyRow>)
      ensures Db() == Database({}, map[], map[], keys)
    {
      inbox, pool, daily, this.keys := {}, map[], map[], keys;
    }

    method InsertInbox(events: seq<Event>) returns (accepted: seq<Event>)
      modifies this`inbox
      ensures accepted == Accept(old(inbox), events)
      ensures inbox == old(inbox) + Ids(accepted)
    {
      accepted := [];
      for i := 0 to |events|
        invariant accepted == Accept(old(inbox), events[..i])
        invariant inbox == old(inbox) + Ids(accepted)
      {
        var event := events[i];
        assert events[..i + 1][..i] == events[..i];
        if event.id != "" && event.id !in inbox {
          inbox := inbox + {event.id};
          IdsSnoc(accepted, event);
          accepted := accepted + [event];
        }
      }
      assert events[..|events|] == events;
    }

    method ApplyAccountStats(events: seq<Event>) returns (n: nat)
      modifies this`pool
      ensures pool == ApplyStats(old(pool), events)
      ensures n == |Grouped(events)|
    {
      var grouped := GroupByAccount(events);
      if grouped == map[] {
        assert Upserted(pool, grouped) == pool;
        return 0;
      }
      pool := Upserted(pool, grouped);
      n := |grouped|;
    }

    /** The grouping loop: one delta per account. */
    static method GroupByAccount(events: seq<Event>) returns (grouped: Deltas)
      ensures grouped == Grouped(events)
    {
      grouped := map[];
      for i := 0 to |events|
        invariant grouped == Grouped(events[..i])
      {
        FoldStep(Group, map[], events, i);
        var event := events[i];
        if event.body.Stats? && event.body.stats.accountId != "" {
          var aid, p := event.body.stats.accountId, event.body.stats;
          if aid !in grouped {
            grouped := grouped[aid := ZERO_DELTA];
          }
          var row := grouped[aid];
          row := row.(requests := row.requests + p.requests, success := row.success + p.success, fail := row.fail + p.fail);
          var seqNo := if p.success != 0 then p.stateSeq else 0;
          if seqNo > row.stateVersion {
            row := row.(stateVersion := seqNo, reset := p.reset);
          }
          row := row.(lastUsedAt := MaxReal(row.lastUsedAt, UsedAt(p)));
          grouped := grouped[aid := row];
        }
      }
      assert events[..|events|] == events;
    }

    method ApplyUsage(events: seq<Event>)
      requires All(events, UsageKind)
      modifies this`pool, this`daily, this`keys
      ensures daily == MergeDaily(old(daily), DailyOf(events))
      ensures pool == UpdateTokens(old(pool), AccountTokens(events))
      ensures keys == UpdateKeys(old(keys), KeyDeltas(events))
    {
      var batch, tokenByKey, tokenByAccount := Aggregate(events);
      daily := MergeDaily(daily, batch);
      pool := UpdateTokens(pool, tokenByAccount);
      keys := UpdateKeys(keys, tokenByKey);
    }

    /** The aggregation loop: daily rows and token increments of one batch. */
    static method Aggregate(events: seq<Event>)
      returns (batch: Daily, tokenByKey: map<string, KeyDelta>, tokenByAccount: map<string, Tokens>)
      requires All(events, UsageKind)
      ensures batch == DailyOf(events) && tokenByKey == KeyDeltas(events) && tokenByAccount == AccountTokens(events)
    {
      batch, tokenByKey, tokenByAccount := map[], map[], map[];
      for i := 0 to |events|
        invariant batch == DailyOf(events[..i])
        invariant tokenByKey == KeyDeltas(events[..i])
        invariant tokenByAccount == AccountTokens(events[..i])
      {
        AggregateStep(events, i);
        assert events[i] in events;
        batch := CountRows(batch, events[i]);
        var u := events[i].body.usage;
        if u.apiKeyId != "" {
          tokenByKey := ChargeDelta(tokenByKey, u.apiKeyId, u.occurredAt, TokensOf(u));
        }
        if u.ok && u.accountId != "" {
          tokenByAccount := tokenByAccount[u.accountId := TokenPlus(GetOr(tokenByAccount, u.accountId, ZERO_TOKENS), TokensOf(u))];
        }
      }
      assert events[..|events|] == events;
    }

    static method CountRows(batch: Daily, event: Event) returns (r: Daily)
      requires event.body.Usage?
      ensures r == AddUsage(batch, event)
    {
      DimsDistinct(event.body.usage);
      r := BumpRows(batch, Dims(event.body.usage), Cost(event.body.usage));
    }

    /** The loop over the dimensions of one event. */
    static method BumpRows(batch: Daily, dims: seq<DimKey>, req: Counts) returns (r: Daily)
      requires Distinct(dims)
      ensures r == BumpAll(batch, dims, req)
    {
      r := batch;
      for i := 0 to |dims|
        invariant r == BumpAll(batch, dims[..i], req)
      {
        BumpNext(batch, dims, i, req);
        r := r[dims[i] := At(r, dims[i]).Plus(req)];
      }
      assert dims[..|dims|] == dims;
    }

    /** One batch in one transaction; a number that does not convert rolls everything back. */
    method Transact(events: seq<Event>, expired: set<string>) returns (ok: bool)
      modifies this
      ensures ok <==> Select(Accept(old(inbox), events), PoisonKind) == []
      ensures Db() == if ok then Commit(old(Db()), events, expired) else old(Db())
    {
      var saved := Db();
      var accepted := InsertInbox(events);
      if Select(accepted, PoisonKind) != [] {
        inbox := saved.inbox;
        return false;
      }
      var _ := ApplyAccountStats(Select(accepted, StatsKind));
      ApplyStates(Select(accepted, StateKind));
      ApplyUsage(Select(accepted, UsageKind));
      inbox := inbox - expired;
      ok := true;
    }

    method ApplyStates(events: seq<Event>)
      modifies this`pool
      ensures pool == FoldL(ApplyState, old(pool), events)
    {
      for i := 0 to |events|
        invariant pool == FoldL(ApplyState, old(pool), events[..i])
      {
        FoldStep(ApplyState, old(pool), events, i);
        pool := ApplyState(pool, events[i]);
      }
      assert events[..|events|] == events;
    }
  }

  lemma AggregateStep(es: seq<Event>, i: nat)
    requires i < |es|
    ensures DailyOf(es[..i + 1]) == AddUsage(DailyOf(es[..i]), es[i])
    ensures KeyDeltas(es[..i + 1]) == GroupKey(KeyDeltas(es[..i]), es[i])
    ensures AccountTokens(es[..i + 1]) == GroupAccount(AccountTokens(es[..i]), es[i])
  {
    assert es[..i + 1][..i] == es[..i];
  }

  lemma BumpOneMore(d: Daily, ks: seq<DimKey>, k: DimKey, c: Counts)
    requires k !in ks
    ensures var r := BumpAll(d, ks, c); BumpAll(d, ks + [k], c) == r[k := At(r, k).Plus(c)]
  {
    var l, r := BumpAll(d, ks + [k], c), BumpAll(d, ks, c);
    var m := r[k := At(r, k).Plus(c)];
    assert l.Keys == m.Keys;
    forall x | x in l ensures l[x] == m[x] {
      BumpAllAt(d, ks + [k], c, x);
      BumpAllAt(d, ks, c, x);
    }
  }

  lemma BumpNext(batch: Daily, dims: seq<DimKey>, i: nat, req: Counts)
    requires Distinct(dims) && i < |dims|
    ensures var r := BumpAll(batch, dims[..i], req); BumpAll(batch, dims[..i + 1], req) == r[dims[i] := At(r, dims[i]).Plus(req)]
  {
    assert dims[..i + 1] == dims[..i] + [dims[i]];
    BumpOneMore(batch, dims[..i], dims[i], req);
  }

  lemma IdsSnoc(es: seq<Event>, e: Event)
    ensures Ids(es + [e]) == Ids(es) + {e.id}
  {
    assert e in es + [e];
    forall x | x in Ids(es) ensures x in Ids(es + [e]) {
      var y :| y in es && y.id == x;
      assert y in es + [e];
    }
  }
}
