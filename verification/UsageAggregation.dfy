/**
 Daily usage: each event is counted once in the global row of its day and once in at most one key,
 one account and one model row. Aggregation is a commuting fold, and it conserves the counts.
 */
module UsageAggregation {
  import opened Common
  import opened WriterEvents
  import opened AccountStats

  datatype Dim = GlobalDim | KeyDim | AccountDim | ModelDim

  datatype DimKey = DimKey(day: string, dim: Dim, id: string)

  datatype Counts = Counts(
    requests: int, success: int, fail: int, prompt: int, completion: int, total: int,
    cacheRead: int, cacheCreation: int, reasoning: int, cacheHits: int)
  {
    function Plus(c: Counts): Counts {
      Counts(requests + c.requests, success + c.success, fail + c.fail, prompt + c.prompt, completion + c.completion,
             total + c.total, cacheRead + c.cacheRead, cacheCreation + c.cacheCreation, reasoning + c.reasoning,
             cacheHits + c.cacheHits)
    }

    predicate AtMost(c: Counts) {
      && requests <= c.requests && success <= c.success && fail <= c.fail && prompt <= c.prompt
      && completion <= c.completion && total <= c.total && cacheRead <= c.cacheRead
      && cacheCreation <= c.cacheCreation && reasoning <= c.reasoning && cacheHits <= c.cacheHits
    }
  }

  type Daily = map<DimKey, Counts>

  const ZERO_COUNTS := Counts(0, 0, 0, 0, 0, 0, 0, 0, 0, 0)
  const ID_LIMIT := 256
  const MODEL_LIMIT := 120

  function Clip(s: string, n: nat): string { if |s| <= n then s else s[..n] }

  /** What one event adds to every row it belongs to; a failed request carries no tokens. */
  function Cost(u: UsageFields): Counts {
    Counts(1, if u.ok then 1 else 0, if u.ok then 0 else 1, Charged(u, u.prompt), Charged(u, u.completion), Charged(u, TotalOf(u)),
           Charged(u, u.cacheRead), Charged(u, u.cacheCreation), Charged(u, u.reasoning), if Charged(u, u.cacheRead) != 0 then 1 else 0)
  }

  function Charged(u: UsageFields, n: int): int { if u.ok then Max(0, n) else 0 }

  function TotalOf(u: UsageFields): int {
    if u.total.Some? && u.total.value != 0 then u.total.value else Max(0, u.prompt) + Max(0, u.completion)
  }

  function Dims(u: UsageFields): seq<DimKey> {
    [DimKey(u.day, GlobalDim, "")]
    + (if u.apiKeyId != "" then [DimKey(u.day, KeyDim, Clip(u.apiKeyId, ID_LIMIT))] else [])
    + (if u.accountId != "" then [DimKey(u.day, AccountDim, Clip(u.accountId, ID_LIMIT))] else [])
    + (if u.model != "" then [DimKey(u.day, ModelDim, Clip(u.model, MODEL_LIMIT))] else [])
  }

  function At(d: Daily, k: DimKey): Counts { if k in d then d[k] else ZERO_COUNTS }

  /** The cost is added to every row in `ks`. */
  function BumpAll(d: Daily, ks: seq<DimKey>, c: Counts): Daily {
    map k | k in d.Keys + (set k | k in ks) :: if k in ks then At(d, k).Plus(c) else d[k]
  }

  /** The plain meaning of one usage event. */
  function AddUsage(d: Daily, e: Event): Daily {
    if e.body.Usage? then BumpAll(d, Dims(e.body.usage), Cost(e.body.usage)) else d
  }

  /** The rows one batch accumulates before they are stored. */
  function DailyOf(es: seq<Event>): Daily { FoldL(AddUsage, map[], es) }

  /** `INSERT ... ON CONFLICT (day, dim, dim_id) DO UPDATE`, adding every counter. */
  function MergeDaily(stored: Daily, batch: Daily): Daily {
    map k | k in stored.Keys + batch.Keys :: if k in batch then At(stored, k).Plus(batch[k]) else stored[k]
  }

  lemma {:induction false} DimsDistinct(u: UsageFields)
    ensures Distinct(Dims(u))
    ensures forall i, j :: 0 <= i < |Dims(u)| && 0 <= j < |Dims(u)| && Dims(u)[i].dim == Dims(u)[j].dim ==> i == j
    ensures forall k :: k in Dims(u) ==> k.day == u.day
  {
  }

  lemma PlusLaws(a: Counts, b: Counts, c: Counts)
    ensures a.Plus(b) == b.Plus(a) && a.Plus(b).Plus(c) == a.Plus(b.Plus(c)) && a.Plus(b).Plus(c) == a.Plus(c).Plus(b)
    ensures ZERO_COUNTS.Plus(a) == a
  {
  }

  lemma BumpAllAt(d: Daily, ks: seq<DimKey>, c: Counts, k: DimKey)
    ensures k in BumpAll(d, ks, c) <==> k in d || k in ks
    ensures At(BumpAll(d, ks, c), k) == if k in ks then At(d, k).Plus(c) else At(d, k)
  {
  }

  lemma SameDaily(l: Daily, r: Daily)
    requires forall k :: (k in l <==> k in r) && At(l, k) == At(r, k)
    ensures l == r
  {
    forall k | k in l ensures l[k] == r[k] {
      assert At(l, k) == At(r, k);
    }
  }

  lemma BumpAllCommutesAt(d: Daily, k1: seq<DimKey>, c1: Counts, k2: seq<DimKey>, c2: Counts, k: DimKey)
    ensures var l, r := BumpAll(BumpAll(d, k1, c1), k2, c2), BumpAll(BumpAll(d, k2, c2), k1, c1);
            (k in l <==> k in r) && At(l, k) == At(r, k)
  {
    var d1, d2 := BumpAll(d, k1, c1), BumpAll(d, k2, c2);
    BumpAllAt(d, k1, c1, k);
    BumpAllAt(d, k2, c2, k);
    BumpAllAt(d1, k2, c2, k);
    BumpAllAt(d2, k1, c1, k);
    PlusLaws(At(d, k), c1, c2);
  }

  lemma BumpAllCommutes(d: Daily, k1: seq<DimKey>, c1: Counts, k2: seq<DimKey>, c2: Counts)
    ensures BumpAll(BumpAll(d, k1, c1), k2, c2) == BumpAll(BumpAll(d, k2, c2), k1, c1)
  {
    forall k { BumpAllCommutesAt(d, k1, c1, k2, c2, k); }
    SameDaily(BumpAll(BumpAll(d, k1, c1), k2, c2), BumpAll(BumpAll(d, k2, c2), k1, c1));
  }

  lemma AddUsageCommutes()
    ensures Commutes(AddUsage)
  {
    forall s, x, y ensures AddUsage(AddUsage(s, x), y) == AddUsage(AddUsage(s, y), x) {
      if x.body.Usage? && y.body.Usage? {
        BumpAllCommutes(s, Dims(x.body.usage), Cost(x.body.usage), Dims(y.body.usage), Cost(y.body.usage));
      }
    }
  }

  lemma MergeAt(stored: Daily, batch: Daily, k: DimKey)
    ensures k in MergeDaily(stored, batch) <==> k in stored || k in batch
    ensures At(MergeDaily(stored, batch), k) == At(stored, k).Plus(At(batch, k))
  {
  }

  lemma MergeBumpAt(stored: Daily, batch: Daily, ks: seq<DimKey>, c: Counts, k: DimKey)
    ensures var l, r := MergeDaily(stored, BumpAll(batch, ks, c)), BumpAll(MergeDaily(stored, batch), ks, c);
            (k in l <==> k in r) && At(l, k) == At(r, k)
  {
    var b, m := BumpAll(batch, ks, c), MergeDaily(stored, batch);
    BumpAllAt(batch, ks, c, k);
    MergeAt(stored, b, k);
    MergeAt(stored, batch, k);
    BumpAllAt(m, ks, c, k);
    PlusLaws(At(stored, k), At(batch, k), c);
  }

  lemma MergeBump(stored: Daily, batch: Daily, ks: seq<DimKey>, c: Counts)
    ensures MergeDaily(stored, BumpAll(batch, ks, c)) == BumpAll(MergeDaily(stored, batch), ks, c)
  {
    forall k { MergeBumpAt(stored, batch, ks, c, k); }
    SameDaily(MergeDaily(stored, BumpAll(batch, ks, c)), BumpAll(MergeDaily(stored, batch), ks, c));
  }

  /** Aggregating a batch first and merging it in is the same as adding its events one by one. */
  lemma {:induction false} MergeIsFold(stored: Daily, es: seq<Event>)
    ensures MergeDaily(stored, DailyOf(es)) == FoldL(AddUsage, stored, es)
  {
    if es == [] {
      assert MergeDaily(stored, map[]) == stored;
    } else {
      var init, e := es[..|es| - 1], es[|es| - 1];
      MergeIsFold(stored, init);
      if e.body.Usage? {
        MergeBump(stored, DailyOf(init), Dims(e.body.usage), Cost(e.body.usage));
      }
    }
  }

  /** What one event does to one row. */
  lemma AddUsageAt(d: Daily, e: Event, k: DimKey)
    requires e.body.Usage?
    ensures At(AddUsage(d, e), k) == if k in Dims(e.body.usage) then At(d, k).Plus(Cost(e.body.usage)) else At(d, k)
  {
  }

  lemma DimsOf(u: UsageFields, k: DimKey)
    ensures k in Dims(u) <==> k.day == u.day && match k.dim
      case GlobalDim => k.id == ""
      case KeyDim => u.apiKeyId != "" && k.id == Clip(u.apiKeyId, ID_LIMIT)
      case AccountDim => u.accountId != "" && k.id == Clip(u.accountId, ID_LIMIT)
      case ModelDim => u.model != "" && k.id == Clip(u.model, MODEL_LIMIT)
  {
  }

  lemma CostShape(u: UsageFields)
    ensures var c := Cost(u);
            ZERO_COUNTS.AtMost(c) && c.requests == 1 && c.success + c.fail == 1 && c.cacheHits <= c.success
  {
  }

  /* ---- conservation ---- */

  function OnDay(es: seq<Event>, day: string): nat {
    if es == [] then 0 else
    var e := es[|es| - 1];
    OnDay(es[..|es| - 1], day) + if e.body.Usage? && e.body.usage.day == day then 1 else 0
  }

  function GlobalRow(d: Daily, day: string): Counts { At(d, DimKey(day, GlobalDim, "")) }

  lemma {:induction false} GlobalRowCounts(es: seq<Event>, day: string)
    ensures var g := GlobalRow(DailyOf(es), day);
            && g.requests == g.success + g.fail == OnDay(es, day)
            && 0 <= g.cacheHits <= g.success
            && ZERO_COUNTS.AtMost(g)
  {
    if es != [] {
      var init, e := es[..|es| - 1], es[|es| - 1];
      GlobalRowCounts(init, day);
      if e.body.Usage? {
        var k := DimKey(day, GlobalDim, "");
        AddUsageAt(DailyOf(init), e, k);
        DimsOf(e.body.usage, k);
        CostShape(e.body.usage);
      }
    }
  }

  function SumRows(d: Daily, ks: seq<DimKey>): Counts {
    if ks == [] then ZERO_COUNTS else SumRows(d, ks[..|ks| - 1]).Plus(At(d, ks[|ks| - 1]))
  }

  /** Rows of one dimension on one day. */
  ghost predicate Slice(ks: seq<DimKey>, day: string, dim: Dim) {
    Distinct(ks) && forall k :: k in ks ==> k.day == day && k.dim == dim
  }

  /** One event raises the sum of such rows by its cost or not at all. */
  lemma {:induction false} SumRowsStep(d: Daily, e: Event, ks: seq<DimKey>, day: string, dim: Dim)
    requires e.body.Usage? && Slice(ks, day, dim)
    ensures if exists k :: k in ks && k in Dims(e.body.usage)
            then SumRows(AddUsage(d, e), ks) == SumRows(d, ks).Plus(Cost(e.body.usage)) && day == e.body.usage.day
            else SumRows(AddUsage(d, e), ks) == SumRows(d, ks)
  {
    if ks != [] {
      var init, last := ks[..|ks| - 1], ks[|ks| - 1];
      assert ks == init + [last];
      SumRowsStep(d, e, init, day, dim);
      AddUsageAt(d, e, last);
      DimsOf(e.body.usage, last);
      PlusLaws(SumRows(d, init), Cost(e.body.usage), At(d, last));
      PlusLaws(SumRows(d, init), At(d, last), Cost(e.body.usage));
      assert last !in init;
      if last in Dims(e.body.usage) {
        forall k | k in init ensures k !in Dims(e.body.usage) { DimsOf(e.body.usage, k); }
      }
    }
  }

  /** Any set of key rows, account rows or model rows of a day sums to at most the global row of that day. */
  lemma {:induction false} SliceAtMostGlobal(es: seq<Event>, ks: seq<DimKey>, day: string, dim: Dim)
    requires Slice(ks, day, dim)
    ensures SumRows(DailyOf(es), ks).AtMost(GlobalRow(DailyOf(es), day))
  {
    if es == [] {
      SumRowsEmpty(ks);
    } else {
      var init, e := es[..|es| - 1], es[|es| - 1];
      SliceAtMostGlobal(init, ks, day, dim);
      if e.body.Usage? {
        var d := DailyOf(init);
        SumRowsStep(d, e, ks, day, dim);
        AddUsageAt(d, e, DimKey(day, GlobalDim, ""));
        DimsOf(e.body.usage, DimKey(day, GlobalDim, ""));
        CostShape(e.body.usage);
      }
    }
  }

  lemma {:induction false} SumRowsEmpty(ks: seq<DimKey>)
    ensures SumRows(map[], ks) == ZERO_COUNTS
  {
    if ks != [] {
      SumRowsEmpty(ks[..|ks| - 1]);
    }
  }

  /* ---- token totals on api_keys and account_pool rows ---- */

  datatype KeyRow = KeyRow(requests: int, lastUsedAt: Option<real>, tokens: Tokens)

  datatype KeyDelta = KeyDelta(requests: int, lastUsedAt: real, tokens: Tokens)

  const ZERO_KEY := KeyDelta(0, 0.0, ZERO_TOKENS)

  function TokenPlus(t: Tokens, d: Tokens): Tokens { Tokens(t.prompt + d.prompt, t.completion + d.completion, t.total + d.total) }

  /** Some of the token counts are not zero; they are never negative. */
  predicate Carries(t: Tokens) { t.prompt > 0 || t.completion > 0 || t.total > 0 }

  function TokensOf(u: UsageFields): Tokens { Tokens(Charged(u, u.prompt), Charged(u, u.completion), Charged(u, TotalOf(u))) }

  function ChargeDelta(g: map<string, KeyDelta>, id: string, at: real, t: Tokens): map<string, KeyDelta> {
    var d := GetOr(g, id, ZERO_KEY);
    g[id := KeyDelta(d.requests + 1, MaxReal(d.lastUsedAt, at), TokenPlus(d.tokens, t))]
  }

  function GroupKey(g: map<string, KeyDelta>, e: Event): map<string, KeyDelta> {
    if e.body.Usage? && e.body.usage.apiKeyId != ""
    then ChargeDelta(g, e.body.usage.apiKeyId, e.body.usage.occurredAt, TokensOf(e.body.usage))
    else g
  }

  function GroupAccount(g: map<string, Tokens>, e: Event): map<string, Tokens> {
    if e.body.Usage? && e.body.usage.ok && e.body.usage.accountId != ""
    then g[e.body.usage.accountId := TokenPlus(GetOr(g, e.body.usage.accountId, ZERO_TOKENS), TokensOf(e.body.usage))]
    else g
  }

  function KeyDeltas(es: seq<Event>): map<string, KeyDelta> { FoldL(GroupKey, map[], es) }

  function AccountTokens(es: seq<Event>): map<string, Tokens> { FoldL(GroupAccount, map[], es) }

  /** `UPDATE api_keys ... WHERE id = %s`: a missing row stays missing. */
  function UpdateKeys(keys: map<string, KeyRow>, g: map<string, KeyDelta>): map<string, KeyRow> {
    map k | k in keys ::
      if k in g then KeyRow(keys[k].requests + g[k].requests, Greatest(keys[k].lastUsedAt, g[k].lastUsedAt), TokenPlus(keys[k].tokens, g[k].tokens))
      else keys[k]
  }

  function UpdateTokens(pool: Pool, g: map<string, Tokens>): Pool {
    map a | a in pool :: if a in g then pool[a].(tokens := TokenPlus(pool[a].tokens, g[a])) else pool[a]
  }

  function ChargeKey(keys: map<string, KeyRow>, id: string, at: real, t: Tokens): map<string, KeyRow> {
    if id !in keys then keys else
    keys[id := KeyRow(keys[id].requests + 1, Greatest(keys[id].lastUsedAt, MaxReal(0.0, at)), TokenPlus(keys[id].tokens, t))]
  }

  /** The plain meaning of one usage event for the stored api keys. */
  function KeyStep(keys: map<string, KeyRow>, e: Event): map<string, KeyRow> {
    if e.body.Usage? && e.body.usage.apiKeyId != ""
    then ChargeKey(keys, e.body.usage.apiKeyId, e.body.usage.occurredAt, TokensOf(e.body.usage))
    else keys
  }

  lemma ChargeKeyCommutes(keys: map<string, KeyRow>, i1: string, a1: real, t1: Tokens, i2: string, a2: real, t2: Tokens)
    ensures ChargeKey(ChargeKey(keys, i1, a1, t1), i2, a2, t2) == ChargeKey(ChargeKey(keys, i2, a2, t2), i1, a1, t1)
  {
  }

  predicate ChargesKey(e: Event) { e.body.Usage? && e.body.usage.apiKeyId != "" }

  lemma KeyStepPair(s: map<string, KeyRow>, x: Event, y: Event)
    ensures KeyStep(KeyStep(s, x), y) == KeyStep(KeyStep(s, y), x)
  {
    if ChargesKey(x) && ChargesKey(y) {
      var u, v := x.body.usage, y.body.usage;
      var tu, tv := TokensOf(u), TokensOf(v);
      ChargeKeyCommutes(s, u.apiKeyId, u.occurredAt, tu, v.apiKeyId, v.occurredAt, tv);
    }
  }

  lemma KeyStepCommutes()
    ensures Commutes(KeyStep)
  {
    forall s, x, y { KeyStepPair(s, x, y); }
  }

  lemma {:induction false} UpdateKeysIsFold(keys: map<string, KeyRow>, es: seq<Event>)
    ensures UpdateKeys(keys, KeyDeltas(es)) == FoldL(KeyStep, keys, es)
    ensures forall k :: k in KeyDeltas(es) ==> KeyDeltas(es)[k].lastUsedAt >= 0.0
  {
    if es == [] {
      assert UpdateKeys(keys, map[]) == keys;
    } else {
      var init, e := es[..|es| - 1], es[|es| - 1];
      UpdateKeysIsFold(keys, init);
      UpdateKeysStep(keys, KeyDeltas(init), e);
    }
  }

  lemma UpdateKeysStep(keys: map<string, KeyRow>, g: map<string, KeyDelta>, e: Event)
    requires forall k :: k in g ==> g[k].lastUsedAt >= 0.0
    ensures UpdateKeys(keys, GroupKey(g, e)) == KeyStep(UpdateKeys(keys, g), e)
    ensures forall k :: k in GroupKey(g, e) ==> GroupKey(g, e)[k].lastUsedAt >= 0.0
  {
    if ChargesKey(e) {
      ChargeAfterUpdate(keys, g, e.body.usage.apiKeyId, e.body.usage.occurredAt, TokensOf(e.body.usage));
    }
  }

  lemma ChargeAfterUpdate(keys: map<string, KeyRow>, g: map<string, KeyDelta>, id: string, at: real, t: Tokens)
    requires forall k :: k in g ==> g[k].lastUsedAt >= 0.0
    ensures UpdateKeys(keys, ChargeDelta(g, id, at, t)) == ChargeKey(UpdateKeys(keys, g), id, at, t)
    ensures forall k :: k in ChargeDelta(g, id, at, t) ==> ChargeDelta(g, id, at, t)[k].lastUsedAt >= 0.0
  {
  }

  /* ---- the increments against the daily rows ---- */

  function Owner(u: UsageFields, dim: Dim): string {
    match dim
    case GlobalDim => ""
    case KeyDim => u.apiKeyId
    case AccountDim => u.accountId
    case ModelDim => u.model
  }

  function LimitOf(dim: Dim): nat { if dim == ModelDim then MODEL_LIMIT else ID_LIMIT }

  /** The event is counted in the rows with this identifier. */
  predicate Billed(e: Event, dim: Dim, id: string) {
    e.body.Usage? && Owner(e.body.usage, dim) != "" && Clip(Owner(e.body.usage, dim), LimitOf(dim)) == id
  }

  predicate Owned(e: Event, dim: Dim, id: string) {
    e.body.Usage? && Owner(e.body.usage, dim) != "" && Owner(e.body.usage, dim) == id
  }

  /** Total cost of the events billed to an identifier, or of those it owns itself. */
  function Spent(es: seq<Event>, dim: Dim, id: string, own: bool): Counts {
    if es == [] then ZERO_COUNTS else
    var s, e := Spent(es[..|es| - 1], dim, id, own), es[|es| - 1];
    if (if own then Owned(e, dim, id) else Billed(e, dim, id)) then s.Plus(Cost(e.body.usage)) else s
  }

  function SumDays(d: Daily, days: seq<string>, dim: Dim, id: string): Counts {
    if days == [] then ZERO_COUNTS
    else SumDays(d, days[..|days| - 1], dim, id).Plus(At(d, DimKey(days[|days| - 1], dim, id)))
  }

  lemma {:induction false} SumDaysBump(d: Daily, ks: seq<DimKey>, c: Counts, hit: bool, day: string, days: seq<string>, dim: Dim, id: string)
    requires Distinct(days)
    requires forall x :: x in days ==> (DimKey(x, dim, id) in ks <==> hit && x == day)
    ensures SumDays(BumpAll(d, ks, c), days, dim, id) ==
            if hit && day in days then SumDays(d, days, dim, id).Plus(c) else SumDays(d, days, dim, id)
  {
    if days != [] {
      var init, last := days[..|days| - 1], days[|days| - 1];
      assert days == init + [last];
      assert last !in init;
      SumDaysBump(d, ks, c, hit, day, init, dim, id);
      BumpAllAt(d, ks, c, DimKey(last, dim, id));
      PlusLaws(SumDays(d, init, dim, id), c, At(d, DimKey(last, dim, id)));
      PlusLaws(SumDays(d, init, dim, id), At(d, DimKey(last, dim, id)), c);
    }
  }

  lemma SumDaysStep(d: Daily, e: Event, days: seq<string>, dim: Dim, id: string)
    requires e.body.Usage? && Distinct(days) && dim != GlobalDim
    ensures SumDays(AddUsage(d, e), days, dim, id) ==
            if Billed(e, dim, id) && e.body.usage.day in days then SumDays(d, days, dim, id).Plus(Cost(e.body.usage))
            else SumDays(d, days, dim, id)
  {
    forall x { DimsOf(e.body.usage, DimKey(x, dim, id)); }
    SumDaysBump(d, Dims(e.body.usage), Cost(e.body.usage), Billed(e, dim, id), e.body.usage.day, days, dim, id);
  }

  ghost predicate Covers(days: seq<string>, es: seq<Event>) {
    Distinct(days) && forall e :: e in es && e.body.Usage? ==> e.body.usage.day in days
  }

  lemma {:induction false} SumDaysIsSpent(es: seq<Event>, days: seq<string>, dim: Dim, id: string)
    requires Covers(days, es) && dim != GlobalDim
    ensures SumDays(DailyOf(es), days, dim, id) == Spent(es, dim, id, false)
  {
    if es == [] {
      SumDaysEmpty(days, dim, id);
    } else {
      var init, e := es[..|es| - 1], es[|es| - 1];
      SumDaysIsSpent(init, days, dim, id);
      assert e in es;
      if e.body.Usage? {
        SumDaysStep(DailyOf(init), e, days, dim, id);
      }
    }
  }

  lemma {:induction false} SumDaysEmpty(days: seq<string>, dim: Dim, id: string)
    ensures SumDays(map[], days, dim, id) == ZERO_COUNTS
  {
    if days != [] {
      SumDaysEmpty(days[..|days| - 1], dim, id);
    }
  }

  predicate TokensMatch(t: Tokens, c: Counts) { t.prompt == c.prompt && t.completion == c.completion && t.total == c.total }

  lemma MatchPlus(t: Tokens, c: Counts, u: UsageFields)
    requires TokensMatch(t, c)
    ensures TokensMatch(TokenPlus(t, TokensOf(u)), c.Plus(Cost(u)))
    ensures !u.ok ==> TokensMatch(t, c.Plus(Cost(u)))
    ensures c.Plus(Cost(u)).requests == c.requests + 1
  {
  }

  lemma ChargedKey(g: map<string, KeyDelta>, e: Event, id: string)
    ensures var d, d' := GetOr(g, id, ZERO_KEY), GetOr(GroupKey(g, e), id, ZERO_KEY);
            if Owned(e, KeyDim, id) then d'.requests == d.requests + 1 && d'.tokens == TokenPlus(d.tokens, TokensOf(e.body.usage)) else d' == d
  {
  }

  lemma {:induction false} KeyIncrement(es: seq<Event>, id: string)
    ensures var d, s := GetOr(KeyDeltas(es), id, ZERO_KEY), Spent(es, KeyDim, id, true);
            d.requests == s.requests && TokensMatch(d.tokens, s)
  {
    if es != [] {
      var init, e := es[..|es| - 1], es[|es| - 1];
      KeyIncrement(init, id);
      ChargedKey(KeyDeltas(init), e, id);
      if Owned(e, KeyDim, id) {
        MatchPlus(GetOr(KeyDeltas(init), id, ZERO_KEY).tokens, Spent(init, KeyDim, id, true), e.body.usage);
      }
    }
  }

  lemma {:induction false} AccountIncrement(es: seq<Event>, id: string)
    ensures TokensMatch(GetOr(AccountTokens(es), id, ZERO_TOKENS), Spent(es, AccountDim, id, true))
  {
    if es != [] {
      var init, e := es[..|es| - 1], es[|es| - 1];
      AccountIncrement(init, id);
      if Owned(e, AccountDim, id) {
        MatchPlus(GetOr(AccountTokens(init), id, ZERO_TOKENS), Spent(init, AccountDim, id, true), e.body.usage);
      }
    }
  }

  /** Billed under this identifier although it belongs to a longer one. */
  predicate Clipped(e: Event, dim: Dim, id: string) { Billed(e, dim, id) && !Owned(e, dim, id) }

  /** Total cost of the events of longer identifiers that are clipped to this one. */
  function ClippedTo(es: seq<Event>, dim: Dim, id: string): Counts {
    if es == [] then ZERO_COUNTS else
    var s, e := ClippedTo(es[..|es| - 1], dim, id), es[|es| - 1];
    if Clipped(e, dim, id) then s.Plus(Cost(e.body.usage)) else s
  }

  /** In every counter, `c` is `a` and `b` together. */
  predicate Sums(c: Counts, a: Counts, b: Counts) {
    && c.requests == a.requests + b.requests && c.success == a.success + b.success && c.fail == a.fail + b.fail
    && c.prompt == a.prompt + b.prompt && c.completion == a.completion + b.completion && c.total == a.total + b.total
    && c.cacheRead == a.cacheRead + b.cacheRead && c.cacheCreation == a.cacheCreation + b.cacheCreation
    && c.reasoning == a.reasoning + b.reasoning && c.cacheHits == a.cacheHits + b.cacheHits
  }

  lemma SumsStep(c: Counts, a: Counts, b: Counts, d: Counts)
    requires Sums(c, a, b)
    ensures Sums(c.Plus(d), a.Plus(d), b) && Sums(c.Plus(d), a, b.Plus(d))
  {
  }

  lemma OwnedIsBilled(e: Event, dim: Dim, id: string)
    requires |id| <= LimitOf(dim) && Owned(e, dim, id)
    ensures Billed(e, dim, id)
  {
  }

  /** What is billed under an identifier is what it owns and what is clipped to it. */
  lemma {:induction false} BilledSplits(es: seq<Event>, dim: Dim, id: string)
    requires |id| <= LimitOf(dim)
    ensures Sums(Spent(es, dim, id, false), Spent(es, dim, id, true), ClippedTo(es, dim, id))
  {
    if es != [] {
      var init, e := es[..|es| - 1], es[|es| - 1];
      BilledSplits(init, dim, id);
      if Owned(e, dim, id) {
        OwnedIsBilled(e, dim, id);
      }
      if Billed(e, dim, id) {
        SumsStep(Spent(init, dim, id, false), Spent(init, dim, id, true), ClippedTo(init, dim, id), Cost(e.body.usage));
      }
    }
  }

  function WeightOf(u: UsageFields): int { Charged(u, u.prompt) + Charged(u, u.completion) + Charged(u, TotalOf(u)) }

  lemma WeightOfEvent(u: UsageFields)
    ensures WeightOf(u) >= 0 && (WeightOf(u) > 0 <==> Carries(TokensOf(u)))
  {
  }

  lemma CostWeight(u: UsageFields)
    ensures var c := Cost(u); c.requests == 1 && c.prompt + c.completion + c.total == WeightOf(u)
  {
  }

  function ClippedOne(dim: Dim, id: string): Event -> int { e => if Clipped(e, dim, id) then 1 else 0 }

  function ClippedWeight(dim: Dim, id: string): Event -> int { e => if Clipped(e, dim, id) then WeightOf(e.body.usage) else 0 }

  lemma {:induction false} ClippedSums(es: seq<Event>, dim: Dim, id: string)
    ensures var c := ClippedTo(es, dim, id);
            && c.requests == SumInts(ClippedOne(dim, id), es)
            && c.prompt + c.completion + c.total == SumInts(ClippedWeight(dim, id), es)
  {
    if es != [] {
      var init, e := es[..|es| - 1], es[|es| - 1];
      ClippedSums(init, dim, id);
      if Clipped(e, dim, id) {
        CostWeight(e.body.usage);
      }
    }
  }

  lemma {:induction false} ClippedSane(es: seq<Event>, dim: Dim, id: string)
    ensures ZERO_COUNTS.AtMost(ClippedTo(es, dim, id))
  {
    if es != [] {
      ClippedSane(es[..|es| - 1], dim, id);
      if Clipped(es[|es| - 1], dim, id) {
        CostShape(es[|es| - 1].body.usage);
      }
    }
  }

  /** Nothing in it is negative, so it vanishes only with each of its events. */
  lemma ClippedVanishes(es: seq<Event>, dim: Dim, id: string)
    ensures var c := ClippedTo(es, dim, id);
            && (c.requests == 0 <==> !exists e :: e in es && Clipped(e, dim, id))
            && (c.prompt + c.completion + c.total == 0 <==> !exists e :: e in es && Clipped(e, dim, id) && Carries(TokensOf(e.body.usage)))
  {
    ClippedSums(es, dim, id);
    SumIntsPositive(ClippedOne(dim, id), es);
    assert forall e :: ClippedOne(dim, id)(e) > 0 <==> Clipped(e, dim, id);
    forall e | e in es
      ensures ClippedWeight(dim, id)(e) >= 0
      ensures ClippedWeight(dim, id)(e) > 0 <==> Clipped(e, dim, id) && Carries(TokensOf(e.body.usage))
    {
      if Clipped(e, dim, id) {
        WeightOfEvent(e.body.usage);
      }
    }
    SumIntsPositive(ClippedWeight(dim, id), es);
  }

  /** The tokens fall short of those in `rows` by those in `gap`. */
  predicate ShortBy(t: Tokens, rows: Counts, gap: Counts) {
    rows.prompt == t.prompt + gap.prompt && rows.completion == t.completion + gap.completion && rows.total == t.total + gap.total
  }

  /**
   The increments sent to the api-key and account rows against the daily rows of the same identifier.
   They fall short of the daily rows by exactly the cost of the events whose longer identifier is clipped
   to this one. So a key's increment agrees exactly when there is no such event, and an account's, which
   counts tokens alone, exactly when no such event carries any.
   */
  lemma IncrementsMatchDailyRows(es: seq<Event>, days: seq<string>, id: string)
    requires Covers(days, es) && |id| <= ID_LIMIT
    ensures var d, rows, gap := GetOr(KeyDeltas(es), id, ZERO_KEY), SumDays(DailyOf(es), days, KeyDim, id), ClippedTo(es, KeyDim, id);
            && rows.requests == d.requests + gap.requests && ShortBy(d.tokens, rows, gap)
            && (d.requests == rows.requests && TokensMatch(d.tokens, rows) <==> !exists e :: e in es && Clipped(e, KeyDim, id))
    ensures var t, rows, gap := GetOr(AccountTokens(es), id, ZERO_TOKENS), SumDays(DailyOf(es), days, AccountDim, id), ClippedTo(es, AccountDim, id);
            && ShortBy(t, rows, gap)
            && (TokensMatch(t, rows) <==> !exists e :: e in es && Clipped(e, AccountDim, id) && Carries(TokensOf(e.body.usage)))
  {
    KeyIncrementMatches(es, days, id);
    AccountIncrementMatches(es, days, id);
  }

  lemma AccountIncrementMatches(es: seq<Event>, days: seq<string>, id: string)
    requires Covers(days, es) && |id| <= ID_LIMIT
    ensures var t, rows, gap := GetOr(AccountTokens(es), id, ZERO_TOKENS), SumDays(DailyOf(es), days, AccountDim, id), ClippedTo(es, AccountDim, id);
            && ShortBy(t, rows, gap)
            && (TokensMatch(t, rows) <==> !exists e :: e in es && Clipped(e, AccountDim, id) && Carries(TokensOf(e.body.usage)))
  {
    SumDaysIsSpent(es, days, AccountDim, id);
    AccountIncrement(es, id);
    BilledSplits(es, AccountDim, id);
    ClippedVanishes(es, AccountDim, id);
    ClippedSane(es, AccountDim, id);
  }

  lemma KeyIncrementMatches(es: seq<Event>, days: seq<string>, id: string)
    requires Covers(days, es) && |id| <= ID_LIMIT
    ensures var d, rows, gap := GetOr(KeyDeltas(es), id, ZERO_KEY), SumDays(DailyOf(es), days, KeyDim, id), ClippedTo(es, KeyDim, id);
            && rows.requests == d.requests + gap.requests && ShortBy(d.tokens, rows, gap)
            && (d.requests == rows.requests && TokensMatch(d.tokens, rows) <==> !exists e :: e in es && Clipped(e, KeyDim, id))
  {
    SumDaysIsSpent(es, days, KeyDim, id);
    KeyIncrement(es, id);
    BilledSplits(es, KeyDim, id);
    ClippedVanishes(es, KeyDim, id);
    ClippedSane(es, KeyDim, id);
  }
}
