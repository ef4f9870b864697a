/**
 The delivery protocol: any number of writers read and reclaim stream messages, commit batches with an
 inbox row per event id, acknowledge after the commit, crash at any point, and move exhausted messages
 to the dead-letter stream. A run is any sequence of steps; a step that is not enabled changes nothing.
 */
module WriterProtocol {
  import opened Common
  import opened WriterEvents
  import opened AccountStats
  import opened UsageAggregation
  import opened WriterStore

  type MessageId = nat
  type WriterId = nat

  /** Where one writer stands in its loop. A batch may hold a message that other writers hold too. */
  datatype Phase =
    | Holding(batch: seq<MessageId>)
    | Acking(batch: seq<MessageId>)
    | Failing(batch: seq<MessageId>, condemned: set<MessageId>)

  const IDLE := Holding([])

  /**
   `log` remembers every message ever appended, decoded (`None` when it does not decode or has no id);
   `deliveries`, `dlq`, `purged` and `applied` are histories: delivery counts, dead-letter copies ever
   made, inbox ids removed by retention, and the accepted events in commit order.
   */
  datatype System = System(
    log: map<MessageId, Option<Event>>,
    unread: set<MessageId>,
    pending: set<MessageId>,
    stream: set<MessageId>,
    deliveries: map<MessageId, nat>,
    dlq: set<MessageId>,
    writers: map<WriterId, Phase>,
    db: Database,
    purged: set<string>,
    applied: seq<Event>)

  datatype Step =
    | Publish(m: MessageId, e: Option<Event>)
    | Read(w: WriterId, m: MessageId)
    | Reclaim(w: WriterId, m: MessageId)
    | Quarantine(m: MessageId)
    | DropInvalid(m: MessageId)
    | CommitBatch(w: WriterId, expired: set<string>)
    | Ack(w: WriterId, m: MessageId)
    | Delete(w: WriterId, m: MessageId)
    | Fail(w: WriterId)
    | Condemn(w: WriterId, m: MessageId)
    | CopyDead(w: WriterId, m: MessageId)
    | AckDead(w: WriterId, m: MessageId)
    | Restart(w: WriterId)

  function PhaseOf(s: System, w: WriterId): Phase { if w in s.writers then s.writers[w] else IDLE }

  function Delivered(s: System, m: MessageId): nat { if m in s.deliveries then s.deliveries[m] else 0 }

  predicate Decodes(s: System, m: MessageId) { m in s.log && s.log[m].Some? }

  /** The decoded events of a batch. */
  function Events(s: System, b: seq<MessageId>): seq<Event> {
    if b == [] then [] else
    if Decodes(s, b[|b| - 1]) then Events(s, b[..|b| - 1]) + [s.log[b[|b| - 1]].value] else Events(s, b[..|b| - 1])
  }

  predicate Enabled(s: System, st: Step, maxRetries: nat) {
    match st
    case Publish(m, e) => m !in s.log && (e.Some? ==> e.value.id != "")
    case Read(w, m) => m in s.unread && PhaseOf(s, w).Holding?
    case Reclaim(w, m) => m in s.pending && PhaseOf(s, w).Holding?
    case Quarantine(m) => m in s.pending && !Decodes(s, m)
    case DropInvalid(m) => m in s.dlq && !Decodes(s, m)
    case CommitBatch(w, expired) =>
      && PhaseOf(s, w).Holding? && PhaseOf(s, w).batch != []
      && Select(Accept(s.db.inbox, Events(s, PhaseOf(s, w).batch)), PoisonKind) == []
      && expired <= s.db.inbox
    case Ack(w, m) => PhaseOf(s, w).Acking? && m in PhaseOf(s, w).batch
    case Delete(w, m) =>
      && m !in s.pending
      && (match PhaseOf(s, w)
          case Holding(_) => false
          case Acking(b) => m in b
          case Failing(_, c) => m in c && m in s.dlq)
    case Fail(w) => !PhaseOf(s, w).Failing?
    case Condemn(w, m) => PhaseOf(s, w).Failing? && m in PhaseOf(s, w).batch && m in s.pending && Delivered(s, m) >= maxRetries
    case CopyDead(w, m) => PhaseOf(s, w).Failing? && m in PhaseOf(s, w).condemned
    case AckDead(w, m) => PhaseOf(s, w).Failing? && m in PhaseOf(s, w).condemned && m in s.dlq
    case Restart(w) => true
  }

  function Receive(s: System, w: WriterId, m: MessageId): System {
    s.(pending := s.pending + {m}, unread := s.unread - {m}, deliveries := s.deliveries[m := Delivered(s, m) + 1],
       writers := if Decodes(s, m) then s.writers[w := Holding(PhaseOf(s, w).batch + [m])] else s.writers)
  }

  function Next(s: System, st: Step, maxRetries: nat): System {
    if !Enabled(s, st, maxRetries) then s else
    match st
    case Publish(m, e) => s.(log := s.log[m := e], unread := s.unread + {m}, stream := s.stream + {m})
    case Read(w, m) => Receive(s, w, m)
    case Reclaim(w, m) => Receive(s, w, m)
    case Quarantine(m) => s.(dlq := s.dlq + {m})
    case DropInvalid(m) => s.(pending := s.pending - {m}, stream := s.stream - {m})
    case CommitBatch(w, expired) =>
      var b := PhaseOf(s, w).batch;
      s.(db := Commit(s.db, Events(s, b), expired), purged := s.purged + expired,
         applied := s.applied + Accept(s.db.inbox, Events(s, b)), writers := s.writers[w := Acking(b)])
    case Ack(w, m) => s.(pending := s.pending - {m})
    case Delete(w, m) => s.(stream := s.stream - {m})
    case Fail(w) => s.(writers := s.writers[w := Failing(PhaseOf(s, w).batch, {})])
    case Condemn(w, m) =>
      s.(writers := s.writers[w := Failing(PhaseOf(s, w).batch, PhaseOf(s, w).condemned + {m})])
    case CopyDead(w, m) => s.(dlq := s.dlq + {m})
    case AckDead(w, m) => s.(pending := s.pending - {m})
    case Restart(w) => s.(writers := s.writers[w := IDLE])
  }

  function Run(s: System, steps: seq<Step>, maxRetries: nat): System {
    if steps == [] then s else Next(Run(s, steps[..|steps| - 1], maxRetries), steps[|steps| - 1], maxRetries)
  }

  /** An empty stream in front of any database that has no inbox rows yet. */
  function Start(db: Database): System {
    System(map[], {}, {}, {}, map[], {}, map[], db.(inbox := {}), {}, [])
  }

  /* ---- no loss ---- */

  /** The message is still deliverable, or its event id has been applied, or it has a dead-letter copy. */
  ghost predicate Accounted(s: System, m: MessageId) {
    || m in s.unread || m in s.pending || m in s.dlq
    || (Decodes(s, m) && s.log[m].value.id in Ids(s.applied))
  }

  ghost predicate Shape(s: System) {
    && s.unread !! s.deliveries.Keys && s.pending <= s.deliveries.Keys <= s.log.Keys && s.dlq <= s.deliveries.Keys
    && s.unread <= s.stream && s.pending <= s.stream && s.stream <= s.log.Keys
    && (forall m :: Decodes(s, m) ==> s.log[m].value.id != "")
  }

  ghost predicate BatchesOk(s: System, maxRetries: nat) {
    forall w :: w in s.writers ==> PhaseOk(s, s.writers[w], maxRetries)
  }

  ghost predicate NoLoss(s: System, maxRetries: nat) {
    && (forall m :: m in s.log ==> Accounted(s, m))
    && (forall m :: m in s.dlq && Decodes(s, m) ==> Delivered(s, m) >= maxRetries)
  }

  lemma {:induction false} EventsMembers(s: System, b: seq<MessageId>)
    ensures forall m :: m in b && Decodes(s, m) ==> s.log[m].value in Events(s, b)
    ensures forall e :: e in Events(s, b) ==> exists m :: m in b && Decodes(s, m) && s.log[m].value == e
  {
    if b != [] {
      var init, last := b[..|b| - 1], b[|b| - 1];
      assert b == init + [last];
      EventsMembers(s, init);
    }
  }

  lemma IdsConcat(a: seq<Event>, b: seq<Event>)
    ensures Ids(a + b) == Ids(a) + Ids(b)
  {
    forall x | x in Ids(a) + Ids(b) ensures x in Ids(a + b) {
      if x in Ids(a) {
        var e :| e in a && e.id == x;
        assert e in a + b;
      } else {
        var e :| e in b && e.id == x;
        assert e in a + b;
      }
    }
  }

  lemma ShapeKept(s: System, st: Step, maxRetries: nat)
    requires Shape(s) && BatchesOk(s, maxRetries)
    ensures Shape(Next(s, st, maxRetries))
  {
  }

  /** Delivery counts, decoded messages and applied ids only grow. */
  lemma Grows(s: System, st: Step, maxRetries: nat)
    requires Shape(s)
    ensures var t := Next(s, st, maxRetries);
            && (forall m :: m in s.log ==> m in t.log && t.log[m] == s.log[m])
            && (forall m :: Delivered(s, m) <= Delivered(t, m))
            && Ids(s.applied) <= Ids(t.applied) && s.applied <= t.applied
            && s.dlq <= t.dlq && s.deliveries.Keys <= t.deliveries.Keys
  {
    if st.CommitBatch? && Enabled(s, st, maxRetries) {
      IdsConcat(s.applied, Accept(s.db.inbox, Events(s, PhaseOf(s, st.w).batch)));
    }
  }

  /** After a commit every id of the batch is either newly applied or was in the inbox already. */
  lemma CommitCovers(s: System, st: Step, maxRetries: nat)
    requires st.CommitBatch? && Enabled(s, st, maxRetries)
    requires s.db.inbox <= Ids(s.applied)
    requires BatchesOk(s, maxRetries) && Shape(s)
    ensures var t := Next(s, st, maxRetries);
            forall m :: m in PhaseOf(s, st.w).batch ==> Decodes(s, m) && s.log[m].value.id in Ids(t.applied)
  {
    var b := PhaseOf(s, st.w).batch;
    var es := Events(s, b);
    EventsMembers(s, b);
    AcceptMeaning(s.db.inbox, es);
    IdsConcat(s.applied, Accept(s.db.inbox, es));
  }

  /** What is known of one writer's batch. */
  ghost predicate PhaseOk(s: System, p: Phase, maxRetries: nat) {
    && (forall m :: m in p.batch ==> Decodes(s, m) && m in s.deliveries)
    && (p.Acking? ==> forall m :: m in p.batch ==> s.log[m].value.id in Ids(s.applied))
    && (p.Failing? ==> forall m :: m in p.condemned ==> m in p.batch && Delivered(s, m) >= maxRetries)
  }

  lemma PhaseStaysOk(s: System, t: System, p: Phase, maxRetries: nat)
    requires PhaseOk(s, p, maxRetries)
    requires (forall m :: m in s.log ==> m in t.log && t.log[m] == s.log[m]) && s.deliveries.Keys <= t.deliveries.Keys
    requires (forall m :: Delivered(s, m) <= Delivered(t, m)) && Ids(s.applied) <= Ids(t.applied)
    ensures PhaseOk(t, p, maxRetries)
  {
  }

  lemma CommitterOk(s: System, st: Step, maxRetries: nat)
    requires Shape(s) && BatchesOk(s, maxRetries) && s.db.inbox <= Ids(s.applied) && Enabled(s, st, maxRetries) && st.CommitBatch?
    ensures PhaseOk(Next(s, st, maxRetries), PhaseOf(Next(s, st, maxRetries), st.w), maxRetries)
  {
    assert PhaseOk(s, PhaseOf(s, st.w), maxRetries);
    CommitCovers(s, st, maxRetries);
    CommitChanges(s, st, maxRetries);
  }

  /** The writer that moves is left with a batch in order. */
  lemma MoverOk(s: System, st: Step, maxRetries: nat, w: WriterId)
    requires Shape(s) && BatchesOk(s, maxRetries) && Enabled(s, st, maxRetries) && !st.CommitBatch?
    requires var t := Next(s, st, maxRetries); w in t.writers && (w !in s.writers || t.writers[w] != s.writers[w])
    ensures PhaseOk(Next(s, st, maxRetries), Next(s, st, maxRetries).writers[w], maxRetries)
  {
    assert PhaseOk(s, PhaseOf(s, w), maxRetries);
  }

  lemma BatchesKept(s: System, st: Step, maxRetries: nat)
    requires Shape(s) && BatchesOk(s, maxRetries) && s.db.inbox <= Ids(s.applied)
    ensures BatchesOk(Next(s, st, maxRetries), maxRetries)
  {
    var t := Next(s, st, maxRetries);
    Grows(s, st, maxRetries);
    forall w | w in t.writers ensures PhaseOk(t, t.writers[w], maxRetries) {
      if w in s.writers && t.writers[w] == s.writers[w] {
        PhaseStaysOk(s, t, s.writers[w], maxRetries);
      } else if st.CommitBatch? {
        CommitterOk(s, st, maxRetries);
      } else {
        MoverOk(s, st, maxRetries, w);
      }
    }
  }

  lemma NoLossKept(s: System, st: Step, maxRetries: nat)
    requires Shape(s) && BatchesOk(s, maxRetries) && NoLoss(s, maxRetries)
    ensures NoLoss(Next(s, st, maxRetries), maxRetries)
  {
    Grows(s, st, maxRetries);
    var t := Next(s, st, maxRetries);
    forall m | m in t.log ensures Accounted(t, m) {
      if m in s.log {
        assert Accounted(s, m);
      }
    }
  }

  /* ---- exactly once ---- */

  /** The database is the plain fold of the accepted events, and every accepted event was published. */
  ghost predicate Ledger(s: System, start: Database) {
    && Ids(s.applied) == s.db.inbox + s.purged
    && CoreDb(s.db) == FoldL(Count, CoreDb(start), s.applied)
    && (forall e :: e in s.applied ==> Published(s, e))
  }

  ghost predicate Published(s: System, e: Event) { exists m :: Decodes(s, m) && s.log[m].value == e }

  /** Only an enabled commit touches the database and what has been applied. */
  lemma OtherStepsKeepLedger(s: System, st: Step, maxRetries: nat)
    requires !(st.CommitBatch? && Enabled(s, st, maxRetries))
    ensures var t := Next(s, st, maxRetries); t.applied == s.applied && t.db == s.db && t.purged == s.purged
  {
  }

  lemma CommitChanges(s: System, st: Step, maxRetries: nat)
    requires st.CommitBatch? && Enabled(s, st, maxRetries)
    ensures var t, es := Next(s, st, maxRetries), Events(s, PhaseOf(s, st.w).batch);
            && t.db == Commit(s.db, es, st.expired) && t.purged == s.purged + st.expired && st.expired <= s.db.inbox
            && t.applied == s.applied + Accept(s.db.inbox, es) && t.log == s.log
  {
  }

  /** The books after one commit. */
  lemma CommitBooks(start: Database, db: Database, applied: seq<Event>, purged: set<string>, es: seq<Event>, expired: set<string>)
    requires Ids(applied) == db.inbox + purged && expired <= db.inbox
    requires CoreDb(db) == FoldL(Count, CoreDb(start), applied)
    ensures var acc, d := Accept(db.inbox, es), Commit(db, es, expired);
            Ids(applied + acc) == d.inbox + (purged + expired) && CoreDb(d) == FoldL(Count, CoreDb(start), applied + acc)
  {
    var acc := Accept(db.inbox, es);
    CommitIsFold(db, es, expired);
    FoldConcat(Count, CoreDb(start), applied, acc);
    IdsConcat(applied, acc);
  }

  lemma LedgerKept(s: System, st: Step, maxRetries: nat, start: Database)
    requires Shape(s) && BatchesOk(s, maxRetries) && Ledger(s, start)
    ensures Ledger(Next(s, st, maxRetries), start)
  {
    Grows(s, st, maxRetries);
    var t := Next(s, st, maxRetries);
    if st.CommitBatch? && Enabled(s, st, maxRetries) {
      var es := Events(s, PhaseOf(s, st.w).batch);
      CommitChanges(s, st, maxRetries);
      CommitBooks(start, s.db, s.applied, s.purged, es, st.expired);
      EventsMembers(s, PhaseOf(s, st.w).batch);
      AcceptMeaning(s.db.inbox, es);
    } else {
      OtherStepsKeepLedger(s, st, maxRetries);
    }
    forall e | e in t.applied ensures Published(t, e) {
      if e in s.applied {
        StillPublished(s, t, e);
      } else {
        assert e in Events(s, PhaseOf(s, st.w).batch);
      }
    }
  }

  lemma StillPublished(s: System, t: System, e: Event)
    requires (forall m :: m in s.log ==> m in t.log && t.log[m] == s.log[m]) && Published(s, e)
    ensures Published(t, e)
  {
    var m :| Decodes(s, m) && s.log[m].value == e;
    assert Decodes(t, m);
  }

  /** No enabled commit ever meets an id that retention has already removed from the inbox. */
  ghost predicate NoPurgedRedelivery(s: System, steps: seq<Step>, maxRetries: nat) {
    steps == [] ||
    var init, last := steps[..|steps| - 1], steps[|steps| - 1];
    var t := Run(s, init, maxRetries);
    && NoPurgedRedelivery(s, init, maxRetries)
    && (last.CommitBatch? && Enabled(t, last, maxRetries) ==> Ids(Events(t, PhaseOf(t, last.w).batch)) !! t.purged)
  }

  ghost predicate SafeState(s: System, maxRetries: nat, start: Database) {
    Shape(s) && BatchesOk(s, maxRetries) && NoLoss(s, maxRetries) && Ledger(s, start)
  }

  /** The safety invariant of every run of every number of writers. */
  lemma {:induction false} RunsAreSafe(start: Database, steps: seq<Step>, maxRetries: nat)
    ensures SafeState(Run(Start(start), steps, maxRetries), maxRetries, start)
  {
    if steps == [] {
      assert CoreDb(Start(start).db) == CoreDb(start);
    } else {
      var s, st := Run(Start(start), steps[..|steps| - 1], maxRetries), steps[|steps| - 1];
      RunsAreSafe(start, steps[..|steps| - 1], maxRetries);
      ShapeKept(s, st, maxRetries);
      BatchesKept(s, st, maxRetries);
      NoLossKept(s, st, maxRetries);
      LedgerKept(s, st, maxRetries, start);
    }
  }

  lemma DistinctJoin<T>(x: seq<T>, y: seq<T>)
    ensures Distinct(x + y) <==> Distinct(x) && Distinct(y) && forall z :: z in x ==> z !in y
  {
    var xy := x + y;
    assert forall i :: 0 <= i < |x| ==> xy[i] == x[i];
    assert forall i :: 0 <= i < |y| ==> xy[|x| + i] == y[i];
    if Distinct(x) && Distinct(y) && forall z :: z in x ==> z !in y {
      forall i, j | 0 <= i < j < |xy| ensures xy[i] != xy[j] {
        if i < |x| <= j {
          assert x[i] in x && y[j - |x|] in y;
        } else if |x| <= i {
          assert xy[i] == y[i - |x|] && xy[j] == y[j - |x|];
        }
      }
    }
  }

  lemma IdMembers(a: seq<Event>)
    ensures forall z :: z in IdSeq(a) <==> z in Ids(a)
  {
    forall z | z in IdSeq(a) ensures z in Ids(a) {
      var i :| 0 <= i < |a| && IdSeq(a)[i] == z;
      assert a[i] in a;
    }
    forall z | z in Ids(a) ensures z in IdSeq(a) {
      var e :| e in a && e.id == z;
      var i :| 0 <= i < |a| && a[i] == e;
      assert IdSeq(a)[i] == z;
    }
  }

  lemma DistinctConcat(a: seq<Event>, b: seq<Event>)
    ensures Distinct(IdSeq(a + b)) <==> Distinct(IdSeq(a)) && Distinct(IdSeq(b)) && Ids(a) !! Ids(b)
  {
    assert IdSeq(a + b) == IdSeq(a) + IdSeq(b);
    DistinctJoin(IdSeq(a), IdSeq(b));
    IdMembers(a);
    IdMembers(b);
  }

  /** The ids applied so far are distinct as long as no purged one came back. */
  ghost predicate Once(applied: seq<Event>, inbox: set<string>, purged: set<string>, clean: bool) {
    if clean then Distinct(IdSeq(applied)) && inbox !! purged else !Distinct(IdSeq(applied))
  }

  lemma OnceAfterCommit(applied: seq<Event>, inbox: set<string>, purged: set<string>, clean: bool, es: seq<Event>, expired: set<string>)
    requires Once(applied, inbox, purged, clean) && Ids(applied) == inbox + purged && expired <= inbox
    requires forall e :: e in es ==> e.id != ""
    ensures var acc := Accept(inbox, es);
            Once(applied + acc, inbox + Ids(acc) - expired, purged + expired, clean && Ids(es) !! purged)
  {
    var acc := Accept(inbox, es);
    AcceptMeaning(inbox, es);
    DistinctConcat(applied, acc);
    if clean && !(Ids(es) !! purged) {
      var e :| e in es && e.id in purged;
      assert e.id in Ids(acc) && e.id in Ids(applied);
    } else if clean {
      assert Ids(acc) <= Ids(es);
    }
  }

  lemma {:induction false} OnceWhileClean(start: Database, steps: seq<Step>, maxRetries: nat)
    ensures var s := Run(Start(start), steps, maxRetries);
            Once(s.applied, s.db.inbox, s.purged, NoPurgedRedelivery(Start(start), steps, maxRetries))
  {
    if steps != [] {
      var init, st := steps[..|steps| - 1], steps[|steps| - 1];
      var s := Run(Start(start), init, maxRetries);
      OnceWhileClean(start, init, maxRetries);
      RunsAreSafe(start, init, maxRetries);
      if st.CommitBatch? && Enabled(s, st, maxRetries) {
        var es := Events(s, PhaseOf(s, st.w).batch);
        EventsMembers(s, PhaseOf(s, st.w).batch);
        CommitChanges(s, st, maxRetries);
        OnceAfterCommit(s.applied, s.db.inbox, s.purged, NoPurgedRedelivery(Start(start), init, maxRetries), es, st.expired);
      } else {
        OtherStepsKeepLedger(s, st, maxRetries);
      }
    }
  }

  /**
   Exactly once. In every run each applied event was published and the stored counters are the plain
   fold of the applied events, in any order; the applied ids are pairwise distinct exactly when no
   commit meets an id whose inbox row retention has already deleted.
   */
  lemma ExactlyOnce(start: Database, steps: seq<Step>, maxRetries: nat, anyOrder: seq<Event>)
    requires multiset(anyOrder) == multiset(Run(Start(start), steps, maxRetries).applied)
    ensures var s := Run(Start(start), steps, maxRetries);
            && CoreDb(s.db) == FoldL(Count, CoreDb(start), anyOrder)
            && Ids(s.applied) == s.db.inbox + s.purged
            && (forall e :: e in s.applied ==> exists m :: Decodes(s, m) && s.log[m].value == e)
            && (Distinct(IdSeq(s.applied)) <==> NoPurgedRedelivery(Start(start), steps, maxRetries))
  {
    RunsAreSafe(start, steps, maxRetries);
    OnceWhileClean(start, steps, maxRetries);
    CountCommutes();
    FoldPermutation(Count, CoreDb(start), anyOrder, Run(Start(start), steps, maxRetries).applied);
  }

  /**
   No loss. Every message ever appended is still deliverable, or its id has been applied, or it has a
   dead-letter copy; a decodable message is dead-lettered only after `maxRetries` deliveries.
   */
  lemma NothingIsLost(start: Database, steps: seq<Step>, maxRetries: nat, m: MessageId)
    ensures var s := Run(Start(start), steps, maxRetries);
            && (m in s.log ==> m in s.unread || m in s.pending || m in s.dlq
                               || (Decodes(s, m) && s.log[m].value.id in s.db.inbox + s.purged))
            && (m in s.dlq && Decodes(s, m) ==> Delivered(s, m) >= maxRetries)
  {
    RunsAreSafe(start, steps, maxRetries);
    var s := Run(Start(start), steps, maxRetries);
    if m in s.log {
      assert Accounted(s, m);
    }
  }

  /** In every reachable state the stored daily rows conserve the applied usage events. */
  lemma UsageConservedInEveryRun(start: Database, steps: seq<Step>, maxRetries: nat, day: string, ks: seq<DimKey>, dim: Dim)
    requires start.daily == map[]
    requires Slice(ks, day, dim)
    ensures var s := Run(Start(start), steps, maxRetries);
            var g := GlobalRow(s.db.daily, day);
            && g.requests == g.success + g.fail == OnDay(s.applied, day)
            && 0 <= g.cacheHits <= g.success
            && SumRows(s.db.daily, ks).AtMost(g)
  {
    var s := Run(Start(start), steps, maxRetries);
    RunsAreSafe(start, steps, maxRetries);
    CountParts(CoreDb(start), s.applied);
    assert s.db.daily == DailyOf(s.applied);
    GlobalRowCounts(s.applied, day);
    SliceAtMostGlobal(s.applied, ks, day, dim);
  }

  /* ---- token totals of accounts ---- */

  /** The events accepted by commits after which account `a` had a row, or by those after which it had none. */
  function Landed(start: Database, steps: seq<Step>, maxRetries: nat, a: string, row: bool): seq<Event> {
    if steps == [] then [] else
    var rest, s, st := Landed(start, steps[..|steps| - 1], maxRetries, a, row), Run(Start(start), steps[..|steps| - 1], maxRetries), steps[|steps| - 1];
    if st.CommitBatch? && Enabled(s, st, maxRetries) && (a in Next(s, st, maxRetries).db.pool <==> row)
    then rest + Accept(s.db.inbox, Events(s, PhaseOf(s, st.w).batch)) else rest
  }

  lemma TokenPlusAssoc(x: Tokens, y: Tokens, z: Tokens)
    ensures TokenPlus(TokenPlus(x, y), z) == TokenPlus(x, TokenPlus(y, z))
  {
  }

  /** The books of one account: its row, what reached it, and what came too early. */
  ghost predicate TokensSettled(pool: Pool, applied: seq<Event>, a: string, base: Tokens, early: seq<Event>, landed: seq<Event>) {
    && applied == early + landed
    && (a in pool ==> RowTokens(pool, a) == TokenPlus(base, TokensFor(landed, a)))
    && (a !in pool ==> landed == [])
  }

  lemma RowGrows(pool: Pool, r: Pool, applied: seq<Event>, acc: seq<Event>, a: string, base: Tokens, early: seq<Event>, landed: seq<Event>)
    requires TokensSettled(pool, applied, a, base, early, landed) && a in pool && a in r
    requires RowTokens(r, a) == TokenPlus(RowTokens(pool, a), TokensFor(acc, a))
    ensures TokensSettled(r, applied + acc, a, base, early, landed + acc)
  {
    TokensForConcat(landed, acc, a);
    TokenPlusAssoc(base, TokensFor(landed, a), TokensFor(acc, a));
    assert early + landed + acc == early + (landed + acc);
  }

  lemma RowCreated(pool: Pool, r: Pool, applied: seq<Event>, acc: seq<Event>, a: string, early: seq<Event>, landed: seq<Event>)
    requires TokensSettled(pool, applied, a, ZERO_TOKENS, early, landed) && a !in pool && a in r
    requires RowTokens(r, a) == TokenPlus(ZERO_TOKENS, TokensFor(acc, a))
    ensures TokensSettled(r, applied + acc, a, ZERO_TOKENS, early, landed + acc)
  {
    assert landed + acc == acc && early + landed == early;
  }

  lemma StillNoRow(pool: Pool, r: Pool, applied: seq<Event>, acc: seq<Event>, a: string, base: Tokens, early: seq<Event>, landed: seq<Event>)
    requires TokensSettled(pool, applied, a, base, early, landed) && a !in pool && a !in r
    ensures TokensSettled(r, applied + acc, a, base, early + acc, landed)
  {
    assert early + landed == early && early + acc + landed == early + acc;
  }

  lemma TokensAfterCommit(s: System, st: Step, maxRetries: nat, a: string, base: Tokens, early: seq<Event>, landed: seq<Event>)
    requires st.CommitBatch? && Enabled(s, st, maxRetries) && TokensSettled(s.db.pool, s.applied, a, base, early, landed)
    requires a !in s.db.pool ==> base == ZERO_TOKENS
    ensures var t, acc := Next(s, st, maxRetries), Accept(s.db.inbox, Events(s, PhaseOf(s, st.w).batch));
            if a in t.db.pool then TokensSettled(t.db.pool, t.applied, a, base, early, landed + acc)
            else TokensSettled(t.db.pool, t.applied, a, base, early + acc, landed)
  {
    var es := Events(s, PhaseOf(s, st.w).batch);
    var acc, r := Accept(s.db.inbox, es), Commit(s.db, es, st.expired).pool;
    CommitChanges(s, st, maxRetries);
    CommitTokens(s.db, es, st.expired, a);
    if a in s.db.pool {
      RowGrows(s.db.pool, r, s.applied, acc, a, base, early, landed);
    } else if a in r {
      RowCreated(s.db.pool, r, s.applied, acc, a, early, landed);
    } else {
      StillNoRow(s.db.pool, r, s.applied, acc, a, base, early, landed);
    }
  }

  lemma {:induction false} TokensSettle(start: Database, steps: seq<Step>, maxRetries: nat, a: string)
    ensures TokensSettled(Run(Start(start), steps, maxRetries).db.pool, Run(Start(start), steps, maxRetries).applied, a, RowTokens(start.pool, a),
                          Landed(start, steps, maxRetries, a, false), Landed(start, steps, maxRetries, a, true))
    ensures a in start.pool ==> a in Run(Start(start), steps, maxRetries).db.pool && Landed(start, steps, maxRetries, a, false) == []
  {
    if steps == [] {
      assert AccountTokens([]) == map[];
      assert TokensFor([], a) == ZERO_TOKENS;
    } else {
      var init, st := steps[..|steps| - 1], steps[|steps| - 1];
      var s := Run(Start(start), init, maxRetries);
      TokensSettle(start, init, maxRetries, a);
      if st.CommitBatch? && Enabled(s, st, maxRetries) {
        TokensAfterCommit(s, st, maxRetries, a, RowTokens(start.pool, a), Landed(start, init, maxRetries, a, false), Landed(start, init, maxRetries, a, true));
        CommitTokens(s.db, Events(s, PhaseOf(s, st.w).batch), st.expired, a);
      } else {
        OtherStepsKeepLedger(s, st, maxRetries);
      }
    }
  }

  lemma SumOfTwo(base: Tokens, x: Tokens, y: Tokens)
    requires x.prompt >= 0 && x.completion >= 0 && x.total >= 0
    ensures TokenPlus(base, y) == TokenPlus(base, TokenPlus(x, y)) <==> x.prompt + x.completion + x.total <= 0
  {
  }

  /**
   The token totals of every account in every run: what it started with and the tokens of the events
   accepted in commits after which it has a row, which for an account with a row at the start is all that
   was applied. The events before the commit that creates the row are missing, so the totals are those of
   all applied events exactly when none of these carries tokens of this account.
   */
  lemma TokensInEveryRun(start: Database, steps: seq<Step>, maxRetries: nat, a: string)
    ensures var s, early, landed := Run(Start(start), steps, maxRetries), Landed(start, steps, maxRetries, a, false), Landed(start, steps, maxRetries, a, true);
            && s.applied == early + landed && (a in start.pool ==> a in s.db.pool && early == [])
            && (a in s.db.pool ==>
                 && s.db.pool[a].tokens == TokenPlus(RowTokens(start.pool, a), TokensFor(landed, a))
                 && (s.db.pool[a].tokens == TokenPlus(RowTokens(start.pool, a), TokensFor(s.applied, a))
                     <==> !exists e :: e in early && Carries(TokensFrom(e, a))))
  {
    var early, landed := Landed(start, steps, maxRetries, a, false), Landed(start, steps, maxRetries, a, true);
    TokensSettle(start, steps, maxRetries, a);
    TokensForConcat(early, landed, a);
    TokensNonNegative(early, a);
    TokensVanish(early, a);
    SumOfTwo(RowTokens(start.pool, a), TokensFor(early, a), TokensFor(landed, a));
  }

  /* ---- versions and failure counts ---- */

  lemma StepDecides(s: System, st: Step, maxRetries: nat, a: string)
    requires a in s.db.pool && s.db.pool[a].stateVersion >= 0
    ensures var t := Next(s, st, maxRetries);
            && a in t.db.pool && Version(t.db.pool, a) >= Version(s.db.pool, a) && s.applied <= t.applied
            && (Fails(t.db.pool, a) != Fails(s.db.pool, a) ==>
                  exists e :: e in t.applied[|s.applied|..] && Decides(e, a, Version(s.db.pool, a)))
  {
    if st.CommitBatch? && Enabled(s, st, maxRetries) {
      CommitChanges(s, st, maxRetries);
      CommitDecides(s.db, Events(s, PhaseOf(s, st.w).batch), st.expired, a);
      assert Next(s, st, maxRetries).applied[|s.applied|..] == Accept(s.db.inbox, Events(s, PhaseOf(s, st.w).batch));
    } else {
      OtherStepsKeepLedger(s, st, maxRetries);
    }
  }

  /**
   From any state on, whatever the writers do and however statistics and state patches interleave: the
   version of an account with a row never decreases, and its failure count changes only if an event was
   applied since that is newer than the version at that state, a resetting success or a state patch.
   */
  lemma {:induction false} FailuresDecided(s: System, steps: seq<Step>, maxRetries: nat, a: string)
    requires a in s.db.pool && s.db.pool[a].stateVersion >= 0
    ensures var t := Run(s, steps, maxRetries);
            && a in t.db.pool && Version(t.db.pool, a) >= Version(s.db.pool, a) && s.applied <= t.applied
            && (Fails(t.db.pool, a) != Fails(s.db.pool, a) ==>
                  exists e :: e in t.applied[|s.applied|..] && Decides(e, a, Version(s.db.pool, a)))
  {
    if steps != [] {
      var init, st := steps[..|steps| - 1], steps[|steps| - 1];
      var m := Run(s, init, maxRetries);
      FailuresDecided(s, init, maxRetries, a);
      StepDecides(m, st, maxRetries, a);
      DecidedSince(s.applied, m.applied, Next(m, st, maxRetries).applied, a, Version(s.db.pool, a), Version(m.db.pool, a));
    }
  }

  lemma DecidedSince(x: seq<Event>, y: seq<Event>, z: seq<Event>, a: string, v: int, w: int)
    requires x <= y <= z && v <= w
    ensures (exists e :: e in y[|x|..] && Decides(e, a, v)) || (exists e :: e in z[|y|..] && Decides(e, a, w)) ==>
              exists e :: e in z[|x|..] && Decides(e, a, v)
  {
    assert z[|x|..] == y[|x|..] + z[|y|..];
    if e :| e in y[|x|..] && Decides(e, a, v) {
      assert e in z[|x|..];
    } else if e :| e in z[|y|..] && Decides(e, a, w) {
      assert e in z[|x|..] && Decides(e, a, v);
    }
  }

  /** When the acknowledgement of an exhausted message fails after its commit, the message is dead-lettered all the same. */
  lemma CommittedThenDeadLettered(s: System, w: WriterId, m: MessageId, maxRetries: nat)
    requires PhaseOf(s, w).Acking? && m in PhaseOf(s, w).batch
    requires m in s.pending && Delivered(s, m) >= maxRetries
    ensures var t := Run(s, [Step.Fail(w), Condemn(w, m), CopyDead(w, m)], maxRetries);
            m in t.dlq && t.applied == s.applied
  {
    var a, b, c := Step.Fail(w), Condemn(w, m), CopyDead(w, m);
    RunThree(s, a, b, c, maxRetries);
    var t1 := Next(s, a, maxRetries);
    assert PhaseOf(t1, w) == Failing(PhaseOf(s, w).batch, {});
    var t2 := Next(t1, b, maxRetries);
    assert PhaseOf(t2, w) == Failing(PhaseOf(s, w).batch, {m});
  }

  lemma RunStep(s: System, steps: seq<Step>, st: Step, maxRetries: nat)
    ensures Run(s, steps + [st], maxRetries) == Next(Run(s, steps, maxRetries), st, maxRetries)
  {
    assert (steps + [st])[..|steps|] == steps;
  }

  lemma {:induction false} RunConcat(s: System, a: seq<Step>, b: seq<Step>, maxRetries: nat)
    ensures Run(s, a + b, maxRetries) == Run(Run(s, a, maxRetries), b, maxRetries)
  {
    if b == [] {
      assert a + b == a;
    } else {
      var init, last := b[..|b| - 1], b[|b| - 1];
      assert a + b == (a + init) + [last];
      RunStep(s, a + init, last, maxRetries);
      RunConcat(s, a, init, maxRetries);
    }
  }

  lemma FirstReceive(db: Database, e: Event)
    requires e.id != ""
    ensures var s := Next(Next(Start(db), Publish(0, Some(e)), 1), Step.Read(0, 0), 1);
            && PhaseOf(s, 0) == Holding([0]) && 0 in s.pending && Delivered(s, 0) == 1
            && s.applied == [] && s.db.inbox == {} && Decodes(s, 0) && s.log[0].value == e
  {
    var s1 := Next(Start(db), Publish(0, Some(e)), 1);
    assert 0 in s1.unread && PhaseOf(s1, 0) == IDLE && Delivered(s1, 0) == 0 && Decodes(s1, 0);
  }

  lemma SingleCommit(s: System, e: Event)
    requires PhaseOf(s, 0) == Holding([0]) && s.applied == [] && s.db.inbox == {}
    requires Decodes(s, 0) && s.log[0].value == e && e.id != "" && e.body.Other?
    ensures var t := Next(s, CommitBatch(0, {}), 1);
            PhaseOf(t, 0) == Acking([0]) && t.pending == s.pending && t.deliveries == s.deliveries && t.applied == [e]
  {
    OneEvent(s, e);
    assert Enabled(s, CommitBatch(0, {}), 1);
  }

  lemma FirstCommit(db: Database, e: Event)
    requires e.id != "" && e.body.Other?
    ensures var s := Run(Start(db), [Publish(0, Some(e)), Step.Read(0, 0), CommitBatch(0, {})], 1);
            PhaseOf(s, 0) == Acking([0]) && 0 in s.pending && Delivered(s, 0) == 1 && s.applied == [e]
  {
    var a, b, c := Publish(0, Some(e)), Step.Read(0, 0), CommitBatch(0, {});
    FirstReceive(db, e);
    SingleCommit(Next(Next(Start(db), a, 1), b, 1), e);
    RunThree(Start(db), a, b, c, 1);
  }

  lemma RunOne(s: System, a: Step, maxRetries: nat)
    ensures Run(s, [a], maxRetries) == Next(s, a, maxRetries)
  {
    assert [a][..0] == [];
  }

  lemma RunTwo(s: System, a: Step, b: Step, maxRetries: nat)
    ensures Run(s, [a, b], maxRetries) == Next(Next(s, a, maxRetries), b, maxRetries)
  {
    RunOne(s, a, maxRetries);
    assert [a, b][..1] == [a];
  }

  lemma RunThree(s: System, a: Step, b: Step, c: Step, maxRetries: nat)
    ensures Run(s, [a, b, c], maxRetries) == Next(Next(Next(s, a, maxRetries), b, maxRetries), c, maxRetries)
  {
    RunTwo(s, a, b, maxRetries);
    assert [a, b, c][..2] == [a, b];
  }

  lemma OneEvent(s: System, e: Event)
    requires Decodes(s, 0) && s.log[0].value == e && e.id != "" && e.body.Other?
    ensures Events(s, [0]) == [e] && Accept({}, [e]) == [e] && Select([e], PoisonKind) == []
  {
    assert [0][..0] == [];
    assert [e][..0] == [];
    assert Events(s, []) == [] && Accept({}, []) == [];
    assert Events(s, [0]) == [] + [e];
    assert Ids([]) == {};
  }

  /** So "applied" and "dead-lettered" do overlap: a run that reaches both for the same event. */
  lemma AppliedMayBeDeadLettered(db: Database, e: Event)
    requires e.id != "" && e.body.Other?
    ensures exists steps :: 0 in Run(Start(db), steps, 1).dlq && e in Run(Start(db), steps, 1).applied
  {
    var a := [Publish(0, Some(e)), Step.Read(0, 0), CommitBatch(0, {})];
    var b := [Step.Fail(0), Condemn(0, 0), CopyDead(0, 0)];
    FirstCommit(db, e);
    CommittedThenDeadLettered(Run(Start(db), a, 1), 0, 0, 1);
    RunConcat(Start(db), a, b, 1);
    assert 0 in Run(Start(db), a + b, 1).dlq && e in Run(Start(db), a + b, 1).applied;
  }
}
