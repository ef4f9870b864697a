/**
 Live verification of one imported credential batch: three phases, one per provider, each drained by a pool
 of workers that retry transient failures behind one start-rate limiter. Workers interleave in any order.
 */
module PhasedVerification {
  import opened Common

  const PROVIDERS: nat := 3

  /** Targets per provider, workers, number of retry delays, and seconds between starts. */
  datatype Config = Config(n: nat, workers: nat, retries: nat, interval: real)

  ghost predicate Sound(c: Config) { c.workers > 0 && c.interval > 0.0 }

  /** `Holding` has the limiter's lock and sleeps until its slot. */
  datatype Worker =
    | Idle
    | Waiting(target: nat, attempt: nat)
    | Holding(target: nat, attempt: nat, slot: real)
    | Probing(target: nat, attempt: nat)
    | Sleeping(target: nat, attempt: nat)
    | Gone

  predicate InHand(w: Worker) { !w.Idle? && !w.Gone? }

  datatype Event = Start(phase: nat, target: nat) | Final(phase: nat, target: nat, ok: bool)

  datatype Counts = Counts(attempted: nat, attempts: nat, replyOk: nat, failed: nat)

  const ZERO := Counts(0, 0, 0, 0)

  /** The queue holds the targets from `taken` on; `finals` are the outcomes so far by phase and target. */
  datatype State = State(
    phase: nat, taken: nat, workers: seq<Worker>, counts: seq<Counts>, failures: nat,
    next: real, clock: real, slots: seq<real>, starts: seq<real>,
    finals: map<(nat, nat), bool>, tries: seq<nat>, log: seq<Event>)

  datatype Step =
    | Take(w: nat)
    | Leave(w: nat)
    | Acquire(w: nat)
    | Begin(w: nat, jitter: real)
    | Finish(w: nat, ok: bool, transient: bool)
    | Wake(w: nat)
    | Tick(to: real)
    | NextPhase

  function Fresh(k: nat): seq<Worker> { seq(k, i => Idle) }

  function Initial(c: Config, failures: nat, clock: real): State {
    State(0, 0, Fresh(c.workers), [ZERO, ZERO, ZERO], failures, 0.0, clock, [], [], map[], [], [])
  }

  predicate Locked(s: State) { exists w :: 0 <= w < |s.workers| && s.workers[w].Holding? }

  /** The outcome ends the target: a reply, a lasting failure, or no retry left. */
  predicate Ends(c: Config, attempt: nat, ok: bool, transient: bool) { ok || !transient || attempt >= c.retries }

  /** When a step may happen; the index conditions hold in every reachable state. */
  predicate Enabled(c: Config, s: State, e: Step) {
    |s.counts| == PROVIDERS && match e
    case Tick(to) => to >= s.clock
    case NextPhase => s.phase < PROVIDERS && forall w :: 0 <= w < |s.workers| ==> s.workers[w].Gone?
    case Take(w) => s.phase < PROVIDERS && w < |s.workers| && s.workers[w].Idle? && s.taken < c.n
    case Leave(w) => s.phase < PROVIDERS && w < |s.workers| && s.workers[w].Idle? && s.taken >= c.n
    case Acquire(w) => s.phase < PROVIDERS && w < |s.workers| && s.workers[w].Waiting? && !Locked(s)
    case Begin(w, jitter) => s.phase < PROVIDERS && w < |s.workers| && s.workers[w].Holding? && s.clock >= s.workers[w].slot && jitter >= 0.0
                             && s.workers[w].target < |s.tries|
    case Finish(w, _, _) => s.phase < PROVIDERS && w < |s.workers| && s.workers[w].Probing?
    case Wake(w) => s.phase < PROVIDERS && w < |s.workers| && s.workers[w].Sleeping?
  }

  function Slot(next: real, now: real): real { MaxReal(now, next) }

  /** What an enabled step does. */
  function Do(c: Config, s: State, e: Step): State
    requires Enabled(c, s, e)
  {
    match e
    case Tick(to) => s.(clock := to)
    case NextPhase =>
      s.(phase := s.phase + 1, taken := 0, workers := Fresh(c.workers), next := 0.0, slots := [], starts := [], tries := [])
    case Take(w) =>
      s.(taken := s.taken + 1, workers := s.workers[w := Waiting(s.taken, 0)], tries := s.tries + [0],
         counts := s.counts[s.phase := s.counts[s.phase].(attempted := s.counts[s.phase].attempted + 1)])
    case Leave(w) => s.(workers := s.workers[w := Gone])
    case Acquire(w) =>
      var k, slot := s.workers[w], Slot(s.next, s.clock);
      s.(workers := s.workers[w := Holding(k.target, k.attempt, slot)], slots := s.slots + [slot])
    case Begin(w, jitter) =>
      var k := s.workers[w];
      s.(workers := s.workers[w := Probing(k.target, k.attempt)], next := k.slot + c.interval + jitter,
         starts := s.starts + [s.clock], tries := s.tries[k.target := s.tries[k.target] + 1], log := s.log + [Start(s.phase, k.target)],
         counts := s.counts[s.phase := s.counts[s.phase].(attempts := s.counts[s.phase].attempts + 1)])
    case Finish(w, ok, transient) =>
      var k, n := s.workers[w], s.counts[s.phase];
      if !Ends(c, k.attempt, ok, transient) then s.(workers := s.workers[w := Sleeping(k.target, k.attempt)])
      else
        s.(workers := s.workers[w := Idle], finals := s.finals[(s.phase, k.target) := ok],
           log := s.log + [Final(s.phase, k.target, ok)], failures := s.failures + if ok then 0 else 1,
           counts := s.counts[s.phase := if ok then n.(replyOk := n.replyOk + 1) else n.(failed := n.failed + 1)])
    case Wake(w) => s.(workers := s.workers[w := Waiting(s.workers[w].target, s.workers[w].attempt + 1)])
  }

  /* ---- who holds which target ---- */

  /** How often a target in hand has been tried so far. */
  predicate TriedSoFar(c: Config, w: Worker, tries: nat) {
    match w
    case Waiting(_, a) => a <= c.retries && tries == a
    case Holding(_, a, _) => a <= c.retries && tries == a
    case Probing(_, a) => a <= c.retries && tries == a + 1
    case Sleeping(_, a) => a < c.retries && tries == a + 1
    case _ => true
  }

  /** Every target taken in this phase is in exactly one worker's hands or has its one outcome. */
  ghost predicate Hands(c: Config, s: State) {
    && s.phase <= PROVIDERS && |s.workers| == c.workers && s.taken <= c.n && |s.tries| == s.taken
    && |s.counts| == PROVIDERS && (s.phase == PROVIDERS ==> s.taken == 0)
    && (forall w :: 0 <= w < |s.workers| && InHand(s.workers[w]) ==>
          s.workers[w].target < s.taken && (s.phase, s.workers[w].target) !in s.finals && TriedSoFar(c, s.workers[w], s.tries[s.workers[w].target]))
    && (forall w, v :: 0 <= w < v < |s.workers| && InHand(s.workers[w]) && InHand(s.workers[v]) ==> s.workers[w].target != s.workers[v].target)
    && (forall t: nat :: t < s.taken ==> s.tries[t] <= c.retries + 1 && ((s.phase, t) in s.finals || Held(s, t)))
    && (forall w :: 0 <= w < |s.workers| && s.workers[w].Gone? ==> s.taken == c.n)
    && (forall w, v :: 0 <= w < v < |s.workers| ==> !(s.workers[w].Holding? && s.workers[v].Holding?))
  }

  ghost predicate Held(s: State, t: nat) { exists w :: 0 <= w < |s.workers| && InHand(s.workers[w]) && s.workers[w].target == t }

  /** Outcomes exist for this and earlier phases only; earlier phases are complete. */
  ghost predicate Settled(c: Config, s: State) {
    && (forall p: nat, t: nat :: (p, t) in s.finals ==> p <= s.phase && t < c.n && (p == s.phase ==> t < s.taken))
    && (forall p: nat, t: nat :: p < s.phase && t < c.n ==> (p, t) in s.finals)
  }

  lemma HeldUpdate(s: State, t: State, w: nat, x: Worker)
    requires w < |s.workers| && t.workers == s.workers[w := x]
    ensures forall u: nat :: Held(s, u) && (InHand(s.workers[w]) && s.workers[w].target == u ==> InHand(x) && x.target == u) ==> Held(t, u)
    ensures InHand(x) ==> Held(t, x.target)
  {
    assert t.workers[w] == x;
    forall u: nat | Held(s, u) && (InHand(s.workers[w]) && s.workers[w].target == u ==> InHand(x) && x.target == u) ensures Held(t, u) {
      var v :| 0 <= v < |s.workers| && InHand(s.workers[v]) && s.workers[v].target == u;
      if v != w {
        assert t.workers[v] == s.workers[v];
      }
    }
  }

  /** A worker moves on with the same target. */
  lemma SameTarget(c: Config, s: State, t: State, w: nat, x: Worker)
    requires Hands(c, s) && w < |s.workers| && InHand(s.workers[w]) && InHand(x) && x.target == s.workers[w].target
    requires t.workers == s.workers[w := x] && t.finals == s.finals && t.phase == s.phase && t.taken == s.taken && |t.counts| == |s.counts|
    requires |t.tries| == |s.tries| && (forall u :: 0 <= u < |s.tries| && u != x.target ==> t.tries[u] == s.tries[u])
    requires t.tries[x.target] <= c.retries + 1 && TriedSoFar(c, x, t.tries[x.target])
    requires x.Holding? ==> s.workers[w].Holding? || !Locked(s)
    ensures Hands(c, t)
  {
    HeldUpdate(s, t, w, x);
  }

  lemma TakeKept(c: Config, s: State, w: nat)
    requires Hands(c, s) && Settled(c, s) && Enabled(c, s, Take(w))
    ensures Hands(c, Do(c, s, Take(w)))
  {
    var t := Do(c, s, Take(w));
    HeldUpdate(s, t, w, Waiting(s.taken, 0));
  }

  lemma FinishKept(c: Config, s: State, w: nat, ok: bool, transient: bool)
    requires Hands(c, s) && Enabled(c, s, Finish(w, ok, transient)) && Ends(c, s.workers[w].attempt, ok, transient)
    ensures Hands(c, Do(c, s, Finish(w, ok, transient)))
  {
    var t := Do(c, s, Finish(w, ok, transient));
    HeldUpdate(s, t, w, Idle);
  }

  lemma LeaveKept(c: Config, s: State, w: nat)
    requires Hands(c, s) && Enabled(c, s, Leave(w))
    ensures Hands(c, Do(c, s, Leave(w)))
  {
    var t := Do(c, s, Leave(w));
    HeldUpdate(s, t, w, Gone);
  }

  lemma TickKept(c: Config, s: State, e: Step)
    requires Hands(c, s) && Enabled(c, s, e) && e.Tick?
    ensures Hands(c, Do(c, s, e))
  {
    assert forall u: nat :: Held(s, u) ==> Held(Do(c, s, e), u);
  }

  lemma FinishStepKept(c: Config, s: State, w: nat, ok: bool, transient: bool)
    requires Hands(c, s) && Settled(c, s) && Enabled(c, s, Finish(w, ok, transient))
    ensures Hands(c, Do(c, s, Finish(w, ok, transient)))
  {
    if Ends(c, s.workers[w].attempt, ok, transient) {
      FinishKept(c, s, w, ok, transient);
    } else {
      SameTarget(c, s, Do(c, s, Finish(w, ok, transient)), w, Do(c, s, Finish(w, ok, transient)).workers[w]);
    }
  }

  /** A step touches at most one worker; its target, if it had or gets one, is the only one affected. */
  lemma HandsKept(c: Config, s: State, e: Step)
    requires Hands(c, s) && Settled(c, s) && Enabled(c, s, e)
    ensures Hands(c, Do(c, s, e))
  {
    match e
    case Tick(_) => TickKept(c, s, e);
    case NextPhase =>
    case Take(w) => TakeKept(c, s, w);
    case Leave(w) => LeaveKept(c, s, w);
    case Acquire(w) =>
      SameTarget(c, s, Do(c, s, e), w, Do(c, s, e).workers[w]);
    case Begin(w, _) =>
      SameTarget(c, s, Do(c, s, e), w, Do(c, s, e).workers[w]);
    case Finish(w, ok, transient) => FinishStepKept(c, s, w, ok, transient);
    case Wake(w) =>
      SameTarget(c, s, Do(c, s, e), w, Do(c, s, e).workers[w]);
  }

  lemma SettledKept(c: Config, s: State, e: Step)
    requires Sound(c) && Hands(c, s) && Settled(c, s) && Enabled(c, s, e)
    ensures Settled(c, Do(c, s, e))
  {
    if e.NextPhase? {
      assert s.workers[0].Gone?;
      forall t: nat | t < c.n ensures (s.phase, t) in s.finals {
        assert !Held(s, t);
      }
    }
  }

  /* ---- counters ---- */

  function Sum(xs: seq<nat>): nat { if xs == [] then 0 else Sum(xs[..|xs| - 1]) + xs[|xs| - 1] }

  lemma {:induction false} SumUpdate(xs: seq<nat>, i: nat, v: nat)
    requires i < |xs|
    ensures Sum(xs[i := v]) == Sum(xs) - xs[i] + v
  {
    var n := |xs| - 1;
    if i == n {
      assert xs[i := v][..n] == xs[..n];
    } else {
      assert xs[i := v][..n] == xs[..n][i := v];
      SumUpdate(xs[..n], i, v);
    }
  }

  lemma {:induction false} SumAtMost(xs: seq<nat>, bound: nat)
    requires forall i :: 0 <= i < |xs| ==> xs[i] <= bound
    ensures Sum(xs) <= |xs| * bound
  {
    if xs != [] {
      SumAtMost(xs[..|xs| - 1], bound);
      assert |xs| * bound == (|xs| - 1) * bound + bound;
    }
  }

  /** How many of the first `k` targets of phase `p` have this outcome. */
  function Outcomes(finals: map<(nat, nat), bool>, p: nat, k: nat, ok: bool): nat {
    if k == 0 then 0
    else Outcomes(finals, p, k - 1, ok) + if (p, k - 1) in finals && finals[(p, k - 1)] == ok then 1 else 0
  }

  lemma {:induction false} OutcomesAdd(finals: map<(nat, nat), bool>, p: nat, t: nat, ok: bool, q: nat, k: nat, want: bool)
    requires (p, t) !in finals
    ensures Outcomes(finals[(p, t) := ok], q, k, want) == Outcomes(finals, q, k, want) + if q == p && t < k && ok == want then 1 else 0
  {
    if k > 0 {
      OutcomesAdd(finals, p, t, ok, q, k - 1, want);
    }
  }

  lemma {:induction false} OutcomesAll(finals: map<(nat, nat), bool>, p: nat, k: nat)
    requires forall t: nat :: t < k ==> (p, t) in finals
    ensures Outcomes(finals, p, k, true) + Outcomes(finals, p, k, false) == k
    ensures Outcomes(finals, p, k, true) == k <==> forall t: nat :: t < k ==> finals[(p, t)]
  {
    if k > 0 {
      OutcomesAll(finals, p, k - 1);
    }
  }

  lemma {:induction false} OutcomesNone(finals: map<(nat, nat), bool>, p: nat, k: nat, ok: bool)
    requires forall t: nat :: (p, t) !in finals
    ensures Outcomes(finals, p, k, ok) == 0
  {
    if k > 0 {
      OutcomesNone(finals, p, k - 1, ok);
    }
  }

  /** The counters of one phase say what happened in it. */
  ghost predicate Tally(c: Config, s: State, p: nat)
    requires |s.counts| == PROVIDERS && p < PROVIDERS
  {
    var n := s.counts[p];
    && n.replyOk == Outcomes(s.finals, p, c.n, true) && n.failed == Outcomes(s.finals, p, c.n, false)
    && (p < s.phase ==> n.attempted == c.n && n.attempts <= c.n * (c.retries + 1))
    && (p == s.phase ==> n.attempted == s.taken && n.attempts == Sum(s.tries))
    && (p > s.phase ==> n == ZERO)
  }

  ghost predicate Tallies(c: Config, s: State, failures: nat)
    requires |s.counts| == PROVIDERS
  {
    && (forall p: nat :: p < PROVIDERS ==> Tally(c, s, p))
    && s.failures == failures + s.counts[0].failed + s.counts[1].failed + s.counts[2].failed
  }

  lemma TallyNextPhase(c: Config, s: State, p: nat)
    requires Sound(c) && Hands(c, s) && Enabled(c, s, NextPhase) && p < PROVIDERS && Tally(c, s, p)
    ensures Tally(c, Do(c, s, NextPhase), p)
  {
    SumAtMost(s.tries, c.retries + 1);
    assert s.workers[0].Gone?;
    assert s.taken == c.n == |s.tries|;
  }

  lemma TallyFinish(c: Config, s: State, w: nat, ok: bool, transient: bool, p: nat)
    requires Hands(c, s) && Settled(c, s) && Enabled(c, s, Finish(w, ok, transient)) && p < PROVIDERS && Tally(c, s, p)
    requires Ends(c, s.workers[w].attempt, ok, transient)
    ensures Tally(c, Do(c, s, Finish(w, ok, transient)), p)
  {
    OutcomesAdd(s.finals, s.phase, s.workers[w].target, ok, p, c.n, true);
    OutcomesAdd(s.finals, s.phase, s.workers[w].target, ok, p, c.n, false);
  }

  lemma TallyBegin(c: Config, s: State, w: nat, jitter: real, p: nat)
    requires Enabled(c, s, Begin(w, jitter)) && p < PROVIDERS && Tally(c, s, p)
    ensures Tally(c, Do(c, s, Begin(w, jitter)), p)
  {
    SumUpdate(s.tries, s.workers[w].target, s.tries[s.workers[w].target] + 1);
  }

  lemma TallyTake(c: Config, s: State, w: nat, p: nat)
    requires Enabled(c, s, Take(w)) && p < PROVIDERS && Tally(c, s, p)
    ensures Tally(c, Do(c, s, Take(w)), p)
  {
    assert (s.tries + [0])[..|s.tries|] == s.tries;
  }

  lemma TallyKept(c: Config, s: State, e: Step, p: nat)
    requires Sound(c) && Hands(c, s) && Settled(c, s) && Enabled(c, s, e) && p < PROVIDERS && Tally(c, s, p)
    ensures Tally(c, Do(c, s, e), p)
  {
    match e
    case NextPhase => TallyNextPhase(c, s, p);
    case Take(w) => TallyTake(c, s, w, p);
    case Begin(w, jitter) => TallyBegin(c, s, w, jitter, p);
    case Finish(w, ok, transient) =>
      if Ends(c, s.workers[w].attempt, ok, transient) {
        TallyFinish(c, s, w, ok, transient, p);
      }
    case _ =>
  }

  lemma TalliesKept(c: Config, s: State, e: Step, failures: nat)
    requires Sound(c) && Hands(c, s) && Settled(c, s) && Enabled(c, s, e) && Tallies(c, s, failures)
    ensures Tallies(c, Do(c, s, e), failures)
  {
    forall p: nat | p < PROVIDERS ensures Tally(c, Do(c, s, e), p) {
      TallyKept(c, s, e, p);
    }
  }

  /* ---- the order of events ---- */

  ghost predicate Finalised(log: seq<Event>, i: nat, p: nat, t: nat) {
    exists j :: 0 <= j < i && j < |log| && log[j].Final? && log[j].phase == p && log[j].target == t
  }

  /** The log: outcomes as recorded, each once, and no start before every earlier phase is final. */
  ghost predicate Ordered(c: Config, s: State) {
    && (forall p: nat, t: nat :: (p, t) in s.finals ==> Finalised(s.log, |s.log|, p, t))
    && (forall i :: 0 <= i < |s.log| && s.log[i].Final? ==>
          (s.log[i].phase, s.log[i].target) in s.finals && s.finals[(s.log[i].phase, s.log[i].target)] == s.log[i].ok)
    && (forall i, j :: 0 <= i < j < |s.log| && s.log[i].Final? && s.log[j].Final? ==>
          s.log[i].phase != s.log[j].phase || s.log[i].target != s.log[j].target)
    && (forall i, q: nat, t: nat :: 0 <= i < |s.log| && s.log[i].Start? && q < s.log[i].phase && t < c.n ==> Finalised(s.log, i, q, t))
  }

  lemma FinalisedGrows(log: seq<Event>, e: Event, i: nat, p: nat, t: nat)
    requires i <= |log| && Finalised(log, i, p, t)
    ensures Finalised(log + [e], i, p, t) && Finalised(log + [e], |log| + 1, p, t)
  {
    var j :| 0 <= j < i && j < |log| && log[j].Final? && log[j].phase == p && log[j].target == t;
    assert (log + [e])[j] == log[j];
  }

  lemma OrderedStart(c: Config, s: State, t: State, k: nat)
    requires Settled(c, s) && Ordered(c, s) && t.log == s.log + [Start(s.phase, k)] && t.finals == s.finals
    ensures Ordered(c, t)
  {
    var e := Start(s.phase, k);
    forall p: nat, u: nat | (p, u) in t.finals ensures Finalised(t.log, |t.log|, p, u) {
      FinalisedGrows(s.log, e, |s.log|, p, u);
    }
    forall i, q: nat, u: nat | 0 <= i < |t.log| && t.log[i].Start? && q < t.log[i].phase && u < c.n ensures Finalised(t.log, i, q, u) {
      assert (q, u) in s.finals || i < |s.log|;
      FinalisedGrows(s.log, e, i, q, u);
    }
  }

  lemma OrderedFinal(c: Config, s: State, t: State, k: nat, ok: bool)
    requires Ordered(c, s) && (s.phase, k) !in s.finals
    requires t.log == s.log + [Final(s.phase, k, ok)] && t.finals == s.finals[(s.phase, k) := ok]
    ensures Ordered(c, t)
  {
    var e := Final(s.phase, k, ok);
    assert t.log[|s.log|] == e;
    forall p: nat, u: nat | (p, u) in t.finals ensures Finalised(t.log, |t.log|, p, u) {
      if (p, u) != (s.phase, k) {
        FinalisedGrows(s.log, e, |s.log|, p, u);
      }
    }
    forall i, q: nat, u: nat | 0 <= i < |t.log| && t.log[i].Start? && q < t.log[i].phase && u < c.n ensures Finalised(t.log, i, q, u) {
      FinalisedGrows(s.log, e, i, q, u);
    }
  }

  lemma OrderedKept(c: Config, s: State, e: Step)
    requires Hands(c, s) && Settled(c, s) && Enabled(c, s, e) && Ordered(c, s)
    ensures Ordered(c, Do(c, s, e))
  {
    var t := Do(c, s, e);
    match e
    case Begin(w, _) => OrderedStart(c, s, t, s.workers[w].target);
    case Finish(w, ok, transient) =>
      if Ends(c, s.workers[w].attempt, ok, transient) {
        OrderedFinal(c, s, t, s.workers[w].target, ok);
      }
    case _ =>
      assert t.log == s.log && t.finals == s.finals;
  }

  /* ---- the start-rate limiter ---- */

  ghost predicate Spaced(slots: seq<real>, interval: real) {
    forall i :: 0 <= i < |slots| - 1 ==> slots[i + 1] >= slots[i] + interval
  }

  /** Slots are apart by the interval; starts are not before their slots; the lock holder owns the last slot. */
  ghost predicate Paced(c: Config, s: State) {
    && Spaced(s.slots, c.interval)
    && |s.starts| <= |s.slots| <= |s.starts| + 1
    && (forall i :: 0 <= i < |s.starts| ==> s.starts[i] >= s.slots[i])
    && (Locked(s) <==> |s.slots| == |s.starts| + 1)
    && (forall w :: 0 <= w < |s.workers| && s.workers[w].Holding? ==> s.slots != [] && s.slots[|s.slots| - 1] == s.workers[w].slot)
    && (!Locked(s) && s.slots != [] ==> s.next >= s.slots[|s.slots| - 1] + c.interval)
  }

  lemma LockedUpdate(s: State, t: State, w: nat, x: Worker)
    requires w < |s.workers| && t.workers == s.workers[w := x]
    ensures x.Holding? ==> Locked(t)
    ensures !x.Holding? && !s.workers[w].Holding? ==> (Locked(t) <==> Locked(s))
  {
    assert t.workers[w] == x;
    if Locked(s) && !s.workers[w].Holding? {
      var v :| 0 <= v < |s.workers| && s.workers[v].Holding?;
      assert t.workers[v].Holding?;
    }
  }

  lemma PacedBegin(c: Config, s: State, w: nat, jitter: real)
    requires Sound(c) && Hands(c, s) && Enabled(c, s, Begin(w, jitter)) && Paced(c, s)
    ensures Paced(c, Do(c, s, Begin(w, jitter)))
  {
    assert Locked(s);
    assert !Locked(Do(c, s, Begin(w, jitter)));
  }

  lemma PacedAcquire(c: Config, s: State, w: nat)
    requires Enabled(c, s, Acquire(w)) && Paced(c, s)
    ensures Paced(c, Do(c, s, Acquire(w)))
  {
    var t := Do(c, s, Acquire(w));
    LockedUpdate(s, t, w, t.workers[w]);
  }

  /** Workers that do not touch the limiter leave it as it is. */
  lemma PacedElsewhere(c: Config, s: State, t: State, w: nat, x: Worker)
    requires Paced(c, s) && w < |s.workers| && t.workers == s.workers[w := x] && !x.Holding? && !s.workers[w].Holding?
    requires t.slots == s.slots && t.starts == s.starts && t.next == s.next
    ensures Paced(c, t)
  {
    LockedUpdate(s, t, w, x);
  }

  lemma PacedKept(c: Config, s: State, e: Step)
    requires Sound(c) && Hands(c, s) && Enabled(c, s, e) && Paced(c, s)
    ensures Paced(c, Do(c, s, e))
  {
    var t := Do(c, s, e);
    match e
    case Tick(_) => assert Locked(t) <==> Locked(s);
    case NextPhase => assert !Locked(t);
    case Begin(w, jitter) => PacedBegin(c, s, w, jitter);
    case Acquire(w) => PacedAcquire(c, s, w);
    case Take(w) => PacedElsewhere(c, s, t, w, t.workers[w]);
    case Leave(w) => PacedElsewhere(c, s, t, w, t.workers[w]);
    case Finish(w, _, _) => PacedElsewhere(c, s, t, w, t.workers[w]);
    case Wake(w) => PacedElsewhere(c, s, t, w, t.workers[w]);
  }

  lemma {:induction false} SpacedFromFirst(slots: seq<real>, interval: real, i: nat)
    requires Spaced(slots, interval) && i < |slots|
    ensures slots[i] >= slots[0] + (i as real) * interval
  {
    if i > 0 {
      SpacedFromFirst(slots, interval, i - 1);
      assert slots[(i - 1) + 1] >= slots[i - 1] + interval;
      assert (i as real) * interval == ((i - 1) as real) * interval + interval;
    }
  }

  /* ---- every run ---- */

  function Next(c: Config, s: State, e: Step): State { if Enabled(c, s, e) then Do(c, s, e) else s }

  /** The state after any interleaving; steps that are not enabled do nothing. */
  function Run(c: Config, s: State, steps: seq<Step>): State {
    if steps == [] then s else Next(c, Run(c, s, steps[..|steps| - 1]), steps[|steps| - 1])
  }

  ghost predicate Safe(c: Config, s: State, failures: nat) {
    Hands(c, s) && Settled(c, s) && Tallies(c, s, failures) && Ordered(c, s) && Paced(c, s)
  }

  lemma InitialSafe(c: Config, failures: nat, clock: real)
    ensures Safe(c, Initial(c, failures, clock), failures)
  {
    var s := Initial(c, failures, clock);
    forall p: nat | p < PROVIDERS ensures Tally(c, s, p) {
      OutcomesNone(s.finals, p, c.n, true);
      OutcomesNone(s.finals, p, c.n, false);
    }
  }

  lemma {:induction false} RunsAreSafe(c: Config, failures: nat, clock: real, steps: seq<Step>)
    requires Sound(c)
    ensures Safe(c, Run(c, Initial(c, failures, clock), steps), failures)
  {
    if steps == [] {
      InitialSafe(c, failures, clock);
    } else {
      var init, e := steps[..|steps| - 1], steps[|steps| - 1];
      RunsAreSafe(c, failures, clock, init);
      var s := Run(c, Initial(c, failures, clock), init);
      if Enabled(c, s, e) {
        HandsKept(c, s, e);
        SettledKept(c, s, e);
        TalliesKept(c, s, e, failures);
        OrderedKept(c, s, e);
        PacedKept(c, s, e);
      }
    }
  }

  /**
   The phase barrier under every interleaving: when a target starts, every target of every earlier provider
   has its outcome already; and no target of a phase gets two outcomes.
   */
  lemma PhaseBarrier(c: Config, failures: nat, clock: real, steps: seq<Step>)
    requires Sound(c)
    ensures var log := Run(c, Initial(c, failures, clock), steps).log;
            && (forall i, q: nat, t: nat :: 0 <= i < |log| && log[i].Start? && q < log[i].phase && t < c.n ==> Finalised(log, i, q, t))
            && (forall i, j :: 0 <= i < j < |log| && log[i].Final? && log[j].Final? ==>
                  log[i].phase != log[j].phase || log[i].target != log[j].target)
  {
    RunsAreSafe(c, failures, clock, steps);
  }

  lemma FinishedTally(c: Config, s: State, p: nat)
    requires Settled(c, s) && |s.counts| == PROVIDERS && p < PROVIDERS && Tally(c, s, p)
    ensures p < s.phase ==> s.counts[p].attempted == s.counts[p].replyOk + s.counts[p].failed == c.n
    ensures p < s.phase ==> s.counts[p].attempts <= c.n * (c.retries + 1)
    ensures p > s.phase ==> s.counts[p] == ZERO
  {
    if p < s.phase {
      OutcomesAll(s.finals, p, c.n);
    }
  }

  /** A finished phase has tried and decided each of its targets, within the retry bound; later ones have done nothing. */
  lemma FinishedPhases(c: Config, failures: nat, clock: real, steps: seq<Step>, p: nat)
    requires Sound(c) && p < PROVIDERS
    ensures var s := Run(c, Initial(c, failures, clock), steps);
            && |s.counts| == PROVIDERS
            && (p < s.phase ==> s.counts[p].attempted == s.counts[p].replyOk + s.counts[p].failed == c.n)
            && (p < s.phase ==> s.counts[p].attempts <= c.n * (c.retries + 1))
            && (p > s.phase ==> s.counts[p] == ZERO)
  {
    RunsAreSafe(c, failures, clock, steps);
    FinishedTally(c, Run(c, Initial(c, failures, clock), steps), p);
  }

  lemma StartSpacing(slots: seq<real>, starts: seq<real>, interval: real, k: nat)
    requires Spaced(slots, interval) && k < |starts| <= |slots| && starts[k] >= slots[k]
    ensures starts[k] >= slots[0] + (k as real) * interval
  {
    SpacedFromFirst(slots, interval, k);
  }

  /** Within a phase the k-th start is not before the first slot plus k intervals. */
  lemma StartsArePaced(c: Config, failures: nat, clock: real, steps: seq<Step>, k: nat)
    requires Sound(c)
    ensures var s := Run(c, Initial(c, failures, clock), steps);
            k < |s.starts| ==> |s.slots| > k && s.starts[k] >= s.slots[0] + (k as real) * c.interval
  {
    RunsAreSafe(c, failures, clock, steps);
    PacedStart(c, Run(c, Initial(c, failures, clock), steps), k);
  }

  lemma PacedStart(c: Config, s: State, k: nat)
    requires Paced(c, s)
    ensures k < |s.starts| ==> |s.slots| > k && s.starts[k] >= s.slots[0] + (k as real) * c.interval
  {
    if k < |s.starts| {
      StartSpacing(s.slots, s.starts, c.interval, k);
    }
  }

  /* ---- the verdict ---- */

  /** What is known before the phases start: topology, egress status and bindings. */
  datatype Preflight = Preflight(
    expected: nat, complete: nat, missing: nat, duplicate: nat, enabled: bool, valid: bool, direct: bool,
    bindingsRequired: nat, bindingsValidated: nat)

  predicate Clean(f: Preflight) {
    && f.expected > 0 && f.complete == f.expected && f.missing == 0 && f.duplicate == 0
    && f.enabled && f.valid && !f.direct && f.bindingsValidated == f.bindingsRequired
  }

  /** The summary's verdict. */
  predicate Ok(f: Preflight, s: State) {
    && Clean(f)
    && |s.counts| == PROVIDERS
    && (forall p :: 0 <= p < PROVIDERS ==> s.counts[p].replyOk == f.expected && s.counts[p].failed == 0)
    && s.failures == 0
  }

  lemma ReplyTally(c: Config, s: State, p: nat)
    requires |s.counts| == PROVIDERS && p < PROVIDERS && Tally(c, s, p)
    ensures s.counts[p].replyOk == c.n <==> forall t: nat :: t < c.n ==> (p, t) in s.finals && s.finals[(p, t)]
    ensures s.counts[p].replyOk == c.n ==> s.counts[p].failed == 0
  {
    AllReplied(s.finals, p, c.n);
  }

  lemma OkInState(c: Config, f: Preflight, failures: nat, s: State)
    requires |s.counts| == PROVIDERS && Tallies(c, s, failures) && f.expected == c.n
    ensures Ok(f, s) <==> Clean(f) && failures == 0 && forall p: nat, t: nat :: p < PROVIDERS && t < c.n ==> (p, t) in s.finals && s.finals[(p, t)]
  {
    ReplyTally(c, s, 0);
    ReplyTally(c, s, 1);
    ReplyTally(c, s, 2);
  }

  /**
   At any moment of any run the verdict is positive exactly when the preflight was clean, nothing had failed
   before, and each of the targets of all three providers has a reply as its outcome.
   */
  lemma OkMeansAllReplied(c: Config, f: Preflight, failures: nat, clock: real, steps: seq<Step>)
    requires Sound(c) && f.expected == c.n
    ensures var s := Run(c, Initial(c, failures, clock), steps);
            Ok(f, s) <==> Clean(f) && failures == 0 && forall p: nat, t: nat :: p < PROVIDERS && t < c.n ==> (p, t) in s.finals && s.finals[(p, t)]
  {
    var s := Run(c, Initial(c, failures, clock), steps);
    RunsAreSafe(c, failures, clock, steps);
    OkInState(c, f, failures, s);
  }

  lemma {:induction false} AllReplied(finals: map<(nat, nat), bool>, p: nat, k: nat)
    ensures Outcomes(finals, p, k, true) + Outcomes(finals, p, k, false) <= k
    ensures Outcomes(finals, p, k, true) == k <==> forall t: nat :: t < k ==> (p, t) in finals && finals[(p, t)]
  {
    if k > 0 {
      AllReplied(finals, p, k - 1);
    }
  }

  /* ---- the limiter object ---- */

  class StartRateLimiter {
    const interval: real
    var next: real

    constructor (startsPerSecond: real)
      ensures next == 0.0 && 0.0 < interval <= 10.0 && (startsPerSecond >= 0.1 ==> interval * startsPerSecond == 1.0)
    {
      interval := 1.0 / MaxReal(0.1, startsPerSecond);
      next := 0.0;
    }

    /** One wait, under the limiter's lock: the delay to sleep, and the next slot. */
    method Wait(now: real, jitter: real) returns (delay: real)
      requires jitter >= 0.0
      modifies this
      ensures delay >= 0.0 && now + delay == Slot(old(next), now)
      ensures next == now + delay + interval + jitter
    {
      delay := MaxReal(0.0, next - now);
      next := MaxReal(now, next) + interval + jitter;
    }
  }
}
