/**
 The events that travel through the Redis streams to the durable writer, after the writer's own
 coercions (`str`, `int`, `float`, `bool`) have been applied to their JSON fields.
 */
module WriterEvents {
  import opened Common

  /** `occurredAt` is the event's own time, or the wall clock when it carries none. */
  datatype StatsFields = StatsFields(
    accountId: string, requests: int, success: int, fail: int,
    stateSeq: int, reset: bool, lastUsedAt: real, occurredAt: real)

  /** What a queued state patch says about `consecutive_fails`. */
  datatype FailsPatch = Untouched | Removed | SetTo(fails: int)

  datatype StateFields = StateFields(accountId: string, stateSeq: int, patch: FailsPatch)

  /** `day` is the UTC day of the event; an absent identifier is the empty string. */
  datatype UsageFields = UsageFields(
    day: string, occurredAt: real, ok: bool,
    prompt: int, completion: int, total: Option<int>,
    cacheRead: int, cacheCreation: int, reasoning: int,
    apiKeyId: string, accountId: string, model: string)

  /** `Poison` stands for a body of one of the three kinds with a number that does not convert. */
  datatype Body =
    | Stats(stats: StatsFields)
    | State(state: StateFields)
    | Usage(usage: UsageFields)
    | Other
    | Poison

  datatype Event = Event(id: string, body: Body)

  datatype Kind = StatsKind | StateKind | UsageKind | OtherKind | PoisonKind

  function KindOf(e: Event): Kind {
    match e.body
    case Stats(_) => StatsKind
    case State(_) => StateKind
    case Usage(_) => UsageKind
    case Other => OtherKind
    case Poison => PoisonKind
  }

  ghost predicate All(es: seq<Event>, k: Kind) {
    forall e :: e in es ==> KindOf(e) == k
  }

  /** The events of one kind, in order. */
  function Select(es: seq<Event>, k: Kind): (r: seq<Event>)
    ensures All(r, k)
    ensures forall e :: e in r ==> e in es
  {
    if es == [] then [] else
    var init := Select(es[..|es| - 1], k);
    if KindOf(es[|es| - 1]) == k then init + [es[|es| - 1]] else init
  }

  lemma SelectStep(es: seq<Event>, k: Kind)
    requires es != []
    ensures var e := es[|es| - 1];
            multiset(Select(es, k)) == multiset(Select(es[..|es| - 1], k)) + if KindOf(e) == k then multiset{e} else multiset{}
  {
  }

  /** Splitting a batch by kind only reorders it. */
  lemma {:induction false} SelectPartitions(es: seq<Event>)
    ensures multiset(es) == multiset(Select(es, StatsKind)) + multiset(Select(es, StateKind)) + multiset(Select(es, UsageKind))
                            + multiset(Select(es, OtherKind)) + multiset(Select(es, PoisonKind))
  {
    if es != [] {
      var init, e := es[..|es| - 1], es[|es| - 1];
      SelectPartitions(init);
      assert es == init + [e];
      SelectStep(es, StatsKind);
      SelectStep(es, StateKind);
      SelectStep(es, UsageKind);
      SelectStep(es, OtherKind);
      SelectStep(es, PoisonKind);
    }
  }
}
