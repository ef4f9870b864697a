/** The bounded cache of proxy HTTP clients: an ordered dict, least recently used entry first. */
module ClientCache {
  import opened Common

  function CacheLimit(raw: int): (n: nat)
    ensures 8 <= n <= 512 && (8 <= raw <= 512 ==> n == raw)
  {
    Max(8, if raw < 512 then raw else 512)
  }

  datatype Entry = Entry(key: string, client: nat)

  function KeysOf(es: seq<Entry>): seq<string> { seq(|es|, i requires 0 <= i < |es| => es[i].key) }

  function Remove(ks: seq<string>, k: string): seq<string> {
    if ks == [] then [] else if ks[|ks| - 1] == k then Remove(ks[..|ks| - 1], k) else Remove(ks[..|ks| - 1], k) + [ks[|ks| - 1]]
  }

  function LastN<T>(n: nat, xs: seq<T>): seq<T> { if |xs| <= n then xs else xs[|xs| - n..] }

  /** The cached keys after one request. */
  function Touch(limit: nat, ks: seq<string>, k: string): seq<string> { LastN(limit, Remove(ks, k) + [k]) }

  function TouchAll(limit: nat, requests: seq<string>): seq<string> {
    if requests == [] then [] else Touch(limit, TouchAll(limit, requests[..|requests| - 1]), requests[|requests| - 1])
  }

  /* ---- what recency means ---- */

  /** The position of the last request for `k`. */
  function LastUse(requests: seq<string>, k: string): int {
    if requests == [] then -1
    else if requests[|requests| - 1] == k then |requests| - 1
    else LastUse(requests[..|requests| - 1], k)
  }

  /** Every requested key once, in the order of its last request. */
  ghost predicate InRecencyOrder(ks: seq<string>, requests: seq<string>) {
    && (forall k :: k in ks <==> k in requests)
    && (forall i, j :: 0 <= i < j < |ks| ==> LastUse(requests, ks[i]) < LastUse(requests, ks[j]))
  }

  function Recency(requests: seq<string>): seq<string> {
    if requests == [] then []
    else Remove(Recency(requests[..|requests| - 1]), requests[|requests| - 1]) + [requests[|requests| - 1]]
  }

  lemma {:induction false} Removed(ks: seq<string>, k: string)
    ensures forall x :: x in Remove(ks, k) <==> x in ks && x != k
    ensures k !in ks ==> Remove(ks, k) == ks
  {
    if ks != [] {
      Removed(ks[..|ks| - 1], k);
      assert ks == ks[..|ks| - 1] + [ks[|ks| - 1]];
    }
  }

  ghost predicate Ascending(rank: string -> int, ks: seq<string>) {
    forall i, j :: 0 <= i < j < |ks| ==> rank(ks[i]) < rank(ks[j])
  }

  /** Removal keeps the order of what stays. */
  lemma {:induction false} RemovedOrder(ks: seq<string>, k: string, rank: string -> int)
    requires Ascending(rank, ks)
    ensures Ascending(rank, Remove(ks, k))
  {
    if ks != [] {
      var init, last := ks[..|ks| - 1], ks[|ks| - 1];
      RemovedOrder(init, k, rank);
      Removed(init, k);
      var r := Remove(init, k);
      forall i | 0 <= i < |r| ensures rank(r[i]) < rank(last) {
        assert r[i] in r;
        var m :| 0 <= m < |init| && init[m] == r[i];
        assert ks[m] == r[i];
      }
      if last != k {
        assert Remove(ks, k) == r + [last];
      } else {
        assert Remove(ks, k) == r;
      }
    }
  }

  lemma {:induction false} LastUseIs(requests: seq<string>, k: string)
    ensures -1 <= LastUse(requests, k) < |requests|
    ensures k in requests <==> LastUse(requests, k) >= 0
  {
    if requests != [] {
      LastUseIs(requests[..|requests| - 1], k);
      assert requests == requests[..|requests| - 1] + [requests[|requests| - 1]];
    }
  }

  function Rank(requests: seq<string>): string -> int { (k: string) => LastUse(requests, k) }

  /** A request for another key leaves the order of the others. */
  lemma StillOrdered(init: seq<string>, k: string, r: seq<string>)
    requires Ascending(Rank(init), r) && forall i :: 0 <= i < |r| ==> r[i] != k && r[i] in init
    ensures forall i :: 0 <= i < |r| ==> LastUse(init + [k], r[i]) == LastUse(init, r[i]) < |init|
    ensures forall i, j :: 0 <= i < j < |r| ==> LastUse(init + [k], r[i]) < LastUse(init + [k], r[j])
  {
    forall i | 0 <= i < |r| ensures LastUse(init + [k], r[i]) == LastUse(init, r[i]) < |init| {
      assert (init + [k])[..|init|] == init;
      LastUseIs(init, r[i]);
    }
    forall i, j | 0 <= i < j < |r| ensures LastUse(init + [k], r[i]) < LastUse(init + [k], r[j]) {
      assert Rank(init)(r[i]) < Rank(init)(r[j]);
    }
  }

  /** One more request moves its key to the end. */
  lemma RecencyStep(ks: seq<string>, init: seq<string>, k: string)
    requires InRecencyOrder(ks, init)
    ensures InRecencyOrder(Remove(ks, k) + [k], init + [k])
  {
    var r := Remove(ks, k);
    Removed(ks, k);
    RemovedOrder(ks, k, Rank(init));
    forall i | 0 <= i < |r| ensures r[i] != k && r[i] in init {
      assert r[i] in r;
    }
    StillOrdered(init, k, r);
    assert (init + [k])[..|init|] == init;
    assert LastUse(init + [k], k) == |init|;
  }

  lemma {:induction false} RecencyMeans(requests: seq<string>)
    ensures InRecencyOrder(Recency(requests), requests)
  {
    if requests != [] {
      var init := requests[..|requests| - 1];
      RecencyMeans(init);
      RecencyStep(Recency(init), init, requests[|requests| - 1]);
      assert requests == init + [requests[|requests| - 1]];
    }
  }

  /* ---- the bounded cache refines the recency order ---- */

  lemma {:induction false} RemoveConcat(a: seq<string>, b: seq<string>, k: string)
    ensures Remove(a + b, k) == Remove(a, k) + Remove(b, k)
  {
    if b == [] {
      assert a + b == a;
    } else {
      assert (a + b)[..|a + b| - 1] == a + b[..|b| - 1];
      RemoveConcat(a, b[..|b| - 1], k);
    }
  }

  lemma {:induction false} RemoveLength(ks: seq<string>, k: string)
    requires Distinct(ks)
    ensures |Remove(ks, k)| == if k in ks then |ks| - 1 else |ks|
  {
    if ks != [] {
      var init := ks[..|ks| - 1];
      RemoveLength(init, k);
      assert ks == init + [ks[|ks| - 1]];
    }
  }

  lemma DistinctParts(a: seq<string>, b: seq<string>, k: string)
    requires Distinct(a + b)
    ensures Distinct(a) && Distinct(b) && (k in b ==> k !in a)
  {
    assert forall i :: 0 <= i < |a| ==> (a + b)[i] == a[i];
    assert forall j :: 0 <= j < |b| ==> (a + b)[|a| + j] == b[j];
  }

  lemma LastOfConcat<T>(n: nat, a: seq<T>, b: seq<T>)
    requires |b| >= n
    ensures LastN(n, a + b) == LastN(n, b)
  {
  }

  /** Forgetting beyond the limit and using a key may be exchanged. */
  lemma TouchLastN(limit: nat, ks: seq<string>, k: string)
    requires Distinct(ks) && limit > 0
    ensures Touch(limit, LastN(limit, ks), k) == LastN(limit, Remove(ks, k) + [k])
  {
    if |ks| > limit {
      var a, b := ks[..|ks| - limit], ks[|ks| - limit..];
      assert ks == a + b;
      DistinctParts(a, b, k);
      RemoveConcat(a, b, k);
      RemoveLength(b, k);
      var rb := Remove(b, k) + [k];
      assert Remove(ks, k) + [k] == Remove(a, k) + rb;
      LastOfConcat(limit, Remove(a, k), rb);
    }
  }

  lemma {:induction false} RecencyDistinct(requests: seq<string>)
    ensures Distinct(Recency(requests))
  {
    RecencyMeans(requests);
  }

  /**
   After any requests the cache holds exactly the most recently used keys, at most `limit` of them, in the
   order of their last use, and the key just requested is the last of them.
   */
  lemma {:induction false} LruRefinesRecency(limit: nat, requests: seq<string>)
    requires limit > 0
    ensures TouchAll(limit, requests) == LastN(limit, Recency(requests))
    ensures InRecencyOrder(Recency(requests), requests)
    ensures requests != [] ==> requests[|requests| - 1] in TouchAll(limit, requests)
  {
    RecencyMeans(requests);
    if requests != [] {
      var init := requests[..|requests| - 1];
      LruRefinesRecency(limit, init);
      RecencyDistinct(init);
      TouchLastN(limit, Recency(init), requests[|requests| - 1]);
      var all := TouchAll(limit, requests);
      assert all[|all| - 1] == requests[|requests| - 1];
    }
  }

  /* ---- the ordered dict ---- */

  class ProxyClients {
    const limit: nat
    var entries: seq<Entry>
    var made: nat
    ghost var requests: seq<string>

    constructor (raw: int)
      ensures limit == CacheLimit(raw) && entries == [] && requests == [] && Valid()
    {
      limit := CacheLimit(raw);
      entries, made, requests := [], 0, [];
    }

    /** The cache is what the requests so far make it. */
    ghost predicate Valid() reads this {
      && limit == CacheLimit(limit) && KeysOf(entries) == TouchAll(limit, requests)
      && (forall e :: e in entries ==> e.client < made)
    }

    method Find(key: string) returns (at: int)
      ensures -1 <= at < |entries|
      ensures at >= 0 ==> entries[at].key == key
      ensures at < 0 ==> key !in KeysOf(entries)
    {
      at := 0;
      while at < |entries|
        invariant 0 <= at <= |entries|
        invariant forall i :: 0 <= i < at ==> entries[i].key != key
      {
        if entries[at].key == key {
          return;
        }
        at := at + 1;
      }
      at := -1;
    }

    /** Drops entries from the old end until the limit holds; the one just added stays. */
    method Evict(key: string)
      requires entries != [] && entries[|entries| - 1].key == key && limit > 0
      modifies this`entries
      ensures entries == LastN(limit, old(entries))
    {
      ghost var before, dropped := entries, 0;
      while |entries| > limit
        invariant 0 <= dropped < |before| && entries == before[dropped..]
        invariant dropped > 0 ==> |entries| >= limit
      {
        entries := entries[1..];  // never the key just added: it is the last of more than one
        dropped := dropped + 1;
      }
    }

    /** A healthy cached client moves to the end. */
    method Reuse(at: nat) returns (client: nat)
      requires at < |entries| <= limit && Distinct(KeysOf(entries))
      modifies this`entries
      ensures KeysOf(entries) == Touch(limit, KeysOf(old(entries)), old(entries)[at].key)
      ensures entries == old(entries)[..at] + old(entries)[at + 1..] + [old(entries)[at]] && client == old(entries)[at].client
    {
      client := entries[at].client;
      MoveToEnd(entries, at, limit);
      entries := entries[..at] + entries[at + 1..] + [entries[at]];
    }

    /** A new client under `key`, in place of a stale one at `at` if there is one; nothing is evicted yet. */
    method Add(key: string, at: int) returns (client: nat)
      requires -1 <= at < |entries| && Distinct(KeysOf(entries))
      requires if at >= 0 then entries[at].key == key else key !in KeysOf(entries)
      modifies this`entries, this`made
      ensures KeysOf(entries) == Remove(KeysOf(old(entries)), key) + [key]
      ensures entries != [] && entries[|entries| - 1] == Entry(key, client) && client == old(made) && made == old(made) + 1
      ensures forall e :: e in entries ==> e in old(entries) || e == Entry(key, client)
    {
      ghost var before := entries;
      if at >= 0 {
        entries := entries[..at] + entries[at + 1..];  // the stale client goes first
      }
      client := made;
      made := made + 1;
      AddNew(before, at, entries, key, client);
      entries := entries + [Entry(key, client)];
    }

    method Create(key: string, at: int) returns (client: nat)
      requires -1 <= at < |entries| && Distinct(KeysOf(entries)) && limit > 0
      requires if at >= 0 then entries[at].key == key else key !in KeysOf(entries)
      modifies this`entries, this`made
      ensures KeysOf(entries) == Touch(limit, KeysOf(old(entries)), key)
      ensures entries != [] && entries[|entries| - 1] == Entry(key, client) && client == old(made) && made == old(made) + 1
      ensures forall e :: e in entries ==> e in old(entries) || e == Entry(key, client)
    {
      client := Add(key, at);
      LastKeys(limit, entries);
      LastMembers(limit, entries);
      Evict(key);
    }

    /** One request on the entries alone. */
    method Fetch(key: string, healthy: bool) returns (client: nat)
      requires |entries| <= limit && Distinct(KeysOf(entries)) && limit > 0 && forall e :: e in entries ==> e.client < made
      modifies this`entries, this`made
      ensures KeysOf(entries) == Touch(limit, KeysOf(old(entries)), key)
      ensures entries != [] && entries[|entries| - 1] == Entry(key, client)
      ensures forall e :: e in entries ==> e in old(entries) || e == Entry(key, client)
      ensures if healthy && key in KeysOf(old(entries))
              then Entry(key, client) in old(entries) && made == old(made)
              else client == old(made) && made == old(made) + 1
    {
      var at := Find(key);
      if at >= 0 {
        assert KeysOf(entries)[at] == key;
      }
      if at >= 0 && healthy {
        assert entries[at] in entries;
        client := Reuse(at);
      } else {
        client := Create(key, at);
      }
    }

    /** The client for a proxy: the cached one while it is healthy, otherwise a new one under the same key. */
    method Get(key: string, healthy: bool) returns (client: nat)
      requires Valid()
      modifies this
      ensures Valid() && requests == old(requests) + [key]
      ensures entries != [] && entries[|entries| - 1] == Entry(key, client)
      ensures forall e :: e in entries && e.key != key ==> e in old(entries)
      ensures if healthy && key in KeysOf(old(entries))
              then Entry(key, client) in old(entries) && made == old(made)
              else client == old(made) && made == old(made) + 1
    {
      CachedKeys(limit, requests);
      TouchOnce(limit, requests, key);
      client := Fetch(key, healthy);
      requests := requests + [key];
    }
  }

  lemma CachedKeys(limit: nat, requests: seq<string>)
    requires limit > 0
    ensures Distinct(TouchAll(limit, requests)) && |TouchAll(limit, requests)| <= limit
  {
    LruRefinesRecency(limit, requests);
    RecencyDistinct(requests);
  }

  lemma TouchOnce(limit: nat, requests: seq<string>, key: string)
    ensures TouchAll(limit, requests + [key]) == Touch(limit, TouchAll(limit, requests), key)
  {
    assert (requests + [key])[..|requests|] == requests;
  }

  lemma LastMembers(limit: nat, es: seq<Entry>)
    ensures forall e :: e in LastN(limit, es) ==> e in es
  {
  }

  lemma LastKeys(limit: nat, es: seq<Entry>)
    ensures KeysOf(LastN(limit, es)) == LastN(limit, KeysOf(es))
  {
  }

  lemma {:induction false} CutKey(ks: seq<string>, at: nat)
    requires Distinct(ks) && at < |ks|
    ensures Remove(ks, ks[at]) == ks[..at] + ks[at + 1..]
  {
    var a, b := ks[..at], ks[at + 1..];
    assert ks == a + [ks[at]] + b;
    RemoveConcat(a + [ks[at]], b, ks[at]);
    RemoveConcat(a, [ks[at]], ks[at]);
    Removed(a, ks[at]);
    Removed(b, ks[at]);
    assert [ks[at]][..0] == [];
    assert ks[at] !in a && ks[at] !in b;
  }

  /** Moving a cached key to the end is what a request for it does to the keys; nothing is evicted. */
  lemma MoveToEnd(es: seq<Entry>, at: nat, limit: nat)
    requires at < |es| <= limit && Distinct(KeysOf(es))
    ensures KeysOf(es[..at] + es[at + 1..] + [es[at]]) == Touch(limit, KeysOf(es), es[at].key)
  {
    CutKey(KeysOf(es), at);
    assert KeysOf(es[..at] + es[at + 1..] + [es[at]]) == KeysOf(es)[..at] + KeysOf(es)[at + 1..] + [es[at].key];
  }

  /** Dropping a stale entry, if any, and adding the new one: the request, before eviction. */
  lemma AddNew(before: seq<Entry>, at: int, es: seq<Entry>, key: string, client: nat)
    requires -1 <= at < |before| && Distinct(KeysOf(before))
    requires at >= 0 ==> before[at].key == key && es == before[..at] + before[at + 1..]
    requires at < 0 ==> key !in KeysOf(before) && es == before
    ensures KeysOf(es + [Entry(key, client)]) == Remove(KeysOf(before), key) + [key]
    ensures forall e :: e in es ==> e in before
  {
    if at >= 0 {
      CutKey(KeysOf(before), at);
      assert KeysOf(es) == KeysOf(before)[..at] + KeysOf(before)[at + 1..];
    } else {
      Removed(KeysOf(before), key);
    }
    assert KeysOf(es + [Entry(key, client)]) == KeysOf(es) + [key];
  }
}
