/** The managed API keys of one process in file mode, with the short-lived cache in front of the row scan. */
module KeyCache {
  import opened Common

  const CACHE_MAX: nat := 2048
  const DROP: nat := 64

  datatype Row = Row(id: string, name: string, prefix: string, hash: string, enabled: bool, note: string, secret: string,
                     lastUsed: Option<real>, requests: nat)

  datatype Cached = Cached(hash: string, row: Row, expires: real)

  /** What verification answers: nobody, the environment's key, or a stored row. */
  datatype Verdict = Refused | Environment | Accepted(row: Row)

  /** A row without its usage counters. */
  function Identity(r: Row): Row { r.(lastUsed := None, requests := 0) }

  function Identities(rows: seq<Row>): seq<Row> { seq(|rows|, i requires 0 <= i < |rows| => Identity(rows[i])) }

  /** The uncached answer: the first enabled row with this hash. */
  function Scan(rows: seq<Row>, h: string): Option<Row> {
    if rows == [] then None
    else match Scan(rows[..|rows| - 1], h)
      case Some(r) => Some(r)
      case None => if rows[|rows| - 1].enabled && rows[|rows| - 1].hash == h then Some(rows[|rows| - 1]) else None
  }

  lemma {:induction false} ScanMeans(rows: seq<Row>, h: string)
    ensures Scan(rows, h).None? <==> forall i :: 0 <= i < |rows| ==> !(rows[i].enabled && rows[i].hash == h)
    ensures Scan(rows, h).Some? ==>
              exists i :: 0 <= i < |rows| && rows[i] == Scan(rows, h).value && rows[i].enabled && rows[i].hash == h
                       && forall j :: 0 <= j < i ==> !(rows[j].enabled && rows[j].hash == h)
  {
    if rows != [] {
      ScanMeans(rows[..|rows| - 1], h);
    }
  }

  /** The scan finds the first match; used by the loop that stops there. */
  lemma {:induction false} ScanAt(rows: seq<Row>, h: string, i: nat)
    requires i < |rows| && rows[i].enabled && rows[i].hash == h && forall j :: 0 <= j < i ==> !(rows[j].enabled && rows[j].hash == h)
    ensures Scan(rows, h) == Some(rows[i])
    decreases |rows|
  {
    if i == |rows| - 1 {
      ScanMeans(rows[..i], h);
    } else {
      ScanAt(rows[..|rows| - 1], h, i);
    }
  }

  function IdentityOf(o: Option<Row>): Option<Row> { match o case None => None case Some(r) => Some(Identity(r)) }

  /** Usage counters do not influence the scan. */
  lemma {:induction false} ScanIgnoresUsage(rows: seq<Row>, other: seq<Row>, h: string)
    requires Identities(rows) == Identities(other)
    ensures IdentityOf(Scan(rows, h)) == IdentityOf(Scan(other, h))
    decreases |rows|
  {
    assert |Identities(rows)| == |rows| && |Identities(other)| == |other|;
    if rows != [] {
      var n := |rows| - 1;
      assert Identities(rows)[n] == Identities(other)[n];
      assert Identities(rows[..n]) == Identities(rows)[..n];
      assert Identities(other[..n]) == Identities(other)[..n];
      ScanIgnoresUsage(rows[..n], other[..n], h);
    }
  }

  /** A cached row is the row the scan would find now, apart from its counters. */
  ghost predicate Agrees(rows: seq<Row>, c: Cached) {
    c.row.enabled && IdentityOf(Scan(rows, c.hash)) == Some(Identity(c.row))
  }

  ghost predicate CacheAgrees(rows: seq<Row>, cache: seq<Cached>) {
    && |cache| <= CACHE_MAX
    && (forall i, j :: 0 <= i < j < |cache| ==> cache[i].hash != cache[j].hash)
    && (forall i :: 0 <= i < |cache| ==> Agrees(rows, cache[i]))
  }

  lemma CacheKeepsAgreeing(rows: seq<Row>, other: seq<Row>, cache: seq<Cached>)
    requires CacheAgrees(rows, cache) && Identities(rows) == Identities(other)
    ensures CacheAgrees(other, cache)
  {
    forall i | 0 <= i < |cache| ensures Agrees(other, cache[i]) {
      assert Agrees(rows, cache[i]);
      ScanIgnoresUsage(rows, other, cache[i].hash);
    }
  }

  /* ---- what the administration does to the rows ---- */

  /** The first row with this id changed; the rest as it is. */
  function ChangeFirst(rows: seq<Row>, id: string, f: Row -> Row): seq<Row> {
    if rows == [] then [] else if rows[0].id == id then [f(rows[0])] + rows[1..] else [rows[0]] + ChangeFirst(rows[1..], id, f)
  }

  predicate HasId(rows: seq<Row>, id: string) { exists i :: 0 <= i < |rows| && rows[i].id == id }

  function Rotated(raw: string, h: string): Row -> Row {
    (r: Row) => r.(prefix := if |raw| < 12 then raw else raw[..12], hash := h, secret := raw)
  }

  function Switched(enabled: bool): Row -> Row { (r: Row) => r.(enabled := enabled) }

  function Renamed(name: Option<string>, note: Option<string>): Row -> Row {
    (r: Row) => r.(name := if name.Some? && name.value != "" then name.value else r.name,
                   note := if note.Some? then note.value else r.note)
  }

  function Removed(rows: seq<Row>, id: string): seq<Row> {
    if rows == [] then [] else (if rows[0].id == id then [] else [rows[0]]) + Removed(rows[1..], id)
  }

  /** One row per id and per hash, as creation with fresh ids and secrets leaves them. */
  ghost predicate DistinctRows(rows: seq<Row>) {
    forall i, j :: 0 <= i < j < |rows| ==> rows[i].id != rows[j].id && rows[i].hash != rows[j].hash
  }

  lemma {:induction false} ChangedRow(rows: seq<Row>, id: string, f: Row -> Row, i: nat)
    requires DistinctRows(rows) && i < |rows|
    ensures |ChangeFirst(rows, id, f)| == |rows|
    ensures ChangeFirst(rows, id, f)[i] == if rows[i].id == id then f(rows[i]) else rows[i]
  {
    if rows[0].id == id {
      assert i > 0 ==> rows[i].id != rows[0].id;
    } else if i == 0 {
      ChangeLength(rows, id, f);
    } else {
      ChangedRow(rows[1..], id, f, i - 1);
    }
  }

  lemma {:induction false} ChangeLength(rows: seq<Row>, id: string, f: Row -> Row)
    ensures |ChangeFirst(rows, id, f)| == |rows|
  {
    if rows != [] {
      ChangeLength(rows[1..], id, f);
    }
  }

  lemma {:induction false} ChangeAt(rows: seq<Row>, id: string, f: Row -> Row, i: nat)
    requires i < |rows| && rows[i].id == id && forall j :: 0 <= j < i ==> rows[j].id != id
    ensures ChangeFirst(rows, id, f) == rows[i := f(rows[i])]
  {
    if i > 0 {
      ChangeAt(rows[1..], id, f, i - 1);
    }
  }

  lemma {:induction false} ChangeNone(rows: seq<Row>, id: string, f: Row -> Row)
    requires !HasId(rows, id)
    ensures ChangeFirst(rows, id, f) == rows
  {
    if rows != [] {
      assert rows[0].id != id;
      forall i | 0 <= i < |rows[1..]| ensures rows[1..][i].id != id {
        assert rows[i + 1].id != id;
      }
      ChangeNone(rows[1..], id, f);
      assert rows == [rows[0]] + rows[1..];
    }
  }

  lemma {:induction false} RemovedRows(rows: seq<Row>, id: string)
    ensures forall r :: r in Removed(rows, id) <==> r in rows && r.id != id
  {
    if rows != [] {
      RemovedRows(rows[1..], id);
      assert rows == [rows[0]] + rows[1..];
    }
  }

  /** Rows that match a hash alike and are equal where they match are scanned alike. */
  lemma {:induction false} ScanSame(rows: seq<Row>, other: seq<Row>, h: string)
    requires |rows| == |other|
    requires forall i :: 0 <= i < |rows| ==>
               ((rows[i].enabled && rows[i].hash == h) <==> (other[i].enabled && other[i].hash == h))
               && (rows[i].enabled && rows[i].hash == h ==> rows[i] == other[i])
    ensures Scan(rows, h) == Scan(other, h)
  {
    if rows != [] {
      ScanSame(rows[..|rows| - 1], other[..|rows| - 1], h);
    }
  }

  /** With one row per hash, the scan answers whatever enabled row there is. */
  lemma ScanOnly(rows: seq<Row>, h: string, r: Row)
    requires forall x, y :: x in rows && y in rows && x.hash == y.hash ==> x == y
    requires r in rows && r.enabled && r.hash == h
    ensures Scan(rows, h) == Some(r)
  {
    ScanMeans(rows, h);
    var i :| 0 <= i < |rows| && rows[i] == r;
  }

  lemma DistinctByHash(rows: seq<Row>)
    requires DistinctRows(rows)
    ensures forall x, y :: x in rows && y in rows && (x.hash == y.hash || x.id == y.id) ==> x == y
  {
    forall x, y | x in rows && y in rows && (x.hash == y.hash || x.id == y.id) ensures x == y {
      var i :| 0 <= i < |rows| && rows[i] == x;
      var j :| 0 <= j < |rows| && rows[j] == y;
    }
  }

  /** Removing a row leaves the answers for all other hashes. */
  lemma RemovedElsewhere(rows: seq<Row>, i: nat, q: string)
    requires DistinctRows(rows) && i < |rows| && q != rows[i].hash
    ensures Scan(Removed(rows, rows[i].id), q) == Scan(rows, q)
  {
    var c := Removed(rows, rows[i].id);
    RemovedRows(rows, rows[i].id);
    DistinctByHash(rows);
    ScanMeans(rows, q);
    if Scan(rows, q).Some? {
      assert rows[i] in rows && Scan(rows, q).value.id != rows[i].id;
      ScanOnly(c, q, Scan(rows, q).value);
    } else {
      ScanMeans(c, q);
      forall k | 0 <= k < |c| ensures !(c[k].enabled && c[k].hash == q) {
        assert c[k] in c;
      }
    }
  }

  /** Changing one row leaves the answers for all hashes that are neither its old nor its new one. */
  lemma ChangedElsewhere(rows: seq<Row>, i: nat, f: Row -> Row, q: string)
    requires DistinctRows(rows) && i < |rows| && q != rows[i].hash && (f(rows[i]).enabled ==> q != f(rows[i]).hash)
    ensures Scan(ChangeFirst(rows, rows[i].id, f), q) == Scan(rows, q)
  {
    var a := ChangeFirst(rows, rows[i].id, f);
    ChangeLength(rows, rows[i].id, f);
    DistinctByHash(rows);
    forall k | 0 <= k < |rows|
      ensures ((rows[k].enabled && rows[k].hash == q) <==> (a[k].enabled && a[k].hash == q))
              && (rows[k].enabled && rows[k].hash == q ==> rows[k] == a[k])
    {
      ChangedRow(rows, rows[i].id, f, k);
      assert rows[k] in rows && rows[i] in rows;
    }
    ScanSame(rows, a, q);
  }

  lemma OldHashGone(rows: seq<Row>, i: nat, raw: string, h: string)
    requires DistinctRows(rows) && i < |rows| && h != rows[i].hash
    ensures Scan(ChangeFirst(rows, rows[i].id, Switched(false)), rows[i].hash) == None
    ensures Scan(ChangeFirst(rows, rows[i].id, Rotated(raw, h)), rows[i].hash) == None
    ensures Scan(Removed(rows, rows[i].id), rows[i].hash) == None
  {
    var id, was := rows[i].id, rows[i].hash;
    var a, b, c := ChangeFirst(rows, id, Switched(false)), ChangeFirst(rows, id, Rotated(raw, h)), Removed(rows, id);
    ChangeLength(rows, id, Switched(false));
    ChangeLength(rows, id, Rotated(raw, h));
    forall k | 0 <= k < |rows| ensures !(a[k].enabled && a[k].hash == was) && !(b[k].enabled && b[k].hash == was) {
      ChangedRow(rows, id, Switched(false), k);
      ChangedRow(rows, id, Rotated(raw, h), k);
      if k < i {
        assert rows[k].id != rows[i].id && rows[k].hash != rows[i].hash;
      } else if i < k {
        assert rows[i].id != rows[k].id && rows[i].hash != rows[k].hash;
      }
    }
    RemovedRows(rows, id);
    forall k | 0 <= k < |c| ensures c[k].hash != was {
      assert c[k] in c;
      var j :| 0 <= j < |rows| && rows[j] == c[k];
    }
    ScanMeans(a, was);
    ScanMeans(b, was);
    ScanMeans(c, was);
  }

  /**
   Revocation is immediate: disabling, rotating to another hash or deleting a row makes its old hash
   verify to nobody from then on, while for every other hash the answer stays what it was; a rotated row
   that is enabled is found under its new hash when no other row has it.
   */
  lemma RevokedAtOnce(rows: seq<Row>, i: nat, raw: string, h: string, q: string)
    requires DistinctRows(rows) && i < |rows| && h != rows[i].hash
    ensures Scan(ChangeFirst(rows, rows[i].id, Switched(false)), q) == if q == rows[i].hash then None else Scan(rows, q)
    ensures Scan(Removed(rows, rows[i].id), q) == if q == rows[i].hash then None else Scan(rows, q)
    ensures q != h ==> Scan(ChangeFirst(rows, rows[i].id, Rotated(raw, h)), q) == if q == rows[i].hash then None else Scan(rows, q)
    ensures (forall k :: 0 <= k < |rows| ==> rows[k].hash != h) ==>
              Scan(ChangeFirst(rows, rows[i].id, Rotated(raw, h)), h) == if rows[i].enabled then Some(Rotated(raw, h)(rows[i])) else None
  {
    if q == rows[i].hash {
      OldHashGone(rows, i, raw, h);
    } else {
      ChangedElsewhere(rows, i, Switched(false), q);
      RemovedElsewhere(rows, i, q);
      if q != h {
        ChangedElsewhere(rows, i, Rotated(raw, h), q);
      }
    }
    if forall k :: 0 <= k < |rows| ==> rows[k].hash != h {
      FoundUnderNewHash(rows, i, raw, h);
    }
  }

  lemma FoundUnderNewHash(rows: seq<Row>, i: nat, raw: string, h: string)
    requires DistinctRows(rows) && i < |rows| && forall k :: 0 <= k < |rows| ==> rows[k].hash != h
    ensures Scan(ChangeFirst(rows, rows[i].id, Rotated(raw, h)), h) == if rows[i].enabled then Some(Rotated(raw, h)(rows[i])) else None
  {
    var a := ChangeFirst(rows, rows[i].id, Rotated(raw, h));
    ChangeLength(rows, rows[i].id, Rotated(raw, h));
    forall k | 0 <= k < |a| ensures a[k].hash == h <==> k == i {
      ChangedRow(rows, rows[i].id, Rotated(raw, h), k);
    }
    ChangedRow(rows, rows[i].id, Rotated(raw, h), i);
    if rows[i].enabled {
      ScanAt(a, h, i);
    } else {
      ScanMeans(a, h);
    }
  }

  /* ---- the store object ---- */

  class KeyStore {
    const hashOf: string -> string
    const strip: string -> string
    const envKey: string
    const ttl: real
    var rows: seq<Row>
    var cache: seq<Cached>

    constructor (hashOf: string -> string, strip: string -> string, envKey: string, ttl: real, rows: seq<Row>)
      ensures this.rows == rows && cache == [] && Valid()
    {
      this.hashOf, this.strip, this.envKey, this.ttl, this.rows := hashOf, strip, envKey, ttl, rows;
      cache := [];
    }

    ghost predicate Valid() reads this { CacheAgrees(rows, cache) }

    /** A live entry for this hash; an expired one is dropped. */
    method CacheGet(h: string, now: real) returns (row: Option<Row>)
      requires Valid()
      modifies this`cache
      ensures Valid() && |cache| <= |old(cache)|
      ensures row.Some? ==> Agrees(rows, Cached(h, row.value, now))
      ensures row.None? ==> forall i :: 0 <= i < |cache| ==> cache[i].hash != h
    {
      var i := 0;
      while i < |cache|
        invariant 0 <= i <= |cache|
        invariant forall j :: 0 <= j < i ==> cache[j].hash != h
      {
        if cache[i].hash == h {
          if now > cache[i].expires {
            cache := cache[..i] + cache[i + 1..];
            return None;
          }
          return Some(cache[i].row);
        }
        i := i + 1;
      }
      row := None;
    }

    /** Makes room by dropping the oldest entries, then adds one. */
    method CachePut(h: string, row: Row, now: real)
      requires Valid() && Agrees(rows, Cached(h, row, now)) && forall i :: 0 <= i < |cache| ==> cache[i].hash != h
      modifies this`cache
      ensures Valid() && cache != [] && cache[|cache| - 1].hash == h && cache[|cache| - 1].row == row
    {
      if |cache| >= CACHE_MAX {
        cache := cache[DROP..];
      }
      cache := cache + [Cached(h, row, now + MaxReal(0.5, ttl))];
    }

    /**
     Verification with the cache: whatever was cached, the answer names a row exactly when the scan of the
     rows finds that enabled row, and only usage counters change.
     */
    method Verify(raw: string, now: real) returns (v: Verdict)
      requires Valid()
      modifies this
      ensures Valid() && Identities(rows) == Identities(old(rows))
      ensures strip(raw) == "" ==> v.Refused?
      ensures strip(raw) != "" && strip(raw) == envKey ==> v.Environment?
      ensures strip(raw) != "" && strip(raw) != envKey ==>
                match Scan(old(rows), hashOf(strip(raw)))
                case None => v.Refused?
                case Some(r) => v.Accepted? && Identity(v.row) == Identity(r)
    {
      var key := strip(raw);
      if key == "" {
        return Refused;
      }
      if envKey != "" && key == envKey {
        return Environment;
      }
      var h := hashOf(key);
      var cached := CacheGet(h, now);
      if cached.Some? {
        return Accepted(cached.value);  // cached rows are enabled
      }
      v := Lookup(h, now);
    }

    /** The scan itself: the first enabled row with this hash is cached and its counters go up. */
    method Lookup(h: string, now: real) returns (v: Verdict)
      requires Valid() && forall i :: 0 <= i < |cache| ==> cache[i].hash != h
      modifies this
      ensures Valid() && Identities(rows) == Identities(old(rows))
      ensures match Scan(old(rows), h)
              case None => v.Refused?
              case Some(r) => v == Accepted(r)
    {
      var i := 0;
      while i < |rows|
        invariant 0 <= i <= |rows|
        invariant forall j :: 0 <= j < i ==> !(rows[j].enabled && rows[j].hash == h)
      {
        if rows[i].enabled && rows[i].hash == h {
          var found := rows[i];
          ScanAt(rows, h, i);
          CachePut(h, found, now);
          Count(i, now);
          return Accepted(found);
        }
        i := i + 1;
      }
      ScanMeans(rows, h);
      v := Refused;
    }

    /** Usage counters of one row. */
    method Count(i: nat, now: real)
      requires Valid() && i < |rows|
      modifies this`rows
      ensures Valid() && Identities(rows) == Identities(old(rows))
      ensures rows == old(rows)[i := old(rows)[i].(lastUsed := Some(now), requests := old(rows)[i].requests + 1)]
    {
      ghost var before := rows;
      rows := rows[i := rows[i].(lastUsed := Some(now), requests := rows[i].requests + 1)];
      assert Identities(rows) == Identities(before);
      CacheKeepsAgreeing(before, rows, cache);
    }

    method Create(id: string, name: string, note: string, raw: string)
      modifies this
      ensures Valid() && cache == []
      ensures rows == old(rows) + [Row(id, if strip(name) != "" then strip(name) else "default",
                                       if |raw| < 12 then raw else raw[..12], hashOf(raw), true, strip(note), raw, None, 0)]
    {
      rows := rows + [Row(id, if strip(name) != "" then strip(name) else "default",
                          if |raw| < 12 then raw else raw[..12], hashOf(raw), true, strip(note), raw, None, 0)];
      cache := [];
    }

    /** Finds the first row with this id and rewrites it in place; the cache is emptied with every change. */
    method Rewrite(id: string, f: Row -> Row) returns (found: bool)
      requires Valid()
      modifies this
      ensures Valid() && found == HasId(old(rows), id) && rows == ChangeFirst(old(rows), id, f)
      ensures found ==> cache == []
    {
      ghost var before := rows;
      var i := 0;
      while i < |rows|
        invariant 0 <= i <= |rows| && rows == before && cache == old(cache)
        invariant forall j :: 0 <= j < i ==> before[j].id != id
      {
        if rows[i].id == id {
          ChangeAt(rows, id, f, i);
          rows := rows[i := f(rows[i])];
          cache := [];
          return true;
        }
        i := i + 1;
      }
      ChangeNone(rows, id, f);
      found := false;
    }

    method Regenerate(id: string, raw: string) returns (found: bool)
      requires Valid()
      modifies this
      ensures Valid() && found == HasId(old(rows), id) && rows == ChangeFirst(old(rows), id, Rotated(raw, hashOf(raw)))
    {
      found := Rewrite(id, Rotated(raw, hashOf(raw)));
    }

    method SetEnabled(id: string, enabled: bool) returns (found: bool)
      requires Valid()
      modifies this
      ensures Valid() && found == HasId(old(rows), id) && rows == ChangeFirst(old(rows), id, Switched(enabled))
    {
      found := Rewrite(id, Switched(enabled));
    }

    method Update(id: string, name: Option<string>, note: Option<string>) returns (found: bool)
      requires Valid()
      modifies this
      ensures Valid() && found == HasId(old(rows), id)
      ensures rows == ChangeFirst(old(rows), id, Renamed(if name.Some? then Some(strip(name.value)) else None, note))
    {
      found := Rewrite(id, Renamed(if name.Some? then Some(strip(name.value)) else None, note));
    }

    method Delete(id: string) returns (found: bool)
      requires Valid()
      modifies this
      ensures Valid() && found == HasId(old(rows), id) && rows == Removed(old(rows), id)
    {
      ghost var before := rows;
      var kept: seq<Row> := [];
      found := false;
      for i := 0 to |rows|
        invariant rows == before && cache == old(cache)
        invariant Removed(before, id) == kept + Removed(before[i..], id)
        invariant found <==> exists j :: 0 <= j < i && before[j].id == id
        invariant !found ==> kept == before[..i]
      {
        assert before[i..][1..] == before[i + 1..];
        if rows[i].id != id {
          assert kept + ([rows[i]] + Removed(before[i + 1..], id)) == (kept + [rows[i]]) + Removed(before[i + 1..], id);
          kept := kept + [rows[i]];
        } else {
          assert [] + Removed(before[i + 1..], id) == Removed(before[i + 1..], id);
          found := true;
        }
      }
      assert before[|before|..] == [];
      assert kept + [] == kept;
      if !found {
        return;
      }
      rows, cache := kept, [];
    }
  }
}
