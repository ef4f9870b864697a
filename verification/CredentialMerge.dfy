/** Merging imported accounts into the stored ones without rolling a credential generation back. */
module CredentialMerge {
  import opened Common

  /**
   An account entry. In the named fields the empty string stands for a missing or empty value; `durable`
   holds the single-sign-on and registration data, where a present empty value and a missing key differ.
   */
  datatype Entry = Entry(
    userId: string, principalId: string,
    key: string, accessToken: string, token: string, expiresAt: string, refresh: string, idToken: string,
    durable: map<string, string>)

  /** How times are read from an expiry text and from a token's claims, and the cookie value in durable data. */
  datatype Reader = Reader(stamp: string -> Option<real>, jwtExp: string -> Option<real>, sso: map<string, string> -> string)

  function Uid(e: Entry): string { if e.userId != "" then e.userId else e.principalId }

  function Token(e: Entry): string {
    if e.key != "" then e.key else if e.accessToken != "" then e.accessToken else e.token
  }

  /** The explicit expiry, or the one in the token. */
  function ParseExpires(r: Reader, value: string, token: string): Option<real> {
    var s := if value == "" then None else r.stamp(value);
    if s.Some? then s else if token != "" then r.jwtExp(token) else None
  }

  function Expiry(r: Reader, e: Entry): Option<real> { ParseExpires(r, e.expiresAt, Token(e)) }

  /** The entry states its expiry itself. */
  predicate Explicit(r: Reader, e: Entry) { e.expiresAt != "" && r.stamp(e.expiresAt).Some? }

  /* ---- durable fields ---- */

  const DURABLE: seq<string> := [
    "sso", "sso_cookie", "sso_token", "session_cookies", "cookies", "cookie", "set_cookie", "set-cookie",
    "set_cookies", "password", "register_password", "registration_session_id", "registration_batch_id",
    "sso_backup_path", "source"]

  function Val(d: map<string, string>, k: string): string { if k in d then d[k] else "" }

  function Fill(d: map<string, string>, stored: map<string, string>, k: string): map<string, string> {
    if Val(d, k) == "" && Val(stored, k) != "" then d[k := stored[k]] else d
  }

  function FillAll(d: map<string, string>, stored: map<string, string>, ks: seq<string>): map<string, string> {
    if ks == [] then d else Fill(FillAll(d, stored, ks[..|ks| - 1]), stored, ks[|ks| - 1])
  }

  /** `sso` is set, `sso_cookie` only when the key is missing. */
  function SetSso(d: map<string, string>, v: string): map<string, string> {
    var e := d["sso" := v];
    if "sso_cookie" in e then e else e["sso_cookie" := v]
  }

  function Carry(r: Reader, d: map<string, string>, stored: Option<map<string, string>>): map<string, string> {
    match stored
    case None => d
    case Some(o) => FillAll(if r.sso(d) == "" && r.sso(o) != "" then SetSso(d, r.sso(o)) else d, o, DURABLE)
  }

  function OwnSso(r: Reader, d: map<string, string>): map<string, string> { if r.sso(d) != "" then SetSso(d, r.sso(d)) else d }

  /** Either password name stands in for the other. */
  function Passwords(d: map<string, string>): map<string, string> {
    var c := if Val(d, "password") == "" && Val(d, "register_password") != "" then d["password" := d["register_password"]] else d;
    if Val(c, "register_password") == "" && Val(c, "password") != "" then c["register_password" := c["password"]] else c
  }

  function Durable(r: Reader, d: map<string, string>, stored: Option<map<string, string>>): map<string, string> {
    Passwords(OwnSso(r, Carry(r, d, stored)))
  }

  lemma {:induction false} FillAllMeans(d: map<string, string>, stored: map<string, string>, ks: seq<string>, k: string)
    ensures Val(d, k) != "" ==> Val(FillAll(d, stored, ks), k) == Val(d, k)
    ensures Val(d, k) == "" && k in ks ==> Val(FillAll(d, stored, ks), k) == Val(stored, k)
    ensures Val(d, k) == "" && k !in ks ==> Val(FillAll(d, stored, ks), k) == ""
  {
    if ks != [] {
      FillAllMeans(d, stored, ks[..|ks| - 1], k);
      assert ks == ks[..|ks| - 1] + [ks[|ks| - 1]];
    }
  }

  /** Nothing that has a value loses it; only `sso` may get another one. */
  ghost predicate Keeps(d: map<string, string>, e: map<string, string>, k: string) {
    Val(d, k) != "" ==> Val(e, k) != "" && (k != "sso" ==> Val(e, k) == Val(d, k))
  }

  lemma SetSsoKeeps(d: map<string, string>, v: string, k: string)
    requires v != ""
    ensures Keeps(d, SetSso(d, v), k)
  {
  }

  lemma CarryKeeps(r: Reader, d: map<string, string>, stored: Option<map<string, string>>, k: string)
    ensures Keeps(d, Carry(r, d, stored), k)
    ensures stored.Some? && k in DURABLE && Val(stored.value, k) != "" ==> Val(Carry(r, d, stored), k) != ""
  {
    if stored.Some? {
      var o := stored.value;
      var a := if r.sso(d) == "" && r.sso(o) != "" then SetSso(d, r.sso(o)) else d;
      if r.sso(d) == "" && r.sso(o) != "" {
        SetSsoKeeps(d, r.sso(o), k);
      }
      FillAllMeans(a, o, DURABLE, k);
    }
  }

  lemma PasswordsKeep(d: map<string, string>, k: string)
    ensures Keeps(d, Passwords(d), k)
  {
  }

  /**
   No durable field is lost: one that either entry has is in the result, and what the incoming entry
   already has stays its own, except that `sso` becomes the value found in the data.
   */
  lemma DurableKept(r: Reader, d: map<string, string>, stored: Option<map<string, string>>, k: string)
    requires k in DURABLE
    ensures Val(d, k) != "" || (stored.Some? && Val(stored.value, k) != "") ==> Val(Durable(r, d, stored), k) != ""
    ensures Val(d, k) != "" && k != "sso" ==> Val(Durable(r, d, stored), k) == Val(d, k)
  {
    var a := Carry(r, d, stored);
    CarryKeeps(r, d, stored, k);
    if r.sso(a) != "" {
      SetSsoKeeps(a, r.sso(a), k);
    }
    PasswordsKeep(OwnSso(r, a), k);
  }

  /* ---- one merge ---- */

  /** Whether the stored credential generation stays. */
  predicate KeepsCurrent(r: Reader, incoming: Entry, current: Entry) {
    && Token(current) != ""
    && (Token(incoming) == Token(current)
        || (Token(incoming) != "" && Expiry(r, current).Some?
            && (Expiry(r, incoming).None? || Expiry(r, current).value > Expiry(r, incoming).value)))
  }

  function Or(a: string, b: string): string { if a != "" then a else b }

  /** The generation fields of the stored entry where it has them. */
  function Taken(e: Entry, o: Entry): Entry {
    e.(key := Or(o.key, e.key), accessToken := Or(o.accessToken, e.accessToken), token := Or(o.token, e.token),
       expiresAt := Or(o.expiresAt, e.expiresAt), refresh := Or(o.refresh, e.refresh), idToken := Or(o.idToken, e.idToken))
  }

  function Generation(r: Reader, e: Entry, o: Entry): Entry {
    if KeepsCurrent(r, e, o) then Taken(e, o) else e.(refresh := Or(e.refresh, o.refresh))
  }

  function DurableOf(stored: Option<Entry>): Option<map<string, string>> {
    match stored case None => None case Some(o) => Some(o.durable)
  }

  function Merge(r: Reader, incoming: Entry, stored: Option<Entry>): Entry {
    var e := incoming.(durable := Durable(r, incoming.durable, DurableOf(stored)));
    match stored case None => e case Some(o) => Generation(r, e, o)
  }

  /** The generation does not depend on durable data. */
  lemma MergeGeneration(r: Reader, incoming: Entry, o: Entry)
    ensures Merge(r, incoming, Some(o)) == Generation(r, incoming, o).(durable := Durable(r, incoming.durable, Some(o.durable)))
  {
  }

  /** The dict `entry` updated in place, field by field, as the import does it. */
  method MergeImported(r: Reader, incoming: Entry, stored: Option<Entry>) returns (entry: Entry)
    ensures entry == Merge(r, incoming, stored)
  {
    var d := MergeDurable(r, incoming.durable, DurableOf(stored));
    entry := incoming.(durable := d);
    if stored.None? {
      return;
    }
    var o := stored.value;
    var keep := Decide(r, entry, o);
    if keep {
      entry := CopyGeneration(entry, o);
    } else if entry.refresh == "" && o.refresh != "" {
      entry := entry.(refresh := o.refresh);
    }
  }

  method Decide(r: Reader, entry: Entry, o: Entry) returns (keep: bool)
    ensures keep == KeepsCurrent(r, entry, o)
  {
    var incomingToken, currentToken := Token(entry), Token(o);
    var incomingExp, currentExp := ParseExpires(r, entry.expiresAt, incomingToken), ParseExpires(r, o.expiresAt, currentToken);
    keep := false;
    if currentToken != "" && incomingToken != "" && currentToken != incomingToken {
      if currentExp.Some? && incomingExp.Some? {
        keep := currentExp.value > incomingExp.value;
      } else if currentExp.Some? && incomingExp.None? {
        keep := true;
      }
    } else if currentToken != "" && currentToken == incomingToken {
      keep := true;
    }
  }

  method CopyGeneration(e: Entry, o: Entry) returns (entry: Entry)
    ensures entry == Taken(e, o)
  {
    entry := e;
    if o.key != "" { entry := entry.(key := o.key); }
    if o.accessToken != "" { entry := entry.(accessToken := o.accessToken); }
    if o.token != "" { entry := entry.(token := o.token); }
    if o.expiresAt != "" { entry := entry.(expiresAt := o.expiresAt); }
    if o.refresh != "" { entry := entry.(refresh := o.refresh); }
    if o.idToken != "" { entry := entry.(idToken := o.idToken); }
  }

  method MergeDurable(r: Reader, incoming: map<string, string>, stored: Option<map<string, string>>) returns (d: map<string, string>)
    ensures d == Durable(r, incoming, stored)
  {
    d := incoming;
    if stored.Some? {
      d := CarryOver(r, d, stored.value);
    }
    var sso := r.sso(d);
    if sso != "" {
      d := SetSso(d, sso);
    }
    if Val(d, "password") == "" && Val(d, "register_password") != "" {
      d := d["password" := d["register_password"]];
    }
    if Val(d, "register_password") == "" && Val(d, "password") != "" {
      d := d["register_password" := d["password"]];
    }
  }

  method CarryOver(r: Reader, incoming: map<string, string>, o: map<string, string>) returns (d: map<string, string>)
    ensures d == Carry(r, incoming, Some(o))
  {
    d := incoming;
    var theirs := r.sso(o);
    if r.sso(d) == "" && theirs != "" {
      d := SetSso(d, theirs);
    }
    ghost var start := d;
    for i := 0 to |DURABLE|
      invariant d == FillAll(start, o, DURABLE[..i])
    {
      assert DURABLE[..i + 1][..i] == DURABLE[..i];
      var k := DURABLE[i];
      if Val(d, k) == "" && Val(o, k) != "" {
        d := d[k := o[k]];
      }
    }
    assert DURABLE[..|DURABLE|] == DURABLE;
  }

  /**
   With explicit expiries the merge never moves the expiry backwards, exactly when one of the two tokens
   is missing only together with an incoming expiry that is not earlier.
   */
  lemma ExpiryNeverEarlier(r: Reader, incoming: Entry, o: Entry)
    requires Explicit(r, incoming) && Explicit(r, o)
    ensures Explicit(r, Merge(r, incoming, Some(o)))
    ensures Expiry(r, Merge(r, incoming, Some(o))).value >= Expiry(r, o).value
            <==> (Token(incoming) != "" && Token(o) != "") || Expiry(r, incoming).value >= Expiry(r, o).value
  {
  }

  /* ---- folding duplicates ---- */

  /** Duplicates of one identity, merged in the order they come. */
  function FoldMerge(r: Reader, es: seq<Entry>): Entry
    requires es != []
  {
    if |es| == 1 then es[0] else Merge(r, es[|es| - 1], Some(FoldMerge(r, es[..|es| - 1])))
  }

  /**
   A complete generation as normalisation leaves it: an access token under `key`, its own refresh token,
   and an explicit expiry unless neither its fields nor its token tell one.
   */
  predicate Complete(r: Reader, e: Entry) { e.key != "" && e.refresh != "" && (Explicit(r, e) || Expiry(r, e).None?) }

  ghost predicate Generations(r: Reader, es: seq<Entry>) {
    && (forall i :: 0 <= i < |es| ==> Complete(r, es[i]))
    && (forall i, j :: 0 <= i < j < |es| ==> es[i].key != es[j].key && (Expiry(r, es[i]).Some? ==> Expiry(r, es[i]) != Expiry(r, es[j])))
  }

  ghost predicate SomeDated(r: Reader, es: seq<Entry>) { exists i :: 0 <= i < |es| && Explicit(r, es[i]) }

  /** `m` is a dated generation that expires later than all others that tell an expiry. */
  ghost predicate Latest(r: Reader, es: seq<Entry>, m: Entry) {
    m in es && Explicit(r, m) && forall i :: 0 <= i < |es| && Explicit(r, es[i]) ==> Expiry(r, es[i]).value <= Expiry(r, m).value
  }

  predicate SamePair(a: Entry, b: Entry) { a.key == b.key && a.refresh == b.refresh && a.expiresAt == b.expiresAt }

  lemma SamePairExpiry(r: Reader, a: Entry, b: Entry)
    requires SamePair(a, b) && Complete(r, b)
    ensures Complete(r, a) && Expiry(r, a) == Expiry(r, b) && Token(a) == Token(b) && (Explicit(r, a) <==> Explicit(r, b))
  {
  }

  /** One more duplicate: the later generation's pair is left, and one without an expiry loses to a dated one. */
  lemma MergePair(r: Reader, e: Entry, o: Entry, m: Entry)
    requires Complete(r, e) && Complete(r, m) && SamePair(o, m) && m.key != e.key && (Explicit(r, m) ==> Expiry(r, m) != Expiry(r, e))
    ensures SamePair(Merge(r, e, Some(o)),
                     if Explicit(r, m) && (!Explicit(r, e) || Expiry(r, m).value > Expiry(r, e).value) then m else e)
  {
    SamePairExpiry(r, o, m);
    MergeGeneration(r, e, o);
  }

  lemma LatestSnoc(r: Reader, init: seq<Entry>, e: Entry, m: Entry)
    requires Latest(r, init, m)
    ensures Latest(r, init + [e], if !Explicit(r, e) || Expiry(r, m).value > Expiry(r, e).value then m else e)
  {
    var es := init + [e];
    assert es[|init|] == e;
    var i :| 0 <= i < |init| && init[i] == m;
    assert es[i] == m;
  }

  lemma LatestDiffers(r: Reader, es: seq<Entry>, m: Entry)
    requires es != [] && Generations(r, es) && m in es[..|es| - 1]
    ensures Complete(r, m) && m.key != es[|es| - 1].key && (Explicit(r, m) ==> Expiry(r, m) != Expiry(r, es[|es| - 1]))
  {
    var i :| 0 <= i < |es| - 1 && es[i] == m;
  }

  /** What the fold leaves: the latest dated generation, or without any date the last one. */
  ghost predicate Left(r: Reader, es: seq<Entry>, m: Entry) {
    es != [] && m in es && if SomeDated(r, es) then Latest(r, es, m) else m == es[|es| - 1]
  }

  lemma LeftSnoc(r: Reader, init: seq<Entry>, e: Entry, m: Entry)
    requires Left(r, init, m)
    ensures Left(r, init + [e], if Explicit(r, m) && (!Explicit(r, e) || Expiry(r, m).value > Expiry(r, e).value) then m else e)
  {
    var es := init + [e];
    assert es[|init|] == e;
    if SomeDated(r, init) {
      LatestSnoc(r, init, e, m);
      var i :| 0 <= i < |init| && Explicit(r, init[i]);
      assert es[i] == init[i];
    } else {
      var i :| 0 <= i < |init| && init[i] == m;
      assert forall j :: 0 <= j < |es| ==> if j < |init| then es[j] == init[j] else es[j] == e;
    }
  }

  lemma FoldMergeSnoc(r: Reader, init: seq<Entry>, e: Entry)
    requires init != []
    ensures FoldMerge(r, init + [e]) == Merge(r, e, Some(FoldMerge(r, init)))
  {
    assert (init + [e])[..|init|] == init;
  }

  lemma FoldLeavesSnoc(r: Reader, init: seq<Entry>, e: Entry, m: Entry)
    requires init != [] && Generations(r, init + [e]) && Left(r, init, m) && SamePair(FoldMerge(r, init), m)
    ensures exists k :: Left(r, init + [e], k) && SamePair(FoldMerge(r, init + [e]), k)
  {
    var es := init + [e];
    assert es[..|es| - 1] == init;
    LatestDiffers(r, es, m);
    assert es[|init|] == e;
    MergePair(r, e, FoldMerge(r, init), m);
    LeftSnoc(r, init, e, m);
    FoldMergeSnoc(r, init, e);
  }

  lemma {:induction false} FoldLeaves(r: Reader, es: seq<Entry>)
    requires es != [] && Generations(r, es)
    ensures exists m :: Left(r, es, m) && SamePair(FoldMerge(r, es), m)
    decreases |es|
  {
    var n := |es| - 1;
    if n == 0 {
      assert Left(r, es, es[0]);
    } else {
      FoldLeaves(r, es[..n]);
      var m :| Left(r, es[..n], m) && SamePair(FoldMerge(r, es[..n]), m);
      assert es == es[..n] + [es[n]];
      FoldLeavesSnoc(r, es[..n], es[n], m);
    }
  }

  /**
   Duplicates with distinct tokens and distinct expiries: what is left is the pair of the latest-expiring
   one if any of them tells an expiry, and the pair of the last one otherwise.
   */
  lemma FoldKeepsLatest(r: Reader, es: seq<Entry>)
    requires es != [] && Generations(r, es)
    ensures SomeDated(r, es) ==> exists m :: Latest(r, es, m) && SamePair(FoldMerge(r, es), m)
    ensures !SomeDated(r, es) ==> SamePair(FoldMerge(r, es), es[|es| - 1])
  {
    FoldLeaves(r, es);
    var m :| Left(r, es, m) && SamePair(FoldMerge(r, es), m);
  }

  lemma LatestUnique(r: Reader, es: seq<Entry>, fs: seq<Entry>, a: Entry, b: Entry)
    requires Generations(r, es) && multiset(es) == multiset(fs) && Latest(r, es, a) && Latest(r, fs, b)
    ensures a == b
  {
    assert b in multiset(es) && a in multiset(fs);
    var i :| 0 <= i < |es| && es[i] == a;
    var j :| 0 <= j < |es| && es[j] == b;
    var k :| 0 <= k < |fs| && fs[k] == a;
    assert Expiry(r, es[j]).value <= Expiry(r, a).value && Expiry(r, fs[k]).value <= Expiry(r, b).value;
  }

  lemma GenerationsShuffled(r: Reader, es: seq<Entry>, fs: seq<Entry>)
    requires Generations(r, es) && multiset(es) == multiset(fs)
    ensures Generations(r, fs)
  {
    forall i | 0 <= i < |fs| ensures Complete(r, fs[i]) {
      assert fs[i] in multiset(es);
    }
    forall i, j | 0 <= i < j < |fs| ensures fs[i].key != fs[j].key && (Expiry(r, fs[i]).Some? ==> Expiry(r, fs[i]) != Expiry(r, fs[j])) {
      assert fs[i] in multiset(es) && fs[j] in multiset(es);
      var a :| 0 <= a < |es| && es[a] == fs[i];
      var b :| 0 <= b < |es| && es[b] == fs[j];
      if a == b {
        TwiceIn(fs, i, j);
        OnceIn(r, es, es[a]);
      }
    }
  }

  lemma TwiceIn(fs: seq<Entry>, i: nat, j: nat)
    requires i < j < |fs| && fs[i] == fs[j]
    ensures multiset(fs)[fs[i]] >= 2
  {
    assert fs == fs[..i] + [fs[i]] + fs[i + 1..j] + [fs[j]] + fs[j + 1..];
  }

  lemma {:induction false} OnceIn(r: Reader, es: seq<Entry>, e: Entry)
    requires Generations(r, es)
    ensures multiset(es)[e] <= 1
  {
    if es != [] {
      var n := |es| - 1;
      OnceIn(r, es[..n], e);
      assert es == es[..n] + [es[n]];
      if e == es[n] {
        assert forall i :: 0 <= i < n ==> es[i].key != es[n].key;
        assert e !in es[..n];
      }
    }
  }

  lemma DatedShuffled(r: Reader, es: seq<Entry>, fs: seq<Entry>)
    requires multiset(es) == multiset(fs) && SomeDated(r, es)
    ensures fs != [] && SomeDated(r, fs)
  {
    var i :| 0 <= i < |es| && Explicit(r, es[i]);
    assert es[i] in multiset(fs);
    var k :| 0 <= k < |fs| && fs[k] == es[i];
  }

  /** In whatever order duplicates come, the pair that is left is that of the latest-expiring one, as soon as one tells an expiry. */
  lemma FoldIgnoresOrder(r: Reader, es: seq<Entry>, fs: seq<Entry>)
    requires Generations(r, es) && multiset(es) == multiset(fs) && SomeDated(r, es)
    ensures es != [] && fs != [] && SamePair(FoldMerge(r, es), FoldMerge(r, fs))
    ensures exists m :: Latest(r, es, m) && SamePair(FoldMerge(r, fs), m)
  {
    GenerationsShuffled(r, es, fs);
    DatedShuffled(r, es, fs);
    FoldKeepsLatest(r, es);
    FoldKeepsLatest(r, fs);
    var a :| Latest(r, es, a) && SamePair(FoldMerge(r, es), a);
    var b :| Latest(r, fs, b) && SamePair(FoldMerge(r, fs), b);
    LatestUnique(r, es, fs, a, b);
  }

  /** The token that wins is read from the same field in both entries, or from an earlier one in the winner. */
  predicate Aligned(w: Entry, l: Entry) { w.key != "" || (l.key == "" && (w.accessToken != "" || l.accessToken == "")) }

  /**
   The generation that wins keeps its access token exactly when the fields are aligned or it is the
   incoming one; its refresh token stays exactly when it has one of its own or the other entry has none.
   Otherwise the pair is mixed.
   */
  lemma PairStaysTogether(r: Reader, incoming: Entry, stored: Entry)
    ensures var m := Merge(r, incoming, Some(stored));
            var keep := KeepsCurrent(r, incoming, stored);
            var (w, l) := if keep then (stored, incoming) else (incoming, stored);
            && (Token(m) == Token(w) <==> !keep || Token(w) == Token(l) || Aligned(w, l))
            && (m.refresh == w.refresh <==> w.refresh != "" || l.refresh == "")
  {
    MergeGeneration(r, incoming, stored);
    var keep := KeepsCurrent(r, incoming, stored);
    if keep {
      TakenToken(incoming, stored);
    }
  }

  lemma TakenToken(e: Entry, o: Entry)
    requires Token(o) != ""
    ensures Token(Taken(e, o)) == Token(o) <==> Token(e) == Token(o) || Aligned(o, e)
  {
  }

  /* ---- the stored account map ---- */

  /** A stored value: an account, or something that is no object and is left alone. */
  datatype Slot = Account(entry: Entry) | Other

  /** Stored under `k` for this user. */
  predicate Owned(m: map<string, Slot>, uid: string, k: string) {
    uid != "" && k in m && m[k].Account? && Uid(m[k].entry) == uid
  }

  /** An entry the import may merge with: the one under the new key, or one of the same user. */
  ghost predicate Candidate(m: map<string, Slot>, aid: string, uid: string, e: Entry) {
    exists k :: k in m && m[k] == Account(e) && (k == aid || Owned(m, uid, k))
  }

  /**
   The entry merged with, after looking at the user's keys in `seen`: none only without candidates, the
   one under the new key unless only another one has a refresh token, and one with a refresh token if any.
   */
  ghost predicate Preferred(m: map<string, Slot>, aid: string, uid: string, seen: set<string>, stored: Option<Entry>) {
    && (stored.Some? ==> Candidate(m, aid, uid, stored.value))
    && (forall k :: k in m && m[k].Account? && (k == aid || (k in seen && Owned(m, uid, k))) ==>
          stored.Some? && (m[k].entry.refresh != "" ==> stored.value.refresh != ""))
    && (aid in m && m[aid].Account? && (m[aid].entry.refresh != "" || (stored.Some? && stored.value.refresh == "")) ==> stored == Some(m[aid].entry))
  }

  /** One import: the user's other keys are collapsed into the new one, everything else stays. */
  ghost predicate Imported(r: Reader, m: map<string, Slot>, aid: string, e: Entry, n: map<string, Slot>, stored: Option<Entry>) {
    && Preferred(m, aid, Uid(e), m.Keys, stored)
    && n.Keys == (set k | k in m && !Owned(m, Uid(e), k)) + {aid}
    && n[aid] == Account(Merge(r, e, stored))
    && (forall k :: k in n && k != aid ==> n[k] == m[k])
  }

  /** One more of the user's keys has been looked at. */
  lemma PreferMore(m: map<string, Slot>, aid: string, uid: string, seen: set<string>, stored: Option<Entry>, k: string)
    requires Preferred(m, aid, uid, seen, stored) && Owned(m, uid, k)
    ensures Preferred(m, aid, uid, seen + {k},
                      if stored.None? || (stored.value.refresh == "" && m[k].entry.refresh != "") then Some(m[k].entry) else stored)
  {
    assert Candidate(m, aid, uid, m[k].entry);
  }

  /** The map once the user's keys in `seen` are collapsed into `aid`. */
  function Kept(m: map<string, Slot>, aid: string, uid: string, seen: set<string>): map<string, Slot> {
    map k | k in m && (k == aid || k !in seen || !Owned(m, uid, k)) :: m[k]
  }

  lemma KeptStep(m: map<string, Slot>, aid: string, uid: string, seen: set<string>, k: string)
    requires k in m && k !in seen
    ensures k in Kept(m, aid, uid, seen) && Kept(m, aid, uid, seen)[k] == m[k]
    ensures Kept(m, aid, uid, seen + {k}) ==
            if Owned(m, uid, k) && k != aid then Kept(m, aid, uid, seen) - {k} else Kept(m, aid, uid, seen)
  {
    var a, b := Kept(m, aid, uid, seen), Kept(m, aid, uid, seen + {k});
    if Owned(m, uid, k) && k != aid {
      assert b.Keys == a.Keys - {k};
      assert b == a - {k};
    } else {
      assert b.Keys == a.Keys;
      assert b == a;
    }
  }

  lemma PreferSkip(m: map<string, Slot>, aid: string, uid: string, seen: set<string>, stored: Option<Entry>, k: string)
    requires Preferred(m, aid, uid, seen, stored) && !Owned(m, uid, k)
    ensures Preferred(m, aid, uid, seen + {k}, stored)
  {
  }

  lemma PreferStart(m: map<string, Slot>, aid: string, uid: string)
    ensures Preferred(m, aid, uid, {}, if aid in m && m[aid].Account? then Some(m[aid].entry) else None)
    ensures Kept(m, aid, uid, {}) == m
  {
    if aid in m && m[aid].Account? {
      assert Candidate(m, aid, uid, m[aid].entry);
    }
  }

  lemma OneMoreSeen(seen: set<string>, todo: set<string>, k: string)
    requires k in todo && seen !! todo
    ensures (seen + {k}) + (todo - {k}) == seen + todo && seen + {k} !! todo - {k} && |todo - {k}| < |todo|
  {
  }

  class AccountMap {
    var slots: map<string, Slot>

    constructor (slots: map<string, Slot>)
      ensures this.slots == slots
    {
      this.slots := slots;
    }

    /** Looks at one stored key: a better entry to merge with, or a key to collapse. */
    method Visit(ghost m: map<string, Slot>, aid: string, uid: string, ghost seen: set<string>, k: string, best: Option<Entry>)
        returns (stored: Option<Entry>)
      requires k in m && k !in seen && slots == Kept(m, aid, uid, seen) && Preferred(m, aid, uid, seen, best)
      modifies this
      ensures slots == Kept(m, aid, uid, seen + {k}) && Preferred(m, aid, uid, seen + {k}, stored)
    {
      KeptStep(m, aid, uid, seen, k);
      stored := best;
      if uid != "" && slots[k].Account? && Uid(slots[k].entry) == uid {
        PreferMore(m, aid, uid, seen, stored, k);
        if stored.None? || (stored.value.refresh == "" && slots[k].entry.refresh != "") {
          stored := Some(slots[k].entry);
        }
        if k != aid {
          slots := slots - {k};
        }
      } else {
        PreferSkip(m, aid, uid, seen, stored, k);
      }
    }

    /** Collapses the user's keys and picks the entry to merge with; the keys may come in any order. */
    method Collapse(aid: string, uid: string) returns (stored: Option<Entry>)
      modifies this
      ensures Preferred(old(slots), aid, uid, old(slots.Keys), stored)
      ensures slots == Kept(old(slots), aid, uid, old(slots.Keys))
    {
      ghost var m := slots;
      stored := if aid in slots && slots[aid].Account? then Some(slots[aid].entry) else None;
      PreferStart(m, aid, uid);
      ghost var seen: set<string> := {};
      var todo := slots.Keys;
      while todo != {}
        invariant seen + todo == m.Keys && seen !! todo
        invariant slots == Kept(m, aid, uid, seen) && Preferred(m, aid, uid, seen, stored)
        decreases |todo|
      {
        var k :| k in todo;
        stored := Visit(m, aid, uid, seen, k, stored);
        OneMoreSeen(seen, todo, k);
        todo, seen := todo - {k}, seen + {k};
      }
    }

    /** One normalised entry: merged with the preferred stored one and written under its key. */
    method Import(r: Reader, aid: string, e: Entry) returns (ghost stored: Option<Entry>)
      modifies this
      ensures Imported(r, old(slots), aid, e, slots, stored)
    {
      var chosen := Collapse(aid, Uid(e));
      var merged := MergeImported(r, e, chosen);
      slots := slots[aid := Account(merged)];
      stored := chosen;
    }
  }

  /* ---- what an import leaves ---- */

  datatype Item = Item(aid: string, entry: Entry)

  /** The maps before and after each item of an import, and the entries merged with. */
  ghost predicate ImportRun(r: Reader, maps: seq<map<string, Slot>>, items: seq<Item>, stored: seq<Option<Entry>>) {
    && |maps| == |items| + 1 && |stored| == |items|
    && forall i :: 0 <= i < |items| ==> Imported(r, maps[i], items[i].aid, items[i].entry, maps[i + 1], stored[i])
  }

  lemma MergeKeepsUser(r: Reader, e: Entry, stored: Option<Entry>)
    ensures Uid(Merge(r, e, stored)) == Uid(e)
  {
  }

  /** The position of the last item of this user among the first `n`. */
  function LastOf(items: seq<Item>, uid: string, n: nat): (l: int)
    requires n <= |items|
    ensures -1 <= l < n && (l >= 0 ==> Uid(items[l].entry) == uid)
  {
    if n == 0 then -1 else if Uid(items[n - 1].entry) == uid then n - 1 else LastOf(items, uid, n - 1)
  }

  ghost predicate DistinctAids(items: seq<Item>) { forall i, j :: 0 <= i < j < |items| ==> items[i].aid != items[j].aid }

  lemma OwnedAfter(r: Reader, m: map<string, Slot>, aid: string, e: Entry, n: map<string, Slot>, stored: Option<Entry>, uid: string, k: string)
    requires Imported(r, m, aid, e, n, stored) && uid != ""
    ensures Owned(n, uid, k) <==> if k == aid then Uid(e) == uid else Owned(m, uid, k) && Uid(e) != uid
  {
    MergeKeepsUser(r, e, stored);
  }

  /**
   After importing any number of items with distinct keys into any map, every imported user has exactly
   one key: that of its last item.
   */
  lemma {:induction false} OneKeyPerUser(r: Reader, maps: seq<map<string, Slot>>, items: seq<Item>, stored: seq<Option<Entry>>, uid: string, n: nat)
    requires ImportRun(r, maps, items, stored) && DistinctAids(items) && n <= |items|
    requires uid != "" && LastOf(items, uid, n) >= 0
    ensures forall k :: Owned(maps[n], uid, k) <==> k == items[LastOf(items, uid, n)].aid
    decreases n
  {
    var item := items[n - 1];
    if Uid(item.entry) != uid {
      OneKeyPerUser(r, maps, items, stored, uid, n - 1);
    }
    forall k ensures Owned(maps[n], uid, k) <==> k == items[LastOf(items, uid, n)].aid {
      OwnedAfter(r, maps[n - 1], item.aid, item.entry, maps[n], stored[n - 1], uid, k);
    }
  }

  /** Keys of no item, whose user is not among the imported ones, keep their value. */
  lemma {:induction false} OthersUntouched(r: Reader, maps: seq<map<string, Slot>>, items: seq<Item>, stored: seq<Option<Entry>>, k: string, n: nat)
    requires ImportRun(r, maps, items, stored) && n <= |items|
    requires k in maps[0] && forall i :: 0 <= i < n ==> items[i].aid != k && !Owned(maps[0], Uid(items[i].entry), k)
    ensures k in maps[n] && maps[n][k] == maps[0][k]
    decreases n
  {
    if n > 0 {
      OthersUntouched(r, maps, items, stored, k, n - 1);
      assert !Owned(maps[n - 1], Uid(items[n - 1].entry), k);
    }
  }

  /* ---- what happens to the user's generations ---- */

  /** Tokens and explicit expiries in the imported entry and in everything it may merge with. */
  ghost predicate Dated(r: Reader, m: map<string, Slot>, aid: string, e: Entry) {
    && Explicit(r, e) && Token(e) != ""
    && forall c :: Candidate(m, aid, Uid(e), c) ==> Explicit(r, c) && Token(c) != ""
  }

  function At(r: Reader, e: Entry): real
    requires Explicit(r, e)
  {
    Expiry(r, e).value
  }

  /** The merge keeps the time `t` when one of the two entries reaches it; equal tokens keep the stored entry's. */
  predicate Reaches(r: Reader, e: Entry, p: Entry, t: real)
    requires Explicit(r, e) && Explicit(r, p)
  {
    t <= At(r, p) || (Token(e) != Token(p) && t <= At(r, e))
  }

  lemma MergedReaches(r: Reader, e: Entry, p: Entry, t: real)
    requires Explicit(r, e) && Explicit(r, p) && Token(e) != "" && Token(p) != ""
    ensures Explicit(r, Merge(r, e, Some(p))) && (t <= At(r, Merge(r, e, Some(p))) <==> Reaches(r, e, p, t))
  {
    ExpiryNeverEarlier(r, e, p);
    MergeGeneration(r, e, p);
    MergedExpiry(r, e, p);
  }

  lemma MergedExpiry(r: Reader, e: Entry, p: Entry)
    requires Explicit(r, e) && Explicit(r, p) && Token(e) != "" && Token(p) != ""
    ensures Explicit(r, Merge(r, e, Some(p)))
    ensures At(r, Merge(r, e, Some(p))) == if Token(e) == Token(p) || At(r, p) > At(r, e) then At(r, p) else At(r, e)
  {
    MergeGeneration(r, e, p);
  }

  /** No generation of this user that was stored before expires later than the one stored now. */
  ghost predicate NoneLost(r: Reader, m: map<string, Slot>, aid: string, e: Entry, now: Entry)
    requires Dated(r, m, aid, e) && Explicit(r, now)
  {
    forall c :: Candidate(m, aid, Uid(e), c) ==> At(r, c) <= At(r, now)
  }

  /**
   One import, whatever the order of the stored keys was: the expiry is never earlier than that of the
   entry merged with, and no generation of the user is rolled back exactly when each of them expires no
   later than what the merge of these two entries keeps.
   */
  lemma ImportNeverRollsBack(r: Reader, m: map<string, Slot>, aid: string, e: Entry, n: map<string, Slot>, stored: Option<Entry>)
    requires Imported(r, m, aid, e, n, stored) && Dated(r, m, aid, e)
    ensures Explicit(r, n[aid].entry)
    ensures stored.None? ==> NoneLost(r, m, aid, e, n[aid].entry)
    ensures stored.Some? ==> At(r, n[aid].entry) >= At(r, stored.value)
    ensures stored.Some? ==>
              (NoneLost(r, m, aid, e, n[aid].entry)
               <==> forall c :: Candidate(m, aid, Uid(e), c) ==> Reaches(r, e, stored.value, At(r, c)))
  {
    if stored.Some? {
      assert Candidate(m, aid, Uid(e), stored.value);
      MergedReaches(r, e, stored.value, At(r, stored.value));
      forall c | Candidate(m, aid, Uid(e), c) ensures At(r, c) <= At(r, n[aid].entry) <==> Reaches(r, e, stored.value, At(r, c)) {
        MergedReaches(r, e, stored.value, At(r, c));
      }
    } else {
      NoCandidates(m, aid, Uid(e));
    }
  }

  lemma NoCandidates(m: map<string, Slot>, aid: string, uid: string)
    requires Preferred(m, aid, uid, m.Keys, None)
    ensures forall c :: !Candidate(m, aid, uid, c)
  {
  }

  /**
   Which stored entry an import may merge with: the one under the new key unless only others have a
   refresh token, and otherwise any of the user's, with a refresh token if one has it. Which of them it
   is depends on the order of the stored keys.
   */
  ghost predicate MayMerge(m: map<string, Slot>, aid: string, uid: string, p: Entry) {
    && Candidate(m, aid, uid, p)
    && ((exists c :: Candidate(m, aid, uid, c) && c.refresh != "") ==> p.refresh != "")
    && (aid in m && m[aid].Account? && (m[aid].entry.refresh != "" || p.refresh == "") ==> p == m[aid].entry)
  }

  lemma MayMergeIsPreferred(m: map<string, Slot>, aid: string, uid: string, p: Entry)
    ensures MayMerge(m, aid, uid, p) <==> Preferred(m, aid, uid, m.Keys, Some(p))
  {
    if MayMerge(m, aid, uid, p) {
      forall k | k in m && m[k].Account? && (k == aid || Owned(m, uid, k)) ensures m[k].entry.refresh != "" ==> p.refresh != "" {
        assert Candidate(m, aid, uid, m[k].entry);
      }
    }
  }

  /** The map after merging with `p`. */
  function After(r: Reader, m: map<string, Slot>, aid: string, e: Entry, p: Entry): map<string, Slot> {
    Kept(m, aid, Uid(e), m.Keys)[aid := Account(Merge(r, e, Some(p)))]
  }

  lemma MayHappen(r: Reader, m: map<string, Slot>, aid: string, e: Entry, p: Entry)
    requires MayMerge(m, aid, Uid(e), p)
    ensures Imported(r, m, aid, e, After(r, m, aid, e, p), Some(p))
  {
    MayMergeIsPreferred(m, aid, Uid(e), p);
    var n := After(r, m, aid, e, p);
    assert n.Keys == (set k | k in m && !Owned(m, Uid(e), k)) + {aid};
  }

  /** The import leaves an account under its key that is as late as every generation the user had. */
  ghost predicate SafeImport(r: Reader, m: map<string, Slot>, aid: string, e: Entry, n: map<string, Slot>)
    requires Dated(r, m, aid, e)
  {
    aid in n && n[aid].Account? && Explicit(r, n[aid].entry) && NoneLost(r, m, aid, e, n[aid].entry)
  }

  /**
   In whatever order the user's keys come, no generation is rolled back exactly when every stored
   generation of the user expires no later than the merge of the imported entry with any entry it may be
   merged with.
   */
  lemma NoRollbackInAnyOrder(r: Reader, m: map<string, Slot>, aid: string, e: Entry)
    requires Dated(r, m, aid, e)
    ensures (forall n, stored :: Imported(r, m, aid, e, n, stored) ==> SafeImport(r, m, aid, e, n))
            <==> (forall p, c :: MayMerge(m, aid, Uid(e), p) && Candidate(m, aid, Uid(e), c) ==> Reaches(r, e, p, At(r, c)))
  {
    if forall n, stored :: Imported(r, m, aid, e, n, stored) ==> SafeImport(r, m, aid, e, n) {
      forall p, c | MayMerge(m, aid, Uid(e), p) && Candidate(m, aid, Uid(e), c) ensures Reaches(r, e, p, At(r, c)) {
        MayHappen(r, m, aid, e, p);
        assert SafeImport(r, m, aid, e, After(r, m, aid, e, p));
        ImportNeverRollsBack(r, m, aid, e, After(r, m, aid, e, p), Some(p));
      }
    }
    if forall p, c :: MayMerge(m, aid, Uid(e), p) && Candidate(m, aid, Uid(e), c) ==> Reaches(r, e, p, At(r, c)) {
      forall n, stored | Imported(r, m, aid, e, n, stored) ensures SafeImport(r, m, aid, e, n) {
        ImportNeverRollsBack(r, m, aid, e, n, stored);
        if stored.Some? {
          MayMergeIsPreferred(m, aid, Uid(e), stored.value);
        }
      }
    }
  }

  /* ---- a generation that is rolled back ---- */

  /** Expiry texts of the example; nothing is read from tokens or durable data. */
  const DECIMAL := Reader((s: string) => if s == "10" then Some(10.0) else if s == "15" then Some(15.0) else if s == "20" then Some(20.0) else None,
                          (t: string) => None, (d: map<string, string>) => "")

  function Issued(key: string, refresh: string, expires: string): Entry { Entry("x", "", key, "", "", expires, refresh, "", map[]) }

  const TWICE: map<string, Slot> := map["u" := Account(Issued("ka", "ra", "10")), "legacy" := Account(Issued("kb", "rb", "20"))]

  lemma DroppedWhenImported(n: map<string, Slot>, stored: Option<Entry>)
    requires Imported(DECIMAL, TWICE, "u", Issued("kc", "rc", "15"), n, stored)
    ensures n.Keys == {"u"} && SamePair(n["u"].entry, Issued("kc", "rc", "15")) && Expiry(DECIMAL, n["u"].entry) == Some(15.0)
  {
    assert Owned(TWICE, "x", "u") && Owned(TWICE, "x", "legacy");
    assert stored == Some(Issued("ka", "ra", "10"));
    MergeGeneration(DECIMAL, Issued("kc", "rc", "15"), Issued("ka", "ra", "10"));
  }

  /**
   One user under two keys, expiring at 10 and 20, and an import that expires at 15: it compares itself
   with the entry under its own key alone, and the generation expiring at 20 is dropped, in every run.
   */
  lemma LaterGenerationIsDropped()
    ensures exists n, stored :: Imported(DECIMAL, TWICE, "u", Issued("kc", "rc", "15"), n, stored)
    ensures forall n, stored :: Imported(DECIMAL, TWICE, "u", Issued("kc", "rc", "15"), n, stored) ==>
              n.Keys == {"u"} && SamePair(n["u"].entry, Issued("kc", "rc", "15")) && Expiry(DECIMAL, n["u"].entry) == Some(15.0)
  {
    assert Candidate(TWICE, "u", "x", TWICE["u"].entry);
    MayHappen(DECIMAL, TWICE, "u", Issued("kc", "rc", "15"), TWICE["u"].entry);
    forall n, stored | Imported(DECIMAL, TWICE, "u", Issued("kc", "rc", "15"), n, stored)
      ensures n.Keys == {"u"} && SamePair(n["u"].entry, Issued("kc", "rc", "15")) && Expiry(DECIMAL, n["u"].entry) == Some(15.0)
    {
      DroppedWhenImported(n, stored);
    }
  }
}
