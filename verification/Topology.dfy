/** Resolving the imported credentials to exactly one stored account per provider. */
module Topology {
  import opened Common

  datatype Wanted = Wanted(buildId: string, identity: string)

  /** A stored account of one provider. */
  datatype Ref = Ref(id: string, identity: string)

  datatype Stored = Stored(build: seq<Ref>, web: seq<Ref>, console: seq<Ref>)

  datatype Triplet = Triplet(build: Ref, web: Ref, console: Ref)

  datatype Match = Missing | Duplicate | Found(triplet: Triplet)

  /** Rows without an id are passed over. */
  function With(rows: seq<Ref>, identity: string): seq<Ref> {
    if rows == [] then [] else
    With(rows[..|rows| - 1], identity) + if rows[|rows| - 1].identity == identity && rows[|rows| - 1].id != "" then [rows[|rows| - 1]] else []
  }

  function Named(rows: seq<Ref>, id: string): seq<Ref> {
    if rows == [] then [] else Named(rows[..|rows| - 1], id) + if rows[|rows| - 1].id == id then [rows[|rows| - 1]] else []
  }

  /** The rows one wanted credential matches; for the first provider the account must be the imported one. */
  function Resolve(s: Stored, w: Wanted): Match {
    var b, x, y := Named(With(s.build, w.identity), w.buildId), With(s.web, w.identity), With(s.console, w.identity);
    if b == [] || x == [] || y == [] then Missing
    else if |b| != 1 || |x| != 1 || |y| != 1 then Duplicate
    else Found(Triplet(b[0], x[0], y[0]))
  }

  /** How many rows, by position, are this account. */
  function Count(rows: seq<Ref>, p: Ref -> bool): nat {
    if rows == [] then 0 else Count(rows[..|rows| - 1], p) + if p(rows[|rows| - 1]) then 1 else 0
  }

  function IsThe(id: string, identity: string): Ref -> bool { (r: Ref) => r.id == id && r.id != "" && r.identity == identity }

  function IsOf(identity: string): Ref -> bool { (r: Ref) => r.identity == identity && r.id != "" }

  lemma {:induction false} WithCounts(rows: seq<Ref>, identity: string)
    ensures |With(rows, identity)| == Count(rows, IsOf(identity))
    ensures forall r :: r in With(rows, identity) ==> r in rows && r.identity == identity
  {
    if rows != [] {
      WithCounts(rows[..|rows| - 1], identity);
    }
  }

  lemma {:induction false} NamedCounts(rows: seq<Ref>, id: string, identity: string)
    ensures |Named(With(rows, identity), id)| == Count(rows, IsThe(id, identity))
  {
    if rows != [] {
      var init, last := rows[..|rows| - 1], rows[|rows| - 1];
      NamedCounts(init, id, identity);
      if last.identity == identity && last.id != "" {
        assert With(rows, identity)[..|With(init, identity)|] == With(init, identity);
      } else {
        assert With(rows, identity) == With(init, identity);
      }
    }
  }

  /** A credential resolves exactly when each provider holds exactly one matching row. */
  lemma ResolvesExactlyOnce(s: Stored, w: Wanted)
    ensures Resolve(s, w).Found? <==>
              && Count(s.build, IsThe(w.buildId, w.identity)) == 1
              && Count(s.web, IsOf(w.identity)) == 1 && Count(s.console, IsOf(w.identity)) == 1
    ensures Resolve(s, w).Missing? <==>
              || Count(s.build, IsThe(w.buildId, w.identity)) == 0
              || Count(s.web, IsOf(w.identity)) == 0 || Count(s.console, IsOf(w.identity)) == 0
  {
    NamedCounts(s.build, w.buildId, w.identity);
    WithCounts(s.web, w.identity);
    WithCounts(s.console, w.identity);
  }

  function Triplets(s: Stored, ws: seq<Wanted>): seq<Triplet> {
    if ws == [] then [] else
    Triplets(s, ws[..|ws| - 1]) + match Resolve(s, ws[|ws| - 1]) case Found(t) => [t] case _ => []
  }

  function Tally(s: Stored, ws: seq<Wanted>, m: Match -> bool): nat {
    if ws == [] then 0 else Tally(s, ws[..|ws| - 1], m) + if m(Resolve(s, ws[|ws| - 1])) then 1 else 0
  }

  function Missings(s: Stored, ws: seq<Wanted>): nat { Tally(s, ws, (m: Match) => m.Missing?) }

  function Duplicates(s: Stored, ws: seq<Wanted>): nat { Tally(s, ws, (m: Match) => m.Duplicate?) }

  /** Every credential is counted once; the topology is complete exactly when each one resolves. */
  lemma {:induction false} TopologyCounts(s: Stored, ws: seq<Wanted>)
    ensures |Triplets(s, ws)| + Missings(s, ws) + Duplicates(s, ws) == |ws|
    ensures |Triplets(s, ws)| == |ws| <==> forall i :: 0 <= i < |ws| ==> Resolve(s, ws[i]).Found?
  {
    if ws != [] {
      TopologyCounts(s, ws[..|ws| - 1]);
    }
  }

  /** The summary's topology counters, filled item by item. */
  method LoadTopology(s: Stored, ws: seq<Wanted>) returns (triplets: seq<Triplet>, missing: nat, duplicate: nat)
    ensures triplets == Triplets(s, ws) && missing == Missings(s, ws) && duplicate == Duplicates(s, ws)
  {
    triplets, missing, duplicate := [], 0, 0;
    for i := 0 to |ws|
      invariant triplets == Triplets(s, ws[..i]) && missing == Missings(s, ws[..i]) && duplicate == Duplicates(s, ws[..i])
    {
      assert ws[..i + 1][..i] == ws[..i];
      match Resolve(s, ws[i])
      case Missing => missing := missing + 1;
      case Duplicate => duplicate := duplicate + 1;
      case Found(t) => triplets := triplets + [t];
    }
    assert ws[..|ws|] == ws;
  }
}
