/** The subscription table of internal/store/sqlite.go: one row per public key, the strictly newer
    issued_at winning, timestamps compared as text. */
module SubscriptionStore {
  import opened Base
  import opened TextOrdering

  /** What the client asserts; the row adds the server's own clock. */
  datatype Claim = Claim(product: string, expires: string, issued: string, source: string)
  datatype Row = Row(claim: Claim, updated: string)
  type Table = map<string, Row>

  function Upserted(rows: Table, key: string, row: Row): Table {
    if key in rows && !Less(rows[key].claim.issued, row.claim.issued) then rows else rows[key := row]
  }

  /** Whether the stored expiry is in the future, None if it cannot be read; no row is no subscription. */
  function Active(rows: Table, key: string, now: nat, parse: string -> Option<nat>): Option<bool> {
    if key !in rows then Some(false)
    else
      match parse(rows[key].claim.expires)
      case None => None
      case Some(t) => Some(t > now)
  }

  class Store {
    var rows: Table

    constructor ()
      ensures rows == map[]
    {
      rows := map[];
    }

    method Upsert(key: string, row: Row)
      modifies this
      ensures rows == Upserted(old(rows), key, row)
    {
      if key !in rows {
        rows := rows[key := row];
      } else if Less(rows[key].claim.issued, row.claim.issued) {
        rows := rows[key := row];
      }
    }

    method Get(key: string) returns (row: Option<Row>)
      ensures row.Some? <==> key in rows
      ensures row.Some? ==> row.value == rows[key]
    {
      row := None;
      if key in rows {
        row := Some(rows[key]);
      }
    }

    method IsActive(key: string, now: nat, parse: string -> Option<nat>) returns (active: Option<bool>)
      ensures active == Active(rows, key, now, parse)
    {
      if key !in rows {
        return Some(false);
      }
      var expires := parse(rows[key].claim.expires);
      if expires.None? {
        return None;
      }
      active := Some(expires.value > now);
    }
  }

  // ---- runs ----

  datatype Put = Put(key: string, row: Row)

  function Merged(rows: Table, puts: seq<Put>): Table
    decreases |puts|
  {
    if puts == [] then rows
    else
      var p := puts[|puts| - 1];
      Upserted(Merged(rows, puts[..|puts| - 1]), p.key, p.row)
  }

  lemma MergedSnoc(rows: Table, puts: seq<Put>, p: Put)
    ensures Merged(rows, puts + [p]) == Upserted(Merged(rows, puts), p.key, p.row)
  {
    assert (puts + [p])[..|puts|] == puts;
  }

  predicate OffersAt(puts: seq<Put>, i: int, key: string) {
    0 <= i < |puts| && puts[i].key == key
  }

  ghost predicate Offered(puts: seq<Put>, key: string, c: Claim) {
    exists i :: OffersAt(puts, i, key) && puts[i].row.claim == c
  }

  /** The claim was there to begin with or was put. */
  ghost predicate Candidate(rows: Table, puts: seq<Put>, key: string, c: Claim) {
    (key in rows && rows[key].claim == c) || Offered(puts, key, c)
  }

  lemma OfferedStep(puts: seq<Put>, key: string, c: Claim)
    requires puts != []
    ensures var p := puts[|puts| - 1];
            Offered(puts, key, c) <==> Offered(puts[..|puts| - 1], key, c) || (p.key == key && p.row.claim == c)
  {
    var before, n := puts[..|puts| - 1], |puts| - 1;
    if Offered(puts, key, c) {
      var i :| OffersAt(puts, i, key) && puts[i].row.claim == c;
      assert i < n ==> OffersAt(before, i, key);
    }
    if Offered(before, key, c) {
      var i :| OffersAt(before, i, key) && before[i].row.claim == c;
      assert OffersAt(puts, i, key);
    }
    assert puts[n].key == key ==> OffersAt(puts, n, key);
  }

  /** The row is a claim put for its key, and no such claim outdates it. */
  ghost predicate IsLatest(rows: Table, puts: seq<Put>, key: string, after: Table) {
    && (key in after ==> Candidate(rows, puts, key, after[key].claim))
    && forall c :: Candidate(rows, puts, key, c) ==> key in after && !Less(after[key].claim.issued, c.issued)
  }

  /** Whatever was put and in whatever order, a key has a row exactly when some claim was made for it,
      and the row holds a claim no other outdates. */
  lemma {:induction false} RowIsLatest(rows: Table, puts: seq<Put>, key: string)
    ensures IsLatest(rows, puts, key, Merged(rows, puts))
    decreases |puts|
  {
    var after := Merged(rows, puts);
    if puts == [] {
      forall c | Candidate(rows, puts, key, c)
        ensures key in after && !Less(after[key].claim.issued, c.issued)
      {
        LessIsTotal(c.issued, c.issued);
      }
    } else {
      var before, p := puts[..|puts| - 1], puts[|puts| - 1];
      RowIsLatest(rows, before, key);
      if key in after {
        OfferedStep(puts, key, after[key].claim);
      }
      forall c | Candidate(rows, puts, key, c)
        ensures key in after && !Less(after[key].claim.issued, c.issued)
      {
        OfferedStep(puts, key, c);
        LatestKept(Merged(rows, before), p, key, c.issued);
      }
    }
  }

  lemma LatestKept(rows: Table, p: Put, key: string, issued: string)
    requires (key in rows && !Less(rows[key].claim.issued, issued)) || (p.key == key && p.row.claim.issued == issued)
    ensures var after := Upserted(rows, p.key, p.row);
            key in after && !Less(after[key].claim.issued, issued)
  {
    LessIsTotal(issued, issued);
    if key in rows {
      var x, y := rows[key].claim.issued, p.row.claim.issued;
      LessIsTotal(x, y);
      if Less(x, y) && Less(y, issued) {
        LessTransitive(x, y, issued);
      }
    }
  }

  // ---- convergence ----

  /** No two different claims for one key carry one issued_at. */
  ghost predicate NoClash(rows: Table, puts: seq<Put>) {
    forall key, c, d ::
      Candidate(rows, puts, key, c) && Candidate(rows, puts, key, d) && c.issued == d.issued ==> c == d
  }

  ghost predicate SameClaims(p: seq<Put>, q: seq<Put>) {
    forall key, c :: Offered(p, key, c) <==> Offered(q, key, c)
  }

  predicate SameAt(r: Table, s: Table, key: string) {
    (key in r <==> key in s) && (key in r ==> r[key].claim == s[key].claim)
  }

  /** Any order and any repetition of the same claims leaves the same claims in the table. */
  lemma Convergence(rows: Table, p: seq<Put>, q: seq<Put>, key: string)
    requires SameClaims(p, q) && NoClash(rows, p)
    ensures SameAt(Merged(rows, p), Merged(rows, q), key)
  {
    RowIsLatest(rows, p, key);
    RowIsLatest(rows, q, key);
    var r, s := Merged(rows, p), Merged(rows, q);
    forall c ensures Candidate(rows, p, key, c) <==> Candidate(rows, q, key, c) {
      assert Offered(p, key, c) <==> Offered(q, key, c);
    }
    if key in r {
      LessIsTotal(r[key].claim.issued, s[key].claim.issued);
    }
  }

  /** Two puts that may be swapped: other keys, other times, or the same claim. */
  predicate Commute(a: Put, b: Put) {
    a.key != b.key || a.row.claim.issued != b.row.claim.issued || a.row.claim == b.row.claim
  }

  /** The condition is exact: two puts may be swapped, whatever the table held, if and only if they
      commute in the sense above. */
  lemma SwapsExactly(a: Put, b: Put)
    ensures (forall rows, key :: SameAt(Merged(rows, [a, b]), Merged(rows, [b, a]), key)) <==> Commute(a, b)
  {
    if Commute(a, b) {
      forall rows, key ensures SameAt(Merged(rows, [a, b]), Merged(rows, [b, a]), key) {
        SwapsAt(rows, a, b, key);
      }
    } else {
      MergedTwo(map[], a, b);
      MergedTwo(map[], b, a);
      LessIsTotal(a.row.claim.issued, b.row.claim.issued);
      assert !SameAt(Merged(map[], [a, b]), Merged(map[], [b, a]), a.key);
    }
  }

  lemma MergedTwo(rows: Table, a: Put, b: Put)
    ensures Merged(rows, [a, b]) == Upserted(Upserted(rows, a.key, a.row), b.key, b.row)
  {
    assert [a, b][..1] == [a] && [a][..0] == [];
    assert Merged(rows, [a]) == Upserted(Merged(rows, []), a.key, a.row);
  }

  lemma SwapsAt(rows: Table, a: Put, b: Put, key: string)
    requires Commute(a, b)
    ensures SameAt(Merged(rows, [a, b]), Merged(rows, [b, a]), key)
  {
    MergedTwo(rows, a, b);
    MergedTwo(rows, b, a);
    var x, y := a.row.claim.issued, b.row.claim.issued;
    LessIsTotal(x, y);
    if key in rows {
      var z := rows[key].claim.issued;
      LessIsTotal(z, x);
      LessIsTotal(z, y);
      if Less(z, x) && Less(x, y) { LessTransitive(z, x, y); }
      if Less(z, y) && Less(y, x) { LessTransitive(z, y, x); }
    }
  }

  // ---- the winner ----

  /** Put w outdates every earlier put for its key and no later one outdates it. */
  ghost predicate Wins(puts: seq<Put>, key: string, w: int) {
    && OffersAt(puts, w, key)
    && forall i :: OffersAt(puts, i, key) ==>
         var s, t := puts[i].row.claim.issued, puts[w].row.claim.issued;
         !Less(t, s) && (i < w ==> Less(s, t))
  }

  /** A table built from nothing holds the winner's row, its update time included. */
  lemma {:induction false} WinnerStored(puts: seq<Put>, key: string, w: int)
    requires Wins(puts, key, w)
    ensures key in Merged(map[], puts) && Merged(map[], puts)[key] == puts[w].row
    decreases |puts|
  {
    var n := |puts| - 1;
    var before := puts[..n];
    var rows := Merged(map[], before);
    forall i | OffersAt(before, i, key) ensures OffersAt(puts, i, key) {}
    if w < n {
      assert Wins(before, key, w);
      WinnerStored(before, key, w);
      assert OffersAt(puts, n, key) ==> !Less(puts[w].row.claim.issued, puts[n].row.claim.issued);
    } else if key in rows {
      RowIsLatest(map[], before, key);
      var i :| OffersAt(before, i, key) && before[i].row.claim == rows[key].claim;
      assert OffersAt(puts, i, key);
    }
  }
}
