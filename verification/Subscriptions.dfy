/** The subscription endpoint of internal/signalbroker/subscription.go. */
module Subscriptions {
  import opened Base
  import opened TextOrdering
  import opened Calendar
  import opened SubscriptionStore

  const WINDOW: nat := 48 * 3600 * NANOS

  /** Signature checks over the canonical fields arrive as their verdicts. */
  datatype Request = Request(key: string, product: string, expiresAt: string, issuedAt: string,
                             appSigned: bool, accountSigned: bool)

  /** A readable request, the server's clock, and whether the store takes the write. */
  datatype Call = Call(req: Request, now: nat, stored: bool)

  /** RFC 3339 text to an instant, in nanoseconds since year 0. */
  type Parser = string -> Option<nat>

  /** Signed, with readable times, and issued within the window around now. */
  predicate Sound(parse: Parser, call: Call) {
    && call.req.appSigned && call.req.accountSigned
    && parse(call.req.issuedAt).Some? && parse(call.req.expiresAt).Some?
    && call.now - WINDOW <= parse(call.req.issuedAt).value <= call.now + WINDOW
  }

  predicate Admissible(parse: Parser, call: Call) {
    Sound(parse, call) && call.stored
  }

  function Issued(parse: Parser, call: Call): nat
    requires Admissible(parse, call)
  {
    parse(call.req.issuedAt).value
  }

  function RowOf(parse: Parser, call: Call): Row
    requires Admissible(parse, call)
  {
    Row(Claim(call.req.product, Stamp(parse(call.req.expiresAt).value), Stamp(Issued(parse, call)), "client"),
        Stamp(call.now))
  }

  function Handled(parse: Parser, rows: Table, call: Call): Table {
    if Admissible(parse, call) then Upserted(rows, call.req.key, RowOf(parse, call)) else rows
  }

  class Endpoint {
    const store: Store?
    const parse: Parser

    constructor (store: Store?, parse: Parser)
      ensures this.store == store && this.parse == parse
    {
      this.store, this.parse := store, parse;
    }

    /** `body` is None when it cannot be read; a write the store fails to make leaves the table alone. */
    method HandleSubscription(verb: string, body: Option<Request>, now: nat, stored: bool) returns (status: int)
      modifies store
      ensures status == 204 <==> verb == "OPTIONS"
      ensures status == 405 <==> verb != "OPTIONS" && verb != "POST"
      ensures status == 503 <==> verb == "POST" && store == null
      ensures status == 401 <==>
                verb == "POST" && store != null && body.Some? && !(body.value.appSigned && body.value.accountSigned)
      ensures status == 200 <==>
                verb == "POST" && store != null && body.Some? && Admissible(parse, Call(body.value, now, stored))
      ensures status == 500 <==>
                verb == "POST" && store != null && body.Some? && Sound(parse, Call(body.value, now, stored)) && !stored
      ensures status in {200, 204, 400, 401, 405, 500, 503}
      ensures store != null ==>
                store.rows == if verb == "POST" && body.Some? then
                                Handled(parse, old(store.rows), Call(body.value, now, stored))
                              else old(store.rows)
    {
      if verb == "OPTIONS" {
        return 204;
      }
      if verb != "POST" {
        return 405;
      }
      if store == null {
        return 503;
      }
      if body.None? {
        return 400;
      }
      status := Upsert(body.value, now, stored);
    }

    /** The checks on a readable request, in the code's order, and the write. */
    method Upsert(req: Request, now: nat, stored: bool) returns (status: int)
      requires store != null
      modifies store
      ensures status == 401 <==> !(req.appSigned && req.accountSigned)
      ensures status == 200 <==> Admissible(parse, Call(req, now, stored))
      ensures status == 500 <==> Sound(parse, Call(req, now, stored)) && !stored
      ensures status in {200, 400, 401, 500}
      ensures store.rows == Handled(parse, old(store.rows), Call(req, now, stored))
    {
      if !req.appSigned {
        return 401;
      }
      if !req.accountSigned {
        return 401;
      }
      var issued := parse(req.issuedAt);
      if issued.None? {
        return 400;
      }
      if issued.value < now - WINDOW || issued.value > now + WINDOW {
        return 400;
      }
      var exp := parse(req.expiresAt);
      if exp.None? {
        return 400;
      }
      if !stored {
        return 500;
      }
      store.Upsert(req.key, Row(Claim(req.product, Stamp(exp.value), Stamp(issued.value), "client"), Stamp(now)));
      return 200;
    }
  }

  // ---- what is stored ----

  /** Within 48 hours of the server's clock, signed twice and readable. */
  lemma SoundExactly(parse: Parser, call: Call)
    ensures Sound(parse, call) <==>
              && call.req.appSigned && call.req.accountSigned
              && (exists t :: parse(call.req.expiresAt) == Some(t))
              && (exists t :: parse(call.req.issuedAt) == Some(t)
                              && -172_800_000_000_000 <= t - call.now <= 172_800_000_000_000)
  {
  }

  /** Field by field, an accepted call is put under its own key, with its own product and the text of its own
      two instants; the update time is the server's clock. */
  lemma RowSays(parse: Parser, call: Call)
    requires Admissible(parse, call)
    ensures var p := PutOf(parse, call);
            && p.key == call.req.key && p.row.claim.product == call.req.product && p.row.claim.source == "client"
            && IsTextOf(p.row.claim.expires, parse(call.req.expiresAt).value)
            && IsTextOf(p.row.claim.issued, parse(call.req.issuedAt).value)
            && IsTextOf(p.row.updated, call.now)
  {
    StampNames(parse(call.req.expiresAt).value);
    StampNames(parse(call.req.issuedAt).value);
    StampNames(call.now);
  }

  /** The parser reads back what the layout says, to the second. */
  ghost predicate ReadsBack(parse: Parser) {
    forall text, t: nat :: IsTextOf(text, t) && YearOf(t) < 10_000 ==> parse(text) == Some(t / NANOS * NANOS)
  }

  /** After an accepted call for a new key the subscription is active until the second its expiry falls in
      begins, and not from then on. */
  lemma ActiveUntilExpiry(parse: Parser, rows: Table, call: Call, now: nat)
    requires Admissible(parse, call) && call.req.key !in rows && ReadsBack(parse)
    requires YearOf(parse(call.req.expiresAt).value) < 10_000
    ensures Active(Handled(parse, rows, call), call.req.key, now, parse)
            == Some(now < parse(call.req.expiresAt).value / NANOS * NANOS)
  {
    StampNames(parse(call.req.expiresAt).value);
  }

  // ---- runs of calls ----

  function Run(parse: Parser, rows: Table, calls: seq<Call>): Table
    decreases |calls|
  {
    if calls == [] then rows
    else Handled(parse, Run(parse, rows, calls[..|calls| - 1]), calls[|calls| - 1])
  }

  predicate AllAdmissible(parse: Parser, calls: seq<Call>) {
    forall i :: 0 <= i < |calls| ==> Admissible(parse, calls[i])
  }

  function Accepted(parse: Parser, calls: seq<Call>): (r: seq<Call>)
    ensures AllAdmissible(parse, r)
    decreases |calls|
  {
    if calls == [] then []
    else
      var n := |calls| - 1;
      Accepted(parse, calls[..n]) + if Admissible(parse, calls[n]) then [calls[n]] else []
  }

  function PutOf(parse: Parser, call: Call): Put
    requires Admissible(parse, call)
  {
    Put(call.req.key, RowOf(parse, call))
  }

  function Puts(parse: Parser, calls: seq<Call>): (r: seq<Put>)
    requires AllAdmissible(parse, calls)
    ensures |r| == |calls|
  {
    seq(|calls|, i requires 0 <= i < |calls| => PutOf(parse, calls[i]))
  }

  lemma PutsSnoc(parse: Parser, calls: seq<Call>, call: Call)
    requires AllAdmissible(parse, calls) && Admissible(parse, call)
    ensures AllAdmissible(parse, calls + [call])
    ensures Puts(parse, calls + [call]) == Puts(parse, calls) + [PutOf(parse, call)]
  {
  }

  /** One more call is one more put, if it is accepted. */
  lemma HandledIsMerged(parse: Parser, rows: Table, calls: seq<Call>, call: Call)
    requires AllAdmissible(parse, calls)
    ensures Admissible(parse, call) ==>
              && AllAdmissible(parse, calls + [call])
              && Handled(parse, Merged(rows, Puts(parse, calls)), call) == Merged(rows, Puts(parse, calls + [call]))
    ensures !Admissible(parse, call) ==>
              Handled(parse, Merged(rows, Puts(parse, calls)), call) == Merged(rows, Puts(parse, calls))
  {
    if Admissible(parse, call) {
      PutsSnoc(parse, calls, call);
      MergedSnoc(rows, Puts(parse, calls), PutOf(parse, call));
    }
  }

  /** A run of calls is a run of puts, one for each accepted call and in their order; so what is proved
      of the store holds of the endpoint. */
  lemma {:induction false} RunIsMerge(parse: Parser, rows: Table, calls: seq<Call>)
    ensures Run(parse, rows, calls) == Merged(rows, Puts(parse, Accepted(parse, calls)))
    decreases |calls|
  {
    if calls != [] {
      var n := |calls| - 1;
      RunIsMerge(parse, rows, calls[..n]);
      HandledIsMerged(parse, rows, Accepted(parse, calls[..n]), calls[n]);
      assert Accepted(parse, calls[..n]) + [] == Accepted(parse, calls[..n]);
    }
  }

  predicate FourDigitYears(parse: Parser, calls: seq<Call>)
    requires AllAdmissible(parse, calls)
  {
    forall i :: 0 <= i < |calls| ==> YearOf(Issued(parse, calls[i])) < 10_000
  }

  predicate Names(calls: seq<Call>, i: int, key: string) {
    0 <= i < |calls| && calls[i].req.key == key
  }

  function IssuedSecond(parse: Parser, call: Call): nat
    requires Admissible(parse, call)
  {
    Issued(parse, call) / NANOS
  }

  /** Call w is the first of those for the key whose issue time reaches the latest whole second. */
  ghost predicate FirstOfLatest(parse: Parser, calls: seq<Call>, key: string, w: int)
    requires AllAdmissible(parse, calls)
  {
    && Names(calls, w, key)
    && forall i :: Names(calls, i, key) ==>
         && IssuedSecond(parse, calls[i]) <= IssuedSecond(parse, calls[w])
         && (i < w ==> IssuedSecond(parse, calls[i]) < IssuedSecond(parse, calls[w]))
  }

  lemma StampsOrdered(parse: Parser, a: Call, b: Call)
    requires Admissible(parse, a) && Admissible(parse, b)
    requires YearOf(Issued(parse, a)) < 10_000 && YearOf(Issued(parse, b)) < 10_000
    ensures Less(PutOf(parse, a).row.claim.issued, PutOf(parse, b).row.claim.issued)
        <==> IssuedSecond(parse, a) < IssuedSecond(parse, b)
  {
    StampOrder(Issued(parse, a), Issued(parse, b));
  }

  /** Over accepted calls, the table holds the first record of the latest second. */
  lemma {:induction false} LatestSecondWins(parse: Parser, calls: seq<Call>, key: string, w: int)
    requires AllAdmissible(parse, calls) && FourDigitYears(parse, calls) && FirstOfLatest(parse, calls, key, w)
    ensures var rows := Merged(map[], Puts(parse, calls));
            key in rows && rows[key] == PutOf(parse, calls[w]).row
  {
    var puts := Puts(parse, calls);
    forall i | OffersAt(puts, i, key)
      ensures !Less(puts[w].row.claim.issued, puts[i].row.claim.issued)
      ensures i < w ==> Less(puts[i].row.claim.issued, puts[w].row.claim.issued)
    {
      assert Names(calls, i, key);
      StampsOrdered(parse, calls[w], calls[i]);
      StampsOrdered(parse, calls[i], calls[w]);
    }
    assert Wins(puts, key, w);
    WinnerStored(puts, key, w);
  }

  ghost predicate Asked(calls: seq<Call>, r: Request) {
    exists i :: Names(calls, i, r.key) && calls[i].req == r
  }

  predicate Distinct(parse: Parser, a: Call, b: Call)
    requires Admissible(parse, a) && Admissible(parse, b)
  {
    IssuedSecond(parse, a) == IssuedSecond(parse, b) ==> a.req == b.req
  }

  /** For one key, one whole second is one request. */
  ghost predicate DistinctSeconds(parse: Parser, calls: seq<Call>)
    requires AllAdmissible(parse, calls)
  {
    forall i, j, key :: Names(calls, i, key) && Names(calls, j, key) ==> Distinct(parse, calls[i], calls[j])
  }

  lemma {:induction false} OfferedAsAsked(parse: Parser, p: seq<Call>, q: seq<Call>, key: string, c: Claim)
    requires AllAdmissible(parse, p) && AllAdmissible(parse, q)
    requires forall r :: Asked(p, r) ==> Asked(q, r)
    ensures Offered(Puts(parse, p), key, c) ==> Offered(Puts(parse, q), key, c)
  {
    if Offered(Puts(parse, p), key, c) {
      var i :| OffersAt(Puts(parse, p), i, key) && Puts(parse, p)[i].row.claim == c;
      assert Names(p, i, key) && Asked(p, p[i].req);
      assert Asked(q, p[i].req);
      var j :| Names(q, j, key) && q[j].req == p[i].req;
      assert OffersAt(Puts(parse, q), j, key);
      SameRequestSameClaim(parse, p[i], q[j]);
    }
  }

  lemma SameRequestSameClaim(parse: Parser, a: Call, b: Call)
    requires Admissible(parse, a) && Admissible(parse, b) && a.req == b.req
    ensures PutOf(parse, a).key == PutOf(parse, b).key && PutOf(parse, a).row.claim == PutOf(parse, b).row.claim
  {
  }

  lemma {:induction false} DistinctMeansNoClash(parse: Parser, p: seq<Call>)
    requires AllAdmissible(parse, p) && FourDigitYears(parse, p) && DistinctSeconds(parse, p)
    ensures NoClash(map[], Puts(parse, p))
  {
    var puts := Puts(parse, p);
    forall key, c, d | Candidate(map[], puts, key, c) && Candidate(map[], puts, key, d) && c.issued == d.issued
      ensures c == d
    {
      var i :| OffersAt(puts, i, key) && puts[i].row.claim == c;
      var j :| OffersAt(puts, j, key) && puts[j].row.claim == d;
      assert Names(p, i, key) && Names(p, j, key);
      assert Distinct(parse, p[i], p[j]);
      PairDoesNotClash(parse, p[i], p[j]);
    }
  }

  lemma PairDoesNotClash(parse: Parser, a: Call, b: Call)
    requires Admissible(parse, a) && Admissible(parse, b) && Distinct(parse, a, b)
    requires YearOf(Issued(parse, a)) < 10_000 && YearOf(Issued(parse, b)) < 10_000
    ensures PutOf(parse, a).row.claim.issued == PutOf(parse, b).row.claim.issued ==>
              PutOf(parse, a).row.claim == PutOf(parse, b).row.claim
  {
    StampOrder(Issued(parse, a), Issued(parse, b));
    if IssuedSecond(parse, a) == IssuedSecond(parse, b) { SameRequestSameClaim(parse, a, b); }
  }

  /** Two histories whose accepted calls make the same requests, in any order and with any repetition
      and at any server times, leave the same subscriptions. */
  lemma {:induction false} EndpointConverges(parse: Parser, p: seq<Call>, q: seq<Call>, key: string)
    requires forall r :: Asked(Accepted(parse, p), r) <==> Asked(Accepted(parse, q), r)
    requires FourDigitYears(parse, Accepted(parse, p)) && DistinctSeconds(parse, Accepted(parse, p))
    ensures SameAt(Run(parse, map[], p), Run(parse, map[], q), key)
  {
    var ap, aq := Accepted(parse, p), Accepted(parse, q);
    RunIsMerge(parse, map[], p);
    RunIsMerge(parse, map[], q);
    forall k, c ensures Offered(Puts(parse, ap), k, c) <==> Offered(Puts(parse, aq), k, c) {
      OfferedAsAsked(parse, ap, aq, k, c);
      OfferedAsAsked(parse, aq, ap, k, c);
    }
    DistinctMeansNoClash(parse, ap);
    Convergence(map[], Puts(parse, ap), Puts(parse, aq), key);
  }

  /** A second accepted call replaces the first exactly when it was issued in a later whole second: a
      newer instant within the same second loses. */
  lemma ReplacesExactly(parse: Parser, a: Call, b: Call)
    requires Admissible(parse, a) && Admissible(parse, b) && a.req.key == b.req.key
    requires YearOf(Issued(parse, a)) < 10_000 && YearOf(Issued(parse, b)) < 10_000
    ensures var p, q := PutOf(parse, a), PutOf(parse, b);
            Merged(map[], [p, q]) ==
            if IssuedSecond(parse, a) < IssuedSecond(parse, b) then map[q.key := q.row] else map[p.key := p.row]
  {
    MergedTwo(map[], PutOf(parse, a), PutOf(parse, b));
    StampsOrdered(parse, a, b);
  }

  /** A renewal issued 0.9 s after the purchase, in the same second, is accepted and dropped. */
  lemma RenewalLost(parse: Parser, t: nat, a: Call, b: Call)
    requires parse("2026-01-01T00:00:00Z") == Some(t) && t % NANOS == 0 && YearOf(t) == 2026
    requires parse("2026-01-01T00:00:00.9Z") == Some(t + 900_000_000)
    requires parse("2027-01-01T00:00:00Z").Some?
    requires a == Call(Request("key", "month", "2027-01-01T00:00:00Z", "2026-01-01T00:00:00Z", true, true), t, true)
    requires b == Call(Request("key", "year", "2027-01-01T00:00:00Z", "2026-01-01T00:00:00.9Z", true, true), t, true)
    ensures Admissible(parse, a) && Admissible(parse, b) && Issued(parse, a) < Issued(parse, b)
    ensures Merged(map[], [PutOf(parse, a), PutOf(parse, b)]) == map["key" := PutOf(parse, a).row]
  {
    assert (t + 900_000_000) / NANOS == t / NANOS;
    ReplacesExactly(parse, a, b);
  }
}
