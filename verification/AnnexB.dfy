/** The H.264 byte stream splitter of internal/encoder/nal.go (Annex B of ITU-T H.264). */
module AnnexB {
  import opened Base

  /** 4 for a 00 00 00 01 prefix, 3 for 00 00 01, else 0. */
  function StartCodeLen(b: bytes): nat {
    if |b| >= 4 && b[0] == 0 && b[1] == 0 && b[2] == 0 && b[3] == 1 then 4
    else if |b| >= 3 && b[0] == 0 && b[1] == 0 && b[2] == 1 then 3
    else 0
  }

  /** A start code of either length begins at offset i. */
  predicate StartAt(b: bytes, i: nat) {
    && i + 2 < |b| && b[i] == 0 && b[i + 1] == 0
    && (b[i + 2] == 1 || (i + 3 < |b| && b[i + 2] == 0 && b[i + 3] == 1))
  }

  lemma StartAtIsPrefix(b: bytes, i: nat)
    requires i <= |b|
    ensures StartAt(b, i) <==> StartCodeLen(b[i..]) > 0
  {
  }

  /** The first start code at or after offset `from`, or -1. */
  function FirstStart(b: bytes, from: nat): (r: int)
    ensures r == -1 || (from <= r < |b| && StartAt(b, r))
    ensures forall j: nat :: from <= j && (r == -1 || j < r) ==> !StartAt(b, j)
    decreases |b| - from
  {
    if from >= |b| then -1 else if StartAt(b, from) then from else FirstStart(b, from + 1)
  }

  method IndexStartCode(b: bytes) returns (r: int)
    ensures r == FirstStart(b, 0)
    ensures r == -1 ==> forall j: nat :: !StartAt(b, j)
    ensures r != -1 ==> 0 <= r < |b| && StartAt(b, r) && forall j: nat :: j < r ==> !StartAt(b, j)
  {
    var i := 0;
    while i + 2 < |b|
      invariant forall j: nat :: j < i ==> !StartAt(b, j)
    {
      if b[i] == 0 && b[i + 1] == 0 {
        if b[i + 2] == 1 {
          FirstStartIs(b, i);
          return i;
        }
        if i + 3 < |b| && b[i + 2] == 0 && b[i + 3] == 1 {
          FirstStartIs(b, i);
          return i;
        }
      }
      i := i + 1;
    }
    r := -1;
  }

  lemma FirstStartIs(b: bytes, i: nat)
    requires StartAt(b, i) && forall j: nat :: j < i ==> !StartAt(b, j)
    ensures FirstStart(b, 0) == i
  {
  }

  /** Complete units, each with its start code, and the bytes carried to the next read. */
  datatype Cut = Cut(nals: seq<bytes>, rest: bytes)

  /** More units in front of a cut. */
  function Join(nals: seq<bytes>, cut: Cut): Cut {
    Cut(nals + cut.nals, cut.rest)
  }

  lemma JoinJoin(a: seq<bytes>, b: seq<bytes>, cut: Cut)
    ensures Join(a, Join(b, cut)) == Join(a + b, cut)
  {
    assert a + (b + cut.nals) == (a + b) + cut.nals;
  }

  /** Where the second start code of the buffer begins, -1 if it has none (or not even a first). */
  function UnitEnd(buf: bytes): (end: int)
    ensures end == -1 || 0 < end <= |buf|
  {
    var sc := StartCodeLen(buf);
    var next := if sc == 0 then -1 else FirstStart(buf[sc..], 0);
    if next < 0 then -1 else sc + next
  }

  function Split(buf: bytes): Cut
    decreases |buf|
  {
    var end := UnitEnd(buf);
    if end < 0 then Cut([], buf) else Join([buf[..end]], Split(buf[end..]))
  }

  method SplitNALUnits(buf: bytes) returns (nals: seq<bytes>, rest: bytes)
    ensures Cut(nals, rest) == Split(buf)
  {
    nals := [];
    var remaining := buf;
    while |remaining| > 0
      invariant Split(buf) == Join(nals, Split(remaining))
      decreases |remaining|
    {
      var sc := StartCodeLen(remaining);
      if sc == 0 {
        return nals, remaining;
      }
      var next := IndexStartCode(remaining[sc..]);
      if next < 0 {
        return nals, remaining;
      }
      var end := sc + next;
      assert end == UnitEnd(remaining);
      JoinJoin(nals, [remaining[..end]], Split(remaining[end..]));
      nals := nals + [remaining[..end]];
      remaining := remaining[end..];
    }
    rest := [];
  }

  // ---- the same units however the stream is cut into reads ----

  lemma FirstStartExtends(a: bytes, b: bytes)
    requires FirstStart(a, 0) != -1
    ensures FirstStart(a + b, 0) == FirstStart(a, 0)
  {
    var i := FirstStart(a, 0);
    forall j: nat | j < i ensures !StartAt(a + b, j) {
      assert !StartAt(a, j);
    }
    FirstStartIs(a + b, i);
  }

  lemma UnitEndExtends(a: bytes, b: bytes)
    requires UnitEnd(a) != -1
    ensures UnitEnd(a + b) == UnitEnd(a)
  {
    var sc := StartCodeLen(a);
    assert (a + b)[sc..] == a[sc..] + b;
    FirstStartExtends(a[sc..], b);
  }

  /** Reading a and then b yields the units of a, then those of what was carried over plus b. */
  lemma {:induction false} SplitAppend(a: bytes, b: bytes)
    ensures Split(a + b) == Join(Split(a).nals, Split(Split(a).rest + b))
    decreases |a|
  {
    var end := UnitEnd(a);
    if end < 0 {
      assert Split(a) == Cut([], a);
    } else {
      UnitEndExtends(a, b);
      assert (a + b)[..end] == a[..end] && (a + b)[end..] == a[end..] + b;
      SplitAppend(a[end..], b);
      var tail := Split(a[end..]);
      JoinJoin([a[..end]], tail.nals, Split(tail.rest + b));
    }
  }

  // ---- what the units are, without the algorithm ----

  /** n is the first unit of n + tail: it opens with a start code, the next start code after that
      one is where tail begins. */
  ghost predicate IsUnit(n: bytes, tail: bytes) {
    var sc := StartCodeLen(n + tail);
    && 0 < sc <= |n| && StartAt(n + tail, |n|)
    && forall j: nat :: sc <= j < |n| ==> !StartAt(n + tail, j)
  }

  /** No complete unit: it opens with no start code, or has no second one. */
  ghost predicate IsOpen(rest: bytes) {
    StartCodeLen(rest) == 0 || forall j: nat :: StartCodeLen(rest) <= j ==> !StartAt(rest, j)
  }

  ghost predicate UnitAt(cut: Cut, k: nat)
    requires k < |cut.nals|
  {
    IsUnit(cut.nals[k], Flatten(cut.nals[k + 1..]) + cut.rest)
  }

  ghost predicate IsCut(buf: bytes, cut: Cut) {
    && Flatten(cut.nals) + cut.rest == buf
    && (forall k :: 0 <= k < |cut.nals| ==> UnitAt(cut, k))
    && IsOpen(cut.rest)
  }

  /** The end of the first unit is the first start code past the leading one. */
  lemma UnitEndIsFirst(buf: bytes)
    requires StartCodeLen(buf) > 0
    ensures UnitEnd(buf) == -1 ==> IsOpen(buf)
    ensures UnitEnd(buf) != -1 ==> IsUnit(buf[..UnitEnd(buf)], buf[UnitEnd(buf)..])
  {
    var sc := StartCodeLen(buf);
    var end := UnitEnd(buf);
    forall j: nat | sc <= j && (end == -1 || j < end) ensures !StartAt(buf, j) {
      assert !StartAt(buf[sc..], j - sc);
    }
    if end != -1 {
      assert buf[..end] + buf[end..] == buf;
      assert StartAt(buf[sc..], end - sc);
    }
  }

  /** A first unit ends where UnitEnd says. */
  lemma UnitEndOf(n: bytes, tail: bytes)
    requires IsUnit(n, tail)
    ensures UnitEnd(n + tail) == |n|
  {
    var buf := n + tail;
    var sc := StartCodeLen(buf);
    forall j: nat | j < |n| - sc ensures !StartAt(buf[sc..], j) {
      assert !StartAt(buf, sc + j);
    }
    FirstStartIs(buf[sc..], |n| - sc);
  }

  lemma OpenHasNoEnd(rest: bytes)
    requires IsOpen(rest)
    ensures UnitEnd(rest) == -1
  {
    var sc := StartCodeLen(rest);
    if sc > 0 {
      forall j: nat ensures !StartAt(rest[sc..], j) {
        assert !StartAt(rest, sc + j);
      }
    }
  }

  lemma OpenIsCut(buf: bytes)
    requires UnitEnd(buf) < 0
    ensures IsCut(buf, Cut([], buf))
  {
    if StartCodeLen(buf) > 0 { UnitEndIsFirst(buf); }
    assert [] + buf == buf;
  }

  lemma FirstIsCut(buf: bytes, n: bytes, after: bytes, tail: Cut, cut: Cut)
    requires buf == n + after && cut == Join([n], tail) && IsUnit(n, after) && IsCut(after, tail)
    ensures IsCut(buf, cut)
  {
    CutGrows(n, after, tail);
  }

  lemma FirstUnit(buf: bytes)
    requires UnitEnd(buf) >= 0
    ensures var n, after := buf[..UnitEnd(buf)], buf[UnitEnd(buf)..];
            buf == n + after && IsUnit(n, after) && Split(buf) == Join([n], Split(after))
  {
    UnitEndIsFirst(buf);
  }

  /** The splitter returns a lossless cut exactly at the start codes. */
  lemma {:induction false} SplitIsCut(buf: bytes)
    ensures IsCut(buf, Split(buf))
    decreases |buf|
  {
    var end := UnitEnd(buf);
    if end < 0 {
      OpenIsCut(buf);
    } else {
      SplitIsCut(buf[end..]);
      FirstUnit(buf);
      FirstIsCut(buf, buf[..end], buf[end..], Split(buf[end..]), Split(buf));
    }
  }

  lemma CutGrows(n: bytes, after: bytes, tail: Cut)
    requires IsCut(after, tail) && IsUnit(n, after)
    ensures IsCut(n + after, Join([n], tail))
  {
    var cut := Join([n], tail);
    assert cut.nals[1..] == tail.nals;
    assert (n + Flatten(tail.nals)) + tail.rest == n + (Flatten(tail.nals) + tail.rest);
    forall k | 0 <= k < |cut.nals| ensures UnitAt(cut, k) {
      if k > 0 {
        assert UnitAt(tail, k - 1);
        assert cut.nals[k + 1..] == tail.nals[k..];
      }
    }
  }

  lemma TailIsCut(cut: Cut)
    requires cut.nals != [] && IsOpen(cut.rest) && forall k :: 0 <= k < |cut.nals| ==> UnitAt(cut, k)
    ensures var tail := Cut(cut.nals[1..], cut.rest);
            IsCut(Flatten(tail.nals) + tail.rest, tail)
  {
    var tail := Cut(cut.nals[1..], cut.rest);
    forall k | 0 <= k < |tail.nals| ensures UnitAt(tail, k) {
      assert UnitAt(cut, k + 1);
      assert tail.nals[k + 1..] == cut.nals[k + 2..];
    }
  }

  /** And it is the only one: any lossless cut at the start codes is the splitter's. */
  lemma {:induction false} CutIsSplit(buf: bytes, cut: Cut)
    requires IsCut(buf, cut)
    ensures Split(buf) == cut
    decreases |cut.nals|
  {
    if cut.nals == [] {
      assert buf == cut.rest;
      OpenHasNoEnd(buf);
    } else {
      var n := cut.nals[0];
      var tail := Cut(cut.nals[1..], cut.rest);
      var after := Flatten(tail.nals) + tail.rest;
      assert n + after == buf;
      assert UnitAt(cut, 0);
      UnitEndOf(n, after);
      assert buf[..|n|] == n && buf[|n|..] == after;
      TailIsCut(cut);
      CutIsSplit(after, tail);
      assert [n] + tail.nals == cut.nals;
    }
  }

  // ---- round trip ----

  /** A unit as an encoder writes it (section 7.4.1 of ITU-T H.264): one start code, at its head,
      and a last byte that is not zero. */
  ghost predicate WellFormed(n: bytes) {
    var sc := StartCodeLen(n);
    && 0 < sc && n[|n| - 1] != 0
    && forall j: nat :: sc <= j ==> !StartAt(n, j)
  }

  lemma UnitBeforeAnother(n: bytes, tail: bytes)
    requires WellFormed(n) && StartCodeLen(tail) > 0
    ensures IsUnit(n, tail)
  {
    var sc := StartCodeLen(n);
    var all := n + tail;
    forall j: nat | sc <= j < |n| ensures !StartAt(all, j) {
      assert !StartAt(n, j);
      assert all[|n| - 1] == n[|n| - 1] != 0;
    }
    assert all[|n|..] == tail;
    StartAtIsPrefix(all, |n|);
  }

  /** Splitting a stream of well-formed units gives them back; the last waits for its successor. */
  lemma {:induction false} SplitRoundTrip(nals: seq<bytes>)
    requires nals != [] && forall k :: 0 <= k < |nals| ==> WellFormed(nals[k])
    ensures Split(Flatten(nals)) == Cut(nals[..|nals| - 1], nals[|nals| - 1])
  {
    var last := nals[|nals| - 1];
    var cut := Cut(nals[..|nals| - 1], last);
    assert nals == cut.nals + [last];
    FlattenSnoc(cut.nals, last);
    forall k | 0 <= k < |cut.nals| ensures UnitAt(cut, k) {
      var tail := Flatten(cut.nals[k + 1..]) + last;
      FlattenSnoc(cut.nals[k + 1..], last);
      assert cut.nals[k + 1..] + [last] == nals[k + 1..];
      OpensWithStartCode(nals[k + 1..]);
      UnitBeforeAnother(cut.nals[k], tail);
    }
    CutIsSplit(Flatten(nals), cut);
  }

  lemma OpensWithStartCode(nals: seq<bytes>)
    requires nals != [] && StartCodeLen(nals[0]) > 0
    ensures StartCodeLen(Flatten(nals)) > 0
  {
    var f := Flatten(nals);
    assert f[..|nals[0]|] == nals[0];
    assert forall k :: 0 <= k < |nals[0]| ==> f[k] == nals[0][k];
  }
}
