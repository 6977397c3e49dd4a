/** The helper's frame format and the two frame clocks: readFrames in internal/backend/sim/control.go
    and frameTimer in internal/encoder/ffmpeg.go. Times are nanoseconds. */
module Clocks {
  import opened Base

  type byte = x: int | 0 <= x < 256

  const TWO_63: int := 0x8000_0000_0000_0000
  const TWO_64: int := 0x1_0000_0000_0000_0000
  const HEADER: nat := 13
  const MILLISECOND: int := 1_000_000
  const MICROSECOND: int := 1_000
  const NOMINAL: int := 1_000_000_000 / 30   // a second over 30 frames, as integer nanoseconds

  // ---- big-endian numbers ----

  function Pow256(k: nat): (p: nat)
    ensures p > 0
  {
    if k == 0 then 1 else 256 * Pow256(k - 1)
  }

  function ToBytes(n: nat, k: nat): (b: seq<byte>)
    requires n < Pow256(k)
    ensures |b| == k
  {
    if k == 0 then [] else ToBytes(n / 256, k - 1) + [n % 256]
  }

  function FromBytes(b: seq<byte>): (n: nat)
    ensures n < Pow256(|b|)
  {
    if b == [] then 0 else 256 * FromBytes(b[..|b| - 1]) + b[|b| - 1]
  }

  lemma {:induction false} BytesRoundTrip(n: nat, k: nat)
    requires n < Pow256(k)
    ensures FromBytes(ToBytes(n, k)) == n
  {
    if k > 0 {
      BytesRoundTrip(n / 256, k - 1);
      assert ToBytes(n, k)[..k - 1] == ToBytes(n / 256, k - 1);
    }
  }

  // ---- the framed stream ----

  /** A length that fits 32 bits and a presentation time that fits 64. */
  datatype Packet = Packet(flags: byte, pts: nat, data: seq<byte>)

  predicate Fits(p: Packet) {
    |p.data| < Pow256(4) && p.pts < Pow256(8)
  }

  function Serialize(p: Packet): (b: seq<byte>)
    requires Fits(p)
    ensures |b| == HEADER + |p.data|
  {
    ToBytes(|p.data|, 4) + [p.flags] + ToBytes(p.pts, 8) + p.data
  }

  function SerializeAll(ps: seq<Packet>): seq<byte>
    requires forall k :: 0 <= k < |ps| ==> Fits(ps[k])
  {
    if ps == [] then [] else Serialize(ps[0]) + SerializeAll(ps[1..])
  }

  function PayloadLen(b: seq<byte>): nat
    requires |b| >= HEADER
  {
    FromBytes(b[..4])
  }

  /** Whole packets only: reading stops at a short header or a short payload. */
  function Parse(b: seq<byte>): seq<Packet>
    decreases |b|
  {
    if |b| < HEADER || |b| < HEADER + PayloadLen(b) then []
    else
      var end := HEADER + PayloadLen(b);
      [Packet(b[4], FromBytes(b[5..13]), b[HEADER..end])] + Parse(b[end..])
  }

  lemma SerializedHead(p: Packet, rest: seq<byte>)
    requires Fits(p)
    ensures var b := Serialize(p) + rest;
            && PayloadLen(b) == |p.data| && b[4] == p.flags && FromBytes(b[5..13]) == p.pts
            && b[HEADER..HEADER + |p.data|] == p.data && b[HEADER + |p.data|..] == rest
  {
    var b := Serialize(p) + rest;
    BytesRoundTrip(|p.data|, 4);
    BytesRoundTrip(p.pts, 8);
    assert b[..4] == ToBytes(|p.data|, 4);
    assert b[5..13] == ToBytes(p.pts, 8);
  }

  lemma ParseCons(p: Packet, rest: seq<byte>)
    requires Fits(p)
    ensures Parse(Serialize(p) + rest) == [p] + Parse(rest)
  {
    SerializedHead(p, rest);
  }

  /** A stream cut off has its first packet, if that arrived whole, and what is left of the rest. */
  lemma ParseCut(p: Packet, rest: seq<byte>, n: nat)
    requires Fits(p) && n <= HEADER + |p.data| + |rest|
    ensures var size := HEADER + |p.data|;
            Parse((Serialize(p) + rest)[..n]) == if size <= n then [p] + Parse(rest[..n - size]) else []
  {
    var all := Serialize(p) + rest;
    var size := HEADER + |p.data|;
    if size <= n {
      assert all[..n] == Serialize(p) + rest[..n - size];
      ParseCons(p, rest[..n - size]);
    } else if n >= HEADER {
      SerializedHead(p, rest);
      assert all[..n][..4] == all[..4];
    }
  }

  /** The parser gives back what was serialised. */
  lemma {:induction false} ParseRoundTrip(ps: seq<Packet>)
    requires forall k :: 0 <= k < |ps| ==> Fits(ps[k])
    ensures Parse(SerializeAll(ps)) == ps
    decreases |ps|
  {
    if ps != [] {
      ParseCons(ps[0], SerializeAll(ps[1..]));
      ParseRoundTrip(ps[1..]);
    }
  }

  /** The packets that lie wholly within the first n bytes. */
  function WholeWithin(ps: seq<Packet>, n: nat): (k: nat)
    ensures k <= |ps|
  {
    if ps == [] || HEADER + |ps[0].data| > n then 0
    else 1 + WholeWithin(ps[1..], n - (HEADER + |ps[0].data|))
  }

  /** A stream cut off anywhere yields exactly the packets that had arrived whole. */
  lemma {:induction false} ParseTruncated(ps: seq<Packet>, n: nat)
    requires forall k :: 0 <= k < |ps| ==> Fits(ps[k])
    requires n <= |SerializeAll(ps)|
    ensures Parse(SerializeAll(ps)[..n]) == ps[..WholeWithin(ps, n)]
    decreases |ps|
  {
    if ps != [] {
      var size := HEADER + |ps[0].data|;
      ParseCut(ps[0], SerializeAll(ps[1..]), n);
      if size <= n {
        ParseTruncated(ps[1..], n - size);
        PrefixCons(ps, WholeWithin(ps[1..], n - size));
      }
    }
  }

  lemma PrefixCons(ps: seq<Packet>, k: nat)
    requires k < |ps|
    ensures [ps[0]] + ps[1..][..k] == ps[..k + 1]
  {
  }

  // ---- durations from presentation times ----

  /** Go's conversion to a signed 64-bit integer. */
  function Int64(x: int): (r: int)
    ensures -TWO_63 <= r < TWO_63
    ensures -TWO_63 <= x < TWO_63 ==> r == x
  {
    (x + TWO_63) % TWO_64 - TWO_63
  }

  /** uint64 subtraction wraps; so do the conversion and the scaling to nanoseconds. */
  function Gap(last: nat, pts: nat): int {
    Int64(Int64((pts - last) % TWO_64) * MICROSECOND)
  }

  function FrameDuration(last: Option<nat>, pts: nat): int {
    if last.Some? && Gap(last.value, pts) > 0 then Gap(last.value, pts) else NOMINAL
  }

  datatype Frame = Frame(data: seq<byte>, duration: int)

  /** The frames of a run of packets, the previous packet's time being last. */
  function Frames(last: Option<nat>, ps: seq<Packet>): seq<Frame>
    decreases |ps|
  {
    if ps == [] then []
    else [Frame(ps[0].data, FrameDuration(last, ps[0].pts))] + Frames(Some(ps[0].pts), ps[1..])
  }

  function Durations(fs: seq<Frame>): (ds: seq<int>)
    ensures |ds| == |fs|
  {
    seq(|fs|, k requires 0 <= k < |fs| => fs[k].duration)
  }

  /** readFrames: frames with the durations they occupy, until the stream runs short or, after `taken`
      frames, the reader is cancelled or closed. */
  method ReadFrames(stream: seq<byte>, taken: nat) returns (frames: seq<Frame>)
    ensures frames == Prefix(Frames(None, Parse(stream)), taken)
  {
    frames := [];
    var r := stream;
    var lastPTS: nat := 0;
    var first := true;
    ghost var last: Option<nat> := None;
    while |r| >= HEADER
      invariant last == if first then None else Some(lastPTS)
      invariant |frames| <= taken
      invariant frames + Frames(last, Parse(r)) == Frames(None, Parse(stream))
      decreases |r|
    {
      var n := FromBytes(r[..4]);
      if |r| < HEADER + n {
        break;
      }
      var pts := FromBytes(r[5..13]);
      var dur := NOMINAL;
      if !first {
        var d := Gap(lastPTS, pts);
        if d > 0 {
          dur := d;
        }
      }
      assert dur == FrameDuration(last, pts);
      NextFrame(frames, last, r);
      if |frames| == taken {
        FullPrefix(frames, Frames(last, Parse(r)));
        return;
      }
      frames := frames + [Frame(r[HEADER..HEADER + n], dur)];
      first := false;
      lastPTS := pts;
      last := Some(pts);
      r := r[HEADER + n..];
    }
    assert Parse(r) == [] && frames + [] == frames;
  }

  lemma FullPrefix(done: seq<Frame>, rest: seq<Frame>)
    requires rest != []
    ensures Prefix(done + rest, |done|) == done
  {
  }

  lemma FramesCons(last: Option<nat>, p: Packet, tail: seq<Packet>)
    ensures Frames(last, [p] + tail) == [Frame(p.data, FrameDuration(last, p.pts))] + Frames(Some(p.pts), tail)
  {
    assert ([p] + tail)[1..] == tail;
  }

  /** One turn of the loop. */
  lemma NextFrame(done: seq<Frame>, last: Option<nat>, r: seq<byte>)
    requires |r| >= HEADER && |r| >= HEADER + PayloadLen(r)
    ensures var end := HEADER + PayloadLen(r);
            var pts := FromBytes(r[5..13]);
            done + Frames(last, Parse(r))
            == (done + [Frame(r[HEADER..end], FrameDuration(last, pts))]) + Frames(Some(pts), Parse(r[end..]))
  {
    var end := HEADER + PayloadLen(r);
    var p := Packet(r[4], FromBytes(r[5..13]), r[HEADER..end]);
    var tail := Parse(r[end..]);
    FramesCons(last, p, tail);
    var f := Frame(p.data, FrameDuration(last, p.pts));
    assert done + ([f] + Frames(Some(p.pts), tail)) == (done + [f]) + Frames(Some(p.pts), tail);
  }

  function Sum(ds: seq<int>): int {
    if ds == [] then 0 else ds[0] + Sum(ds[1..])
  }

  /** Whatever the presentation times, no frame is lost or altered and every duration is positive. */
  lemma {:induction false} FramesWellFormed(last: Option<nat>, ps: seq<Packet>)
    ensures |Frames(last, ps)| == |ps|
    ensures forall k :: 0 <= k < |ps| ==> Frames(last, ps)[k].data == ps[k].data && Frames(last, ps)[k].duration > 0
    decreases |ps|
  {
    if ps != [] {
      FramesWellFormed(Some(ps[0].pts), ps[1..]);
    }
  }

  /** While a gap stays within int64 nanoseconds: the first frame lasts a thirtieth of a second, a later one
      the time since the one before it, or a thirtieth if that did not advance. */
  lemma DurationExactly(last: Option<nat>, pts: nat)
    ensures last.None? ==> FrameDuration(last, pts) == 33_333_333
    ensures last.Some? && -TWO_63 < (pts - last.value) * MICROSECOND < TWO_63 ==>
              FrameDuration(last, pts) == if pts > last.value then (pts - last.value) * 1_000 else 33_333_333
  {
    if last.Some? && -TWO_63 < (pts - last.value) * MICROSECOND < TWO_63 {
      WrapBack(pts - last.value);
    }
  }

  /** A difference that wrapped comes back as it was. */
  lemma WrapBack(d: int)
    requires -TWO_63 < d < TWO_63
    ensures Int64(d % TWO_64) == d
  {
    if d < 0 {
      assert d % TWO_64 == d + TWO_64;
    } else {
      assert d % TWO_64 == d;
    }
  }

  predicate Increasing(ps: seq<Packet>) {
    forall k :: 0 < k < |ps| ==> ps[k - 1].pts < ps[k].pts
  }

  lemma GapExact(last: nat, pts: nat)
    requires last < pts && (pts - last) * MICROSECOND < TWO_63
    ensures Gap(last, pts) == (pts - last) * MICROSECOND
  {
  }

  lemma {:induction false} LaterAreLater(ps: seq<Packet>)
    requires ps != [] && Increasing(ps)
    ensures ps[0].pts <= ps[|ps| - 1].pts
    decreases |ps|
  {
    if |ps| > 1 {
      LaterAreLater(ps[1..]);
    }
  }

  lemma {:induction false} SumFrom(last: nat, ps: seq<Packet>)
    requires ps != [] && Increasing(ps) && last < ps[0].pts
    requires (ps[|ps| - 1].pts - last) * MICROSECOND < TWO_63
    ensures Sum(Durations(Frames(Some(last), ps))) == (ps[|ps| - 1].pts - last) * MICROSECOND
    decreases |ps|
  {
    LaterAreLater(ps);
    GapExact(last, ps[0].pts);
    assert Durations(Frames(Some(last), ps))[1..] == Durations(Frames(Some(ps[0].pts), ps[1..]));
    if |ps| > 1 {
      SumFrom(ps[0].pts, ps[1..]);
    } else {
      assert ps[1..] == [];
    }
  }

  /** For strictly increasing times that stay within int64 nanoseconds the clock is exact: one
      nominal frame, then the time that really passed. */
  lemma {:induction false} DurationsSumToElapsed(ps: seq<Packet>)
    requires ps != [] && Increasing(ps)
    requires (ps[|ps| - 1].pts - ps[0].pts) * MICROSECOND < TWO_63
    ensures Sum(Durations(Frames(None, ps))) == NOMINAL + (ps[|ps| - 1].pts - ps[0].pts) * MICROSECOND
  {
    assert Durations(Frames(None, ps))[1..] == Durations(Frames(Some(ps[0].pts), ps[1..]));
    if |ps| > 1 {
      SumFrom(ps[0].pts, ps[1..]);
    } else {
      assert ps[1..] == [];
    }
  }

  // ---- the encoder's timer ----

  class FrameTimer {
    const nominal: int
    var last: Option<int>

    constructor (nominal: int)
      ensures this.nominal == nominal && last.None?
    {
      this.nominal := nominal;
      last := None;
    }

    method Next(now: int) returns (d: int)
      modifies this
      ensures d == Tick(nominal, old(last), now) && last == Some(now)
    {
      d := nominal;
      if last.Some? {
        d := now - last.value;
        if d < MILLISECOND {
          d := MILLISECOND;
        }
      }
      last := Some(now);
    }
  }

  function Tick(nominal: int, last: Option<int>, now: int): int {
    if last.None? then nominal else if now - last.value < MILLISECOND then MILLISECOND else now - last.value
  }

  function Ticks(nominal: int, last: Option<int>, nows: seq<int>): seq<int>
    decreases |nows|
  {
    if nows == [] then [] else [Tick(nominal, last, nows[0])] + Ticks(nominal, Some(nows[0]), nows[1..])
  }

  lemma {:induction false} TicksSnoc(nominal: int, last: Option<int>, nows: seq<int>, now: int)
    ensures Ticks(nominal, last, nows + [now])
            == Ticks(nominal, last, nows) + [Tick(nominal, if nows == [] then last else Some(nows[|nows| - 1]), now)]
    decreases |nows|
  {
    if nows == [] {
      assert nows + [now] == [now] && [now][1..] == [];
    } else {
      assert (nows + [now])[1..] == nows[1..] + [now];
      TicksSnoc(nominal, Some(nows[0]), nows[1..], now);
    }
  }

  /** After the first frame the timer runs at most a millisecond a frame ahead of the clock and
      never behind it. */
  lemma {:induction false} TimerTracksClock(nominal: int, last: int, nows: seq<int>)
    requires nows != [] && last <= nows[0] && forall k :: 0 < k < |nows| ==> nows[k - 1] <= nows[k]
    ensures var elapsed := nows[|nows| - 1] - last;
            elapsed <= Sum(Ticks(nominal, Some(last), nows)) <= elapsed + |nows| * MILLISECOND
    decreases |nows|
  {
    var ds := Ticks(nominal, Some(last), nows);
    assert ds[1..] == Ticks(nominal, Some(nows[0]), nows[1..]);
    if |nows| > 1 {
      TimerTracksClock(nominal, nows[0], nows[1..]);
    } else {
      assert nows[1..] == [];
    }
  }

  /** Each duration is the gap, or a millisecond if the gap is shorter; so the timer is exact if and only if
      no two frames are closer than that. */
  lemma {:induction false} TimerExactly(nominal: int, last: int, nows: seq<int>)
    requires nows != [] && last <= nows[0] && forall k :: 0 < k < |nows| ==> nows[k - 1] <= nows[k]
    ensures Ticks(nominal, None, nows)[0] == nominal
    ensures var gap := nows[0] - last;
            Ticks(nominal, Some(last), nows)[0] == if gap < 1_000_000 then 1_000_000 else gap
    ensures Sum(Ticks(nominal, Some(last), nows)) == nows[|nows| - 1] - last <==>
              nows[0] - last >= 1_000_000 && forall k :: 0 < k < |nows| ==> nows[k] - nows[k - 1] >= 1_000_000
    decreases |nows|
  {
    var ds := Ticks(nominal, Some(last), nows);
    assert ds[1..] == Ticks(nominal, Some(nows[0]), nows[1..]);
    if |nows| > 1 {
      TimerTracksClock(nominal, nows[0], nows[1..]);
      TimerExactly(nominal, nows[0], nows[1..]);
      assert nows[1..][0] == nows[1] && forall k :: 0 < k < |nows[1..]| ==> nows[1..][k] == nows[k + 1];
    } else {
      assert nows[1..] == [];
    }
  }
}
