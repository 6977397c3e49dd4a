/** The access-unit assembler of internal/encoder/nal.go and the read loop that drives it
    (internal/encoder/ffmpeg.go). Boundaries follow section 7.4.1.2.3 of ITU-T H.264. */
module AccessUnits {
  import opened Base
  import opened AnnexB
  import Clocks

  /** The NAL unit type, or 0 for a malformed unit. */
  function NalType(nal: bytes): bv8 {
    var sc := StartCodeLen(nal);
    if sc == 0 || sc >= |nal| then 0 else nal[sc] & 0x1f
  }

  predicate IsVCL(t: bv8) { 1 <= t <= 5 }

  predicate VclStartsPicture(nal: bytes) {
    var sc := StartCodeLen(nal);
    if sc == 0 || sc + 1 >= |nal| then true else nal[sc + 1] & 0x80 != 0
  }

  predicate StartsNewAU(nal: bytes, t: bv8) {
    if t == 6 || t == 7 || t == 8 || t == 9 then true
    else if IsVCL(t) then VclStartsPicture(nal)
    else false
  }

  predicate Slice(nal: bytes) { IsVCL(NalType(nal)) }

  predicate Opens(nal: bytes) { StartsNewAU(nal, NalType(nal)) }

  // ---- first_mb_in_slice is an unsigned Exp-Golomb code (section 9.1) ----

  function Bits(b: bytes): seq<bool> {
    if b == [] then []
    else
      [b[0] & 0x80 != 0, b[0] & 0x40 != 0, b[0] & 0x20 != 0, b[0] & 0x10 != 0,
       b[0] & 0x08 != 0, b[0] & 0x04 != 0, b[0] & 0x02 != 0, b[0] & 0x01 != 0] + Bits(b[1..])
  }

  function Pow2(n: nat): (p: nat)
    ensures p > n
  {
    if n == 0 then 1 else 2 * Pow2(n - 1)
  }

  function LeadingZeros(bits: seq<bool>): (n: nat)
    ensures n <= |bits|
  {
    if bits == [] || bits[0] then 0 else 1 + LeadingZeros(bits[1..])
  }

  function Binary(bits: seq<bool>): nat {
    if bits == [] then 0 else 2 * Binary(bits[..|bits| - 1]) + (if bits[|bits| - 1] then 1 else 0)
  }

  /** The ue(v) at the head of the bits, if they hold a whole code. */
  function Ue(bits: seq<bool>): Option<nat> {
    var z := LeadingZeros(bits);
    if 2 * z + 1 > |bits| then None
    else Some(Pow2(z) - 1 + Binary(bits[z + 1..2 * z + 1]))
  }

  lemma UeZero(bits: seq<bool>)
    ensures Ue(bits) == Some(0) <==> bits != [] && bits[0]
  {
    if bits != [] && bits[0] {
      assert bits[1..1] == [];
    }
  }

  /** The one-bit test reads first_mb_in_slice == 0 on every unit that has a slice header. */
  lemma StartsPictureIsFirstMbZero(nal: bytes)
    requires 0 < StartCodeLen(nal) && StartCodeLen(nal) + 1 < |nal|
    ensures VclStartsPicture(nal) <==> Ue(Bits(nal[StartCodeLen(nal) + 1..])) == Some(0)
  {
    var payload := nal[StartCodeLen(nal) + 1..];
    UeZero(Bits(payload));
    assert Bits(payload)[0] == (payload[0] & 0x80 != 0);
  }

  // ---- an unsigned Exp-Golomb code, written and read ----

  function Zeros(z: nat): (bits: seq<bool>)
    ensures |bits| == z
  {
    seq(z, k => false)
  }

  /** The low z bits of m, most significant first. */
  function LowBits(m: nat, z: nat): (bits: seq<bool>)
    ensures |bits| == z
  {
    if z == 0 then [] else LowBits(m / 2, z - 1) + [m % 2 == 1]
  }

  /** The exponent of the largest power of two that is at most m. */
  function Exponent(m: nat): (z: nat)
    requires m > 0
    ensures Pow2(z) <= m < 2 * Pow2(z)
  {
    if m == 1 then 0 else 1 + Exponent(m / 2)
  }

  /** ue(v) of n: as many zeros as n + 1 has bits after its first, and then n + 1. */
  function UeBits(n: nat): seq<bool> {
    var z := Exponent(n + 1);
    Zeros(z) + [true] + LowBits(n + 1 - Pow2(z), z)
  }

  lemma {:induction false} LeadingZerosOf(z: nat, rest: seq<bool>)
    ensures LeadingZeros(Zeros(z) + [true] + rest) == z
    decreases z
  {
    var bits := Zeros(z) + [true] + rest;
    if z > 0 {
      assert bits[1..] == Zeros(z - 1) + [true] + rest;
      LeadingZerosOf(z - 1, rest);
    }
  }

  lemma {:induction false} BinaryOf(m: nat, z: nat)
    requires m < Pow2(z)
    ensures Binary(LowBits(m, z)) == m
    decreases z
  {
    if z > 0 {
      BinaryOf(m / 2, z - 1);
      assert LowBits(m, z)[..z - 1] == LowBits(m / 2, z - 1);
    }
  }

  /** Reading what was written, whatever follows it. */
  lemma {:induction false} UeRoundTrip(n: nat, rest: seq<bool>)
    ensures Ue(UeBits(n) + rest) == Some(n)
  {
    var z := Exponent(n + 1);
    var low := LowBits(n + 1 - Pow2(z), z);
    var bits := UeBits(n) + rest;
    assert bits == Zeros(z) + [true] + (low + rest);
    LeadingZerosOf(z, low + rest);
    assert bits[z + 1..2 * z + 1] == low;
    BinaryOf(n + 1 - Pow2(z), z);
  }

  // ---- what a unit is, by its header ----

  /** A unit's header byte: three bits that are not its type, and the type (section 7.3.1). */
  function HeaderByte(top: bv8, t: bv8): bv8 {
    (top << 5) | t
  }

  /** A unit of type t: a start code of either length, a header byte, a payload. */
  ghost predicate IsUnitOf(nal: bytes, t: bv8, payload: bytes) {
    t < 32 && exists sc: bytes, top: bv8 ::
                (sc == [0, 0, 1] || sc == [0, 0, 0, 1]) && top < 8 && nal == sc + [HeaderByte(top, t)] + payload
  }

  /** An access unit begins at a delimiter, a parameter set or an SEI, and at a slice whose first macroblock
      is the picture's first, or whose header is cut off. */
  predicate Begins(t: bv8, payload: bytes) {
    6 <= t <= 9 || (1 <= t <= 5 && (payload == [] || Ue(Bits(payload)) == Some(0)))
  }

  lemma HeaderType(top: bv8, t: bv8)
    requires top < 8 && t < 32
    ensures HeaderByte(top, t) & 0x1f == t
  {
  }

  lemma HeaderParts(h: bv8)
    ensures h >> 5 < 8 && h & 0x1f < 32 && HeaderByte(h >> 5, h & 0x1f) == h
  {
  }

  /** The assembler's tests say of every unit what its header and slice header say. */
  lemma {:induction false} UnitByHeader(nal: bytes, t: bv8, payload: bytes)
    ensures IsUnitOf(nal, t, payload) ==>
              NalType(nal) == t && (Slice(nal) <==> 1 <= t <= 5) && (Opens(nal) <==> Begins(t, payload))
  {
    if IsUnitOf(nal, t, payload) {
      var sc: bytes, top: bv8 :|
        (sc == [0, 0, 1] || sc == [0, 0, 0, 1]) && top < 8 && nal == sc + [HeaderByte(top, t)] + payload;
      assert StartCodeLen(nal) == |sc| && nal[|sc|] == HeaderByte(top, t);
      HeaderType(top, t);
      assert nal[|sc| + 1..] == payload;
      if payload != [] { StartsPictureIsFirstMbZero(nal); }
    }
  }

  lemma OpensWith(nal: bytes)
    ensures var n := StartCodeLen(nal);
            n > 0 ==> nal[..n] == [0, 0, 1] || nal[..n] == [0, 0, 0, 1]
  {
  }

  /** And every unit with a header has one type and one payload. */
  lemma {:induction false} HeaderOfUnit(nal: bytes)
    ensures var sc := StartCodeLen(nal);
            0 < sc < |nal| ==> IsUnitOf(nal, NalType(nal), nal[sc + 1..])
  {
    var n := StartCodeLen(nal);
    if 0 < n < |nal| {
      HeaderParts(nal[n]);
      OpensWith(nal);
      assert nal == nal[..n] + [HeaderByte(nal[n] >> 5, NalType(nal))] + nal[n + 1..];
    }
  }

  // ---- the assembler ----

  datatype Forming = Forming(cur: seq<bytes>, hasVCL: bool)

  /** One push: the units of the finished group, if this one closes it, and what is forming now. */
  function Push(f: Forming, nal: bytes): (Option<seq<bytes>>, Forming) {
    if f.hasVCL && Opens(nal) then (Some(f.cur), Forming([nal], Slice(nal)))
    else (None, Forming(f.cur + [nal], f.hasVCL || Slice(nal)))
  }

  /** The groups finished by a run of pushes, and what is forming after it. */
  datatype Grouped = Grouped(done: seq<seq<bytes>>, forming: Forming)

  function Group(f: Forming, nals: seq<bytes>): Grouped
    decreases |nals|
  {
    if nals == [] then Grouped([], f)
    else
      var (done, f') := Push(f, nals[0]);
      var rest := Group(f', nals[1..]);
      Grouped((if done.Some? then [done.value] else []) + rest.done, rest.forming)
  }

  /** The access units handed on: each group's bytes back to back. */
  function Units(groups: seq<seq<bytes>>): seq<bytes> {
    if groups == [] then [] else [Flatten(groups[0])] + Units(groups[1..])
  }

  method FlattenNals(nals: seq<bytes>) returns (out: bytes)
    ensures out == Flatten(nals)
  {
    out := [];
    for k := 0 to |nals|
      invariant out == Flatten(nals[..k])
    {
      FlattenSnoc(nals[..k], nals[k]);
      assert nals[..k + 1] == nals[..k] + [nals[k]];
      out := out + nals[k];
    }
    assert nals[..|nals|] == nals;
  }

  class AuAssembler {
    var cur: seq<bytes>
    var hasVCL: bool

    ghost function View(): Forming
      reads this
    {
      Forming(cur, hasVCL)
    }

    constructor ()
      ensures View() == Forming([], false)
    {
      cur, hasVCL := [], false;
    }

    method PushNal(nal: bytes) returns (done: Option<bytes>)
      modifies this
      ensures View() == Push(old(View()), nal).1
      ensures var groups := Push(old(View()), nal).0;
              done == if groups.None? then None else Some(Flatten(groups.value))
    {
      done := None;
      var t := NalType(nal);
      if hasVCL && StartsNewAU(nal, t) {
        var au := FlattenNals(cur);
        done := Some(au);
        cur := [];
        hasVCL := false;
      }
      cur := cur + [nal];
      if IsVCL(t) {
        hasVCL := true;
      }
    }
  }

  // ---- the read loop ----

  /** What a whole stream of reads has produced: the finished groups, the forming one, and the
      bytes the splitter still carries. */
  datatype Progress = Progress(grouped: Grouped, rest: bytes)

  /** More units pushed on top of what is there. */
  function Extend(g: Grouped, nals: seq<bytes>): Grouped {
    var more := Group(g.forming, nals);
    Grouped(g.done + more.done, more.forming)
  }

  /** One read of the loop. */
  function Read(p: Progress, chunk: bytes): Progress {
    var cut := Split(p.rest + chunk);
    Progress(Extend(p.grouped, cut.nals), cut.rest)
  }

  const EMPTY := Forming([], false)
  const START := Progress(Grouped([], EMPTY), [])

  function ReadAll(chunks: seq<bytes>): Progress {
    if chunks == [] then START else Read(ReadAll(chunks[..|chunks| - 1]), chunks[|chunks| - 1])
  }

  /** The instants at which the first n access units come out. */
  function Instants(clock: nat -> int, n: nat): seq<int> {
    seq(n, k requires 0 <= k < n => clock(k))
  }

  /** The frames channel and the timer in front of it: it takes `room` units, each with the time it
      occupies, and then the context has ended. */
  class FramesOut {
    const clock: nat -> int
    const room: nat
    const timer: Clocks.FrameTimer
    var emitted: seq<bytes>
    var durations: seq<int>

    ghost predicate Valid()
      reads this, timer
    {
      && |emitted| <= room
      && timer.last == (if emitted == [] then None else Some(clock(|emitted| - 1)))
      && durations == Clocks.Ticks(timer.nominal, None, Instants(clock, |emitted|))
    }

    constructor (nominal: int, clock: nat -> int, room: nat)
      ensures Valid() && fresh(timer) && emitted == []
      ensures timer.nominal == nominal && this.clock == clock && this.room == room
    {
      this.clock, this.room := clock, room;
      timer := new Clocks.FrameTimer(nominal);
      emitted, durations := [], [];
    }

    method Send(au: bytes) returns (ok: bool)
      requires Valid()
      modifies this, timer
      ensures ok == (|old(emitted)| < room)
      ensures ok ==> Valid() && emitted == old(emitted) + [au]
      ensures !ok ==> emitted == old(emitted) && durations == old(durations)
    {
      var d := timer.Next(clock(|emitted|));
      ok := |emitted| < room;
      if ok {
        TimedSnoc(timer.nominal, clock, |emitted|);
        emitted, durations := emitted + [au], durations + [d];
      }
    }
  }

  /** The units of one read, pushed and sent on in order. */
  method PushAll(nals: seq<bytes>, asm: AuAssembler, frames: FramesOut, ghost g: Grouped) returns (whole: bool)
    requires frames.Valid() && Caught(frames, asm, g)
    modifies asm, frames, frames.timer
    ensures frames.Valid() || !whole
    ensures frames.durations == Clocks.Ticks(frames.timer.nominal, None, Instants(frames.clock, |frames.emitted|))
    ensures frames.emitted == Prefix(Units(Extend(g, nals).done), frames.room)
    ensures whole <==> |Units(Extend(g, nals).done)| <= frames.room
    ensures whole ==> Caught(frames, asm, Extend(g, nals))
  {
    whole := true;
    assert Extend(g, nals[..0]) == g by { assert g.done + [] == g.done; }
    for k := 0 to |nals|
      invariant frames.Valid() && whole && Caught(frames, asm, Extend(g, nals[..k]))
    {
      PushStep(g, nals, k);
      var au := asm.PushNal(nals[k]);
      if au.Some? {
        whole := frames.Send(au.value);
        if !whole {
          CutShort(Units(Extend(g, nals[..k + 1]).done), Units(Extend(g, nals).done), frames.room);
          return;
        }
      }
    }
    assert nals[..|nals|] == nals;
  }

  /** The loop itself: all units of the stream go out, with their times, unless the context ends first. */
  method EncodeLoop(chunks: seq<bytes>, frames: FramesOut) returns (buf: bytes, asm: AuAssembler, whole: bool)
    requires frames.Valid() && frames.emitted == []
    modifies frames, frames.timer
    ensures frames.durations == Clocks.Ticks(frames.timer.nominal, None, Instants(frames.clock, |frames.emitted|))
    ensures frames.emitted == Prefix(Units(ReadAll(chunks).grouped.done), frames.room)
    ensures whole <==> |Units(ReadAll(chunks).grouped.done)| <= frames.room
    ensures whole ==> buf == ReadAll(chunks).rest && asm.View() == ReadAll(chunks).grouped.forming
  {
    asm := new AuAssembler();
    buf, whole := [], true;
    for c := 0 to |chunks|
      invariant fresh(asm) && frames.Valid() && whole
      invariant Caught(frames, asm, ReadAll(chunks[..c]).grouped) && buf == ReadAll(chunks[..c]).rest
    {
      ghost var p := ReadAll(chunks[..c]);
      ReadNext(chunks, c);
      var nals;
      nals, buf := SplitNALUnits(buf + chunks[c]);
      whole := PushAll(nals, asm, frames, p.grouped);
      if !whole {
        CutShort(Units(ReadAll(chunks[..c + 1]).grouped.done), Units(ReadAll(chunks).grouped.done), frames.room);
        return;
      }
    }
    assert chunks[..|chunks|] == chunks;
  }

  lemma CutShort(some: seq<bytes>, all: seq<bytes>, room: nat)
    requires some <= all && room < |some|
    ensures Prefix(some, room) == Prefix(all, room) && room < |all|
  {
  }

  lemma ReadNext(chunks: seq<bytes>, c: nat)
    requires c < |chunks|
    ensures ReadAll(chunks[..c + 1]) == Read(ReadAll(chunks[..c]), chunks[c])
    ensures Units(ReadAll(chunks[..c + 1]).grouped.done) <= Units(ReadAll(chunks).grouped.done)
  {
    assert chunks[..c + 1][..c] == chunks[..c];
    ReadAllGrows(chunks, c + 1);
  }

  lemma PushStep(g: Grouped, nals: seq<bytes>, k: nat)
    requires k < |nals|
    ensures var before := Extend(g, nals[..k]);
            var after := Extend(g, nals[..k + 1]);
            var (done, f') := Push(before.forming, nals[k]);
            && after.forming == f'
            && Units(after.done) == Units(before.done) + if done.Some? then [Flatten(done.value)] else []
    ensures Units(Extend(g, nals[..k + 1]).done) <= Units(Extend(g, nals).done)
  {
    assert nals[..k + 1] == nals[..k] + [nals[k]];
    ExtendSnoc(g, nals[..k], nals[k]);
    assert nals == nals[..k + 1] + nals[k + 1..];
    ExtendAppend(g, nals[..k + 1], nals[k + 1..]);
    UnitsGrow(Extend(g, nals[..k + 1]), nals[k + 1..]);
  }

  /** What has come out, and what is forming, is what these groups say. */
  ghost predicate Caught(frames: FramesOut, asm: AuAssembler, g: Grouped)
    reads frames, asm
  {
    frames.emitted == Units(g.done) && asm.View() == g.forming
  }

  lemma TimedSnoc(nominal: int, clock: nat -> int, n: nat)
    ensures Clocks.Ticks(nominal, None, Instants(clock, n + 1))
            == Clocks.Ticks(nominal, None, Instants(clock, n))
               + [Clocks.Tick(nominal, if n == 0 then None else Some(clock(n - 1)), clock(n))]
  {
    assert Instants(clock, n + 1) == Instants(clock, n) + [clock(n)];
    Clocks.TicksSnoc(nominal, None, Instants(clock, n), clock(n));
  }

  /** Units come out for good: those of part of a stream are the first of those of all of it. */
  lemma {:induction false} ReadAllGrows(chunks: seq<bytes>, c: nat)
    requires c <= |chunks|
    ensures Units(ReadAll(chunks[..c]).grouped.done) <= Units(ReadAll(chunks).grouped.done)
    decreases |chunks|
  {
    if c == |chunks| {
      assert chunks[..c] == chunks;
    } else {
      var n := |chunks| - 1;
      assert chunks[..n][..c] == chunks[..c];
      ReadAllGrows(chunks[..n], c);
      var p := ReadAll(chunks[..n]);
      UnitsGrow(p.grouped, Split(p.rest + chunks[n]).nals);
    }
  }

  lemma UnitsGrow(g: Grouped, nals: seq<bytes>)
    ensures Units(g.done) <= Units(Extend(g, nals).done)
  {
    UnitsConcat(g.done, Group(g.forming, nals).done);
  }

  lemma {:induction false} UnitsConcat(a: seq<seq<bytes>>, b: seq<seq<bytes>>)
    ensures Units(a + b) == Units(a) + Units(b)
  {
    if a == [] {
      assert a + b == b;
    } else {
      assert (a + b)[1..] == a[1..] + b;
      UnitsConcat(a[1..], b);
    }
  }

  lemma {:induction false} GroupAppend(f: Forming, a: seq<bytes>, b: seq<bytes>)
    ensures var first := Group(f, a);
            var second := Group(first.forming, b);
            Group(f, a + b) == Grouped(first.done + second.done, second.forming)
    decreases |a|
  {
    if a == [] {
      assert a + b == b;
    } else {
      assert (a + b)[1..] == a[1..] + b;
      var (done, f') := Push(f, a[0]);
      GroupAppend(f', a[1..], b);
      var d := if done.Some? then [done.value] else [];
      var first := Group(f', a[1..]);
      assert d + (first.done + Group(first.forming, b).done) == (d + first.done) + Group(first.forming, b).done;
    }
  }

  lemma ExtendAppend(g: Grouped, a: seq<bytes>, b: seq<bytes>)
    ensures Extend(Extend(g, a), b) == Extend(g, a + b)
  {
    GroupAppend(g.forming, a, b);
    var first := Group(g.forming, a);
    var second := Group(first.forming, b);
    assert g.done + (first.done + second.done) == (g.done + first.done) + second.done;
  }

  lemma PushOne(f: Forming, nal: bytes)
    ensures var (done, f') := Push(f, nal);
            Group(f, [nal]) == Grouped(if done.Some? then [done.value] else [], f')
  {
    assert [nal][1..] == [];
    var (done, f') := Push(f, nal);
    assert Group(f', []) == Grouped([], f');
    assert (if done.Some? then [done.value] else []) + [] == if done.Some? then [done.value] else [];
  }

  lemma GroupSnoc(f: Forming, nals: seq<bytes>, nal: bytes)
    ensures var g := Group(f, nals);
            var (done, f') := Push(g.forming, nal);
            Group(f, nals + [nal]) == Grouped(g.done + (if done.Some? then [done.value] else []), f')
  {
    GroupAppend(f, nals, [nal]);
    PushOne(Group(f, nals).forming, nal);
  }

  /** One more push, as the loop sees it: at most one more access unit. */
  lemma ExtendSnoc(g: Grouped, nals: seq<bytes>, nal: bytes)
    ensures var before := Extend(g, nals);
            var after := Extend(g, nals + [nal]);
            var (done, f') := Push(before.forming, nal);
            && after.forming == f'
            && Units(after.done) == Units(before.done) + if done.Some? then [Flatten(done.value)] else []
  {
    ExtendAppend(g, nals, [nal]);
    var before := Extend(g, nals);
    PushOne(before.forming, nal);
    var (done, f') := Push(before.forming, nal);
    if done.Some? {
      UnitsSnoc(before.done, done.value);
    } else {
      assert before.done + [] == before.done;
    }
  }

  lemma {:induction false} UnitsSnoc(groups: seq<seq<bytes>>, g: seq<bytes>)
    ensures Units(groups + [g]) == Units(groups) + [Flatten(g)]
  {
    if groups != [] {
      UnitsSnoc(groups[1..], g);
      assert (groups + [g])[1..] == groups[1..] + [g];
    }
  }

  // ---- chunk independence ----

  /** One read after another is one read of both. */
  lemma ReadJoins(p: Progress, a: bytes, b: bytes)
    ensures Read(Read(p, a), b) == Read(p, a + b)
  {
    var cut := Split(p.rest + a);
    SplitAppend(p.rest + a, b);
    assert (p.rest + a) + b == p.rest + (a + b);
    ExtendAppend(p.grouped, cut.nals, Split(cut.rest + b).nals);
  }

  lemma ReadNothing()
    ensures Read(START, []) == START
  {
    assert START.rest + [] == [];
    assert Split([]) == Cut([], []);
  }

  /** However the stream is cut into reads, the loop ends up where one read of it all does. */
  lemma {:induction false} ChunkIndependence(chunks: seq<bytes>)
    ensures ReadAll(chunks) == Read(START, Flatten(chunks))
    decreases |chunks|
  {
    if chunks == [] {
      ReadNothing();
    } else {
      var before, last := chunks[..|chunks| - 1], chunks[|chunks| - 1];
      ChunkIndependence(before);
      assert chunks == before + [last];
      FlattenSnoc(before, last);
      ReadJoins(START, Flatten(before), last);
    }
  }

  // ---- what the access units are ----

  /** No unit after a slice opens a new access unit. */
  ghost predicate Unbroken(group: seq<bytes>) {
    forall i, j :: 0 <= i < j < |group| && Slice(group[i]) ==> !Opens(group[j])
  }

  ghost predicate HasSlice(group: seq<bytes>) {
    exists i :: 0 <= i < |group| && Slice(group[i])
  }

  /** A forming unit knows whether it holds a slice. */
  ghost predicate Sound(f: Forming) {
    Unbroken(f.cur) && (f.hasVCL <==> HasSlice(f.cur))
  }

  /** Every group from the second on, the forming one included, begins where an access unit does. */
  ghost predicate CutsOpen(g: Grouped) {
    && (forall k :: 0 < k < |g.done| ==> g.done[k] != [] && Opens(g.done[k][0]))
    && (g.done != [] ==> g.forming.cur != [] && Opens(g.forming.cur[0]))
  }

  ghost predicate GroupsSound(g: Grouped) {
    Sound(g.forming) && forall k :: 0 <= k < |g.done| ==> HasSlice(g.done[k]) && Unbroken(g.done[k])
  }

  /** What the groups must be: nothing lost, a slice in every finished group, none broken where an
      access unit starts, and each cut just before one starts. */
  ghost predicate IsGrouping(nals: seq<bytes>, g: Grouped) {
    Flatten(g.done) + g.forming.cur == nals && GroupsSound(g) && CutsOpen(g)
  }

  lemma SoundPush(f: Forming, nal: bytes)
    requires Sound(f)
    ensures Sound(Push(f, nal).1)
  {
    var f' := Push(f, nal).1;
    if f'.cur == f.cur + [nal] {
      assert f'.cur[|f.cur|] == nal;
      if f.hasVCL {
        var i :| 0 <= i < |f.cur| && Slice(f.cur[i]);
        assert f'.cur[i] == f.cur[i];
      }
    } else {
      assert f'.cur[0] == nal;
    }
  }

  /** What g says of its units: nothing of cur and nals is lost, and cur leads the first group. */
  ghost predicate KeepsUnits(g: Grouped, cur: seq<bytes>, nals: seq<bytes>) {
    && Flatten(g.done) + g.forming.cur == cur + nals
    && cur <= if g.done == [] then g.forming.cur else g.done[0]
  }

  lemma ClosedKeepsUnits(cur: seq<bytes>, nal: bytes, nals: seq<bytes>, rest: Grouped)
    requires KeepsUnits(rest, [nal], nals)
    ensures KeepsUnits(Grouped([cur] + rest.done, rest.forming), cur, [nal] + nals)
  {
    var g := Grouped([cur] + rest.done, rest.forming);
    assert g.done[1..] == rest.done;
    assert (cur + Flatten(rest.done)) + rest.forming.cur == cur + (Flatten(rest.done) + rest.forming.cur);
  }

  lemma OpenKeepsUnits(cur: seq<bytes>, nal: bytes, nals: seq<bytes>, rest: Grouped)
    requires KeepsUnits(rest, cur + [nal], nals)
    ensures KeepsUnits(rest, cur, [nal] + nals)
  {
    assert (cur + [nal]) + nals == cur + ([nal] + nals);
  }

  lemma {:induction false} GroupKeepsUnits(f: Forming, nals: seq<bytes>)
    ensures KeepsUnits(Group(f, nals), f.cur, nals)
    decreases |nals|
  {
    if nals != [] {
      var (done, f') := Push(f, nals[0]);
      GroupKeepsUnits(f', nals[1..]);
      var rest := Group(f', nals[1..]);
      assert [nals[0]] + nals[1..] == nals;
      if done.Some? {
        ClosedKeepsUnits(f.cur, nals[0], nals[1..], rest);
      } else {
        assert [] + rest.done == rest.done;
        OpenKeepsUnits(f.cur, nals[0], nals[1..], rest);
      }
    }
  }

  /** One more group in front. */
  lemma SoundCut(group: seq<bytes>, rest: Grouped)
    requires Unbroken(group) && HasSlice(group) && GroupsSound(rest) && CutsOpen(rest)
    requires var next := if rest.done == [] then rest.forming.cur else rest.done[0];
             next != [] && Opens(next[0])
    ensures var g := Grouped([group] + rest.done, rest.forming);
            GroupsSound(g) && CutsOpen(g)
  {
    var g := Grouped([group] + rest.done, rest.forming);
    forall k | 0 < k < |g.done| ensures g.done[k] != [] && Opens(g.done[k][0]) {
      assert g.done[k] == rest.done[k - 1];
    }
    forall k | 0 <= k < |g.done| ensures HasSlice(g.done[k]) && Unbroken(g.done[k]) {
      if k > 0 { assert g.done[k] == rest.done[k - 1]; }
    }
  }

  lemma {:induction false} GroupSound(f: Forming, nals: seq<bytes>)
    requires Sound(f)
    ensures GroupsSound(Group(f, nals)) && CutsOpen(Group(f, nals))
    decreases |nals|
  {
    if nals != [] {
      var (done, f') := Push(f, nals[0]);
      SoundPush(f, nals[0]);
      GroupSound(f', nals[1..]);
      var rest := Group(f', nals[1..]);
      if done.Some? {
        GroupKeepsUnits(f', nals[1..]);
        assert (if rest.done == [] then rest.forming.cur else rest.done[0])[0] == f'.cur[0] == nals[0];
        SoundCut(f.cur, rest);
      } else {
        assert [] + rest.done == rest.done;
      }
    }
  }

  /** The assembler's cuts satisfy the description. */
  lemma GroupIsGrouping(nals: seq<bytes>)
    ensures IsGrouping(nals, Group(EMPTY, nals))
  {
    GroupSound(EMPTY, nals);
    GroupKeepsUnits(EMPTY, nals);
    assert EMPTY.cur + nals == nals;
  }

  lemma UnbrokenPrefix(group: seq<bytes>, nal: bytes)
    requires Unbroken(group + [nal])
    ensures Unbroken(group) && (HasSlice(group) ==> !Opens(nal))
    ensures HasSlice(group + [nal]) <==> HasSlice(group) || Slice(nal)
  {
    var all := group + [nal];
    assert all[|group|] == nal;
    forall i, j | 0 <= i < j < |group| && Slice(group[i]) ensures !Opens(group[j]) {
      assert all[i] == group[i] && all[j] == group[j];
    }
    if HasSlice(group) {
      var i :| 0 <= i < |group| && Slice(group[i]);
      assert all[i] == group[i];
    }
  }

  /** An unbroken run of units is never cut. */
  lemma {:induction false} UnbrokenStays(nals: seq<bytes>)
    requires Unbroken(nals)
    ensures Group(EMPTY, nals) == Grouped([], Forming(nals, HasSlice(nals)))
    decreases |nals|
  {
    if nals != [] {
      var before, last := nals[..|nals| - 1], nals[|nals| - 1];
      assert nals == before + [last];
      UnbrokenPrefix(before, last);
      UnbrokenStays(before);
      GroupSnoc(EMPTY, before, last);
    }
  }

  /** A unit that opens an access unit closes a group that holds a slice. */
  lemma OpeningCloses(group: seq<bytes>, nals: seq<bytes>)
    requires nals != [] && Opens(nals[0])
    ensures var rest := Group(EMPTY, nals);
            Group(Forming(group, true), nals) == Grouped([group] + rest.done, rest.forming)
  {
    assert Push(Forming(group, true), nals[0]) == (Some(group), Forming([nals[0]], Slice(nals[0])));
    assert [] + [nals[0]] == [nals[0]];
    assert Push(EMPTY, nals[0]) == (None, Forming([nals[0]], Slice(nals[0])));
    var rest := Group(Forming([nals[0]], Slice(nals[0])), nals[1..]);
    assert [] + rest.done == rest.done;
  }

  /** And they are the only cuts that do: the description determines the assembler's output. */
  lemma {:induction false} GroupingIsGroup(nals: seq<bytes>, g: Grouped)
    requires IsGrouping(nals, g)
    ensures Group(EMPTY, nals) == g
    decreases |g.done|
  {
    if g.done == [] {
      assert nals == g.forming.cur;
      UnbrokenStays(nals);
    } else {
      var first := g.done[0];
      var tail := Grouped(g.done[1..], g.forming);
      var rest := Flatten(tail.done) + tail.forming.cur;
      assert (first + Flatten(tail.done)) + g.forming.cur == first + rest;
      assert rest[0] == if tail.done == [] then tail.forming.cur[0] else tail.done[0][0];
      forall k | 0 <= k < |tail.done| ensures tail.done[k] == g.done[k + 1] {}
      GroupingIsGroup(rest, tail);
      UnbrokenStays(first);
      GroupAppend(EMPTY, first, rest);
      OpeningCloses(first, rest);
      assert g.done == [first] + tail.done;
      assert [] + g.done == g.done;
    }
  }

  // ---- the whole loop ----

  lemma {:induction false} UnitsKeepBytes(groups: seq<seq<bytes>>)
    ensures Flatten(Units(groups)) == Flatten(Flatten(groups))
  {
    if groups != [] {
      UnitsKeepBytes(groups[1..]);
      FlattenConcat(groups[0], Flatten(groups[1..]));
    }
  }

  /** The loop's groups are those of the whole stream's units. */
  lemma WholeStream(chunks: seq<bytes>)
    ensures ReadAll(chunks) == Progress(Group(EMPTY, Split(Flatten(chunks)).nals), Split(Flatten(chunks)).rest)
  {
    ChunkIndependence(chunks);
    var all := Flatten(chunks);
    assert START.rest + all == all;
    var g := Group(EMPTY, Split(all).nals);
    assert START.grouped.done + g.done == g.done;
  }

  /** Nothing is lost or reordered: the access units, then the forming one, then what the splitter
      carries, are the bytes read. */
  lemma EncodeLossless(chunks: seq<bytes>)
    ensures var p := ReadAll(chunks);
            Flatten(Units(p.grouped.done)) + Flatten(p.grouped.forming.cur) + p.rest == Flatten(chunks)
  {
    WholeStream(chunks);
    var cut := Split(Flatten(chunks));
    SplitIsCut(Flatten(chunks));
    GroupIsGrouping(cut.nals);
    var g := Group(EMPTY, cut.nals);
    assert Flatten(g.done) + g.forming.cur == cut.nals;
    FlattenConcat(Flatten(g.done), g.forming.cur);
    UnitsKeepBytes(g.done);
  }

  /** In an unbroken group only the first slice may start a picture, and nothing that opens an access
      unit follows it. */
  lemma UnbrokenIsOnePicture(group: seq<bytes>, i: nat, j: nat)
    requires Unbroken(group) && i < j < |group| && Slice(group[i])
    ensures !(6 <= NalType(group[j]) <= 9) && (Slice(group[j]) ==> !VclStartsPicture(group[j]))
  {
    assert !Opens(group[j]);
  }

  /** Every emitted access unit holds a slice, at most its first slice starts a picture, and no
      parameter set, SEI or delimiter follows a slice in it. */
  lemma UnitsWellFormed(chunks: seq<bytes>, k: nat)
    requires k < |ReadAll(chunks).grouped.done|
    ensures var group := ReadAll(chunks).grouped.done[k];
            && HasSlice(group)
            && (forall i, j :: 0 <= i < j < |group| && Slice(group[i]) && Slice(group[j]) ==>
                  !VclStartsPicture(group[j]))
            && (forall i, j :: 0 <= i < j < |group| && Slice(group[i]) ==> !(6 <= NalType(group[j]) <= 9))
  {
    WholeStream(chunks);
    GroupIsGrouping(Split(Flatten(chunks)).nals);
    var group := ReadAll(chunks).grouped.done[k];
    forall i, j | 0 <= i < j < |group| && Slice(group[i])
      ensures !(6 <= NalType(group[j]) <= 9) && (Slice(group[j]) ==> !VclStartsPicture(group[j]))
    {
      UnbrokenIsOnePicture(group, i, j);
    }
  }

  ghost predicate SliceUnit(nal: bytes) {
    exists t, payload :: IsUnitOf(nal, t, payload) && 1 <= t <= 5
  }

  ghost predicate BeginsUnit(nal: bytes) {
    exists t, payload :: IsUnitOf(nal, t, payload) && Begins(t, payload)
  }

  lemma {:induction false} MeansByHeader(nal: bytes)
    ensures (Slice(nal) <==> SliceUnit(nal)) && (Opens(nal) <==> BeginsUnit(nal))
  {
    forall t, payload | IsUnitOf(nal, t, payload)
      ensures (Slice(nal) <==> 1 <= t <= 5) && (Opens(nal) <==> Begins(t, payload))
    {
      UnitByHeader(nal, t, payload);
    }
    HeaderOfUnit(nal);
  }

  /** By the units' own headers: an emitted access unit holds a slice; after its first slice nothing begins
      an access unit; and every access unit but the first starts with a unit that begins one. */
  lemma {:induction false} CutsByHeader(chunks: seq<bytes>, k: nat)
    ensures k < |ReadAll(chunks).grouped.done| ==>
              var group := ReadAll(chunks).grouped.done[k];
              && (exists i :: 0 <= i < |group| && SliceUnit(group[i]))
              && (forall i, j :: 0 <= i < j < |group| && SliceUnit(group[i]) ==> !BeginsUnit(group[j]))
              && (k > 0 ==> group != [] && BeginsUnit(group[0]))
  {
    if k < |ReadAll(chunks).grouped.done| {
      WholeStream(chunks);
      GroupIsGrouping(Split(Flatten(chunks)).nals);
      var group := ReadAll(chunks).grouped.done[k];
      forall i | 0 <= i < |group|
        ensures (Slice(group[i]) <==> SliceUnit(group[i])) && (Opens(group[i]) <==> BeginsUnit(group[i]))
      {
        MeansByHeader(group[i]);
      }
      assert HasSlice(group) && Unbroken(group);
    }
  }
}
