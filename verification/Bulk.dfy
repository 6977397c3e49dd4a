/** Chunked transfers on the bulk channel (internal/server/bulk.go) and the receiver they are for. */
module Bulk {
  import opened Base

  const BULK_FRAME_MAX: nat := 1024

  datatype Frame = Header(typ: string, size: nat) | Chunk(data: bytes) | Lifecycle(text: string)

  /** The chunk size for one transfer; `negotiated` is the peer's cap, None when nothing reports it. */
  function ChunkSize(negotiated: Option<int>): nat {
    if negotiated.Some? && 0 < negotiated.value < BULK_FRAME_MAX then negotiated.value else BULK_FRAME_MAX
  }

  lemma ChunkSizeFits(negotiated: Option<int>)
    ensures 0 < ChunkSize(negotiated) <= 1024
    ensures negotiated.Some? && 0 < negotiated.value ==> ChunkSize(negotiated) <= negotiated.value
    ensures ChunkSize(negotiated) == 1024 || negotiated == Some(ChunkSize(negotiated))
  {
  }

  /** The length of the next chunk. */
  function Head(payload: bytes, size: nat): (n: nat)
    ensures n <= |payload|
  {
    if |payload| <= size then |payload| else size
  }

  function Chunks(payload: bytes, size: nat): seq<bytes>
    requires size > 0
    decreases |payload|
  {
    if payload == [] then []
    else [payload[..Head(payload, size)]] + Chunks(payload[Head(payload, size)..], size)
  }

  function ChunkFrames(chunks: seq<bytes>): seq<Frame> {
    if chunks == [] then [] else [Chunk(chunks[0])] + ChunkFrames(chunks[1..])
  }

  function Transfer(typ: string, payload: bytes, size: nat): seq<Frame>
    requires size > 0
  {
    [Header(typ, |payload|)] + ChunkFrames(Chunks(payload, size))
  }

  /** A channel that takes `room` more frames and then fails every send. */
  class Channel {
    var sent: seq<Frame>
    var room: nat

    constructor (room: nat)
      ensures sent == [] && this.room == room
    {
      sent, this.room := [], room;
    }

    method Send(f: Frame) returns (ok: bool)
      modifies this
      ensures ok == (old(room) > 0)
      ensures ok ==> sent == old(sent) + [f] && room == old(room) - 1
      ensures !ok ==> sent == old(sent) && room == old(room)
    {
      ok := room > 0;
      if ok {
        sent, room := sent + [f], room - 1;
      }
    }

    /** All of the transfer goes out, or as much of it as the channel takes before it fails. */
    method SendChunked(typ: string, payload: bytes, negotiated: Option<int>) returns (ok: bool)
      modifies this
      ensures var all := Transfer(typ, payload, ChunkSize(negotiated));
              && ok == (old(room) >= |all|)
              && sent == old(sent) + all[..if ok then |all| else old(room)]
    {
      var size := BULK_FRAME_MAX;
      if negotiated.Some? && negotiated.value > 0 && negotiated.value < size {
        size := negotiated.value;
      }
      ghost var all := Transfer(typ, payload, size);
      ghost var before, space := sent, room;
      ok := Send(Header(typ, |payload|));
      if !ok {
        return;
      }
      var offset := 0;
      ghost var out := [Header(typ, |payload|)];
      ghost var reached := 0;
      assert payload[0..] == payload;
      while offset < |payload|
        invariant reached == if offset < |payload| then offset else |payload|
        invariant room == space - |out| && sent == before + out && ok
        invariant all == out + ChunkFrames(Chunks(payload[reached..], size))
      {
        var end := if offset + size < |payload| then offset + size else |payload|;
        SendStep(payload, offset, end, size, out, all);
        ok := Send(Chunk(payload[offset..end]));
        if !ok {
          return;
        }
        out := out + [Chunk(payload[offset..end])];
        offset, reached := offset + size, end;
      }
    }
  }

  /** What has gone out and what is left, before and after one more chunk. */
  lemma SendStep(payload: bytes, offset: nat, end: nat, size: nat, out: seq<Frame>, all: seq<Frame>)
    requires size > 0 && offset < |payload| && end == (if offset + size < |payload| then offset + size else |payload|)
    requires all == out + ChunkFrames(Chunks(payload[offset..], size))
    ensures all == (out + [Chunk(payload[offset..end])]) + ChunkFrames(Chunks(payload[end..], size))
    ensures all[..|out|] == out && |out| < |all|
  {
    var left := payload[offset..];
    ChunkStep(left, size);
    var n := Head(left, size);
    assert left[..n] == payload[offset..end] && left[n..] == payload[end..];
  }

  /** The first chunk of what is left, and the rest. */
  lemma ChunkStep(left: bytes, size: nat)
    requires size > 0 && left != []
    ensures var n := Head(left, size);
            ChunkFrames(Chunks(left, size)) == [Chunk(left[..n])] + ChunkFrames(Chunks(left[n..], size))
  {
    var chunks := Chunks(left, size);
    assert chunks[1..] == Chunks(left[Head(left, size)..], size);
  }

  // ---- chunks ----

  lemma {:induction false} ChunksFit(payload: bytes, size: nat)
    requires size > 0
    ensures Flatten(Chunks(payload, size)) == payload
    ensures forall k :: 0 <= k < |Chunks(payload, size)| ==> 0 < |Chunks(payload, size)[k]| <= size
    ensures forall k :: 0 <= k < |Chunks(payload, size)| - 1 ==> |Chunks(payload, size)[k]| == size
    decreases |payload|
  {
    if payload != [] {
      var n := Head(payload, size);
      ChunksFit(payload[n..], size);
      assert payload[..n] + payload[n..] == payload;
    }
  }

  // ---- the receiver ----

  /** Counts binary bytes against the last header; text that is not a header is someone else's. */
  datatype Receiver = Receiver(typ: string, missing: nat, got: bytes, done: seq<(string, bytes)>)

  const IDLE := Receiver("", 0, [], [])

  function Receive(r: Receiver, f: Frame): Receiver {
    match f
    case Header(typ, size) =>
      if size == 0 then Receiver(typ, 0, [], r.done + [(typ, [])]) else Receiver(typ, size, [], r.done)
    case Chunk(data) =>
      if r.missing == 0 then r
      else if |data| < r.missing then r.(missing := r.missing - |data|, got := r.got + data)
      else Receiver(r.typ, 0, [], r.done + [(r.typ, r.got + data)])
    case Lifecycle(_) => r
  }

  function ReceiveAll(r: Receiver, frames: seq<Frame>): Receiver
    decreases |frames|
  {
    if frames == [] then r else ReceiveAll(Receive(r, frames[0]), frames[1..])
  }

  /** The frames that belong to transfers. */
  function Transfers(frames: seq<Frame>): seq<Frame>
    decreases |frames|
  {
    if frames == [] then []
    else (if frames[0].Lifecycle? then [] else [frames[0]]) + Transfers(frames[1..])
  }

  lemma {:induction false} LifecycleIsInvisible(r: Receiver, frames: seq<Frame>)
    ensures ReceiveAll(r, frames) == ReceiveAll(r, Transfers(frames))
    decreases |frames|
  {
    if frames != [] {
      LifecycleIsInvisible(Receive(r, frames[0]), frames[1..]);
      if !frames[0].Lifecycle? {
        var t := Transfers(frames);
        assert t[0] == frames[0] && t[1..] == Transfers(frames[1..]);
      } else {
        assert Transfers(frames) == Transfers(frames[1..]);
      }
    }
  }

  lemma {:induction false} ReceiveConcat(r: Receiver, a: seq<Frame>, b: seq<Frame>)
    ensures ReceiveAll(r, a + b) == ReceiveAll(ReceiveAll(r, a), b)
    decreases |a|
  {
    if a == [] {
      assert a + b == b;
    } else {
      assert (a + b)[1..] == a[1..] + b;
      ReceiveConcat(Receive(r, a[0]), a[1..], b);
    }
  }

  lemma {:induction false} ReceiveChunks(r: Receiver, payload: bytes, size: nat)
    requires size > 0 && payload != [] && r.missing == |payload|
    ensures ReceiveAll(r, ChunkFrames(Chunks(payload, size)))
            == Receiver(r.typ, 0, [], r.done + [(r.typ, r.got + payload)])
    decreases |payload|
  {
    ChunkStep(payload, size);
    var n := Head(payload, size);
    var head, tail := payload[..n], payload[n..];
    var frames := ChunkFrames(Chunks(payload, size));
    assert frames[0] == Chunk(head) && frames[1..] == ChunkFrames(Chunks(tail, size));
    assert (r.got + head) + tail == r.got + payload;
    if tail == [] {
      assert head == payload && ChunkFrames(Chunks(tail, size)) == [];
    } else {
      ReceiveChunks(Receive(r, Chunk(head)), tail, size);
    }
  }

  lemma ReceiveTransfer(r: Receiver, typ: string, payload: bytes, size: nat)
    requires size > 0
    ensures ReceiveAll(r, Transfer(typ, payload, size)) == Receiver(typ, 0, [], r.done + [(typ, payload)])
  {
    var frames := Transfer(typ, payload, size);
    assert frames[1..] == ChunkFrames(Chunks(payload, size));
    if payload != [] {
      ReceiveChunks(Receiver(typ, |payload|, [], r.done), payload, size);
      assert [] + payload == payload;
    }
  }

  /** One transfer as it was asked for. */
  datatype Job = Job(typ: string, payload: bytes, negotiated: Option<int>)

  function AllFrames(jobs: seq<Job>): seq<Frame> {
    if jobs == [] then []
    else AllFrames(jobs[..|jobs| - 1])
         + Transfer(jobs[|jobs| - 1].typ, jobs[|jobs| - 1].payload, ChunkSize(jobs[|jobs| - 1].negotiated))
  }

  function Payloads(jobs: seq<Job>): seq<(string, bytes)> {
    seq(|jobs|, k requires 0 <= k < |jobs| => (jobs[k].typ, jobs[k].payload))
  }

  lemma {:induction false} ReceiveJobs(jobs: seq<Job>)
    ensures ReceiveAll(IDLE, AllFrames(jobs)).done == Payloads(jobs)
    ensures ReceiveAll(IDLE, AllFrames(jobs)).missing == 0
    decreases |jobs|
  {
    if jobs != [] {
      var before, last := jobs[..|jobs| - 1], jobs[|jobs| - 1];
      ReceiveJobs(before);
      ReceiveConcat(IDLE, AllFrames(before), Transfer(last.typ, last.payload, ChunkSize(last.negotiated)));
      ReceiveTransfer(ReceiveAll(IDLE, AllFrames(before)), last.typ, last.payload, ChunkSize(last.negotiated));
      assert Payloads(jobs) == Payloads(before) + [(last.typ, last.payload)];
    }
  }

  /** Where one job's frames lie among those of all. */
  lemma {:induction false} JobFrames(jobs: seq<Job>, k: nat)
    requires k < |jobs|
    ensures AllFrames(jobs[..k + 1])
            == AllFrames(jobs[..k]) + Transfer(jobs[k].typ, jobs[k].payload, ChunkSize(jobs[k].negotiated))
    ensures AllFrames(jobs[..k + 1]) <= AllFrames(jobs)
    decreases |jobs|
  {
    var n := |jobs| - 1;
    assert jobs[..k + 1][..k] == jobs[..k];
    if k == n {
      assert jobs[..k + 1] == jobs;
    } else {
      JobFrames(jobs[..n], k);
      assert jobs[..n][..k + 1] == jobs[..k + 1] && jobs[..n][..k] == jobs[..k];
    }
  }

  /** A chunk's data fits one packet and what the peer negotiated. */
  predicate Fits(f: Frame, negotiated: Option<int>) {
    f.Chunk? ==>
      && 0 < |f.data| <= 1024
      && (negotiated.Some? && negotiated.value > 0 ==> |f.data| <= negotiated.value)
  }

  lemma TransferFits(job: Job)
    ensures forall f :: f in Transfer(job.typ, job.payload, ChunkSize(job.negotiated)) ==> Fits(f, job.negotiated)
  {
    var chunks := Chunks(job.payload, ChunkSize(job.negotiated));
    ChunksFit(job.payload, ChunkSize(job.negotiated));
    ChunkSizeFits(job.negotiated);
    WrappedFit(chunks, ChunkSize(job.negotiated));
  }

  /** The k-th job's frames are all there, and each of its chunks fits. */
  ghost predicate JobFits(jobs: seq<Job>, frames: seq<Frame>, k: nat)
    requires k < |jobs|
  {
    var first, end := |AllFrames(jobs[..k])|, |AllFrames(jobs[..k + 1])|;
    && first < end <= |frames|
    && frames[first..end] == Transfer(jobs[k].typ, jobs[k].payload, ChunkSize(jobs[k].negotiated))
    && forall f :: f in frames[first..end] ==> Fits(f, jobs[k].negotiated)
  }

  /** Round trip: a sequence of transfers of any payloads and negotiated sizes, with lifecycle text
      frames anywhere among and inside them, is received as exactly those payloads in order; and every
      chunk of each fits one packet and the size negotiated for that transfer. */
  lemma {:induction false} TransfersRoundTrip(jobs: seq<Job>, frames: seq<Frame>)
    requires Transfers(frames) == AllFrames(jobs)
    ensures ReceiveAll(IDLE, frames).done == Payloads(jobs)
    ensures forall k :: 0 <= k < |jobs| ==> JobFits(jobs, Transfers(frames), k)
  {
    LifecycleIsInvisible(IDLE, frames);
    ReceiveJobs(jobs);
    forall k | 0 <= k < |jobs| ensures JobFits(jobs, Transfers(frames), k) {
      JobFrames(jobs, k);
      TransferFits(jobs[k]);
      var from, to := |AllFrames(jobs[..k])|, |AllFrames(jobs[..k + 1])|;
      assert AllFrames(jobs)[..to] == AllFrames(jobs[..k + 1]);
      assert AllFrames(jobs)[from..to] == AllFrames(jobs)[..to][from..];
      assert AllFrames(jobs)[from..to] == Transfer(jobs[k].typ, jobs[k].payload, ChunkSize(jobs[k].negotiated));
    }
  }

  lemma {:induction false} WrappedFit(chunks: seq<bytes>, size: nat)
    requires forall k :: 0 <= k < |chunks| ==> 0 < |chunks[k]| <= size
    ensures forall f :: f in ChunkFrames(chunks) ==> f.Chunk? && 0 < |f.data| <= size
  {
    if chunks != [] {
      WrappedFit(chunks[1..], size);
    }
  }
}
