/** Remote ICE candidates in one peer session (internal/rtc/peer.go): buffered until the remote
    description is in, then handed over. */
module RtcSession {
  import opened Base

  const MAX_PENDING: nat := 64

  /** What the peer connection is asked to do, in order. */
  datatype Call = Describe(sdp: string) | Apply(candidate: string)

  datatype Session = Session(remoteSet: bool, pending: seq<string>, calls: seq<Call>)

  const FRESH := Session(false, [], [])

  function Applied(candidates: seq<string>): seq<Call> {
    seq(|candidates|, i requires 0 <= i < |candidates| => Apply(candidates[i]))
  }

  function Add(s: Session, candidate: string): Session {
    if s.remoteSet then s.(calls := s.calls + [Apply(candidate)])
    else if |s.pending| < MAX_PENDING then s.(pending := s.pending + [candidate])
    else s
  }

  function AddAll(s: Session, candidates: seq<string>): Session {
    if candidates == [] then s
    else Add(AddAll(s, candidates[..|candidates| - 1]), candidates[|candidates| - 1])
  }

  /** The effect of an answer; a rejected offer changes nothing. */
  function Answered(s: Session, sdp: string, described: bool): Session {
    if !described then s
    else Session(true, [], s.calls + [Describe(sdp)] + Applied(s.pending))
  }

  class Peer {
    var remoteSet: bool
    var pending: seq<string>
    var calls: seq<Call>
    var closed: bool

    ghost function View(): Session
      reads this
    {
      Session(remoteSet, pending, calls)
    }

    constructor ()
      ensures View() == FRESH && !closed
    {
      remoteSet, pending, calls, closed := false, [], [], false;
    }

    method Close()
      modifies this`closed
      ensures closed
    {
      closed := true;
    }

    method AddCandidate(candidate: string)
      modifies this`pending, this`calls
      ensures View() == Add(old(View()), candidate)
    {
      if !remoteSet {
        if |pending| < MAX_PENDING {
          pending := pending + [candidate];
        }
        return;
      }
      calls := calls + [Apply(candidate)];
    }

    /** `described` says whether the connection took the remote description, `local` what local one it then
        made, if it could. */
    method Answer(sdp: string, described: bool, local: Option<string>) returns (answer: Option<string>)
      modifies this`remoteSet, this`pending, this`calls
      ensures View() == Answered(old(View()), sdp, described)
      ensures answer == if described then local else None
    {
      if !described {
        return None;
      }
      calls := calls + [Describe(sdp)];
      remoteSet := true;
      var drained := pending;
      pending := [];
      ghost var before := calls;
      for k := 0 to |drained|
        invariant calls == before + Applied(drained[..k]) && remoteSet && pending == []
      {
        assert Applied(drained[..k + 1]) == Applied(drained[..k]) + [Apply(drained[k])];
        calls := calls + [Apply(drained[k])];
      }
      assert drained[..|drained|] == drained;
      answer := local;
    }
  }

  // ---- over any use of a session ----

  datatype Use = Candidate(c: string) | Offer(sdp: string, described: bool)

  function Used(uses: seq<Use>): Session {
    if uses == [] then FRESH
    else
      var s := Used(uses[..|uses| - 1]);
      match uses[|uses| - 1]
      case Candidate(c) => Add(s, c)
      case Offer(sdp, described) => Answered(s, sdp, described)
  }

  /** The candidates a session takes: all of them once described, the first 64 before. */
  function Taken(uses: seq<Use>): seq<string> {
    if uses == [] then []
    else
      var before := uses[..|uses| - 1];
      match uses[|uses| - 1]
      case Candidate(c) =>
        if Described(before) || |Taken(before)| < MAX_PENDING then Taken(before) + [c] else Taken(before)
      case Offer(_, _) => Taken(before)
  }

  predicate Described(uses: seq<Use>) {
    exists k :: 0 <= k < |uses| && uses[k].Offer? && uses[k].described
  }

  function Candidates(calls: seq<Call>): seq<string> {
    if calls == [] then []
    else
      var last := calls[|calls| - 1];
      Candidates(calls[..|calls| - 1]) + if last.Apply? then [last.candidate] else []
  }

  /** The remote descriptions the connection was given, in order. */
  function Descriptions(calls: seq<Call>): seq<string> {
    if calls == [] then []
    else
      var last := calls[|calls| - 1];
      Descriptions(calls[..|calls| - 1]) + if last.Describe? then [last.sdp] else []
  }

  /** The offers the connection took. */
  function OffersTaken(uses: seq<Use>): seq<string> {
    if uses == [] then []
    else
      var last := uses[|uses| - 1];
      OffersTaken(uses[..|uses| - 1]) + if last.Offer? && last.described then [last.sdp] else []
  }

  lemma DescriptionsSnoc(calls: seq<Call>, call: Call)
    ensures Descriptions(calls + [call]) == Descriptions(calls) + if call.Describe? then [call.sdp] else []
  {
    assert (calls + [call])[..|calls|] == calls;
  }

  lemma {:induction false} DescriptionsApplied(calls: seq<Call>, cs: seq<string>)
    ensures Descriptions(calls + Applied(cs)) == Descriptions(calls)
    decreases |cs|
  {
    if cs == [] {
      assert calls + Applied(cs) == calls;
    } else {
      var before := cs[..|cs| - 1];
      DescriptionsApplied(calls, before);
      assert calls + Applied(cs) == (calls + Applied(before)) + [Apply(cs[|cs| - 1])];
      DescriptionsSnoc(calls + Applied(before), Apply(cs[|cs| - 1]));
    }
  }

  /** The connection is given exactly the offers it takes, in order. */
  lemma {:induction false} OffersDescribed(uses: seq<Use>)
    ensures Descriptions(Used(uses).calls) == OffersTaken(uses)
    decreases |uses|
  {
    if uses != [] {
      var s := Used(uses[..|uses| - 1]);
      OffersDescribed(uses[..|uses| - 1]);
      match uses[|uses| - 1]
      case Candidate(c) => DescriptionsSnoc(s.calls, Apply(c));
      case Offer(sdp, _) =>
        DescriptionsSnoc(s.calls, Describe(sdp));
        DescriptionsApplied(s.calls + [Describe(sdp)], s.pending);
    }
  }

  lemma CandidatesSnoc(calls: seq<Call>, call: Call)
    ensures Candidates(calls + [call]) == Candidates(calls) + if call.Apply? then [call.candidate] else []
  {
    assert (calls + [call])[..|calls|] == calls;
  }

  lemma {:induction false} CandidatesApplied(calls: seq<Call>, cs: seq<string>)
    ensures Candidates(calls + Applied(cs)) == Candidates(calls) + cs
    decreases |cs|
  {
    if cs == [] {
      assert calls + Applied(cs) == calls;
    } else {
      var before, last := cs[..|cs| - 1], cs[|cs| - 1];
      CandidatesApplied(calls, before);
      assert calls + Applied(cs) == (calls + Applied(before)) + [Apply(last)];
      CandidatesSnoc(calls + Applied(before), Apply(last));
      assert cs == before + [last];
    }
  }

  /** No candidate ahead of the description, none waiting behind it, `taken` accounted for. */
  ghost predicate Sound(s: Session, taken: seq<string>) {
    && (s.calls != [] ==> s.remoteSet && s.calls[0].Describe?)
    && (s.remoteSet ==> s.calls != [] && s.pending == [])
    && Candidates(s.calls) + s.pending == taken
  }

  lemma AddSound(s: Session, taken: seq<string>, c: string)
    requires Sound(s, taken)
    ensures Sound(Add(s, c), if s.remoteSet || |taken| < MAX_PENDING then taken + [c] else taken)
  {
    CandidatesSnoc(s.calls, Apply(c));
    if s.remoteSet {
      assert taken == Candidates(s.calls);
      assert Candidates(s.calls + [Apply(c)]) + [] == taken + [c];
    } else {
      assert taken == s.pending && [] + (s.pending + [c]) == s.pending + [c];
    }
  }

  lemma AnsweredSound(s: Session, taken: seq<string>, sdp: string)
    requires Sound(s, taken)
    ensures Sound(Answered(s, sdp, true), taken)
  {
    CandidatesSnoc(s.calls, Describe(sdp));
    CandidatesApplied(s.calls + [Describe(sdp)], s.pending);
    assert (s.calls + [Describe(sdp)] + Applied(s.pending))[0].Describe?;
  }

  lemma DescribedSnoc(before: seq<Use>, use: Use)
    ensures Described(before + [use]) <==> Described(before) || (use.Offer? && use.described)
  {
    var uses := before + [use];
    assert uses[|before|] == use;
    if Described(before) {
      var k :| 0 <= k < |before| && before[k].Offer? && before[k].described;
      assert uses[k] == before[k];
    }
  }

  /** Over any use of a session: no candidate reaches the connection before a remote description;
      each taken one reaches it exactly once and in arrival order, or is still waiting to. */
  lemma {:induction false} CandidatesDelivered(uses: seq<Use>)
    ensures var s := Used(uses);
            && s.remoteSet == Described(uses)
            && (s.calls != [] ==> s.remoteSet && s.calls[0].Describe?)
            && (s.remoteSet ==> s.pending == [])
            && Candidates(s.calls) + s.pending == Taken(uses)
    ensures Sound(Used(uses), Taken(uses))
    decreases |uses|
  {
    if uses != [] {
      var before, last := uses[..|uses| - 1], uses[|uses| - 1];
      CandidatesDelivered(before);
      assert uses == before + [last];
      DescribedSnoc(before, last);
      match last
      case Candidate(c) => AddSound(Used(before), Taken(before), c);
      case Offer(sdp, described) => if described { AnsweredSound(Used(before), Taken(before), sdp); }
    }
  }

  /** Up to 64 candidates held ahead of the offer all go in, in order, behind the description. */
  lemma {:induction false} EarlyCandidatesSurvive(candidates: seq<string>, sdp: string)
    requires |candidates| <= 64
    ensures AddAll(FRESH, candidates) == FRESH.(pending := candidates)
    ensures Answered(AddAll(FRESH, candidates), sdp, true)
            == Session(true, [], [Describe(sdp)] + Applied(candidates))
    decreases |candidates|
  {
    if candidates != [] {
      EarlyCandidatesSurvive(candidates[..|candidates| - 1], sdp);
    }
    assert FRESH.calls + [Describe(sdp)] == [Describe(sdp)];
  }
}
