/** How a session ends: after a stop, nothing is installed again until something is attached again, and
    nothing is left open. */
module AttachEnd {
  import opened AttachMachine
  import opened AttachInvariant
  import opened AttachSteps
  import opened AttachTheorems
  import opened AttachSerial

  predicate Stops(e: Event) {
    e.StopSession? || e.Detach? || e.PowerStop?
  }

  /** Nothing is installed and nothing is pending. */
  predicate Stopped(s: State) {
    s.core.att.None? && s.core.pending == ""
  }

  lemma StopStops(s: State, e: Event)
    requires Enabled(s, e) && Stops(e)
    ensures Stopped(Step(s, e))
  {
  }

  lemma StaysStopped(s: State, e: Event)
    requires Inv(s) && Enabled(s, e) && Stopped(s) && !e.Attach?
    ensures Stopped(Step(s, e))
  {
    StepKeeps(s, e);
    AttachedIsNamed(Step(s, e));
    if IsAttemptEvent(e) {
      AttemptStarts(s, e);
    } else if e.Quality? {
      RequestStarts(s, e);
    } else {
      ThreadStarts(s, e);
    }
  }

  lemma {:induction false} StoppedUntilAttach(threads: nat, run: seq<Event>, e: Event, more: seq<Event>)
    requires After(threads, run + [e] + more).Some? && Stops(e)
    requires forall k :: 0 <= k < |more| ==> !more[k].Attach?
    ensures Stopped(After(threads, run + [e] + more).value)
    decreases |more|
  {
    var all := run + [e] + more;
    if more == [] {
      assert all == run + [e] && all[..|all| - 1] == run;
      StopStops(After(threads, run).value, e);
    } else {
      var n := |more| - 1;
      assert all[..|all| - 1] == run + [e] + more[..n];
      StoppedUntilAttach(threads, run, e, more[..n]);
      ReachableInv(threads, run + [e] + more[..n]);
      StaysStopped(After(threads, run + [e] + more[..n]).value, more[n]);
    }
  }

  /** A stop is the end: with no attach after it, whatever spawns, quality requests, pumps and teardowns are
      still under way, no feed is installed at any later time, and once all is quiet every feed the backend
      ever returned has been closed, once. */
  lemma {:induction false} StopClosesEverything(threads: nat, run: seq<Event>, e: Event, more: seq<Event>)
    requires After(threads, run + [e] + more).Some? && Stops(e)
    requires forall k :: 0 <= k < |more| ==> !more[k].Attach?
    ensures After(threads, run + [e] + more).value.core.att.None?
    ensures var s := After(threads, run + [e] + more).value;
            Quiet(s) ==> forall f :: 0 <= f < |s.closes| ==> s.closes[f] == 1
  {
    StoppedUntilAttach(threads, run, e, more);
    ReachableInv(threads, run + [e] + more);
    var s := After(threads, run + [e] + more).value;
    if Quiet(s) {
      NothingLeaks(threads, run + [e] + more);
      forall f | 0 <= f < |s.closes| ensures s.closes[f] == 1 {
        assert FeedOk(s, f);
      }
    }
  }
}
