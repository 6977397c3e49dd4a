/** Shutdown and restart when one channel carries every attach, as clients are meant to, and what
    goes wrong when two channels do. */
module AttachSerial {
  import opened Base
  import opened AttachCore
  import opened AttachMachine
  import opened AttachInvariant
  import opened AttachSteps
  import opened AttachPower

  /** Only thread t asks for attaches; quality changes may come from anywhere. */
  predicate Serial(run: seq<Event>, t: nat) {
    forall k :: 0 <= k < |run| && run[k].Attach? ==> run[k].t == t
  }

  /** How many attempts there were when a shutdown or restart last looked, if one is under way. */
  function Since(task: Task): Option<nat> {
    match task
    case Checked(_, _, at) => Some(at)
    case PoweringOff(_, _, since) => Some(since)
    case Removing(_, Power(_, _, since)) => Some(since)
    case Unlocked(Power(_, _, since)) => Some(since)
    case _ => None
  }

  /** Every attempt made while thread t powers a device off is a rebuild of a live feed. */
  ghost predicate OnlyRebuilds(s: State, t: nat) {
    t < |s.tasks| && Since(s.tasks[t]).Some? ==>
      && Since(s.tasks[t]).value <= |s.attempts|
      && forall k :: Since(s.tasks[t]).value <= k < |s.attempts| ==> s.attempts[k].quality
  }

  lemma ThreadStarts(s: State, e: Event)
    requires Enabled(s, e) && !IsAttemptEvent(e) && !e.Attach? && !e.Quality?
    ensures |Step(s, e).attempts| == |s.attempts|
    ensures e.PowerCheck? || e.PowerStop? ==>
              e.t < |Step(s, e).tasks| && (Since(Step(s, e).tasks[e.t]).Some? ==>
                Since(Step(s, e).tasks[e.t]) == Some(|s.attempts|))
  {
  }

  lemma AttemptStarts(s: State, e: Event)
    requires Enabled(s, e) && IsAttemptEvent(e)
    ensures |Step(s, e).attempts| == |s.attempts|
  {
  }

  lemma RequestStarts(s: State, e: Event)
    requires Enabled(s, e) && (e.Attach? || e.Quality?)
    ensures forall k :: |s.attempts| <= k < |Step(s, e).attempts| ==> Step(s, e).attempts[k].quality == e.Quality?
    ensures e.t < |Step(s, e).tasks| && Since(Step(s, e).tasks[e.t]).None?
  {
  }

  lemma QualityStays(s: State, e: Event)
    requires Inv(s) && Enabled(s, e)
    ensures |s.attempts| <= |Step(s, e).attempts|
    ensures forall k :: 0 <= k < |s.attempts| ==> Step(s, e).attempts[k].quality == s.attempts[k].quality
  {
    StepKeeps(s, e);
    forall k | 0 <= k < |s.attempts| ensures Step(s, e).attempts[k].quality == s.attempts[k].quality {
      assert Ages(s.attempts[k], Step(s, e).attempts[k]);
    }
  }

  lemma {:induction false} StepKeepsRebuilds(s: State, e: Event, t: nat)
    requires Inv(s) && Enabled(s, e) && (e.Attach? ==> e.t == t) && OnlyRebuilds(s, t) && t < |s.tasks|
    ensures OnlyRebuilds(Step(s, e), t)
  {
    QualityStays(s, e);
    if IsAttemptEvent(e) {
      AttemptsLeaveTasks(s, e);
      AttemptStarts(s, e);
    } else {
      if e.Attach? || e.Quality? { RequestStarts(s, e); } else { ThreadStarts(s, e); }
      if !((e.PowerCheck? || e.PowerStop?) && t == e.t) {
        TaskFollows(s, e, t);
      }
    }
  }

  lemma TasksStay(s: State, e: Event)
    requires Enabled(s, e)
    ensures |Step(s, e).tasks| == |s.tasks|
  {
    if IsAttemptEvent(e) { AttemptsLeaveTasks(s, e); } else { DownsGrow(s, e); }
  }

  lemma {:induction false} ReachableRebuilds(threads: nat, run: seq<Event>, t: nat)
    requires After(threads, run).Some? && Serial(run, t) && t < threads
    ensures |After(threads, run).value.tasks| == threads && OnlyRebuilds(After(threads, run).value, t)
  {
    if run != [] {
      var before := run[..|run| - 1];
      ReachableRebuilds(threads, before, t);
      ReachableInv(threads, before);
      TasksStay(After(threads, before).value, run[|run| - 1]);
      StepKeepsRebuilds(After(threads, before).value, run[|run| - 1], t);
    }
  }

  /** With attaches serial on the channel that powers devices off: when backend.Shutdown(udid) runs the
      session does not serve udid, and the stop that precedes it never takes another device's feed
      or attempt. Quality rebuilds and finishing attaches may interleave in any way. */
  lemma {:induction false} SerialShutdown(threads: nat, run: seq<Event>, t: nat)
    requires After(threads, run).Some? && Serial(run, t) && t < threads
    ensures var s := After(threads, run).value;
            && t < |s.tasks|
            && (s.tasks[t].PoweringOff? ==> !Serves(s, s.tasks[t].udid))
            && (s.tasks[t].Checked? ==> forall other :: other != "" && Serves(s, other) ==> other == s.tasks[t].udid)
  {
    ReachableRebuilds(threads, run, t);
    var s := After(threads, run).value;
    if s.tasks[t].PoweringOff? {
      ShutdownIsolated(threads, run, s.tasks[t].udid, s.tasks[t].since);
    }
    if s.tasks[t].Checked? {
      forall other | other != "" && other != s.tasks[t].udid ensures !Serves(s, other) {
        StopTakesOnlyItsDevice(threads, run, t, other);
      }
    }
  }

  lemma {:induction false} Next(threads: nat, run: seq<Event>, e: Event)
    requires After(threads, run).Some? && Enabled(After(threads, run).value, e)
    ensures After(threads, run + [e]) == Some(Step(After(threads, run).value, e))
  {
    assert (run + [e])[..|run|] == run;
  }

  /** One channel attaches a and, the spawn still running, finds it busy in order to shut it down. */
  lemma {:induction false} CheckedEarly(a: string) returns (run: seq<Event>)
    requires a != ""
    ensures After(2, run).Some?
    ensures var s := After(2, run).value;
            |s.tasks| == 2 && s.tasks[0] == Checked(a, false, 1) && s.tasks[1].Idle? && s.core == Core(1, None, a)
  {
    run := [];
    Next(2, run, Attach(0, a));
    run := run + [Attach(0, a)];
    Next(2, run, Proceed(0));
    run := run + [Proceed(0)];
    Next(2, run, PowerCheck(0, a, false));
    run := run + [PowerCheck(0, a, false)];
  }

  /** With two channels the isolation fails: a device attached over the second channel between the
      check and the stop loses its attempt to the shutdown of another device. */
  lemma {:induction false} CrossChannelStop(a: string, b: string) returns (run: seq<Event>)
    requires a != "" && b != "" && a != b
    ensures After(2, run).Some? && Enabled(After(2, run).value, PowerStop(0))
    ensures var s := After(2, run).value;
            s.tasks[0].Checked? && s.tasks[0].udid == a && Serves(s, b) && !Serves(Step(s, PowerStop(0)), b)
  {
    run := CheckedEarly(a);
    Next(2, run, Attach(1, b));
    run := run + [Attach(1, b)];
    var s := After(2, run).value;
    assert s.core == Core(2, None, b);
    ReachableInv(2, run);
    ServesIsStreaming(s, b);
    Next(2, run, PowerStop(0));
    ReachableInv(2, run + [PowerStop(0)]);
    ServesIsStreaming(Step(s, PowerStop(0)), b);
  }

  /** Between the check and the stop the device checked may have given way. */
  predicate GaveWay(s: State, udid: string) {
    !Streaming(s.core, udid) && (s.core.att.Some? || s.core.pending != "")
  }

  /** The condition is exact: a stop takes another device's feed or attempt if and only if the check,
      asked again in the stop's own section, would answer no while something is attached or pending. */
  lemma {:induction false} StopTakesAnotherExactly(threads: nat, run: seq<Event>, t: nat)
    requires After(threads, run).Some? && Enabled(After(threads, run).value, PowerStop(t))
    ensures var s := After(threads, run).value;
            (exists other :: other != s.tasks[t].udid && Serves(s, other)) <==> GaveWay(s, s.tasks[t].udid)
    ensures var s := After(threads, run).value;
            After(threads, run + [PowerStop(t)]).Some?
            && forall other :: !Serves(After(threads, run + [PowerStop(t)]).value, other)
  {
    ReachablePower(threads, run);
    var s := After(threads, run).value;
    var udid := s.tasks[t].udid;
    assert TaskPowerOk(s, t);
    if exists other :: other != udid && Serves(s, other) {
      var other :| other != udid && Serves(s, other);
      ServedIsNamed(s, other);
      ServesIsStreaming(s, other);
    }
    if GaveWay(s, udid) {
      var other := if s.core.att.Some? then s.core.att.value.udid else s.core.pending;
      AttachedIsNamed(s);
      ServesIsStreaming(s, other);
    }
    Next(threads, run, PowerStop(t));
    ReachableInv(threads, run + [PowerStop(t)]);
    var s' := Step(s, PowerStop(t));
    StopEmpties(s, t);
    forall other ensures !Serves(s', other) {
      if Serves(s', other) {
        ServedIsNamed(s', other);
        ServesIsStreaming(s', other);
      }
    }
  }

  lemma StopEmpties(s: State, t: nat)
    requires Enabled(s, PowerStop(t))
    ensures Step(s, PowerStop(t)).core == Core(s.core.gen + 1, None, "")
  {
  }

  lemma AttachedIsNamed(s: State)
    requires Inv(s)
    ensures s.core.att.Some? ==> s.core.att.value.udid != ""
  {
    if s.core.att.Some? {
      assert AttemptOk(s, s.core.att.value.id);
    }
  }

  /** No attempt and no feed is for the empty name. */
  lemma ServedIsNamed(s: State, udid: string)
    requires Inv(s) && Serves(s, udid)
    ensures udid != ""
  {
    AttachedIsNamed(s);
    if !(s.core.att.Some? && s.core.att.value.udid == udid) {
      var i :| 0 <= i < |s.attempts| && InFlight(s.attempts[i].phase) && s.attempts[i].gen == s.core.gen
               && s.attempts[i].udid == udid;
      assert AttemptOk(s, i);
    }
  }
}
