/** Shutdown and restart against concurrent attaches: which devices the session can be busy with
    between the check, the stop and the power-off. */
module AttachPower {
  import opened AttachCore
  import opened AttachMachine
  import opened AttachInvariant
  import opened AttachSteps

  /** No doAttach for this device since there were `since` attempts. */
  ghost predicate NoAttachOf(attempts: seq<Attempt>, udid: string, since: nat) {
    forall k :: since <= k < |attempts| && !attempts[k].quality ==> attempts[k].udid != udid
  }

  /** Every doAttach since then was for this device. */
  ghost predicate OnlyAttachOf(attempts: seq<Attempt>, udid: string, since: nat) {
    forall k :: since <= k < |attempts| && !attempts[k].quality ==> attempts[k].udid == udid
  }

  /** Unless some other device was attached meanwhile, the session is busy with none but this one. */
  ghost predicate Tied(s: State, udid: string, since: nat) {
    && since <= |s.attempts|
    && (OnlyAttachOf(s.attempts, udid, since) ==>
          forall v :: v != "" && Streaming(s.core, v) ==> v == udid)
  }

  /** Unless this device was attached meanwhile, the session is not busy with it. */
  ghost predicate Down(s: State, udid: string, since: nat) {
    && since <= |s.attempts| && udid != ""
    && (NoAttachOf(s.attempts, udid, since) ==> !Streaming(s.core, udid))
  }

  ghost predicate TaskPowerOk(s: State, t: nat)
    requires t < |s.tasks|
  {
    var task := s.tasks[t];
    && (task.Checked? ==> task.udid != "" && Tied(s, task.udid, task.at))
    && (task.PoweringOff? ==> Down(s, task.udid, task.since))
    && ((task.Removing? || task.Unlocked?) && task.after.Power? ==> Down(s, task.after.udid, task.after.since))
  }

  ghost predicate DownsOk(s: State, d: nat)
    requires d < |s.downs|
  {
    Down(s, s.downs[d].0, s.downs[d].1)
  }

  ghost predicate PowerInv(s: State) {
    && (forall t :: 0 <= t < |s.tasks| ==> TaskPowerOk(s, t))
    && (forall d :: 0 <= d < |s.downs| ==> DownsOk(s, d))
  }

  lemma CalmerKeeps(s: State, e: Event, udid: string, since: nat)
    requires Inv(s) && Enabled(s, e)
    ensures Tied(s, udid, since) ==> Tied(Step(s, e), udid, since)
    ensures Down(s, udid, since) ==> Down(Step(s, e), udid, since)
  {
    StepKeeps(s, e);
    AttachesSeen(s.attempts, Step(s, e).attempts, udid, since);
  }

  lemma AttachesSeen(a: seq<Attempt>, b: seq<Attempt>, udid: string, since: nat)
    requires |a| <= |b| && forall k :: 0 <= k < |a| ==> Ages(a[k], b[k])
    ensures OnlyAttachOf(b, udid, since) ==> OnlyAttachOf(a, udid, since)
    ensures NoAttachOf(b, udid, since) ==> NoAttachOf(a, udid, since)
  {
    if OnlyAttachOf(b, udid, since) {
      forall k | since <= k < |a| && !a[k].quality ensures a[k].udid == udid {
        assert b[k].udid == udid;
      }
    }
    if NoAttachOf(b, udid, since) {
      forall k | since <= k < |a| && !a[k].quality ensures a[k].udid != udid {
        assert b[k].udid != udid;
      }
    }
  }

  /** What the check and the stop establish for the thread that makes them. */
  lemma MoverOk(s: State, e: Event)
    requires Inv(s) && PowerInv(s) && Enabled(s, e)
    requires e.PowerCheck? || e.PowerStop?
    ensures e.t < |Step(s, e).tasks| && TaskPowerOk(Step(s, e), e.t)
  {
    assert TaskPowerOk(s, e.t);
  }

  lemma AttemptsLeaveTasks(s: State, e: Event)
    requires Enabled(s, e) && IsAttemptEvent(e)
    ensures Step(s, e).tasks == s.tasks && Step(s, e).downs == s.downs
  {
  }

  /** A thread's task changes without taking up a new claim about a device. */
  predicate Follows(was: Task, now: Task) {
    || now == was
    || !(now.Checked? || now.PoweringOff? || ((now.Removing? || now.Unlocked?) && now.after.Power?))
    || (was.Removing? && was.after.Power? && now == Unlocked(was.after))
    || (was.Unlocked? && was.after.Power? && now == PoweringOff(was.after.udid, was.after.restart, was.after.since))
  }

  predicate Claims(e: Event) {
    e.Attach? || e.Detach? || e.Quality? || e.PowerStop? || e.StopSession?
  }

  lemma ClaimFollows(s: State, e: Event, t: nat)
    requires Enabled(s, e) && t < |s.tasks| && Claims(e) && !(e.PowerStop? && t == e.t)
    ensures |Step(s, e).tasks| == |s.tasks| && Follows(s.tasks[t], Step(s, e).tasks[t])
  {
  }

  /** No other event gives a thread a new claim about a device. */
  lemma TaskFollows(s: State, e: Event, t: nat)
    requires Enabled(s, e) && t < |s.tasks| && !IsAttemptEvent(e)
    requires !((e.PowerCheck? || e.PowerStop?) && t == e.t)
    ensures |Step(s, e).tasks| == |s.tasks| && Follows(s.tasks[t], Step(s, e).tasks[t])
  {
    if Claims(e) { ClaimFollows(s, e, t); } else { OtherFollows(s, e, t); }
  }

  lemma OtherFollows(s: State, e: Event, t: nat)
    requires Enabled(s, e) && t < |s.tasks| && !IsAttemptEvent(e) && !Claims(e) && !(e.PowerCheck? && t == e.t)
    ensures |Step(s, e).tasks| == |s.tasks| && Follows(s.tasks[t], Step(s, e).tasks[t])
  {
  }

  lemma TaskStays(s: State, e: Event, t: nat)
    requires Inv(s) && PowerInv(s) && Enabled(s, e)
    requires t < |s.tasks| && !((e.PowerCheck? || e.PowerStop?) && t == e.t)
    ensures t < |Step(s, e).tasks| && TaskPowerOk(Step(s, e), t)
  {
    assert TaskPowerOk(s, t);
    if IsAttemptEvent(e) { AttemptsLeaveTasks(s, e); } else { TaskFollows(s, e, t); }
    match s.tasks[t]
    case Checked(udid, _, at) => CalmerKeeps(s, e, udid, at);
    case PoweringOff(udid, _, since) => CalmerKeeps(s, e, udid, since);
    case Removing(_, Power(udid, _, since)) => CalmerKeeps(s, e, udid, since);
    case Unlocked(Power(udid, _, since)) => CalmerKeeps(s, e, udid, since);
    case _ =>
  }

  lemma DownsGrow(s: State, e: Event)
    requires Enabled(s, e) && !IsAttemptEvent(e)
    ensures |Step(s, e).tasks| == |s.tasks|
    ensures Step(s, e).downs == s.downs
            || (e.ShutdownReturns? && Step(s, e).downs == s.downs + [(s.tasks[e.t].udid, s.tasks[e.t].since)])
  {
  }

  lemma StepKeepsPower(s: State, e: Event)
    requires Inv(s) && PowerInv(s) && Enabled(s, e)
    ensures PowerInv(Step(s, e))
  {
    var s' := Step(s, e);
    if IsAttemptEvent(e) { AttemptsLeaveTasks(s, e); } else { DownsGrow(s, e); }
    forall t | 0 <= t < |s'.tasks| ensures TaskPowerOk(s', t) {
      if (e.PowerCheck? || e.PowerStop?) && t == e.t {
        MoverOk(s, e);
      } else {
        TaskStays(s, e, t);
      }
    }
    forall d | 0 <= d < |s'.downs| ensures DownsOk(s', d) {
      CalmerKeeps(s, e, s'.downs[d].0, s'.downs[d].1);
      if d < |s.downs| {
        assert DownsOk(s, d);
      } else {
        assert TaskPowerOk(s, e.t);
      }
    }
  }

  lemma {:induction false} ReachablePower(threads: nat, run: seq<Event>)
    requires After(threads, run).Some?
    ensures Inv(After(threads, run).value) && PowerInv(After(threads, run).value)
  {
    ReachableInv(threads, run);
    if run != [] {
      var before := run[..|run| - 1];
      ReachablePower(threads, before);
      StepKeepsPower(After(threads, before).value, run[|run| - 1]);
    }
  }

  /** The session serves this device: its feed is installed, or an attempt for it could still be. */
  predicate Serves(s: State, udid: string) {
    || (s.core.att.Some? && s.core.att.value.udid == udid)
    || exists i :: 0 <= i < |s.attempts| && InFlight(s.attempts[i].phase) && s.attempts[i].gen == s.core.gen
                   && s.attempts[i].udid == udid
  }

  lemma ServesIsStreaming(s: State, udid: string)
    requires Inv(s) && udid != ""
    ensures Serves(s, udid) <==> Streaming(s.core, udid)
  {
    if exists i :: 0 <= i < |s.attempts| && InFlight(s.attempts[i].phase) && s.attempts[i].gen == s.core.gen
                   && s.attempts[i].udid == udid {
      var i :| 0 <= i < |s.attempts| && InFlight(s.attempts[i].phase) && s.attempts[i].gen == s.core.gen
               && s.attempts[i].udid == udid;
      assert AttemptOk(s, i);
    }
  }

  /** When backend.Shutdown(udid) runs, and afterwards for as long as nobody attaches the device
      again, neither an installed feed nor an attempt that could still be installed is for it. */
  lemma {:induction false} ShutdownIsolated(threads: nat, run: seq<Event>, udid: string, since: nat)
    requires After(threads, run).Some?
    requires var s := After(threads, run).value;
             || (exists t, restart :: 0 <= t < |s.tasks| && s.tasks[t] == PoweringOff(udid, restart, since))
             || (udid, since) in s.downs
    requires NoAttachOf(After(threads, run).value.attempts, udid, since)
    ensures !Serves(After(threads, run).value, udid)
  {
    ReachablePower(threads, run);
    var s := After(threads, run).value;
    if (udid, since) in s.downs {
      var d :| 0 <= d < |s.downs| && s.downs[d] == (udid, since);
      assert DownsOk(s, d);
    } else {
      var t, restart :| 0 <= t < |s.tasks| && s.tasks[t] == PoweringOff(udid, restart, since);
      assert TaskPowerOk(s, t);
    }
    ServesIsStreaming(s, udid);
  }

  /** The stop of a shutdown or restart of one device takes no other device's feed and supersedes
      no other device's attempt, provided no other device was attached since the check. */
  lemma StopTakesOnlyItsDevice(threads: nat, run: seq<Event>, t: nat, other: string)
    requires After(threads, run).Some? && t < |After(threads, run).value.tasks|
    requires After(threads, run).value.tasks[t].Checked?
    requires var s := After(threads, run).value;
             OnlyAttachOf(s.attempts, s.tasks[t].udid, s.tasks[t].at)
             && other != s.tasks[t].udid && other != ""
    ensures !Serves(After(threads, run).value, other)
  {
    ReachablePower(threads, run);
    var s := After(threads, run).value;
    assert TaskPowerOk(s, t);
    ServesIsStreaming(s, other);
  }
}
