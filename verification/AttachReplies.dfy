/** What the replies say: the code of a failed attach, the device a detach names, the answer to a request to
    power a device off or restart it. */
module AttachReplies {
  import opened Base
  import opened AttachCore
  import opened AttachMachine
  import opened AttachInvariant
  import opened AttachSteps
  import opened AttachLog
  import opened AttachTheorems
  import opened AttachPower

  // ---- the code of a failed attach ----

  /** The backend's refusal as the attempt still carries it. */
  function Refusal(p: Phase): Option<(string, bool)> {
    match p
    case Returned(Refused(code, retryable)) => Some((code, retryable))
    case Failing(Backend(code, retryable)) => Some((code, retryable))
    case Reporting(Failed(Backend(code, retryable))) => Some((code, retryable))
    case Finished(Failed(Backend(code, retryable))) => Some((code, retryable))
    case _ => None
  }

  /** Back from the backend with a refusal, and then on the way of a failure. */
  predicate WasRefused(p: Phase) {
    || (p.Returned? && p.result.Refused?) || p.Failing? || (p.Reporting? && p.verdict.Failed?)
    || (p.Finished? && !p.outcome.Installed?)
  }

  predicate RefusesAt(run: seq<Event>, k: nat, i: nat, code: string, retryable: bool) {
    k < |run| && run[k] == SpawnRefused(i, code, retryable)
  }

  /** What the run says the backend answered is what the attempt carries, for as long as it carries it. */
  ghost predicate RefusalOk(s: State, run: seq<Event>, i: nat) {
    && (forall k, code, retryable :: RefusesAt(run, k, i, code, retryable) ==>
          && i < |s.attempts| && WasRefused(s.attempts[i].phase)
          && (Refusal(s.attempts[i].phase).Some? ==> Refusal(s.attempts[i].phase).value == (code, retryable)))
    && (i < |s.attempts| && Refusal(s.attempts[i].phase).Some? ==>
          exists k :: RefusesAt(run, k, i, Refusal(s.attempts[i].phase).value.0, Refusal(s.attempts[i].phase).value.1))
  }

  /** A refusal comes into being in one way, and is kept or given up. */
  predicate Carries(was: Option<Phase>, now: Phase, e: Event, i: nat) {
    if e.SpawnRefused? && e.i == i then
      && was == Some(Spawning) && WasRefused(now) && Refusal(now) == Some((e.code, e.retryable))
    else
      && (was.Some? && WasRefused(was.value) ==> WasRefused(now))
      && (Refusal(now).Some? ==> was.Some? && Refusal(was.value) == Refusal(now))
  }

  function PhaseOf(s: State, i: nat): Option<Phase> {
    if i < |s.attempts| then Some(s.attempts[i].phase) else None
  }

  lemma SpawnCarries(s: State, e: Event, i: nat)
    requires Enabled(s, e) && (e.SpawnReady? || e.SpawnRefused? || e.Settle?) && e.i == i
    ensures i < |Step(s, e).attempts| && Carries(PhaseOf(s, i), Step(s, e).attempts[i].phase, e, i)
  {
  }

  lemma SectionCarries(s: State, e: Event, i: nat)
    requires Enabled(s, e) && (e.CloseExpired? || e.FailSection? || e.InstallSection? || e.CloseDropped?) && e.i == i
    ensures i < |Step(s, e).attempts| && Carries(PhaseOf(s, i), Step(s, e).attempts[i].phase, e, i)
  {
  }

  lemma ReportCarries(s: State, i: nat)
    requires Inv(s) && Enabled(s, Report(i))
    ensures i < |Step(s, Report(i)).attempts|
    ensures Carries(PhaseOf(s, i), Step(s, Report(i)).attempts[i].phase, Report(i), i)
  {
    assert AttemptOk(s, i) && Step(s, Report(i)) == DoReport(s, i);
  }

  /** The watchdog and the pump leave the phase alone. */
  lemma PumpCarries(s: State, e: Event, i: nat)
    requires e.Watchdog? || e.FramesEnd? || e.PumpSection? || e.PumpClose? || e.PumpReport?
    requires Enabled(s, e) && e.i == i
    ensures i < |Step(s, e).attempts| && Step(s, e).attempts[i].phase == s.attempts[i].phase
  {
  }

  lemma StarterCarries(s: State, e: Event, i: nat)
    requires Inv(s) && Enabled(s, e) && (e.Proceed? || e.SendEcho?) && Moved(s, e) == i && i < |s.attempts|
    ensures i < |Step(s, e).attempts| && Carries(PhaseOf(s, i), Step(s, e).attempts[i].phase, e, i)
  {
    assert TaskOk(s, e.t) && AttemptOk(s, i);
    if e.Proceed? { assert Step(s, e) == DoProceed(s, e.t); } else { assert Step(s, e) == DoEcho(s, e.t); }
  }

  lemma AttemptCarries(s: State, e: Event, i: nat)
    requires Inv(s) && Enabled(s, e) && IsAttemptEvent(e) && e.i == i
    ensures i < |Step(s, e).attempts| && Carries(PhaseOf(s, i), Step(s, e).attempts[i].phase, e, i)
  {
    if e.SpawnReady? || e.SpawnRefused? || e.Settle? {
      SpawnCarries(s, e, i);
    } else if e.CloseExpired? || e.FailSection? || e.InstallSection? || e.CloseDropped? {
      SectionCarries(s, e, i);
    } else if e.Report? {
      ReportCarries(s, i);
    } else {
      PumpCarries(s, e, i);
    }
  }

  lemma StepCarries(s: State, e: Event, i: nat)
    requires Inv(s) && Enabled(s, e)
    ensures i < |Step(s, e).attempts| ==> Carries(PhaseOf(s, i), Step(s, e).attempts[i].phase, e, i)
  {
    if IsAttemptEvent(e) && e.i == i {
      AttemptCarries(s, e, i);
    } else if (e.Proceed? || e.SendEcho?) && Moved(s, e) == i && i < |s.attempts| {
      StarterCarries(s, e, i);
    } else {
      StepKeeps(s, e);
    }
  }

  lemma {:induction false} ReachableRefusal(threads: nat, run: seq<Event>, i: nat)
    requires After(threads, run).Some?
    ensures RefusalOk(After(threads, run).value, run, i)
  {
    if run != [] {
      var n := |run| - 1;
      var s, e := After(threads, run[..n]).value, run[n];
      ReachableRefusal(threads, run[..n], i);
      ReachableInv(threads, run[..n]);
      StepKeeps(s, e);
      StepCarries(s, e, i);
      RefusalStays(s, Step(s, e), run, e, i);
    }
  }

  lemma RefusalStays(s: State, s': State, run: seq<Event>, e: Event, i: nat)
    requires run != [] && e == run[|run| - 1] && RefusalOk(s, run[..|run| - 1], i)
    requires |s.attempts| <= |s'.attempts| && (e.SpawnRefused? ==> e.i < |s.attempts|)
    requires i < |s'.attempts| ==> Carries(PhaseOf(s, i), s'.attempts[i].phase, e, i)
    ensures RefusalOk(s', run, i)
  {
    var n := |run| - 1;
    forall k: nat, code, retryable | RefusesAt(run, k, i, code, retryable)
      ensures i < |s'.attempts| && WasRefused(s'.attempts[i].phase)
      ensures Refusal(s'.attempts[i].phase).Some? ==> Refusal(s'.attempts[i].phase).value == (code, retryable)
    {
      if k < n { assert RefusesAt(run[..n], k, i, code, retryable); }
    }
    if i < |s'.attempts| && Refusal(s'.attempts[i].phase).Some? {
      var (code, retryable) := Refusal(s'.attempts[i].phase).value;
      if e.SpawnRefused? && e.i == i {
        assert RefusesAt(run, n, i, code, retryable);
      } else {
        var k :| RefusesAt(run[..n], k, i, code, retryable);
        assert RefusesAt(run, k, i, code, retryable);
      }
    }
  }

  /** The one terminal reply of an attempt that failed: attach_timeout, not retryable, if and only if the
      watchdog fired in time; otherwise the backend's own code and word on retrying, or attach_failed and no
      retry when it gave no code. */
  lemma {:induction false} FailureExactly(threads: nat, run: seq<Event>, i: nat)
    requires After(threads, run).Some? && i < |After(threads, run).value.attempts|
    requires var p := After(threads, run).value.attempts[i].phase; p.Finished? && p.outcome.Failed?
    ensures var s := After(threads, run).value;
            exists code, retryable ::
              && Said(s.log, Terminal, i) == [AttachError(i, code, retryable)]
              && (code == AttachTimeout <==> s.attempts[i].timedOut)
              && (s.attempts[i].timedOut ==> !retryable)
              && (!s.attempts[i].timedOut ==>
                    && (exists k, c, r :: RefusesAt(run, k, i, c, r))
                    && forall k, c, r :: RefusesAt(run, k, i, c, r) ==>
                         if c != "" then code == Verbatim(c) && retryable == r else code == AttachFailed && !retryable)
  {
    OneOutcome(threads, run, i);
    ReachableRefusal(threads, run, i);
    var a := After(threads, run).value.attempts[i];
    var reply := ErrorReply(i, a.phase.outcome.cause);
    assert reply == AttachError(i, reply.code, reply.retryable);
    if !a.timedOut {
      assert Refusal(a.phase).Some?;
    }
  }

  // ---- detach ----

  /** The device a thread is going to report as detached. */
  function Naming(task: Task): Option<string> {
    if (task.Removing? || task.Unlocked?) && task.after.SayDetached? then Some(task.after.udid) else None
  }

  /** A detach is going to name the device that was being served, and none if and only if none was. */
  lemma {:induction false} DetachNames(threads: nat, run: seq<Event>, t: nat)
    requires After(threads, run).Some? && Enabled(After(threads, run).value, Detach(t))
    ensures var s := After(threads, run).value;
            var named := Naming(Step(s, Detach(t)).tasks[t]);
            && named.Some?
            && (forall udid :: udid != "" ==> (Serves(s, udid) <==> udid == named.value))
  {
    ReachableInv(threads, run);
    var s := After(threads, run).value;
    assert s.core.att.Some? ==> AttemptOk(s, s.core.att.value.id);
    forall udid | udid != "" ensures Serves(s, udid) <==> Streaming(s.core, udid) {
      ServesIsStreaming(s, udid);
    }
  }

  /** The steps of other threads and of attempts leave a thread's task alone. */
  lemma OthersLeaveTask(s: State, e: Event, t: nat)
    requires Enabled(s, e) && t < |s.tasks| && (IsAttemptEvent(e) || e.t != t)
    ensures t < |Step(s, e).tasks| && Step(s, e).tasks[t] == s.tasks[t]
  {
    if IsAttemptEvent(e) {
      AttemptsLeaveTask(s, e, t);
    }
  }

  lemma AttemptsLeaveTask(s: State, e: Event, t: nat)
    requires Enabled(s, e) && IsAttemptEvent(e)
    ensures Step(s, e).tasks == s.tasks
  {
  }

  /** And it does name it: nothing that happens changes what is to be said until it is said. */
  lemma DetachedIsSaid(s: State, e: Event, t: nat)
    requires Enabled(s, e) && t < |s.tasks| && Naming(s.tasks[t]).Some?
    ensures t < |Step(s, e).tasks|
    ensures if e == Proceed(t) then Step(s, e).log == s.log + [Detached(Naming(s.tasks[t]).value)]
            else Naming(Step(s, e).tasks[t]) == Naming(s.tasks[t])
  {
    if IsAttemptEvent(e) || e.t != t {
      OthersLeaveTask(s, e, t);
    } else {
      assert e.CloseRemoved? || e.Proceed?;
    }
  }

  // ---- shutdown and restart ----

  /** The device a thread is powering off, and whether it is to be booted again. */
  function Powering(task: Task): Option<(string, bool)> {
    match task
    case Checked(udid, restart, _) => Some((udid, restart))
    case Removing(_, Power(udid, restart, _)) => Some((udid, restart))
    case Unlocked(Power(udid, restart, _)) => Some((udid, restart))
    case PoweringOff(udid, restart, _) => Some((udid, restart))
    case Booting(udid) => Some((udid, true))
    case _ => None
  }

  /** A request to power off or restart is under way until the backend has answered the call it ends with,
      and its final reply then names the device it asked for and says how that call went. On the way a
      shutdown, and not a restart, says that the device it took off was detached. */
  lemma PowerIsAnswered(s: State, e: Event, t: nat)
    requires Enabled(s, e) && t < |s.tasks| && Powering(s.tasks[t]).Some?
    ensures t < |Step(s, e).tasks|
    ensures var (udid, restart) := Powering(s.tasks[t]).value;
            var s' := Step(s, e);
            if e.ShutdownReturns? && e.t == t && !restart then
              s'.tasks[t].Idle? && s'.log == s.log + [ShutDown(udid, e.ok)]
            else if (e.BootReturns? || (e.ShutdownReturns? && !e.ok)) && e.t == t then
              restart && s'.tasks[t].Idle? && s'.log == s.log + [Booted(udid, e.ok)]
            else
              && Powering(s'.tasks[t]) == Powering(s.tasks[t])
              && (!IsAttemptEvent(e) && e.t == t ==>
                    s'.log == s.log + if e.Proceed? && !restart then [Detached(udid)] else [])
  {
    if IsAttemptEvent(e) || e.t != t {
      OthersLeaveTask(s, e, t);
    } else {
      assert e.PowerStop? || e.CloseRemoved? || e.Proceed? || e.ShutdownReturns? || e.BootReturns?;
    }
  }

  /** An attach starts an attempt for the device it names, a quality request one for the device that is
      live; each holds the new generation and is pending. */
  lemma {:induction false} RequestStarts(threads: nat, run: seq<Event>, e: Event)
    requires e.Attach? || e.Quality?
    requires After(threads, run).Some? && Enabled(After(threads, run).value, e)
    ensures var s := After(threads, run).value;
            var s' := Step(s, e);
            var udid := if e.Attach? then e.udid else if s.core.att.Some? then s.core.att.value.udid else "";
            if udid == "" then s' == s.(log := s.log + [if e.Attach? then BadRequest else NoAttachment])
            else
              && |s'.attempts| == |s.attempts| + 1
              && var a := s'.attempts[|s.attempts|];
                 a.udid == udid == s'.core.pending && a.quality == e.Quality? && a.gen == s'.core.gen > s.core.gen
                 && a.starter == e.t && s'.core.att.None?
  {
    ReachableInv(threads, run);
    var s := After(threads, run).value;
    assert s.core.att.Some? ==> AttemptOk(s, s.core.att.value.id);
  }

  /** The device a shutdown or restart goes on with is the one asked for. */
  lemma PowerIsAsked(s: State, t: nat, udid: string, restart: bool)
    requires Enabled(s, PowerCheck(t, udid, restart))
    ensures var s' := Step(s, PowerCheck(t, udid, restart));
            if udid == "" then s' == s.(log := s.log + [BadRequest])
            else t < |s'.tasks| && Powering(s'.tasks[t]) == Some((udid, restart)) && s'.log == s.log
  {
  }

  // ---- the session's life ----

  lemma StepLives(s: State, e: Event)
    ensures Enabled(s, e) ==> (Step(s, e).live <==> s.live && !e.CancelSession?)
  {
    if Enabled(s, e) && IsAttemptEvent(e) {
      AttemptsLeaveLife(s, e);
    }
  }

  lemma AttemptsLeaveLife(s: State, e: Event)
    ensures Enabled(s, e) && IsAttemptEvent(e) ==> Step(s, e).live == s.live
  {
  }

  predicate NeverCancelled(run: seq<Event>) {
    forall k :: 0 <= k < |run| ==> !run[k].CancelSession?
  }

  lemma NeverCancelledStep(run: seq<Event>)
    ensures run != [] ==>
              (NeverCancelled(run) <==> NeverCancelled(run[..|run| - 1]) && !run[|run| - 1].CancelSession?)
  {
  }

  /** The session is alive until it is cancelled, and never again after. */
  lemma {:induction false} LiveExactly(threads: nat, run: seq<Event>)
    requires After(threads, run).Some?
    ensures After(threads, run).value.live <==> NeverCancelled(run)
  {
    NeverCancelledStep(run);
    if run != [] {
      LiveExactly(threads, run[..|run| - 1]);
      StepLives(After(threads, run[..|run| - 1]).value, run[|run| - 1]);
    }
  }
}
