/** What the attach lifecycle promises over every run, for any number of request threads. */
module AttachTheorems {
  import opened Base
  import opened AttachMachine
  import opened AttachInvariant
  import opened AttachSteps
  import opened AttachLog

  // ---- feeds: one owner, one close ----

  /** Somewhere in the program that has the duty to close (or hand on) feed f. */
  predicate Holds(s: State, place: Owner, f: nat) {
    match place
    case OfAttempt(i) => i < |s.attempts| && PhaseFeed(s.attempts[i].phase) == Some(f)
    case OfSlot => s.core.att.Some? && s.core.att.value.feed == f
    case OfTask(t) => t < |s.tasks| && s.tasks[t].Removing? && s.tasks[t].feed == f
    case OfPump(i) => i < |s.attempts| && s.attempts[i].pump == Closing(f)
    case Released => false
  }

  /** Every feed a backend returned is closed at most once; while it is open exactly one place
      holds it, and once it is closed none does. */
  lemma {:induction false} OneOwnerOneClose(threads: nat, run: seq<Event>, f: nat)
    requires After(threads, run).Some? && f < |After(threads, run).value.closes|
    ensures var s := After(threads, run).value;
            || (s.closes[f] == 1 && forall place :: !Holds(s, place, f))
            || (s.closes[f] == 0
                && exists place :: (Holds(s, place, f) && forall other :: Holds(s, other, f) ==> other == place))
  {
    ReachableInv(threads, run);
    var s := After(threads, run).value;
    assert FeedOk(s, f);
    forall place | Holds(s, place, f) ensures place == s.owner[f] {
      match place
      case OfAttempt(i) => assert AttemptOk(s, i);
      case OfTask(t) => assert TaskOk(s, t);
      case OfPump(i) => assert AttemptOk(s, i);
      case _ =>
    }
    if !s.owner[f].Released? {
      assert Holds(s, s.owner[f], f);
    }
  }

  /** Nobody has anything left to do except the pump of the live feed. */
  predicate Quiet(s: State) {
    && (forall i :: 0 <= i < |s.attempts| ==> s.attempts[i].phase.Finished? && !s.attempts[i].pump.Closing?)
    && (forall t :: 0 <= t < |s.tasks| ==> s.tasks[t].Idle?)
  }

  /** When all threads have finished, the only open feed is the installed one. */
  lemma {:induction false} NothingLeaks(threads: nat, run: seq<Event>)
    requires After(threads, run).Some? && Quiet(After(threads, run).value)
    ensures var s := After(threads, run).value;
            forall f :: 0 <= f < |s.closes| ==>
              (s.closes[f] == 0 <==> s.core.att.Some? && s.core.att.value.feed == f)
  {
    ReachableInv(threads, run);
    var s := After(threads, run).value;
    forall f | 0 <= f < |s.closes|
      ensures s.closes[f] == 0 <==> s.core.att.Some? && s.core.att.value.feed == f
    {
      assert FeedOk(s, f);
    }
  }

  // ---- generations ----

  /** The attempts that still hold the current generation. */
  predicate Current(s: State, i: nat) {
    i < |s.attempts| && InFlight(s.attempts[i].phase) && s.attempts[i].gen == s.core.gen
  }

  /** Every claim takes a generation of its own. */
  lemma {:induction false} GenerationsDiffer(threads: nat, run: seq<Event>, i: nat, j: nat)
    requires After(threads, run).Some? && i < j < |After(threads, run).value.attempts|
    ensures var s := After(threads, run).value;
            0 < s.attempts[i].gen < s.attempts[j].gen <= s.core.gen
  {
    ReachableInv(threads, run);
    var s := After(threads, run).value;
    assert OrderOk(s, i, j) && AttemptOk(s, i) && AttemptOk(s, j);
  }

  /** The slot and the pending mark are never both filled; what fills the slot holds the current
      generation; and a device is pending exactly while one attempt, its own, holds it unsettled. */
  lemma {:induction false} GenerationInvariant(threads: nat, run: seq<Event>)
    requires After(threads, run).Some?
    ensures var s := After(threads, run).value;
            && !(s.core.att.Some? && s.core.pending != "")
            && (s.core.att.Some? ==>
                  && s.core.att.value.id < |s.attempts|
                  && s.attempts[s.core.att.value.id].gen == s.core.gen
                  && s.attempts[s.core.att.value.id].udid == s.core.att.value.udid)
            && (s.core.pending != "" <==> exists i: nat :: Current(s, i))
            && (forall i: nat :: Current(s, i) ==> s.attempts[i].udid == s.core.pending)
            && (forall i: nat, j: nat :: Current(s, i) && Current(s, j) ==> i == j)
  {
    ReachableInv(threads, run);
    CurrentOnce(After(threads, run).value);
  }

  lemma CurrentOnce(s: State)
    requires Inv(s)
    ensures s.core.pending != "" <==> exists i: nat :: Current(s, i)
    ensures forall i: nat :: Current(s, i) ==> s.attempts[i].udid == s.core.pending
    ensures forall i: nat, j: nat :: Current(s, i) && Current(s, j) ==> i == j
  {
    forall i: nat | Current(s, i) ensures s.attempts[i].udid == s.core.pending != "" {
      assert AttemptOk(s, i);
    }
    if s.core.pending != "" {
      assert Current(s, |s.attempts| - 1);
    }
    forall i: nat | Current(s, i) ensures i == |s.attempts| - 1 {
      assert AttemptOk(s, |s.attempts| - 1);
      assert i < |s.attempts| - 1 ==> OrderOk(s, i, |s.attempts| - 1);
    }
  }

  // ---- outcomes ----

  /** The thread that asked for this rebuild has started it and not answered yet. */
  predicate EchoPending(s: State, i: nat) {
    i < |s.attempts| && s.attempts[i].starter < |s.tasks| && s.tasks[s.attempts[i].starter] == Echoing(i)
  }

  /** Each claimed attempt is acknowledged once, by the thread that launches it, and settled in exactly one way:
      installed and told so, one typed error, or silence because a newer intent exists. The
      watchdog and the backend's caller never both win. */
  lemma {:induction false} OneOutcome(threads: nat, run: seq<Event>, i: nat)
    requires After(threads, run).Some? && i < |After(threads, run).value.attempts|
    ensures var s := After(threads, run).value;
            var a := s.attempts[i];
            var terminal := Said(s.log, Terminal, i);
            && |Said(s.log, Ack, i)| == (if a.phase.Claimed? || EchoPending(s, i) then 0 else 1)
            && (EchoPending(s, i) ==> a.quality)
            && (!a.phase.Finished? ==> terminal == [])
            && (a.phase == Finished(Installed) ==> terminal == [AttachMachine.Attached(i)] && !a.timedOut)
            && (a.phase == Finished(Silent) ==> terminal == [] && a.gen < s.core.gen)
            && (a.phase.Finished? && a.phase.outcome.Failed? ==>
                  terminal == [ErrorReply(i, a.phase.outcome.cause)]
                  && (a.phase.outcome.cause.Deadline? <==> a.timedOut))
  {
    ReachableLog(threads, run);
    var s := After(threads, run).value;
    assert AttemptOk(s, i);
    assert s.attempts[i].starter < |s.tasks| ==> TaskOk(s, s.attempts[i].starter);
    assert LogOk(s, Ack, i) && LogOk(s, Terminal, i);
  }

  /** An attempt once finished keeps its outcome, and once removed keeps its remover, forever. */
  lemma {:induction false} Settled(threads: nat, run: seq<Event>, more: seq<Event>, i: nat)
    requires After(threads, run).Some? && After(threads, run + more).Some?
    requires i < |After(threads, run).value.attempts|
    ensures i < |After(threads, run + more).value.attempts|
    ensures Ages(After(threads, run).value.attempts[i], After(threads, run + more).value.attempts[i])
  {
    if more == [] {
      assert run + more == run;
    } else {
      var before := more[..|more| - 1];
      assert (run + more)[..|run + more| - 1] == run + before;
      Settled(threads, run, before, i);
      ReachableInv(threads, run + before);
      StepKeeps(After(threads, run + before).value, more[|more| - 1]);
    }
  }

  /** An event by which the attempt's own goroutine moves on. */
  predicate OwnStep(s: State, e: Event, i: nat) {
    || (e.Proceed? && e.t < |s.tasks| && s.tasks[e.t] == Unlocked(Launch(i)))
    || ((e.SpawnReady? || e.SpawnRefused? || e.Settle? || e.CloseExpired? || e.FailSection?
         || e.InstallSection? || e.CloseDropped? || e.Report?) && e.i == i)
  }

  /** Progress: an unfinished attempt always has a next step to take (only a spawn waits for the
      backend, and the claiming thread may first have to close the feed it removed). */
  lemma {:induction false} NextStepEnabled(threads: nat, run: seq<Event>, i: nat)
    requires After(threads, run).Some? && i < |After(threads, run).value.attempts|
    requires !After(threads, run).value.attempts[i].phase.Finished?
    ensures var s := After(threads, run).value;
            || (exists e :: OwnStep(s, e, i) && Enabled(s, e))
            || (s.attempts[i].phase.Claimed? && Enabled(s, CloseRemoved(s.attempts[i].starter)))
  {
    ReachableInv(threads, run);
    var s := After(threads, run).value;
    assert AttemptOk(s, i);
    var t := s.attempts[i].starter;
    var e := match s.attempts[i].phase
      case Claimed => Proceed(t)
      case Spawning => SpawnReady(i)
      case Returned(_) => Settle(i)
      case Expired(_) => CloseExpired(i)
      case Failing(_) => FailSection(i)
      case Installing(_) => InstallSection(i)
      case Dropping(_) => CloseDropped(i)
      case _ => Report(i);
    assert t < |s.tasks| ==> TaskOk(s, t);
    if s.attempts[i].phase.Claimed? && s.tasks[t].Removing? {
      assert Enabled(s, CloseRemoved(t));
    } else {
      assert OwnStep(s, e, i) && Enabled(s, e);
    }
  }

  /** Each own step lowers the attempt's rank, and by StepKeeps no step raises it. */
  lemma OwnStepLowersRank(s: State, e: Event, i: nat)
    requires Inv(s) && i < |s.attempts| && OwnStep(s, e, i) && Enabled(s, e)
    ensures Rank(Step(s, e).attempts[i]) < Rank(s.attempts[i]) <= 6
  {
    if e.Proceed? {
      assert TaskOk(s, e.t);
      assert Step(s, e) == DoProceed(s, e.t);
    } else {
      OwnPhaseChanges(s, e);
      StepKeeps(s, e);
    }
  }

  /** How many steps of a run were the attempt's own. */
  function OwnSteps(threads: nat, run: seq<Event>, i: nat): nat {
    if run == [] then 0
    else
      var before := run[..|run| - 1];
      OwnSteps(threads, before, i)
      + if After(threads, before).Some? && OwnStep(After(threads, before).value, run[|run| - 1], i) then 1 else 0
  }

  lemma RankFalls(s: State, e: Event, i: nat)
    requires Inv(s) && Enabled(s, e)
    ensures |s.attempts| <= |Step(s, e).attempts|
    ensures i >= |s.attempts| ==> !OwnStep(s, e, i)
    ensures i < |s.attempts| ==>
              Rank(Step(s, e).attempts[i]) + (if OwnStep(s, e, i) then 1 else 0) <= Rank(s.attempts[i])
  {
    StepKeeps(s, e);
    if OwnStep(s, e, i) {
      if e.Proceed? { assert TaskOk(s, e.t); }
      if i < |s.attempts| { OwnStepLowersRank(s, e, i); }
    } else if i < |s.attempts| {
      assert Ages(s.attempts[i], Step(s, e).attempts[i]);
    }
  }

  /** Over any run, the steps an attempt has taken and the rank it is left with make at most six: six own
      steps settle it, whatever else goes on. */
  lemma {:induction false} AtMostSixSteps(threads: nat, run: seq<Event>, i: nat)
    requires After(threads, run).Some?
    ensures var s := After(threads, run).value;
            OwnSteps(threads, run, i) + (if i < |s.attempts| then Rank(s.attempts[i]) else 0) <= 6
    ensures i >= |After(threads, run).value.attempts| ==> OwnSteps(threads, run, i) == 0
  {
    if run != [] {
      var before := run[..|run| - 1];
      AtMostSixSteps(threads, before, i);
      ReachableInv(threads, before);
      RankFalls(After(threads, before).value, run[|run| - 1], i);
    }
  }

  lemma OwnPhaseChanges(s: State, e: Event)
    requires Enabled(s, e) && IsAttemptEvent(e) && OwnStep(s, e, e.i)
    ensures Rank(Step(s, e).attempts[e.i]) < Rank(s.attempts[e.i])
  {
    match e
    case CloseExpired(i) => ClosePhaseChanges(s, e);
    case CloseDropped(i) => ClosePhaseChanges(s, e);
    case FailSection(i) => SectionPhaseChanges(s, e);
    case InstallSection(i) => SectionPhaseChanges(s, e);
    case Report(i) => assert Step(s, e) == DoReport(s, i);
    case _ => SpawnPhaseChanges(s, e);
  }

  lemma ClosePhaseChanges(s: State, e: Event)
    requires Enabled(s, e) && (e.CloseExpired? || e.CloseDropped?)
    ensures e.i < |Step(s, e).attempts| && Rank(Step(s, e).attempts[e.i]) < Rank(s.attempts[e.i])
  {
  }

  lemma SectionPhaseChanges(s: State, e: Event)
    requires Enabled(s, e) && (e.FailSection? || e.InstallSection?)
    ensures e.i < |Step(s, e).attempts| && Rank(Step(s, e).attempts[e.i]) < Rank(s.attempts[e.i])
  {
  }

  lemma SpawnPhaseChanges(s: State, e: Event)
    requires Enabled(s, e) && (e.SpawnReady? || e.SpawnRefused? || e.Settle?)
    ensures e.i < |Step(s, e).attempts| && Rank(Step(s, e).attempts[e.i]) < Rank(s.attempts[e.i])
  {
  }

  // ---- a refused quality request ----

  /** What a step says and does depends on everything but what was said before. */
  predicate ForgetsLog(s: State, e: Event, log: seq<Reply>) {
    && Enabled(s.(log := log), e) == Enabled(s, e)
    && (Enabled(s, e) ==>
          var s' := Step(s, e);
          s.log <= s'.log && Step(s.(log := log), e) == s'.(log := log + s'.log[|s.log|..]))
  }

  lemma ClaimsForgetLog(s: State, e: Event, log: seq<Reply>)
    requires e.Attach? || e.Detach? || e.Quality? || e.PowerStop? || e.StopSession?
    ensures ForgetsLog(s, e, log)
  {
  }

  lemma RepliesForgetLog(s: State, e: Event, log: seq<Reply>)
    requires e.PowerCheck? || e.ShutdownReturns? || e.BootReturns? || e.SendEcho?
    ensures ForgetsLog(s, e, log)
  {
  }

  lemma LaunchForgetsLog(s: State, t: nat, log: seq<Reply>)
    requires t < |s.tasks| && s.tasks[t].Unlocked? && s.tasks[t].after.Launch?
    ensures ForgetsLog(s, Proceed(t), log)
  {
  }

  lemma ProceedForgetsLog(s: State, t: nat, log: seq<Reply>)
    ensures ForgetsLog(s, Proceed(t), log)
  {
    if t < |s.tasks| && s.tasks[t].Unlocked? && s.tasks[t].after.Launch? {
      LaunchForgetsLog(s, t, log);
    }
  }

  lemma ClosesForgetLog(s: State, e: Event, log: seq<Reply>)
    requires e.CancelSession? || e.CloseRemoved?
    ensures ForgetsLog(s, e, log)
  {
  }

  lemma LateClosesForgetLog(s: State, e: Event, log: seq<Reply>)
    requires e.CloseExpired? || e.CloseDropped? || e.PumpClose?
    ensures ForgetsLog(s, e, log)
  {
  }

  lemma SpawnsForgetLog(s: State, e: Event, log: seq<Reply>)
    requires e.Watchdog? || e.SpawnReady? || e.SpawnRefused? || e.Settle?
    ensures ForgetsLog(s, e, log)
  {
  }

  lemma SectionsForgetLog(s: State, e: Event, log: seq<Reply>)
    requires e.FailSection? || e.InstallSection? || e.FramesEnd? || e.PumpSection?
    ensures ForgetsLog(s, e, log)
  {
  }

  lemma ReportsForgetLog(s: State, e: Event, log: seq<Reply>)
    requires e.Report? || e.PumpReport?
    ensures ForgetsLog(s, e, log)
  {
  }

  lemma StepsForgetLog(s: State, e: Event, log: seq<Reply>)
    ensures ForgetsLog(s, e, log)
  {
    match e
    case Watchdog(_) => SpawnsForgetLog(s, e, log);
    case SpawnReady(_) => SpawnsForgetLog(s, e, log);
    case SpawnRefused(_, _, _) => SpawnsForgetLog(s, e, log);
    case Settle(_) => SpawnsForgetLog(s, e, log);
    case FailSection(_) => SectionsForgetLog(s, e, log);
    case InstallSection(_) => SectionsForgetLog(s, e, log);
    case FramesEnd(_) => SectionsForgetLog(s, e, log);
    case PumpSection(_) => SectionsForgetLog(s, e, log);
    case Report(_) => ReportsForgetLog(s, e, log);
    case PumpReport(_) => ReportsForgetLog(s, e, log);
    case PowerCheck(_, _, _) => RepliesForgetLog(s, e, log);
    case Proceed(t) => ProceedForgetsLog(s, t, log);
    case ShutdownReturns(_, _) => RepliesForgetLog(s, e, log);
    case BootReturns(_, _) => RepliesForgetLog(s, e, log);
    case SendEcho(_) => RepliesForgetLog(s, e, log);
    case Attach(_, _) => ClaimsForgetLog(s, e, log);
    case Detach(_) => ClaimsForgetLog(s, e, log);
    case Quality(_) => ClaimsForgetLog(s, e, log);
    case PowerStop(_) => ClaimsForgetLog(s, e, log);
    case StopSession(_) => ClaimsForgetLog(s, e, log);
    case CancelSession(_) => ClosesForgetLog(s, e, log);
    case CloseRemoved(_) => ClosesForgetLog(s, e, log);
    case _ => LateClosesForgetLog(s, e, log);
  }

  /** The same state, and the same said about every attempt. */
  ghost predicate Alike(s: State, s': State) {
    s' == s.(log := s'.log) && forall kind, i :: Said(s'.log, kind, i) == Said(s.log, kind, i)
  }

  lemma StepsAlike(s: State, s': State, e: Event)
    requires Inv(s) && Alike(s, s')
    ensures Enabled(s', e) == Enabled(s, e)
    ensures Enabled(s, e) ==> Alike(Step(s, e), Step(s', e))
  {
    StepsForgetLog(s, e, s'.log);
    if Enabled(s, e) {
      StepKeeps(s, e);
      SpeaksAlike(s.log, s'.log, Step(s, e).log);
    }
  }

  lemma SpeaksAlike(a: seq<Reply>, b: seq<Reply>, more: seq<Reply>)
    requires a <= more && |more| <= |a| + 1
    requires forall kind, i :: Said(a, kind, i) == Said(b, kind, i)
    ensures forall kind, i :: Said(more, kind, i) == Said(b + more[|a|..], kind, i)
  {
    forall kind, i: nat ensures Said(more, kind, i) == Said(b + more[|a|..], kind, i) {
      if |more| == |a| {
        assert more == a && b + more[|a|..] == b;
      } else {
        var r := more[|a|];
        assert more == a + [r] && b + more[|a|..] == b + [r];
        SaidMore(a, r, kind, i);
        SaidMore(b, r, kind, i);
      }
    }
  }

  /** Two runs are possible together, and end alike. */
  ghost predicate AlikeRuns(threads: nat, p: seq<Event>, q: seq<Event>) {
    && (After(threads, p).Some? <==> After(threads, q).Some?)
    && (After(threads, p).Some? ==> Alike(After(threads, p).value, After(threads, q).value))
  }

  lemma {:induction false} RunsStayAlike(threads: nat, p: seq<Event>, q: seq<Event>, e: Event)
    requires AlikeRuns(threads, p, q)
    ensures AlikeRuns(threads, p + [e], q + [e])
  {
    assert (p + [e])[..|p|] == p && (q + [e])[..|q|] == q;
    if After(threads, p).Some? {
      ReachableInv(threads, p);
      StepsAlike(After(threads, p).value, After(threads, q).value, e);
    }
  }

  lemma {:induction false} ContinueAlike(threads: nat, p: seq<Event>, q: seq<Event>, more: seq<Event>)
    requires AlikeRuns(threads, p, q)
    ensures AlikeRuns(threads, p + more, q + more)
    decreases |more|
  {
    if more == [] {
      assert p + more == p && q + more == q;
    } else {
      RunsStayAlike(threads, p, q, more[0]);
      ContinueAlike(threads, p + [more[0]], q + [more[0]], more[1..]);
      assert (p + [more[0]]) + more[1..] == p + more && (q + [more[0]]) + more[1..] == q + more;
    }
  }

  /** A quality request with nothing attached is answered and otherwise has not happened: whatever follows
      is possible with it if and only if it is without, and leaves every attempt, the slot, the generation
      and everything said about any attempt the same. */
  lemma {:induction false} RefusedQualityChangesNothing(threads: nat, run: seq<Event>, t: nat, more: seq<Event>)
    requires After(threads, run).Some?
    requires IdleTask(After(threads, run).value, t) && After(threads, run).value.core.att.None?
    ensures AlikeRuns(threads, run + more, run + [Quality(t)] + more)
  {
    QualityRefused(threads, run, t);
    ContinueAlike(threads, run, run + [Quality(t)], more);
  }

  lemma {:induction false} QualityRefused(threads: nat, run: seq<Event>, t: nat)
    requires After(threads, run).Some?
    requires IdleTask(After(threads, run).value, t) && After(threads, run).value.core.att.None?
    ensures var s := After(threads, run).value;
            && After(threads, run + [Quality(t)]) == Some(s.(log := s.log + [NoAttachment]))
            && Alike(s, s.(log := s.log + [NoAttachment]))
  {
    assert (run + [Quality(t)])[..|run|] == run;
    NoAttachmentUnsaid(After(threads, run).value.log);
  }

  lemma NoAttachmentUnsaid(log: seq<Reply>)
    ensures forall kind, i :: Said(log + [NoAttachment], kind, i) == Said(log, kind, i)
  {
    forall kind, i: nat ensures Said(log + [NoAttachment], kind, i) == Said(log, kind, i) {
      SaidMore(log, NoAttachment, kind, i);
    }
  }

  // ---- removal and stream_ended ----

  /** An attachment sits in the slot until it is removed, by one claim or by its own pump;
      stream_ended is sent at most once, only for an attachment its pump removed. */
  lemma {:induction false} RemovalDecidesStreamEnded(threads: nat, run: seq<Event>, i: nat)
    requires After(threads, run).Some? && i < |After(threads, run).value.attempts|
    ensures var s := After(threads, run).value;
            var a := s.attempts[i];
            && (WasInstalled(a.phase) && a.remover.Nobody? <==> s.core.att.Some? && s.core.att.value.id == i)
            && |Said(s.log, End, i)| == (if a.pump == Gone(true) then 1 else 0)
            && (Said(s.log, End, i) != [] ==> a.remover.ByPump?)
  {
    ReachableLog(threads, run);
    var s := After(threads, run).value;
    assert AttemptOk(s, i) && LogOk(s, End, i);
  }

  lemma PumpReportSays(s: State, i: nat)
    requires Enabled(s, PumpReport(i))
    ensures Said(Step(s, PumpReport(i)).log, End, i) == Said(s.log, End, i) + if s.live then [StreamEnded(i)] else []
  {
    assert Step(s, PumpReport(i)) == DoPumpReport(s, i);
    SaidMore(s.log, StreamEnded(i), End, i);
  }

  /** A pump that removed its attachment speaks exactly when the session is still alive. */
  lemma {:induction false} PumpSpeaksIffAlive(threads: nat, run: seq<Event>, i: nat)
    requires After(threads, run).Some? && Enabled(After(threads, run).value, PumpReport(i))
    ensures var s := After(threads, run).value;
            && s.attempts[i].remover.ByPump?
            && Said(s.log, End, i) == []
            && Said(Step(s, PumpReport(i)).log, End, i) == if s.live then [StreamEnded(i)] else []
  {
    ReachableLog(threads, run);
    var s := After(threads, run).value;
    assert AttemptOk(s, i) && LogOk(s, End, i);
    PumpReportSays(s, i);
  }

  /** A pump that finds its attachment gone says nothing. */
  lemma {:induction false} RemovedPumpIsSilent(threads: nat, run: seq<Event>, i: nat)
    requires After(threads, run).Some? && Enabled(After(threads, run).value, PumpSection(i))
    ensures var s := After(threads, run).value;
            !s.attempts[i].remover.Nobody? <==> Step(s, PumpSection(i)).attempts[i].pump == Gone(false)
    ensures var s := After(threads, run).value;
            s.attempts[i].remover.Nobody? <==> Step(s, PumpSection(i)).attempts[i].remover.ByPump?
  {
    ReachableInv(threads, run);
    assert AttemptOk(After(threads, run).value, i);
  }
}
