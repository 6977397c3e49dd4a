/** Every event of the attach machine keeps its invariant, and says what it leaves alone. */
module AttachSteps {
  import opened Base
  import opened AttachCore
  import opened AttachMachine
  import opened AttachInvariant

  // ---- what a step may change besides keeping the invariant ----

  datatype Kind = Ack | Terminal | End

  /** The attempt a reply is about and the part it plays, if it is about one. */
  function About(r: Reply): Option<(Kind, nat)> {
    match r
    case Attaching(i) => Some((Ack, i))
    case QualityEcho(i) => Some((Ack, i))
    case Attached(i) => Some((Terminal, i))
    case AttachError(i, _, _) => Some((Terminal, i))
    case StreamEnded(i) => Some((End, i))
    case _ => None
  }

  /** What must have been said about attempt i by now, as a function of where it stands. */
  function Due(a: Attempt, kind: Kind, i: nat): seq<Reply> {
    match kind
    case Ack => if !a.acked then [] else [if a.quality then QualityEcho(i) else Attaching(i)]
    case Terminal =>
      if !a.phase.Finished? then []
      else (match a.phase.outcome
            case Installed => [Attached(i)]
            case Failed(cause) => [ErrorReply(i, cause)]
            case Silent => [])
    case End => if a.pump == Gone(true) then [StreamEnded(i)] else []
  }

  /** An attempt's identity is fixed, and so are its outcome and its removal once they exist. */
  predicate Ages(a: Attempt, b: Attempt) {
    && b.gen == a.gen && b.udid == a.udid && b.starter == a.starter && b.quality == a.quality
    && (a.phase.Finished? ==> b.phase == a.phase)
    && (!a.remover.Nobody? ==> b.remover == a.remover)
    && (a.settled ==> b.settled && b.timedOut == a.timedOut)
    && (a.pump.Gone? ==> b.pump == a.pump)
    && (a.acked ==> b.acked)
    && Rank(b) <= Rank(a)
  }

  /** How many of its own steps an attempt's goroutine has left. */
  function Rank(a: Attempt): nat {
    match a.phase
    case Claimed => 6
    case Spawning => 5
    case Returned(_) => 4
    case Expired(_) => 3
    case Failing(_) => 2
    case Installing(_) => 2
    case Dropping(_) => 1
    case Reporting(_) => 1
    case Finished(_) => 0
  }

  /** The session becomes busy with a device only if it was, or if a doAttach asked for it. */
  predicate Calmer(s: State, s': State) {
    && (s'.core.att.Some? ==> Streaming(s.core, s'.core.att.value.udid))
    && (s'.core.pending != "" ==>
          || Streaming(s.core, s'.core.pending)
          || (|s'.attempts| == |s.attempts| + 1
              && s'.attempts[|s.attempts|].udid == s'.core.pending
              && !s'.attempts[|s.attempts|].quality))
  }

  /** Everything a step does outside the invariant: it moves attempt i only (the next free index
      when none) and says at most one reply, which is about i if it is about any. */
  ghost predicate Moves(s: State, s': State, i: nat) {
    && |s.attempts| <= |s'.attempts| <= |s.attempts| + 1
    && (forall k :: 0 <= k < |s.attempts| ==> Ages(s.attempts[k], s'.attempts[k]))
    && (forall k :: 0 <= k < |s.attempts| && k != i ==>
          && s'.attempts[k].phase == s.attempts[k].phase && s'.attempts[k].pump == s.attempts[k].pump
          && s'.attempts[k].acked == s.attempts[k].acked)
    && (|s'.attempts| > |s.attempts| ==>
          i == |s.attempts| && s'.attempts[i].phase.Claimed? && s'.attempts[i].pump.NoPump? && !s'.attempts[i].acked)
    && Calmer(s, s')
    && Speaks(s, s', i)
  }

  /** At most one reply, and exactly when something new is due. */
  ghost predicate Speaks(s: State, s': State, i: nat) {
    && |s.attempts| <= |s'.attempts|
    && (s'.log == s.log || (|s'.log| == |s.log| + 1 && s'.log == s.log + [s'.log[|s.log|]]))
    && var about := if |s'.log| == |s.log| + 1 then About(s'.log[|s.log|]) else None;
       && (about.Some? ==> i < |s.attempts| && about.value.1 == i)
       && (i < |s.attempts| ==>
             forall kind ::
               if about == Some((kind, i)) then
                 Due(s.attempts[i], kind, i) == [] && Due(s'.attempts[i], kind, i) == [s'.log[|s.log|]]
               else
                 Due(s'.attempts[i], kind, i) == Due(s.attempts[i], kind, i))
  }

  ghost predicate Good(s: State, s': State, i: nat) {
    Inv(s') && Moves(s, s', i)
  }

  // ---- an attempt's goroutine, its watchdog and its pump ----

  lemma WatchdogMoves(s: State, i: nat)
    requires Inv(s) && i < |s.attempts| && !s.attempts[i].phase.Claimed?
    ensures Moves(s, DoWatchdog(s, i), i)
  {
    assert AttemptOk(s, i);
  }

  lemma KeepWatchdog(s: State, i: nat)
    requires Inv(s) && i < |s.attempts| && !s.attempts[i].phase.Claimed?
    ensures Inv(DoWatchdog(s, i))
  {
    assert AttemptOk(s, i);
    Framed(s, DoWatchdog(s, i), i, |s.tasks|, |s.owner|);
  }

  lemma KeepSpawnReady(s: State, i: nat)
    requires Inv(s) && i < |s.attempts| && s.attempts[i].phase.Spawning?
    ensures Good(s, DoSpawnReady(s, i), i)
  {
    assert AttemptOk(s, i);
    Framed(s, DoSpawnReady(s, i), i, |s.tasks|, |s.owner|);
  }

  lemma KeepSpawnRefused(s: State, i: nat, code: string, retryable: bool)
    requires Inv(s) && i < |s.attempts| && s.attempts[i].phase.Spawning?
    ensures Good(s, DoSpawnRefused(s, i, code, retryable), i)
  {
    assert AttemptOk(s, i);
    Framed(s, DoSpawnRefused(s, i, code, retryable), i, |s.tasks|, |s.owner|);
  }

  lemma SettleMoves(s: State, i: nat)
    requires Inv(s) && i < |s.attempts| && s.attempts[i].phase.Returned?
    ensures Moves(s, DoSettle(s, i), i)
  {
    assert AttemptOk(s, i);
  }

  lemma KeepSettle(s: State, i: nat)
    requires Inv(s) && i < |s.attempts| && s.attempts[i].phase.Returned?
    ensures Inv(DoSettle(s, i))
  {
    assert AttemptOk(s, i);
    Framed(s, DoSettle(s, i), i, |s.tasks|, |s.owner|);
  }

  lemma CloseExpiredMoves(s: State, i: nat)
    requires Inv(s) && i < |s.attempts| && s.attempts[i].phase.Expired?
    ensures Moves(s, DoCloseExpired(s, i), i)
  {
    assert AttemptOk(s, i);
  }

  lemma KeepCloseExpired(s: State, i: nat)
    requires Inv(s) && i < |s.attempts| && s.attempts[i].phase.Expired?
    ensures Inv(DoCloseExpired(s, i))
  {
    assert AttemptOk(s, i);
    assert FeedOk(s, s.attempts[i].phase.late);
    Framed(s, DoCloseExpired(s, i), i, |s.tasks|, s.attempts[i].phase.late);
  }

  lemma FailMoves(s: State, i: nat)
    requires Inv(s) && i < |s.attempts| && s.attempts[i].phase.Failing?
    ensures Moves(s, DoFail(s, i), i)
  {
    assert AttemptOk(s, i);
  }

  lemma KeepFail(s: State, i: nat)
    requires Inv(s) && i < |s.attempts| && s.attempts[i].phase.Failing?
    ensures Inv(DoFail(s, i))
  {
    if Fail(s.core, s.attempts[i].gen).Some? {
      KeepGivenUp(s, i);
    } else {
      assert AttemptOk(s, i);
      Framed(s, DoFail(s, i), i, |s.tasks|, |s.owner|);
    }
  }

  lemma KeepGivenUp(s: State, i: nat)
    requires Inv(s) && i < |s.attempts| && s.attempts[i].phase.Failing? && Fail(s.core, s.attempts[i].gen).Some?
    ensures Inv(DoFail(s, i))
  {
    assert AttemptOk(s, i);
    Framed(s, DoFail(s, i), i, |s.tasks|, |s.owner|);
  }

  lemma InstallMoves(s: State, i: nat)
    requires Inv(s) && i < |s.attempts| && s.attempts[i].phase.Installing?
    ensures Moves(s, DoInstall(s, i), i)
  {
    assert AttemptOk(s, i);
  }

  lemma KeepInstall(s: State, i: nat)
    requires Inv(s) && i < |s.attempts| && s.attempts[i].phase.Installing?
    ensures Inv(DoInstall(s, i))
  {
    if s.core.gen == s.attempts[i].gen {
      KeepInstalled(s, i);
    } else {
      assert AttemptOk(s, i);
      assert FeedOk(s, s.attempts[i].phase.spawned);
      Framed(s, DoInstall(s, i), i, |s.tasks|, s.attempts[i].phase.spawned);
    }
  }

  lemma KeepInstalled(s: State, i: nat)
    requires Inv(s) && i < |s.attempts| && s.attempts[i].phase.Installing? && s.core.gen == s.attempts[i].gen
    ensures Inv(DoInstall(s, i))
  {
    assert AttemptOk(s, i);
    assert FeedOk(s, s.attempts[i].phase.spawned);
    Framed(s, DoInstall(s, i), i, |s.tasks|, s.attempts[i].phase.spawned);
  }

  lemma CloseDroppedMoves(s: State, i: nat)
    requires Inv(s) && i < |s.attempts| && s.attempts[i].phase.Dropping?
    ensures Moves(s, DoCloseDropped(s, i), i)
  {
    assert AttemptOk(s, i);
  }

  lemma KeepCloseDropped(s: State, i: nat)
    requires Inv(s) && i < |s.attempts| && s.attempts[i].phase.Dropping?
    ensures Inv(DoCloseDropped(s, i))
  {
    assert AttemptOk(s, i);
    assert FeedOk(s, s.attempts[i].phase.dropped);
    Framed(s, DoCloseDropped(s, i), i, |s.tasks|, s.attempts[i].phase.dropped);
  }

  /** A single reply about attempt i that is newly due. */
  lemma SaysOne(s: State, s': State, i: nat, kind: Kind, r: Reply)
    requires i < |s.attempts| <= |s'.attempts| && s'.log == s.log + [r] && About(r) == Some((kind, i))
    requires Due(s.attempts[i], kind, i) == [] && Due(s'.attempts[i], kind, i) == [r]
    requires forall other :: other != kind ==> Due(s'.attempts[i], other, i) == Due(s.attempts[i], other, i)
    ensures Speaks(s, s', i)
  {
  }

  lemma ReportMoves(s: State, i: nat)
    requires Inv(s) && i < |s.attempts| && s.attempts[i].phase.Reporting?
    ensures Moves(s, DoReport(s, i), i)
  {
    assert AttemptOk(s, i);
    var verdict := s.attempts[i].phase.verdict;
    SaysOne(s, DoReport(s, i), i, Terminal, if verdict.Installed? then Attached(i) else ErrorReply(i, verdict.cause));
  }

  /** The invariant does not look at what was said, nor at which devices were powered off. */
  lemma SayKeepsInv(s: State, s': State)
    requires Inv(s) && s' == s.(log := s'.log, downs := s'.downs)
    ensures Inv(s')
  {
    forall i, j | 0 <= i < j < |s'.attempts| ensures OrderOk(s', i, j) { assert OrderOk(s, i, j); }
    forall i | 0 <= i < |s'.attempts| ensures AttemptOk(s', i) { assert AttemptOk(s, i); }
    forall f | 0 <= f < |s'.owner| ensures FeedOk(s', f) { assert FeedOk(s, f); }
    forall t | 0 <= t < |s'.tasks| ensures TaskOk(s', t) { assert TaskOk(s, t); }
  }

  lemma KeepReport(s: State, i: nat)
    requires Inv(s) && i < |s.attempts| && s.attempts[i].phase.Reporting?
    ensures Inv(DoReport(s, i))
  {
    assert AttemptOk(s, i);
    var s' := At(s, i, Finished(s.attempts[i].phase.verdict));
    Framed(s, s', i, |s.tasks|, |s.owner|);
    SayKeepsInv(s', DoReport(s, i));
  }

  lemma KeepFramesEnd(s: State, i: nat)
    requires Inv(s) && i < |s.attempts| && s.attempts[i].pump.Pumping?
    ensures Good(s, DoFramesEnd(s, i), i)
  {
    assert AttemptOk(s, i);
    Framed(s, DoFramesEnd(s, i), i, |s.tasks|, |s.owner|);
  }

  lemma PumpSectionMoves(s: State, i: nat)
    requires Inv(s) && i < |s.attempts| && s.attempts[i].pump.Leaving?
    ensures Moves(s, DoPumpSection(s, i), i)
  {
    assert AttemptOk(s, i);
  }

  lemma KeepRelease(s: State, i: nat)
    requires Inv(s) && i < |s.attempts| && s.attempts[i].pump.Leaving? && Release(s.core, i).Some?
    ensures Inv(DoPumpSection(s, i))
  {
    assert AttemptOk(s, i);
    assert FeedOk(s, s.attempts[i].pump.source);
    Framed(s, DoPumpSection(s, i), i, |s.tasks|, s.attempts[i].pump.source);
  }

  lemma KeepPumpSection(s: State, i: nat)
    requires Inv(s) && i < |s.attempts| && s.attempts[i].pump.Leaving?
    ensures Inv(DoPumpSection(s, i))
  {
    assert AttemptOk(s, i);
    if Release(s.core, i).Some? {
      KeepRelease(s, i);
    } else {
      Framed(s, DoPumpSection(s, i), i, |s.tasks|, |s.owner|);
    }
  }

  lemma PumpCloseMoves(s: State, i: nat)
    requires Inv(s) && i < |s.attempts| && s.attempts[i].pump.Closing?
    ensures Moves(s, DoPumpClose(s, i), i)
  {
    assert AttemptOk(s, i);
  }

  lemma KeepPumpClose(s: State, i: nat)
    requires Inv(s) && i < |s.attempts| && s.attempts[i].pump.Closing?
    ensures Inv(DoPumpClose(s, i))
  {
    assert AttemptOk(s, i);
    assert FeedOk(s, s.attempts[i].pump.source);
    Framed(s, DoPumpClose(s, i), i, |s.tasks|, s.attempts[i].pump.source);
  }

  lemma PumpReportMoves(s: State, i: nat)
    requires Inv(s) && i < |s.attempts| && s.attempts[i].pump.Telling?
    ensures Moves(s, DoPumpReport(s, i), i)
  {
    assert AttemptOk(s, i);
  }

  lemma KeepPumpReport(s: State, i: nat)
    requires Inv(s) && i < |s.attempts| && s.attempts[i].pump.Telling?
    ensures Inv(DoPumpReport(s, i))
  {
    assert AttemptOk(s, i);
    var s' := PumpAt(s, i, Gone(s.live));
    Framed(s, s', i, |s.tasks|, |s.owner|);
    SayKeepsInv(s', DoPumpReport(s, i));
  }

  // ---- request threads ----

  lemma KeepPowerCheck(s: State, t: nat, udid: string, restart: bool)
    requires Inv(s) && IdleTask(s, t)
    ensures Good(s, DoPowerCheck(s, t, udid, restart), |s.attempts|)
  {
    Framed(s, DoPowerCheck(s, t, udid, restart), |s.attempts|, t, |s.owner|);
  }

  lemma KeepCancel(s: State, t: nat)
    requires Inv(s) && IdleTask(s, t)
    ensures Good(s, DoCancel(s, t), |s.attempts|)
  {
    Framed(s, DoCancel(s, t), |s.attempts|, t, |s.owner|);
  }

  lemma ShutdownReturnsMoves(s: State, t: nat, ok: bool)
    requires Inv(s) && t < |s.tasks| && s.tasks[t].PoweringOff?
    ensures Moves(s, DoShutdownReturns(s, t, ok), |s.attempts|)
  {
  }

  lemma KeepShutdownReturns(s: State, t: nat, ok: bool)
    requires Inv(s) && t < |s.tasks| && s.tasks[t].PoweringOff?
    ensures Inv(DoShutdownReturns(s, t, ok))
  {
    var s' := TaskAt(s, t, if s.tasks[t].restart && ok then Booting(s.tasks[t].udid) else Idle);
    Framed(s, s', |s.attempts|, t, |s.owner|);
    SayKeepsInv(s', DoShutdownReturns(s, t, ok));
  }

  lemma KeepBootReturns(s: State, t: nat, ok: bool)
    requires Inv(s) && t < |s.tasks| && s.tasks[t].Booting?
    ensures Good(s, DoBootReturns(s, t, ok), |s.attempts|)
  {
    Framed(s, DoBootReturns(s, t, ok), |s.attempts|, t, |s.owner|);
  }

  lemma KeepCloseRemoved(s: State, t: nat)
    requires Inv(s) && t < |s.tasks| && s.tasks[t].Removing?
    ensures Good(s, DoCloseRemoved(s, t), |s.attempts|)
  {
    assert TaskOk(s, t) && FeedOk(s, s.tasks[t].feed);
    Framed(s, DoCloseRemoved(s, t), |s.attempts|, t, s.tasks[t].feed);
  }

  lemma LaunchMoves(s: State, t: nat)
    requires Inv(s) && t < |s.tasks| && s.tasks[t].Unlocked? && s.tasks[t].after.Launch?
    ensures Moves(s, DoProceed(s, t), s.tasks[t].after.attempt)
  {
    var i := s.tasks[t].after.attempt;
    assert TaskOk(s, t) && AttemptOk(s, i);
  }

  lemma KeepLaunch(s: State, t: nat)
    requires Inv(s) && t < |s.tasks| && s.tasks[t].Unlocked? && s.tasks[t].after.Launch?
    ensures Inv(DoProceed(s, t))
  {
    var i := s.tasks[t].after.attempt;
    assert TaskOk(s, t);
    if s.attempts[i].quality {
      KeepStarted(s, t, i, At(s, i, Spawning), Echoing(i));
    } else {
      KeepStarted(s, t, i, Acked(At(s, i, Spawning), i), Idle);
      SayKeepsInv(TaskAt(Acked(At(s, i, Spawning), i), t, Idle), DoProceed(s, t));
    }
  }

  /** The goroutine runs, and its starter still has to answer or has just answered. */
  lemma KeepStarted(s: State, t: nat, i: nat, m: State, task: Task)
    requires Inv(s) && t < |s.tasks| && s.tasks[t] == Unlocked(Launch(i)) && i < |s.attempts|
    requires || (m == At(s, i, Spawning) && task == Echoing(i) && s.attempts[i].quality)
             || (m == Acked(At(s, i, Spawning), i) && task == Idle)
    ensures Inv(TaskAt(m, t, task))
  {
    assert TaskOk(s, t) && AttemptOk(s, i);
    Framed(s, TaskAt(m, t, task), i, t, |s.owner|);
  }

  lemma EchoMoves(s: State, t: nat)
    requires Inv(s) && t < |s.tasks| && s.tasks[t].Echoing?
    ensures Moves(s, DoEcho(s, t), s.tasks[t].attempt)
  {
    assert TaskOk(s, t);
    SaysOne(s, DoEcho(s, t), s.tasks[t].attempt, Ack, QualityEcho(s.tasks[t].attempt));
  }

  lemma KeepEcho(s: State, t: nat)
    requires Inv(s) && t < |s.tasks| && s.tasks[t].Echoing?
    ensures Inv(DoEcho(s, t))
  {
    var i := s.tasks[t].attempt;
    assert TaskOk(s, t) && AttemptOk(s, i);
    var s' := TaskAt(Acked(s, i), t, Idle);
    Framed(s, s', i, t, |s.owner|);
    SayKeepsInv(s', DoEcho(s, t));
  }

  lemma ProceedMoves(s: State, t: nat)
    requires Inv(s) && t < |s.tasks| && s.tasks[t].Unlocked? && !s.tasks[t].after.Launch?
    ensures Moves(s, DoProceed(s, t), |s.attempts|)
  {
  }

  lemma KeepProceed(s: State, t: nat)
    requires Inv(s) && t < |s.tasks| && s.tasks[t].Unlocked? && !s.tasks[t].after.Launch?
    ensures Inv(DoProceed(s, t))
  {
    Framed(s, DoProceed(s, t), |s.attempts|, t, |s.owner|);
  }

  lemma TakeSlotMoves(s: State, t: nat, after: Then)
    requires CoreOk(s) && t < |s.tasks|
    ensures Moves(s, TakeSlot(s, t, Claim(s.core, ""), after), |s.attempts|)
  {
  }

  lemma KeepTakeFeed(s: State, t: nat, after: Then)
    requires Inv(s) && t < |s.tasks| && !after.Launch? && s.core.att.Some?
    requires !s.tasks[t].Removing? && Launches(s.tasks[t]).None?
    ensures Inv(TakeSlot(s, t, Claim(s.core, ""), after))
  {
    var a := s.core.att.value;
    assert AttemptOk(s, a.id) && FeedOk(s, a.feed);
    Framed(s, TakeSlot(s, t, Claim(s.core, ""), after), a.id, t, a.feed);
  }

  /** A claim that attaches nothing next. */
  lemma KeepTakeSlot(s: State, t: nat, after: Then)
    requires Inv(s) && t < |s.tasks| && !after.Launch?
    requires !s.tasks[t].Removing? && Launches(s.tasks[t]).None?
    ensures Good(s, TakeSlot(s, t, Claim(s.core, ""), after), |s.attempts|)
  {
    TakeSlotMoves(s, t, after);
    if s.core.att.Some? {
      KeepTakeFeed(s, t, after);
    } else {
      Framed(s, TakeSlot(s, t, Claim(s.core, ""), after), |s.attempts|, t, |s.owner|);
    }
  }

  lemma StartMoves(s: State, t: nat, udid: string, quality: bool)
    requires CoreOk(s) && IdleTask(s, t) && udid != "" && (quality ==> Streaming(s.core, udid))
    ensures Moves(s, StartAttempt(s, t, Claim(s.core, udid), udid, quality), |s.attempts|)
  {
  }

  /** One more attempt for thread t to launch, on top of a claim that left nothing behind. */
  function WithAttempt(m: State, t: nat, udid: string, quality: bool): State
    requires t < |m.tasks|
  {
    var after := Launch(|m.attempts|);
    m.(core := m.core.(pending := udid),
       tasks := m.tasks[t := if m.tasks[t].Removing? then Removing(m.tasks[t].feed, after) else Unlocked(after)],
       attempts := m.attempts + [Attempt(m.core.gen, udid, t, quality, false, false, Claimed, NoPump, Nobody, false)])
  }

  lemma KeepWithAttempt(m: State, t: nat, udid: string, quality: bool)
    requires Inv(m) && t < |m.tasks| && Launches(m.tasks[t]).None? && udid != ""
    requires m.tasks[t].Removing? || m.tasks[t].Unlocked?
    requires m.core.att.None? && m.core.pending == ""
    requires m.core.gen > 0 && forall i :: 0 <= i < |m.attempts| ==> m.attempts[i].gen < m.core.gen
    ensures Inv(WithAttempt(m, t, udid, quality))
  {
    var s' := WithAttempt(m, t, udid, quality);
    var n := |m.attempts|;
    forall i, j | 0 <= i < j < |s'.attempts| ensures OrderOk(s', i, j) {
      if j < n { assert OrderOk(m, i, j); }
    }
    forall i | 0 <= i < |s'.attempts| ensures AttemptOk(s', i) {
      if i < n { assert AttemptOk(m, i); }
    }
    forall f | 0 <= f < |s'.owner| ensures FeedOk(s', f) {
      assert FeedOk(m, f);
    }
    forall k | 0 <= k < |s'.tasks| ensures TaskOk(s', k) {
      assert TaskOk(m, k);
    }
  }

  /** A claim for a device: as a claim for none, and then one more attempt. */
  lemma KeepStartAttempt(s: State, t: nat, udid: string, quality: bool)
    requires Inv(s) && IdleTask(s, t) && udid != "" && (quality ==> Streaming(s.core, udid))
    ensures Inv(StartAttempt(s, t, Claim(s.core, udid), udid, quality))
  {
    var m := TakeSlot(s, t, Claim(s.core, ""), Rest);
    KeepTakeSlot(s, t, Rest);
    forall i | 0 <= i < |m.attempts| ensures m.attempts[i].gen < m.core.gen {
      assert AttemptOk(s, i);
    }
    KeepWithAttempt(m, t, udid, quality);
    assert StartAttempt(s, t, Claim(s.core, udid), udid, quality) == WithAttempt(m, t, udid, quality);
  }

  lemma KeepAttach(s: State, t: nat, udid: string)
    requires Inv(s) && IdleTask(s, t)
    ensures Good(s, DoAttach(s, t, udid), |s.attempts|)
  {
    if udid == "" {
      Framed(s, DoAttach(s, t, udid), |s.attempts|, |s.tasks|, |s.owner|);
    } else {
      StartMoves(s, t, udid, false);
      KeepStartAttempt(s, t, udid, false);
    }
  }

  lemma KeepQuality(s: State, t: nat)
    requires Inv(s) && IdleTask(s, t)
    ensures Good(s, DoQuality(s, t), |s.attempts|)
  {
    if s.core.att.None? {
      Framed(s, DoQuality(s, t), |s.attempts|, |s.tasks|, |s.owner|);
    } else {
      assert AttemptOk(s, s.core.att.value.id);
      StartMoves(s, t, s.core.att.value.udid, true);
      KeepStartAttempt(s, t, s.core.att.value.udid, true);
    }
  }

  // ---- every event, every run ----

  /** The attempt an event moves; the next free index when it moves none. */
  function Moved(s: State, e: Event): nat
    requires Enabled(s, e)
  {
    match e
    case Proceed(t) => if s.tasks[t].after.Launch? then s.tasks[t].after.attempt else |s.attempts|
    case SendEcho(t) => s.tasks[t].attempt
    case _ => if IsAttemptEvent(e) then e.i else |s.attempts|
  }

  predicate IsAttemptEvent(e: Event) {
    || e.Watchdog? || e.SpawnReady? || e.SpawnRefused? || e.Settle? || e.CloseExpired? || e.FailSection?
    || e.InstallSection? || e.CloseDropped? || e.Report? || e.FramesEnd? || e.PumpSection? || e.PumpClose?
    || e.PumpReport?
  }

  lemma ThreadKeeps(s: State, e: Event)
    requires Inv(s) && Enabled(s, e) && !IsAttemptEvent(e)
    ensures Good(s, Step(s, e), Moved(s, e))
  {
    match e
    case Attach(t, udid) => KeepAttach(s, t, udid);
    case Detach(t) => KeepTakeSlot(s, t, SayDetached(Claim(s.core, "").prev));
    case Quality(t) => KeepQuality(s, t);
    case PowerCheck(t, udid, restart) => KeepPowerCheck(s, t, udid, restart);
    case PowerStop(t) => KeepTakeSlot(s, t, Power(s.tasks[t].udid, s.tasks[t].restart, |s.attempts|));
    case CancelSession(t) => KeepCancel(s, t);
    case StopSession(t) => KeepTakeSlot(s, t, Rest);
    case CloseRemoved(t) => KeepCloseRemoved(s, t);
    case Proceed(t) =>
      if s.tasks[t].after.Launch? {
        LaunchMoves(s, t);
        KeepLaunch(s, t);
      } else {
        ProceedMoves(s, t);
        KeepProceed(s, t);
      }
    case SendEcho(t) => EchoMoves(s, t); KeepEcho(s, t);
    case ShutdownReturns(t, ok) => ShutdownReturnsMoves(s, t, ok); KeepShutdownReturns(s, t, ok);
    case BootReturns(t, ok) => KeepBootReturns(s, t, ok);
  }

  lemma AttemptKeeps(s: State, e: Event)
    requires Inv(s) && Enabled(s, e) && IsAttemptEvent(e)
    ensures Good(s, Step(s, e), e.i)
  {
    match e
    case Watchdog(i) => WatchdogMoves(s, i); KeepWatchdog(s, i);
    case SpawnReady(i) => KeepSpawnReady(s, i);
    case SpawnRefused(i, code, retryable) => KeepSpawnRefused(s, i, code, retryable);
    case Settle(i) => SettleMoves(s, i); KeepSettle(s, i);
    case CloseExpired(i) => CloseExpiredMoves(s, i); KeepCloseExpired(s, i);
    case FailSection(i) => FailMoves(s, i); KeepFail(s, i);
    case InstallSection(i) => InstallMoves(s, i); KeepInstall(s, i);
    case CloseDropped(i) => CloseDroppedMoves(s, i); KeepCloseDropped(s, i);
    case Report(i) => ReportMoves(s, i); KeepReport(s, i);
    case FramesEnd(i) => KeepFramesEnd(s, i);
    case PumpSection(i) => PumpSectionMoves(s, i); KeepPumpSection(s, i);
    case PumpClose(i) => PumpCloseMoves(s, i); KeepPumpClose(s, i);
    case PumpReport(i) => PumpReportMoves(s, i); KeepPumpReport(s, i);
  }

  lemma StepKeeps(s: State, e: Event)
    requires Inv(s) && Enabled(s, e)
    ensures Good(s, Step(s, e), Moved(s, e))
  {
    if IsAttemptEvent(e) { AttemptKeeps(s, e); } else { ThreadKeeps(s, e); }
  }

  /** Every reachable state satisfies the invariant. */
  lemma {:induction false} ReachableInv(threads: nat, run: seq<Event>)
    requires After(threads, run).Some?
    ensures Inv(After(threads, run).value)
  {
    if run != [] {
      ReachableInv(threads, run[..|run| - 1]);
      StepKeeps(After(threads, run[..|run| - 1]).value, run[|run| - 1]);
    }
  }
}
