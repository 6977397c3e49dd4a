/** The invariant of the attach machine and the proof that every step keeps it. */
module AttachInvariant {
  import opened Base
  import opened AttachMachine

  /** The feed an attempt's goroutine must see closed or handed over. */
  function PhaseFeed(p: Phase): Option<nat> {
    match p
    case Returned(Ready(f)) => Some(f)
    case Expired(f) => Some(f)
    case Installing(f) => Some(f)
    case Dropping(f) => Some(f)
    case _ => None
  }

  /** Claimed, and neither installed, failed nor superseded in its section yet. */
  predicate InFlight(p: Phase) {
    p.Claimed? || p.Spawning? || p.Returned? || p.Expired? || p.Failing? || p.Installing?
  }

  predicate WasInstalled(p: Phase) {
    p == Reporting(Installed) || p == Finished(Installed)
  }

  /** The attempt a request thread has claimed and has yet to start or to answer for. */
  function Launches(task: Task): Option<nat> {
    if task.Echoing? then Some(task.attempt)
    else if (task.Removing? || task.Unlocked?) && task.after.Launch? then Some(task.after.attempt)
    else None
  }

  /** What holds of the guarded fields. */
  ghost predicate CoreOk(s: State) {
    && |s.owner| == |s.closes|
    && (s.core.att.Some? ==>
          var a := s.core.att.value;
          && s.core.pending == ""
          && a.id < |s.attempts|
          && s.attempts[a.id].gen == s.core.gen
          && s.attempts[a.id].udid == a.udid
          && WasInstalled(s.attempts[a.id].phase)
          && s.attempts[a.id].remover.Nobody?
          && (s.attempts[a.id].pump == Pumping(a.feed) || s.attempts[a.id].pump == Leaving(a.feed))
          && a.feed < |s.owner| && s.owner[a.feed] == OfSlot)
    && (s.core.pending != "" ==>
          && |s.attempts| > 0
          && var last := s.attempts[|s.attempts| - 1];
             last.gen == s.core.gen && last.udid == s.core.pending && InFlight(last.phase))
  }

  ghost predicate OrderOk(s: State, i: nat, j: nat)
    requires i < j < |s.attempts|
  {
    s.attempts[i].gen < s.attempts[j].gen
  }

  ghost predicate AttemptOk(s: State, i: nat)
    requires i < |s.attempts|
  {
    var a := s.attempts[i];
    && 1 <= a.gen <= s.core.gen && a.udid != ""
    && (InFlight(a.phase) && a.gen == s.core.gen ==> s.core.pending == a.udid)
    && (a.phase.Dropping? || a.phase == Finished(Silent) ==> a.gen < s.core.gen)
    && (a.phase.Claimed? ==> !a.acked)
    && (!a.acked ==> a.starter < |s.tasks| && Launches(s.tasks[a.starter]) == Some(i))
    && (WasInstalled(a.phase) && a.remover.Nobody? ==> s.core.att.Some? && s.core.att.value.id == i)
    && (PhaseFeed(a.phase).Some? ==>
          PhaseFeed(a.phase).value < |s.owner| && s.owner[PhaseFeed(a.phase).value] == OfAttempt(i))
    && (a.pump.Closing? ==> a.pump.source < |s.owner| && s.owner[a.pump.source] == OfPump(i))
    && DeadlineOk(a)
    && PumpOk(a)
  }

  /** The watchdog and the caller of backend.Attach never both win. */
  predicate DeadlineOk(a: Attempt) {
    && (a.settled <==> !(a.phase.Claimed? || a.phase.Spawning? || a.phase.Returned?))
    && (a.phase.Installing? || WasInstalled(a.phase) ==> !a.timedOut)
    && (a.phase.Expired? ==> a.timedOut)
    && (a.phase.Failing? ==> (a.timedOut <==> a.phase.cause.Deadline?))
    && (a.phase.Reporting? && a.phase.verdict.Failed? ==> (a.timedOut <==> a.phase.verdict.cause.Deadline?))
    && (a.phase.Finished? && a.phase.outcome.Failed? ==> (a.timedOut <==> a.phase.outcome.cause.Deadline?))
    && a.phase != Reporting(Silent)
  }

  predicate PumpOk(a: Attempt) {
    && (a.pump.NoPump? <==> !WasInstalled(a.phase))
    && (a.pump.NoPump? ==> a.remover.Nobody?)
    && (a.remover.ByPump? <==> a.pump.Closing? || a.pump.Telling? || (a.pump.Gone? && a.remover.ByPump?))
    && (a.pump.Gone? ==> !a.remover.Nobody? && (a.pump.told ==> a.remover.ByPump?))
  }

  ghost predicate FeedOk(s: State, f: nat)
    requires f < |s.owner| == |s.closes|
  {
    && s.closes[f] == (if s.owner[f].Released? then 1 else 0)
    && match s.owner[f]
       case OfAttempt(i) => i < |s.attempts| && PhaseFeed(s.attempts[i].phase) == Some(f)
       case OfSlot => s.core.att.Some? && s.core.att.value.feed == f
       case OfTask(t) => t < |s.tasks| && s.tasks[t].Removing? && s.tasks[t].feed == f
       case OfPump(i) => i < |s.attempts| && s.attempts[i].pump == Closing(f)
       case Released => true
  }

  ghost predicate TaskOk(s: State, t: nat)
    requires t < |s.tasks|
  {
    var task := s.tasks[t];
    && (task.Removing? ==> task.feed < |s.owner| && s.owner[task.feed] == OfTask(t))
    && (Launches(task).Some? ==>
          var i := Launches(task).value;
          && i < |s.attempts| && s.attempts[i].starter == t && !s.attempts[i].acked
          && (s.attempts[i].phase.Claimed? <==> !task.Echoing?)
          && (task.Echoing? ==> s.attempts[i].quality))
  }

  ghost predicate Inv(s: State) {
    && CoreOk(s)
    && (forall i, j :: 0 <= i < j < |s.attempts| ==> OrderOk(s, i, j))
    && (forall i :: 0 <= i < |s.attempts| ==> AttemptOk(s, i))
    && (forall f :: 0 <= f < |s.owner| ==> FeedOk(s, f))
    && (forall t :: 0 <= t < |s.tasks| ==> TaskOk(s, t))
  }

  // ---- one attempt, one task and one feed change; everything else is framed ----

  /** s' differs from s in at most attempt i, task t, feed f (which may be new) and the core. */
  ghost predicate OnlyTouches(s: State, s': State, i: nat, t: nat, f: nat) {
    && |s'.attempts| == |s.attempts| && |s'.tasks| == |s.tasks|
    && |s.owner| == |s.closes| <= |s'.owner| == |s'.closes| <= |s.closes| + (if f == |s.closes| then 1 else 0)
    && (forall k :: 0 <= k < |s.attempts| && k != i ==> s'.attempts[k] == s.attempts[k])
    && (forall k :: 0 <= k < |s.tasks| && k != t ==> s'.tasks[k] == s.tasks[k])
    && (forall g :: 0 <= g < |s.owner| && g != f ==> s'.owner[g] == s.owner[g] && s'.closes[g] == s.closes[g])
  }

  /** The touched parts carry everything the change needs, so nothing else can notice it. */
  ghost predicate Contained(s: State, s': State, i: nat, t: nat, f: nat)
    requires OnlyTouches(s, s', i, t, f)
  {
    && (i < |s.attempts| ==>
          var a, a' := s.attempts[i], s'.attempts[i];
          && a'.gen == a.gen
          && a'.starter == a.starter && a'.quality == a.quality
          && (!a.acked ==> (!a'.acked && (a'.phase.Claimed? <==> a.phase.Claimed?)) || a.starter == t)
          && (PhaseFeed(a.phase).Some? ==> PhaseFeed(a'.phase) == PhaseFeed(a.phase) || PhaseFeed(a.phase).value == f)
          && (a.pump.Closing? ==> a'.pump == a.pump || a.pump.source == f))
    && (t < |s.tasks| ==>
          && (Launches(s.tasks[t]).Some? ==>
                || s'.tasks[t] == s.tasks[t] || Launches(s'.tasks[t]) == Launches(s.tasks[t])
                || Launches(s.tasks[t]).value == i)
          && (s.tasks[t].Removing? ==> s'.tasks[t] == s.tasks[t] || s.tasks[t].feed == f))
    && (f < |s.owner| ==>
          match s.owner[f]
          case OfAttempt(k) => k == i
          case OfPump(k) => k == i
          case OfTask(k) => k == t
          case OfSlot => true
          case Released => false)
    && (s'.core.att == s.core.att
        || ((s.core.att.Some? ==> s.core.att.value.feed == f && s.core.att.value.id == i)
            && (s'.core.att.Some? ==> s'.core.att.value.feed == f)))
    && (s'.core.gen == s.core.gen + 1
        || (s'.core.gen == s.core.gen
            && (s'.core.pending == s.core.pending || (i < |s.attempts| && s.attempts[i].gen == s.core.gen))))
  }

  lemma Framed(s: State, s': State, i: nat, t: nat, f: nat)
    requires Inv(s) && OnlyTouches(s, s', i, t, f) && Contained(s, s', i, t, f) && CoreOk(s')
    requires i < |s.attempts| ==> AttemptOk(s', i)
    requires t < |s.tasks| ==> TaskOk(s', t)
    requires f < |s'.owner| ==> FeedOk(s', f)
    ensures Inv(s')
  {
    forall j, k | 0 <= j < k < |s'.attempts| ensures OrderOk(s', j, k) {
      assert OrderOk(s, j, k);
    }
    forall k | 0 <= k < |s'.attempts| ensures AttemptOk(s', k) {
      if k != i { FramedAttempt(s, s', i, t, f, k); }
    }
    forall g | 0 <= g < |s'.owner| ensures FeedOk(s', g) {
      if g != f { assert FeedOk(s, g); }
    }
    forall k | 0 <= k < |s'.tasks| ensures TaskOk(s', k) {
      if k != t { assert TaskOk(s, k); }
    }
  }

  lemma FramedAttempt(s: State, s': State, i: nat, t: nat, f: nat, k: nat)
    requires Inv(s) && OnlyTouches(s, s', i, t, f) && Contained(s, s', i, t, f)
    requires k < |s.attempts| && k != i
    ensures AttemptOk(s', k)
  {
    assert AttemptOk(s, k);
    if i < |s.attempts| {
      assert AttemptOk(s, i);
      assert if i < k then OrderOk(s, i, k) else OrderOk(s, k, i);
    }
  }
}
