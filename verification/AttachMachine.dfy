/** The attach lifecycle as a machine of concurrent goroutines. One event is one atomic step: a
    hold of the dispatcher's mutex, or one piece of work done outside it. The backend, the
    watchdog, the frames of a feed and the arrival of requests are free to happen at any time. */
module AttachMachine {
  import opened Base
  import opened AttachCore

  datatype Result = Ready(feed: nat) | Refused(code: string, retryable: bool)

  datatype Cause = Deadline | Backend(code: string, retryable: bool)

  datatype Outcome = Installed | Failed(cause: Cause) | Silent

  /** Where one attempt's goroutine stands. */
  datatype Phase =
    | Claimed                       // generation taken, goroutine not started
    | Spawning                      // inside backend.Attach
    | Returned(result: Result)      // back from the backend, deadline not settled
    | Expired(late: nat)            // the watchdog won; a late feed is still to be closed
    | Failing(cause: Cause)         // about to enter failAttach's section
    | Installing(spawned: nat)      // about to enter attachAs's section
    | Dropping(dropped: nat)        // superseded; the feed is still to be closed
    | Reporting(verdict: Outcome)   // decided; the reply is still to be sent
    | Finished(outcome: Outcome)

  datatype Pump =
    | NoPump
    | Pumping(source: nat)
    | Leaving(source: nat)          // frames ended; about to enter its section
    | Closing(source: nat)          // it emptied the slot and must close the feed
    | Telling                       // feed closed; baseCtx not looked at yet
    | Gone(told: bool)

  /** Who took an installed attachment out of the slot. */
  datatype Remover = Nobody | ByThread(t: nat) | ByPump

  /** `acked` says whether the request that started it has been answered. */
  datatype Attempt = Attempt(gen: nat, udid: string, starter: nat, quality: bool, settled: bool,
                             timedOut: bool, phase: Phase, pump: Pump, remover: Remover, acked: bool)

  /** What a request thread goes on to do after its claim. `since` counts the attempts that
      existed when the device was last known not to be streaming. */
  datatype Then =
    | Launch(attempt: nat)
    | SayDetached(udid: string)
    | Power(udid: string, restart: bool, since: nat)
    | Rest

  /** What a request thread is doing: a data channel's reader, or a session teardown. */
  datatype Task =
    | Idle
    | Checked(udid: string, restart: bool, at: nat)   // saw the device streaming, will stop it
    | Removing(feed: nat, after: Then)                // holds a feed it must close
    | Unlocked(after: Then)
    | Echoing(attempt: nat)                           // started a rebuild, has not echoed the quality yet
    | PoweringOff(udid: string, restart: bool, since: nat)
    | Booting(udid: string)
    | Dying

  /** The stable error code of a failed attach: the daemon's own two, or the helper's verbatim. */
  datatype Code = AttachFailed | AttachTimeout | Verbatim(name: string)

  datatype Reply =
    | BadRequest
    | Attaching(attempt: nat)
    | QualityEcho(attempt: nat)
    | NoAttachment
    | Attached(attempt: nat)
    | AttachError(attempt: nat, code: Code, retryable: bool)
    | Detached(udid: string)
    | StreamEnded(attempt: nat)
    | ShutDown(udid: string, ok: bool)
    | Booted(udid: string, ok: bool)

  /** Who must close a feed. */
  datatype Owner = OfAttempt(i: nat) | OfSlot | OfTask(t: nat) | OfPump(i: nat) | Released

  /** `closes`, `owner`, `log` and `downs` are history: how often each feed was closed, who must
      close it, the replies sent, and the devices powered off. */
  datatype State = State(core: Core<nat>, live: bool, attempts: seq<Attempt>, tasks: seq<Task>,
                         closes: seq<nat>, owner: seq<Owner>, log: seq<Reply>, downs: seq<(string, nat)>)

  datatype Event =
    | Attach(t: nat, udid: string)
    | Detach(t: nat)
    | Quality(t: nat)
    | PowerCheck(t: nat, udid: string, restart: bool)
    | PowerStop(t: nat)
    | CancelSession(t: nat)
    | StopSession(t: nat)
    | CloseRemoved(t: nat)
    | Proceed(t: nat)
    | SendEcho(t: nat)
    | ShutdownReturns(t: nat, ok: bool)
    | BootReturns(t: nat, ok: bool)
    | Watchdog(i: nat)
    | SpawnReady(i: nat)
    | SpawnRefused(i: nat, code: string, retryable: bool)
    | Settle(i: nat)
    | CloseExpired(i: nat)
    | FailSection(i: nat)
    | InstallSection(i: nat)
    | CloseDropped(i: nat)
    | Report(i: nat)
    | FramesEnd(i: nat)
    | PumpSection(i: nat)
    | PumpClose(i: nat)
    | PumpReport(i: nat)

  function Init(threads: nat): State {
    State(Core(0, None, ""), true, [], seq(threads, t => Idle), [], [], [], [])
  }

  predicate IdleTask(s: State, t: nat) {
    t < |s.tasks| && s.tasks[t].Idle?
  }

  predicate Enabled(s: State, e: Event) {
    match e
    case Attach(t, _) => IdleTask(s, t)
    case Detach(t) => IdleTask(s, t)
    case Quality(t) => IdleTask(s, t)
    case PowerCheck(t, _, _) => IdleTask(s, t)
    case PowerStop(t) => t < |s.tasks| && s.tasks[t].Checked?
    case CancelSession(t) => IdleTask(s, t)
    case StopSession(t) => t < |s.tasks| && s.tasks[t].Dying?
    case CloseRemoved(t) => t < |s.tasks| && s.tasks[t].Removing?
    case Proceed(t) => t < |s.tasks| && s.tasks[t].Unlocked?
    case SendEcho(t) => t < |s.tasks| && s.tasks[t].Echoing?
    case ShutdownReturns(t, _) => t < |s.tasks| && s.tasks[t].PoweringOff?
    case BootReturns(t, _) => t < |s.tasks| && s.tasks[t].Booting?
    case Watchdog(i) => i < |s.attempts| && !s.attempts[i].phase.Claimed?
    case SpawnReady(i) => i < |s.attempts| && s.attempts[i].phase.Spawning?
    case SpawnRefused(i, _, _) => i < |s.attempts| && s.attempts[i].phase.Spawning?
    case Settle(i) => i < |s.attempts| && s.attempts[i].phase.Returned?
    case CloseExpired(i) => i < |s.attempts| && s.attempts[i].phase.Expired?
    case FailSection(i) => i < |s.attempts| && s.attempts[i].phase.Failing?
    case InstallSection(i) => i < |s.attempts| && s.attempts[i].phase.Installing?
    case CloseDropped(i) => i < |s.attempts| && s.attempts[i].phase.Dropping?
    case Report(i) => i < |s.attempts| && s.attempts[i].phase.Reporting?
    case FramesEnd(i) => i < |s.attempts| && s.attempts[i].pump.Pumping?
    case PumpSection(i) => i < |s.attempts| && s.attempts[i].pump.Leaving?
    case PumpClose(i) => i < |s.attempts| && s.attempts[i].pump.Closing?
    case PumpReport(i) => i < |s.attempts| && s.attempts[i].pump.Telling?
  }

  function Step(s: State, e: Event): State
    requires Enabled(s, e)
  {
    match e
    case Attach(t, udid) => DoAttach(s, t, udid)
    case Detach(t) => DoDetach(s, t)
    case Quality(t) => DoQuality(s, t)
    case PowerCheck(t, udid, restart) => DoPowerCheck(s, t, udid, restart)
    case PowerStop(t) => DoPowerStop(s, t)
    case CancelSession(t) => DoCancel(s, t)
    case StopSession(t) => DoStop(s, t)
    case CloseRemoved(t) => DoCloseRemoved(s, t)
    case Proceed(t) => DoProceed(s, t)
    case SendEcho(t) => DoEcho(s, t)
    case ShutdownReturns(t, ok) => DoShutdownReturns(s, t, ok)
    case BootReturns(t, ok) => DoBootReturns(s, t, ok)
    case Watchdog(i) => DoWatchdog(s, i)
    case SpawnReady(i) => DoSpawnReady(s, i)
    case SpawnRefused(i, code, retryable) => DoSpawnRefused(s, i, code, retryable)
    case Settle(i) => DoSettle(s, i)
    case CloseExpired(i) => DoCloseExpired(s, i)
    case FailSection(i) => DoFail(s, i)
    case InstallSection(i) => DoInstall(s, i)
    case CloseDropped(i) => DoCloseDropped(s, i)
    case Report(i) => DoReport(s, i)
    case FramesEnd(i) => DoFramesEnd(s, i)
    case PumpSection(i) => DoPumpSection(s, i)
    case PumpClose(i) => DoPumpClose(s, i)
    case PumpReport(i) => DoPumpReport(s, i)
  }

  // ---- helpers ----

  function At(s: State, i: nat, phase: Phase): State
    requires i < |s.attempts|
  {
    s.(attempts := s.attempts[i := s.attempts[i].(phase := phase)])
  }

  function PumpAt(s: State, i: nat, pump: Pump): State
    requires i < |s.attempts|
  {
    s.(attempts := s.attempts[i := s.attempts[i].(pump := pump)])
  }

  function TaskAt(s: State, t: nat, task: Task): State
    requires t < |s.tasks|
  {
    s.(tasks := s.tasks[t := task])
  }

  function Say(s: State, r: Reply): State {
    s.(log := s.log + [r])
  }

  function Close(s: State, f: nat): State {
    s.(closes := if f < |s.closes| then s.closes[f := s.closes[f] + 1] else s.closes,
       owner := Hand(s.owner, f, Released))
  }

  function Hand(owner: seq<Owner>, f: nat, to: Owner): seq<Owner> {
    if f < |owner| then owner[f := to] else owner
  }

  /** Thread t leaves a claim's section with whatever feed the slot held. */
  function TakeSlot(s: State, t: nat, g: Grant<nat>, after: Then): State
    requires t < |s.tasks|
  {
    match g.removed
    case None => s.(core := g.core, tasks := s.tasks[t := Unlocked(after)])
    case Some(a) =>
      s.(core := g.core,
         tasks := s.tasks[t := Removing(a.feed, after)],
         attempts := if a.id < |s.attempts| then s.attempts[a.id := s.attempts[a.id].(remover := ByThread(t))]
                     else s.attempts,
         owner := Hand(s.owner, a.feed, OfTask(t)))
  }

  /** A claim for a device: the slot is taken and one more attempt exists. */
  function StartAttempt(s: State, t: nat, g: Grant<nat>, udid: string, quality: bool): State
    requires t < |s.tasks|
  {
    var s' := TakeSlot(s, t, g, Launch(|s.attempts|));
    s'.(attempts := s'.attempts + [Attempt(g.gen, udid, t, quality, false, false, Claimed, NoPump, Nobody, false)])
  }

  // ---- request threads ----

  function DoAttach(s: State, t: nat, udid: string): State
    requires IdleTask(s, t)
  {
    if udid == "" then Say(s, BadRequest) else StartAttempt(s, t, Claim(s.core, udid), udid, false)
  }

  function DoDetach(s: State, t: nat): State
    requires IdleTask(s, t)
  {
    TakeSlot(s, t, Claim(s.core, ""), SayDetached(Claim(s.core, "").prev))
  }

  function DoQuality(s: State, t: nat): State
    requires IdleTask(s, t)
  {
    match Restart(s.core)
    case None => Say(s, NoAttachment)
    case Some(g) => StartAttempt(s, t, g, g.prev, true)
  }

  function DoPowerCheck(s: State, t: nat, udid: string, restart: bool): State
    requires IdleTask(s, t)
  {
    if udid == "" then Say(s, BadRequest)
    else if Streaming(s.core, udid) then TaskAt(s, t, Checked(udid, restart, |s.attempts|))
    else TaskAt(s, t, PoweringOff(udid, restart, |s.attempts|))
  }

  function DoPowerStop(s: State, t: nat): State
    requires t < |s.tasks| && s.tasks[t].Checked?
  {
    TakeSlot(s, t, Claim(s.core, ""), Power(s.tasks[t].udid, s.tasks[t].restart, |s.attempts|))
  }

  function DoCancel(s: State, t: nat): State
    requires IdleTask(s, t)
  {
    TaskAt(s, t, Dying).(live := false)
  }

  function DoStop(s: State, t: nat): State
    requires t < |s.tasks|
  {
    TakeSlot(s, t, Claim(s.core, ""), Rest)
  }

  function DoCloseRemoved(s: State, t: nat): State
    requires t < |s.tasks| && s.tasks[t].Removing?
  {
    TaskAt(Close(s, s.tasks[t].feed), t, Unlocked(s.tasks[t].after))
  }

  function DoProceed(s: State, t: nat): State
    requires t < |s.tasks| && s.tasks[t].Unlocked?
  {
    match s.tasks[t].after
    case Launch(i) =>
      if i >= |s.attempts| then s
      else if s.attempts[i].quality then TaskAt(At(s, i, Spawning), t, Echoing(i))
      else Say(TaskAt(Acked(At(s, i, Spawning), i), t, Idle), Attaching(i))
    case SayDetached(udid) => Say(TaskAt(s, t, Idle), Detached(udid))
    case Power(udid, restart, since) =>
      var s' := TaskAt(s, t, PoweringOff(udid, restart, since));
      if restart then s' else Say(s', Detached(udid))
    case Rest => TaskAt(s, t, Idle)
  }

  function Acked(s: State, i: nat): State
    requires i < |s.attempts|
  {
    s.(attempts := s.attempts[i := s.attempts[i].(acked := true)])
  }

  /** The reply to a quality request, which may come after anything its rebuild has to say. */
  function DoEcho(s: State, t: nat): State
    requires t < |s.tasks| && s.tasks[t].Echoing?
  {
    var i := s.tasks[t].attempt;
    if i >= |s.attempts| then s else Say(TaskAt(Acked(s, i), t, Idle), QualityEcho(i))
  }

  function DoShutdownReturns(s: State, t: nat, ok: bool): State
    requires t < |s.tasks| && s.tasks[t].PoweringOff?
  {
    var task := s.tasks[t];
    var s' := s.(downs := s.downs + [(task.udid, task.since)]);
    if !task.restart then Say(TaskAt(s', t, Idle), ShutDown(task.udid, ok))
    else if !ok then Say(TaskAt(s', t, Idle), Booted(task.udid, false))
    else TaskAt(s', t, Booting(task.udid))
  }

  function DoBootReturns(s: State, t: nat, ok: bool): State
    requires t < |s.tasks| && s.tasks[t].Booting?
  {
    Say(TaskAt(s, t, Idle), Booted(s.tasks[t].udid, ok))
  }

  // ---- an attempt's goroutine and its watchdog ----

  function DoWatchdog(s: State, i: nat): State
    requires i < |s.attempts|
  {
    if s.attempts[i].settled then s else s.(attempts := s.attempts[i := s.attempts[i].(timedOut := true)])
  }

  function DoSpawnReady(s: State, i: nat): State
    requires i < |s.attempts|
  {
    At(s, i, Returned(Ready(|s.closes|))).(closes := s.closes + [0], owner := s.owner + [OfAttempt(i)])
  }

  function DoSpawnRefused(s: State, i: nat, code: string, retryable: bool): State
    requires i < |s.attempts|
  {
    At(s, i, Returned(Refused(code, retryable)))
  }

  /** attachWithin's decision point: from here on exactly one of the watchdog and the caller has won. */
  function DoSettle(s: State, i: nat): State
    requires i < |s.attempts| && s.attempts[i].phase.Returned?
  {
    var a := s.attempts[i].(settled := true);
    var result := a.phase.result;
    var phase :=
      if a.timedOut then (if result.Ready? then Expired(result.feed) else Failing(Deadline))
      else if result.Ready? then Installing(result.feed)
      else Failing(Backend(result.code, result.retryable));
    s.(attempts := s.attempts[i := a.(phase := phase)])
  }

  function DoCloseExpired(s: State, i: nat): State
    requires i < |s.attempts| && s.attempts[i].phase.Expired?
  {
    Close(At(s, i, Failing(Deadline)), s.attempts[i].phase.late)
  }

  function DoFail(s: State, i: nat): State
    requires i < |s.attempts| && s.attempts[i].phase.Failing?
  {
    match Fail(s.core, s.attempts[i].gen)
    case None => At(s, i, Finished(Silent))
    case Some(core) => At(s, i, Reporting(Failed(s.attempts[i].phase.cause))).(core := core)
  }

  function DoInstall(s: State, i: nat): State
    requires i < |s.attempts| && s.attempts[i].phase.Installing?
  {
    var feed := s.attempts[i].phase.spawned;
    match Install(s.core, s.attempts[i].gen, Attachment(i, feed, s.attempts[i].udid))
    case None => At(s, i, Dropping(feed))
    case Some(core) =>
      s.(core := core,
         attempts := s.attempts[i := s.attempts[i].(phase := Reporting(Installed), pump := Pumping(feed))],
         owner := Hand(s.owner, feed, OfSlot))
  }

  function DoCloseDropped(s: State, i: nat): State
    requires i < |s.attempts| && s.attempts[i].phase.Dropping?
  {
    Close(At(s, i, Finished(Silent)), s.attempts[i].phase.dropped)
  }

  /** The typed code a failure carries on the wire. */
  function ErrorReply(i: nat, cause: Cause): Reply {
    match cause
    case Deadline => AttachError(i, AttachTimeout, false)
    case Backend(code, retryable) =>
      if code != "" then AttachError(i, Verbatim(code), retryable) else AttachError(i, AttachFailed, false)
  }

  function DoReport(s: State, i: nat): State
    requires i < |s.attempts| && s.attempts[i].phase.Reporting?
  {
    var s' := At(s, i, Finished(s.attempts[i].phase.verdict));
    match s.attempts[i].phase.verdict
    case Installed => Say(s', Attached(i))
    case Failed(cause) => Say(s', ErrorReply(i, cause))
    case Silent => s'
  }

  // ---- an attachment's pump ----

  function DoFramesEnd(s: State, i: nat): State
    requires i < |s.attempts| && s.attempts[i].pump.Pumping?
  {
    PumpAt(s, i, Leaving(s.attempts[i].pump.source))
  }

  function DoPumpSection(s: State, i: nat): State
    requires i < |s.attempts| && s.attempts[i].pump.Leaving?
  {
    var feed := s.attempts[i].pump.source;
    match Release(s.core, i)
    case None => PumpAt(s, i, Gone(false))
    case Some(core) =>
      s.(core := core,
         attempts := s.attempts[i := s.attempts[i].(pump := Closing(feed), remover := ByPump)],
         owner := Hand(s.owner, feed, OfPump(i)))
  }

  function DoPumpClose(s: State, i: nat): State
    requires i < |s.attempts| && s.attempts[i].pump.Closing?
  {
    Close(PumpAt(s, i, Telling), s.attempts[i].pump.source)
  }

  function DoPumpReport(s: State, i: nat): State
    requires i < |s.attempts|
  {
    var s' := PumpAt(s, i, Gone(s.live));
    if s.live then Say(s', StreamEnded(i)) else s'
  }

  /** The state after a run of events, if every one of them was possible when it came. */
  function After(threads: nat, run: seq<Event>): Option<State> {
    if run == [] then Some(Init(threads))
    else
      match After(threads, run[..|run| - 1])
      case None => None
      case Some(s) => if Enabled(s, run[|run| - 1]) then Some(Step(s, run[|run| - 1])) else None
  }
}
