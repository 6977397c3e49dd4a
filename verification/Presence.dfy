/** Live presence (internal/signalbroker/presence.go): daemons come and go, watchers see a snapshot
    and then deltas, all on concurrent goroutines that only share the broker's mutex and each
    connection's write lock. */
module Presence {
  import opened Base

  // ---- the sections under the broker's mutex ----

  function SnapshotOf(directory: map<string, nat>, ids: set<string>): map<string, bool> {
    map id | id in ids :: id in directory
  }

  function TargetsOf(registry: map<nat, set<string>>, id: string): set<nat> {
    set w | w in registry && id in registry[w]
  }

  /** The two maps guarded by the broker's mutex: daemon id to connection, watcher to its ids. */
  class Broker {
    var daemons: map<string, nat>
    var watchers: map<nat, set<string>>

    constructor ()
      ensures daemons == map[] && watchers == map[]
    {
      daemons, watchers := map[], map[];
    }

    method Register(id: string, conn: nat)
      modifies this`daemons
      ensures daemons == old(daemons)[id := conn]
    {
      daemons := daemons[id := conn];
    }

    /** A connection gives its slot up only if no re-register has stolen it. */
    method Unregister(id: string, conn: nat) returns (removed: bool)
      modifies this`daemons
      ensures removed <==> id in old(daemons) && old(daemons)[id] == conn
      ensures daemons == Unlisted(old(daemons), id, conn)
      ensures daemons == if removed then old(daemons) - {id} else old(daemons)
    {
      removed := id in daemons && daemons[id] == conn;
      if removed {
        daemons := daemons - {id};
      }
    }

    method Watch(w: nat, ids: set<string>) returns (snap: map<string, bool>)
      modifies this`watchers
      ensures watchers == old(watchers)[w := ids]
      ensures snap == SnapshotOf(daemons, ids)
    {
      watchers := watchers[w := ids];
      snap := map[];
      var left := ids;
      while left != {}
        invariant left <= ids && snap == SnapshotOf(daemons, ids - left)
        decreases left
      {
        var id :| id in left;
        snap := snap[id := id in daemons];
        left := left - {id};
      }
    }

    method Unwatch(w: nat)
      modifies this`watchers
      ensures watchers == old(watchers) - {w}
    {
      watchers := watchers - {w};
    }

    method Targets(id: string) returns (targets: set<nat>)
      ensures targets == TargetsOf(watchers, id)
    {
      targets := {};
      var left := watchers.Keys;
      while left != {}
        invariant left <= watchers.Keys
        invariant targets == set w | w in watchers && w !in left && id in watchers[w]
        decreases left
      {
        var w :| w in left;
        if id in watchers[w] {
          targets := targets + {w};
        }
        left := left - {w};
      }
    }
  }

  // ---- the machine ----

  /** A committed change of a daemon's slot. */
  datatype Change = Change(id: string, online: bool)

  /** The notification of one change: targets not collected yet, or those still to be written to. */
  datatype Notice = Uncollected | Sending(targets: set<nat>)

  datatype Frame = Snapshot(states: map<string, bool>) | Delta(change: nat, id: string, online: bool)

  /** A watcher holds its write lock from its registration until its snapshot is written. */
  datatype Stage = Snapping(snap: map<string, bool>) | Watching | Closed

  /** `since` is the number of changes committed when the watcher registered. */
  datatype Watcher = Watcher(ids: set<string>, since: nat, stage: Stage, frames: seq<Frame>)

  /** `announced` is the change its registration committed: the connection's goroutine goes on to its
      read loop, and so to its exit, only when it has notified every watcher of that. */
  datatype Conn = Conn(id: string, open: bool, announced: nat)

  /** `changes` is history: notices[k] belongs to changes[k]. `overlapped` is history too: the ids
      for which a change was committed before the notification of an earlier one had finished. */
  datatype State = State(directory: map<string, nat>, conns: seq<Conn>, registry: map<nat, set<string>>,
                         watchers: seq<Watcher>, changes: seq<Change>, notices: seq<Notice>, overlapped: set<string>)

  datatype Event =
    | Register(id: string)
    | Drop(conn: nat)
    | Collect(k: nat)
    | Deliver(k: nat, w: nat)
    | Watch(ids: set<string>)
    | WriteSnapshot(w: nat)
    | Unwatch(w: nat)

  const INIT := State(map[], [], map[], [], [], [], {})

  predicate Enabled(s: State, e: Event) {
    match e
    case Register(id) => id != ""
    case Drop(conn) =>
      && conn < |s.conns| && s.conns[conn].open
      && s.conns[conn].announced < |s.notices| && !Unfinished(s.notices[s.conns[conn].announced])
    case Collect(k) => k < |s.notices| && k < |s.changes| && s.notices[k].Uncollected?
    case Deliver(k, w) =>
      && k < |s.notices| && k < |s.changes| && s.notices[k].Sending? && w in s.notices[k].targets
      && w < |s.watchers| && !s.watchers[w].stage.Snapping?
    case Watch(_) => true
    case WriteSnapshot(w) => w < |s.watchers| && s.watchers[w].stage.Snapping?
    case Unwatch(w) => w < |s.watchers| && s.watchers[w].stage.Watching?
  }

  predicate Unfinished(n: Notice) {
    n.Uncollected? || n.targets != {}
  }

  /** A change of this id still has notifications to write. */
  predicate Busy(s: State, id: string) {
    exists k :: 0 <= k < |s.notices| && k < |s.changes| && s.changes[k].id == id && Unfinished(s.notices[k])
  }

  function Commit(s: State, id: string, online: bool): State {
    s.(changes := s.changes + [Change(id, online)], notices := s.notices + [Uncollected],
       overlapped := if Busy(s, id) then s.overlapped + {id} else s.overlapped)
  }

  function Step(s: State, e: Event): State
    requires Enabled(s, e)
  {
    match e
    case Register(id) =>
      Commit(s, id, true).(directory := s.directory[id := |s.conns|],
                           conns := s.conns + [Conn(id, true, |s.changes|)])
    case Drop(conn) => DoDrop(s, conn)
    case Collect(k) =>
      s.(notices := s.notices[k := Sending(TargetsOf(s.registry, s.changes[k].id))])
    case Deliver(k, w) => DoDeliver(s, k, w)
    case Watch(ids) =>
      s.(registry := s.registry[|s.watchers| := ids],
         watchers := s.watchers + [Watcher(ids, |s.changes|, Snapping(SnapshotOf(s.directory, ids)), [])])
    case WriteSnapshot(w) =>
      var wt := s.watchers[w];
      s.(watchers := s.watchers[w := wt.(stage := Watching, frames := wt.frames + [Snapshot(wt.stage.snap)])])
    case Unwatch(w) =>
      s.(registry := s.registry - {w}, watchers := s.watchers[w := s.watchers[w].(stage := Closed)])
  }

  /** The deferred section: the map changes only if no re-register has taken the slot. */
  function DoDrop(s: State, conn: nat): State
    requires conn < |s.conns|
  {
    var id := s.conns[conn].id;
    var s' := s.(conns := s.conns[conn := s.conns[conn].(open := false)]);
    if id in s.directory && s.directory[id] == conn then
      Commit(s', id, false).(directory := Unlisted(s.directory, id, conn))
    else s'
  }

  function DeltaOf(s: State, k: nat): Frame
    requires k < |s.changes|
  {
    Delta(k, s.changes[k].id, s.changes[k].online)
  }

  /** One write; a watcher that has gone in the meantime does not see it. */
  function DoDeliver(s: State, k: nat, w: nat): State
    requires k < |s.notices| && k < |s.changes| && s.notices[k].Sending? && w < |s.watchers|
  {
    var wt := s.watchers[w];
    s.(notices := s.notices[k := Sending(s.notices[k].targets - {w})],
       watchers := if wt.stage.Closed? then s.watchers
                   else s.watchers[w := wt.(frames := wt.frames + [DeltaOf(s, k)])])
  }

  /** The state a list of events leads to, if every one of them was possible when it came. */
  function From(s: State, run: seq<Event>): Option<State> {
    if run == [] then Some(s)
    else
      match From(s, run[..|run| - 1])
      case None => None
      case Some(s') => if Enabled(s', run[|run| - 1]) then Some(Step(s', run[|run| - 1])) else None
  }

  function After(run: seq<Event>): Option<State> {
    From(INIT, run)
  }

  // ---- what the frames should say ----

  /** The last change of this id, if any. */
  function Last(changes: seq<Change>, id: string): (r: Option<nat>)
    ensures r.Some? ==> r.value < |changes| && changes[r.value].id == id
    ensures forall k :: (if r.Some? then r.value + 1 else 0) <= k < |changes| ==> changes[k].id != id
  {
    if changes == [] then None
    else if changes[|changes| - 1].id == id then Some(|changes| - 1)
    else Last(changes[..|changes| - 1], id)
  }

  /** Whether the history of changes leaves this daemon online. */
  predicate Online(changes: seq<Change>, id: string) {
    Last(changes, id).Some? && changes[Last(changes, id).value].online
  }

  /** What one frame says of this daemon, if anything. */
  function Says(f: Frame, id: string): Option<bool> {
    match f
    case Snapshot(states) => if id in states then Some(states[id]) else None
    case Delta(_, i, online) => if i == id then Some(online) else None
  }

  /** What a client that folds the frames believes of this daemon. */
  function Believed(frames: seq<Frame>, id: string): Option<bool> {
    if frames == [] then None
    else if Says(frames[|frames| - 1], id).Some? then Says(frames[|frames| - 1], id)
    else Believed(frames[..|frames| - 1], id)
  }

  lemma BelievedSnoc(frames: seq<Frame>, f: Frame, id: string)
    ensures Believed(frames + [f], id) == if Says(f, id).Some? then Says(f, id) else Believed(frames, id)
  {
    assert (frames + [f])[..|frames|] == frames;
  }

  lemma LastSnoc(changes: seq<Change>, c: Change, id: string)
    ensures Last(changes + [c], id) == if c.id == id then Some(|changes|) else Last(changes, id)
    ensures Online(changes + [c], id) == if c.id == id then c.online else Online(changes, id)
  {
    assert (changes + [c])[..|changes|] == changes;
  }

  // ---- the invariant ----

  ghost predicate DirectoryOk(s: State, id: string) {
    && (id in s.directory <==> Online(s.changes, id))
    && (id in s.directory ==>
          && s.directory[id] < |s.conns|
          && s.conns[s.directory[id]].id == id && s.conns[s.directory[id]].open)
  }

  /** Watcher w is still owed the delta of change k. */
  predicate Owes(s: State, k: nat, w: nat)
    requires k < |s.notices|
  {
    s.notices[k].Uncollected? || w in s.notices[k].targets
  }

  predicate Registered(s: State, w: nat) {
    w < |s.watchers| && !s.watchers[w].stage.Closed?
  }

  /** The frames are a snapshot of the moment of registration and then deltas of real changes. */
  ghost predicate WatcherOk(s: State, w: nat)
    requires w < |s.watchers|
  {
    var wt := s.watchers[w];
    && wt.since <= |s.changes|
    && (!wt.stage.Closed? <==> w in s.registry)
    && (w in s.registry ==> s.registry[w] == wt.ids)
    && (wt.stage.Snapping? ==> wt.frames == [] && TrueAt(s.changes, wt.since, wt.ids, wt.stage.snap))
    && (!wt.stage.Snapping? ==>
          && wt.frames != [] && wt.frames[0].Snapshot?
          && TrueAt(s.changes, wt.since, wt.ids, wt.frames[0].states))
    && (forall j :: 1 <= j < |wt.frames| ==> RealDelta(s, wt.frames[j]))
  }

  ghost predicate TrueAt(changes: seq<Change>, since: nat, ids: set<string>, states: map<string, bool>) {
    && since <= |changes| && states.Keys == ids
    && forall id :: id in ids ==> states[id] == Online(changes[..since], id)
  }

  predicate RealDelta(s: State, f: Frame) {
    f.Delta? && f.change < |s.changes| && s.changes[f.change] == Change(f.id, f.online)
  }

  /** How often the delta of change k was written. */
  function Writes(frames: seq<Frame>, k: nat): nat {
    if frames == [] then 0
    else
      var last := frames[|frames| - 1];
      Writes(frames[..|frames| - 1], k) + (if last.Delta? && last.change == k then 1 else 0)
  }

  lemma WritesSnoc(frames: seq<Frame>, f: Frame, k: nat)
    ensures Writes(frames + [f], k) == Writes(frames, k) + (if f.Delta? && f.change == k then 1 else 0)
  {
    assert (frames + [f])[..|frames|] == frames;
  }

  /** Between change k and watcher w: owed and not written yet, or written once. */
  ghost predicate PairOk(s: State, k: nat, w: nat)
    requires k < |s.notices| == |s.changes| && w < |s.watchers|
  {
    var wt := s.watchers[w];
    && (Owes(s, k, w) ==> Writes(wt.frames, k) == 0)
    && Writes(wt.frames, k) <= 1
    && (!wt.stage.Closed? && wt.since <= k && s.changes[k].id in wt.ids ==>
          Owes(s, k, w) || Writes(wt.frames, k) == 1)
  }

  /** Targets are watchers that exist. */
  ghost predicate NoticeOk(s: State, k: nat)
    requires k < |s.notices| == |s.changes|
  {
    && (s.notices[k].Sending? ==> forall w :: w in s.notices[k].targets ==> w < |s.watchers|)
    && (s.changes[k].id !in s.overlapped && Unfinished(s.notices[k]) ==> Last(s.changes, s.changes[k].id) == Some(k))
  }

  /** What watcher w has been told, or is about to be told by its snapshot. */
  function Told(wt: Watcher, id: string): Option<bool> {
    match wt.stage
    case Snapping(snap) => if id in snap then Some(snap[id]) else None
    case _ => Believed(wt.frames, id)
  }

  /** Unless the changes of this id overlapped, the watcher knows the truth or is owed it. */
  ghost predicate InformedOk(s: State, w: nat, id: string)
    requires w < |s.watchers| && |s.notices| == |s.changes|
  {
    var wt := s.watchers[w];
    !wt.stage.Closed? && id in wt.ids && id !in s.overlapped ==>
      || Told(wt, id) == Some(Online(s.changes, id))
      || (Last(s.changes, id).Some? && Owes(s, Last(s.changes, id).value, w))
  }

  ghost predicate Inv(s: State) {
    && |s.notices| == |s.changes|
    && (forall w :: w in s.registry ==> w < |s.watchers|)
    && (forall id :: DirectoryOk(s, id))
    && (forall w :: 0 <= w < |s.watchers| ==> WatcherOk(s, w))
    && (forall k :: 0 <= k < |s.notices| ==> NoticeOk(s, k))
    && (forall k, w :: 0 <= k < |s.notices| && 0 <= w < |s.watchers| ==> PairOk(s, k, w))
    && (forall w, id :: 0 <= w < |s.watchers| ==> InformedOk(s, w, id))
  }

  // ---- every step keeps it ----

  lemma KeepCommit(s: State, s': State, id: string, online: bool)
    requires Inv(s)
    requires var c := Commit(s, id, online); s' == c.(directory := s'.directory, conns := s'.conns)
    requires forall i :: DirectoryOk(s', i)
    ensures Inv(s')
  {
    var change := Change(id, online);
    var n := |s.changes|;
    forall w | 0 <= w < |s'.watchers| ensures WatcherOk(s', w) {
      assert WatcherOk(s, w);
      var since := s.watchers[w].since;
      assert s'.changes[..since] == s.changes[..since];
    }
    forall k | 0 <= k < |s'.notices| ensures NoticeOk(s', k) {
      LastSnoc(s.changes, change, s'.changes[k].id);
      if k < n { assert NoticeOk(s, k); }
    }
    forall k, w | 0 <= k < |s'.notices| && 0 <= w < |s'.watchers| ensures PairOk(s', k, w) {
      if k < n { assert PairOk(s, k, w); } else { FutureUnwritten(s, w, n); }
    }
    forall w, i | 0 <= w < |s'.watchers| ensures InformedOk(s', w, i) {
      assert InformedOk(s, w, i);
      LastSnoc(s.changes, change, i);
    }
  }

  /** No frame is about a change that has not happened. */
  lemma FutureUnwritten(s: State, w: nat, k: nat)
    requires Inv(s) && w < |s.watchers| && |s.changes| <= k
    ensures Writes(s.watchers[w].frames, k) == 0
  {
    assert WatcherOk(s, w);
    NoWrites(s, s.watchers[w].frames, k);
  }

  lemma {:induction false} NoWrites(s: State, frames: seq<Frame>, k: nat)
    requires |s.changes| <= k
    requires frames == [] || frames[0].Snapshot?
    requires forall j :: 1 <= j < |frames| ==> RealDelta(s, frames[j])
    ensures Writes(frames, k) == 0
    decreases |frames|
  {
    if frames != [] { NoWrites(s, frames[..|frames| - 1], k); }
  }

  lemma KeepRegister(s: State, id: string)
    requires Inv(s) && id != ""
    ensures Inv(Step(s, Register(id)))
  {
    var s' := Step(s, Register(id));
    forall i ensures DirectoryOk(s', i) {
      assert DirectoryOk(s, i);
      LastSnoc(s.changes, Change(id, true), i);
    }
    KeepCommit(s, s', id, true);
  }

  lemma KeepLoss(s: State, conn: nat)
    requires Inv(s) && conn < |s.conns|
    requires var id := s.conns[conn].id; id in s.directory && s.directory[id] == conn
    ensures Inv(DoDrop(s, conn))
  {
    var id := s.conns[conn].id;
    var s' := DoDrop(s, conn);
    forall i ensures DirectoryOk(s', i) {
      assert DirectoryOk(s, i);
      LastSnoc(s.changes, Change(id, false), i);
    }
    KeepCommit(s, s', id, false);
  }

  lemma KeepDrop(s: State, conn: nat)
    requires Inv(s) && conn < |s.conns|
    ensures Inv(DoDrop(s, conn))
  {
    var id := s.conns[conn].id;
    if id in s.directory && s.directory[id] == conn {
      KeepLoss(s, conn);
    } else {
      KeepQuiet(s, conn);
    }
  }

  /** The exit of a connection whose slot was taken over. */
  lemma KeepQuiet(s: State, conn: nat)
    requires Inv(s) && conn < |s.conns|
    requires var id := s.conns[conn].id; !(id in s.directory && s.directory[id] == conn)
    ensures Inv(DoDrop(s, conn))
  {
    var s' := DoDrop(s, conn);
    forall i ensures DirectoryOk(s', i) {
      assert DirectoryOk(s, i);
    }
    forall w | 0 <= w < |s'.watchers| ensures WatcherOk(s', w) {
      assert WatcherOk(s, w);
    }
    forall k | 0 <= k < |s'.notices| ensures NoticeOk(s', k) {
      assert NoticeOk(s, k);
    }
    forall k, w | 0 <= k < |s'.notices| && 0 <= w < |s'.watchers| ensures PairOk(s', k, w) {
      assert PairOk(s, k, w);
    }
    forall w, i | 0 <= w < |s'.watchers| ensures InformedOk(s', w, i) {
      assert InformedOk(s, w, i);
    }
  }

  lemma KeepCollect(s: State, k: nat)
    requires Inv(s) && Enabled(s, Collect(k))
    ensures Inv(Step(s, Collect(k)))
  {
    var s' := Step(s, Collect(k));
    forall i ensures DirectoryOk(s', i) { assert DirectoryOk(s, i); }
    forall w | 0 <= w < |s'.watchers| ensures WatcherOk(s', w) {
      assert WatcherOk(s, w);
    }
    forall j | 0 <= j < |s'.notices| ensures NoticeOk(s', j) {
      assert NoticeOk(s, j);
    }
    forall j, w | 0 <= j < |s'.notices| && 0 <= w < |s'.watchers| ensures PairOk(s', j, w) {
      assert PairOk(s, j, w) && WatcherOk(s, w);
    }
    forall w, i | 0 <= w < |s'.watchers| ensures InformedOk(s', w, i) {
      assert InformedOk(s, w, i) && WatcherOk(s, w);
    }
  }

  lemma DeliverToOthers(s: State, k: nat, w: nat, j: nat, v: nat)
    requires Inv(s) && Enabled(s, Deliver(k, w)) && j < |s.notices| && v < |s.watchers| && v != w
    ensures PairOk(DoDeliver(s, k, w), j, v)
  {
    assert PairOk(s, j, v);
    assert DoDeliver(s, k, w).watchers[v] == s.watchers[v];
  }

  lemma DeliverToItself(s: State, k: nat, w: nat, j: nat)
    requires Inv(s) && Enabled(s, Deliver(k, w)) && j < |s.notices|
    ensures PairOk(DoDeliver(s, k, w), j, w)
  {
    assert PairOk(s, j, w);
    WritesSnoc(s.watchers[w].frames, DeltaOf(s, k), j);
  }

  lemma DeliverInforms(s: State, k: nat, w: nat, v: nat, id: string)
    requires Inv(s) && Enabled(s, Deliver(k, w)) && v < |s.watchers|
    ensures InformedOk(DoDeliver(s, k, w), v, id)
  {
    assert InformedOk(s, v, id) && NoticeOk(s, k);
    BelievedSnoc(s.watchers[v].frames, DeltaOf(s, k), id);
  }

  lemma KeepDeliver(s: State, k: nat, w: nat)
    requires Inv(s) && Enabled(s, Deliver(k, w))
    ensures Inv(DoDeliver(s, k, w))
  {
    var s' := DoDeliver(s, k, w);
    forall i ensures DirectoryOk(s', i) { assert DirectoryOk(s, i); }
    forall v | 0 <= v < |s'.watchers| ensures WatcherOk(s', v) {
      assert WatcherOk(s, v);
    }
    forall j | 0 <= j < |s'.notices| ensures NoticeOk(s', j) {
      assert NoticeOk(s, j);
    }
    forall j, v | 0 <= j < |s'.notices| && 0 <= v < |s'.watchers| ensures PairOk(s', j, v) {
      if v == w { DeliverToItself(s, k, w, j); } else { DeliverToOthers(s, k, w, j, v); }
    }
    forall v, i | 0 <= v < |s'.watchers| ensures InformedOk(s', v, i) {
      DeliverInforms(s, k, w, v, i);
    }
  }

  lemma KeepWatch(s: State, ids: set<string>)
    requires Inv(s)
    ensures Inv(Step(s, Watch(ids)))
  {
    var s' := Step(s, Watch(ids));
    var n := |s.watchers|;
    assert s.changes[..|s.changes|] == s.changes;
    forall i ensures DirectoryOk(s', i) { assert DirectoryOk(s, i); }
    forall w | 0 <= w < |s'.watchers| ensures WatcherOk(s', w) {
      if w < n {
        assert WatcherOk(s, w);
      } else {
        forall id | id in ids ensures s'.watchers[w].stage.snap[id] == Online(s.changes, id) {
          assert DirectoryOk(s, id);
        }
      }
    }
    forall k | 0 <= k < |s'.notices| ensures NoticeOk(s', k) {
      assert NoticeOk(s, k);
    }
    forall k, w | 0 <= k < |s'.notices| && 0 <= w < |s'.watchers| ensures PairOk(s', k, w) {
      if w < n { assert PairOk(s, k, w); }
    }
    forall w, i | 0 <= w < |s'.watchers| ensures InformedOk(s', w, i) {
      assert DirectoryOk(s, i);
      if w < n { assert InformedOk(s, w, i); }
    }
  }

  lemma KeepWriteSnapshot(s: State, w: nat)
    requires Inv(s) && Enabled(s, WriteSnapshot(w))
    ensures Inv(Step(s, WriteSnapshot(w)))
  {
    var s' := Step(s, WriteSnapshot(w));
    var frame := Snapshot(s.watchers[w].stage.snap);
    assert WatcherOk(s, w);
    forall i ensures DirectoryOk(s', i) { assert DirectoryOk(s, i); }
    forall v | 0 <= v < |s'.watchers| ensures WatcherOk(s', v) {
      assert WatcherOk(s, v);
    }
    forall j | 0 <= j < |s'.notices| ensures NoticeOk(s', j) {
      assert NoticeOk(s, j);
    }
    forall j, v | 0 <= j < |s'.notices| && 0 <= v < |s'.watchers| ensures PairOk(s', j, v) {
      assert PairOk(s, j, v);
      WritesSnoc(s.watchers[v].frames, frame, j);
    }
    forall v, i | 0 <= v < |s'.watchers| ensures InformedOk(s', v, i) {
      assert InformedOk(s, v, i);
      BelievedSnoc(s.watchers[v].frames, frame, i);
    }
  }

  lemma KeepUnwatch(s: State, w: nat)
    requires Inv(s) && Enabled(s, Unwatch(w))
    ensures Inv(Step(s, Unwatch(w)))
  {
    var s' := Step(s, Unwatch(w));
    forall i ensures DirectoryOk(s', i) { assert DirectoryOk(s, i); }
    forall v | 0 <= v < |s'.watchers| ensures WatcherOk(s', v) {
      assert WatcherOk(s, v);
    }
    forall j | 0 <= j < |s'.notices| ensures NoticeOk(s', j) {
      assert NoticeOk(s, j);
    }
    forall j, v | 0 <= j < |s'.notices| && 0 <= v < |s'.watchers| ensures PairOk(s', j, v) {
      assert PairOk(s, j, v);
    }
    forall v, i | 0 <= v < |s'.watchers| ensures InformedOk(s', v, i) {
      assert InformedOk(s, v, i);
    }
  }

  lemma StepKeeps(s: State, e: Event)
    requires Inv(s) && Enabled(s, e)
    ensures Inv(Step(s, e))
  {
    match e
    case Register(id) => KeepRegister(s, id);
    case Drop(conn) => KeepDrop(s, conn);
    case Collect(k) => KeepCollect(s, k);
    case Deliver(k, w) => KeepDeliver(s, k, w);
    case Watch(ids) => KeepWatch(s, ids);
    case WriteSnapshot(w) => KeepWriteSnapshot(s, w);
    case Unwatch(w) => KeepUnwatch(s, w);
  }

  lemma {:induction false} ReachableInv(run: seq<Event>)
    requires After(run).Some?
    ensures Inv(After(run).value)
  {
    if run != [] {
      ReachableInv(run[..|run| - 1]);
      StepKeeps(After(run[..|run| - 1]).value, run[|run| - 1]);
    }
  }
}
