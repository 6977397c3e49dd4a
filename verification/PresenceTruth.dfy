/** What a watcher can rely on over every run, when the last frame it has is true, and a run in which two
    notifications overtake each other. */
module PresenceTruth {
  import opened Base
  import opened Presence

  /** The first frame is the snapshot of the moment the watcher registered; every later frame is
      the delta of a change that happened. */
  lemma {:induction false} SnapshotFirst(run: seq<Event>, w: nat)
    requires After(run).Some? && w < |After(run).value.watchers|
    requires After(run).value.watchers[w].frames != []
    ensures var s := After(run).value;
            var wt := s.watchers[w];
            && wt.since <= |s.changes| && wt.frames[0].Snapshot? && wt.frames[0].states.Keys == wt.ids
            && (forall id :: id in wt.ids ==> wt.frames[0].states[id] == Online(s.changes[..wt.since], id))
            && (forall j :: 1 <= j < |wt.frames| ==> RealDelta(s, wt.frames[j]))
  {
    ReachableInv(run);
    assert WatcherOk(After(run).value, w);
  }

  /** Every change committed after the watcher registered reaches it, once, by the time that
      change's notification has finished. */
  lemma {:induction false} NothingLost(run: seq<Event>, w: nat, k: nat)
    requires After(run).Some? && Registered(After(run).value, w)
    requires var s := After(run).value;
             var wt := s.watchers[w];
             wt.since <= k < |s.changes| && s.changes[k].id in wt.ids
             && k < |s.notices| && !Unfinished(s.notices[k])
    ensures Writes(After(run).value.watchers[w].frames, k) == 1
  {
    ReachableInv(run);
    assert PairOk(After(run).value, k, w);
  }

  /** The watcher has its snapshot and nothing about this daemon is outstanding. */
  predicate Quiet(s: State, w: nat, id: string) {
    w < |s.watchers| && !s.watchers[w].stage.Snapping? && !Busy(s, id)
  }

  /** A registered watcher of a daemon whose changes never overlapped, with nothing outstanding. */
  predicate Calm(s: State, w: nat, id: string) {
    Registered(s, w) && id in s.watchers[w].ids && id !in s.overlapped && Quiet(s, w, id)
  }

  /** If each change of an id was fully notified before the next one, then once the notifications
      for it have finished, what the frames say last is what the daemon map says. */
  lemma {:induction false} LastFrameIsTrue(run: seq<Event>, w: nat, id: string)
    requires After(run).Some? && Calm(After(run).value, w, id)
    ensures var s := After(run).value;
            Believed(s.watchers[w].frames, id) == Some(id in s.directory)
  {
    ReachableInv(run);
    var s := After(run).value;
    assert InformedOk(s, w, id) && DirectoryOk(s, id);
    if Last(s.changes, id).Some? {
      assert !Unfinished(s.notices[Last(s.changes, id).value]);
    }
  }

  // ---- the map is who is there ----

  /** Connection c is the last registered under its id. */
  predicate IsLast(conns: seq<Conn>, c: nat) {
    c < |conns| && forall k :: c < k < |conns| ==> conns[k].id != conns[c].id
  }

  /** The map lists exactly the connections that are open and not superseded. */
  ghost predicate Listed(s: State, c: nat)
    requires c < |s.conns|
  {
    s.conns[c].id in s.directory && s.directory[s.conns[c].id] == c <==> s.conns[c].open && IsLast(s.conns, c)
  }

  lemma LastStays(conns: seq<Conn>, conns': seq<Conn>, c: nat)
    requires c < |conns| <= |conns'| <= |conns| + 1
    requires forall k :: 0 <= k < |conns| ==> conns'[k].id == conns[k].id
    ensures IsLast(conns', c) <==>
              IsLast(conns, c) && (|conns'| > |conns| ==> conns'[|conns|].id != conns[c].id)
  {
  }

  lemma StepKeepsListing(s: State, e: Event)
    requires Inv(s) && Enabled(s, e) && forall c :: 0 <= c < |s.conns| ==> Listed(s, c)
    ensures forall c :: 0 <= c < |Step(s, e).conns| ==> Listed(Step(s, e), c)
  {
    var s' := Step(s, e);
    forall c | 0 <= c < |s'.conns| ensures Listed(s', c) {
      if c < |s.conns| {
        assert Listed(s, c) && DirectoryOk(s, s.conns[c].id);
        LastStays(s.conns, s'.conns, c);
      }
    }
  }

  lemma {:induction false} ReachableListing(run: seq<Event>)
    ensures After(run).Some? ==> forall c :: 0 <= c < |After(run).value.conns| ==> Listed(After(run).value, c)
  {
    if After(run).Some? && run != [] {
      ReachableInv(run[..|run| - 1]);
      ReachableListing(run[..|run| - 1]);
      StepKeepsListing(After(run[..|run| - 1]).value, run[|run| - 1]);
    }
  }

  /** A daemon is on the map if and only if the last connection registered under its id is open, and then
      the map names that connection: one that was superseded takes nobody off the map when it exits. */
  lemma {:induction false} MapIsPresence(run: seq<Event>, id: string)
    ensures After(run).Some? ==>
              var s := After(run).value;
              && (id in s.directory <==>
                    exists c: nat :: c < |s.conns| && s.conns[c].id == id && s.conns[c].open && IsLast(s.conns, c))
              && (id in s.directory ==>
                    && s.directory[id] < |s.conns| && s.conns[s.directory[id]].id == id
                    && s.conns[s.directory[id]].open && IsLast(s.conns, s.directory[id]))
  {
    if After(run).Some? {
      ReachableInv(run);
      ReachableListing(run);
      var s := After(run).value;
      assert DirectoryOk(s, id);
      forall c: nat | c < |s.conns|
        ensures s.conns[c].id == id && s.conns[c].open && IsLast(s.conns, c) ==> id in s.directory
      {
        assert Listed(s, c);
      }
      assert id in s.directory ==> Listed(s, s.directory[id]);
    }
  }

  // ---- nobody hears of what it does not watch ----

  /** Deltas are of ids the watcher asked for. */
  ghost predicate OwnIds(wt: Watcher) {
    forall j :: 0 <= j < |wt.frames| && wt.frames[j].Delta? ==> wt.frames[j].id in wt.ids
  }

  ghost predicate OwnTargets(s: State, k: nat)
    requires k < |s.notices|
  {
    s.notices[k].Sending? ==>
      forall w :: w in s.notices[k].targets ==>
        k < |s.changes| && w < |s.watchers| && s.changes[k].id in s.watchers[w].ids
  }

  ghost predicate OwnOnly(s: State) {
    && (forall w :: 0 <= w < |s.watchers| ==> OwnIds(s.watchers[w]))
    && (forall k :: 0 <= k < |s.notices| ==> OwnTargets(s, k))
  }

  lemma StepKeepsOwn(s: State, e: Event)
    requires Inv(s) && Enabled(s, e) && OwnOnly(s)
    ensures OwnOnly(Step(s, e))
  {
    var s' := Step(s, e);
    forall k | 0 <= k < |s'.notices| ensures OwnTargets(s', k) {
      if k < |s.notices| { assert OwnTargets(s, k); }
      if e.Collect? && k == e.k { CollectsOwn(s, k); }
    }
    forall w | 0 <= w < |s'.watchers| ensures OwnIds(s'.watchers[w]) {
      if w < |s.watchers| {
        assert OwnIds(s.watchers[w]);
        if e.Deliver? { assert OwnTargets(s, e.k); }
      }
    }
  }

  lemma CollectsOwn(s: State, k: nat)
    requires Inv(s) && Enabled(s, Collect(k))
    ensures OwnTargets(Step(s, Collect(k)), k)
  {
    var id := s.changes[k].id;
    forall w | w in TargetsOf(s.registry, id) ensures w < |s.watchers| && id in s.watchers[w].ids {
      assert WatcherOk(s, w);
    }
  }

  /** A watcher is told only of daemons it asked about. */
  lemma {:induction false} OnlyWatched(run: seq<Event>)
    ensures After(run).Some? ==>
              OwnOnly(After(run).value)
              && forall w, j ::
                   0 <= w < |After(run).value.watchers| && 0 <= j < |After(run).value.watchers[w].frames| ==>
                   var wt := After(run).value.watchers[w];
                   if wt.frames[j].Delta? then wt.frames[j].id in wt.ids else wt.frames[j].states.Keys == wt.ids
  {
    if After(run).Some? {
      ReachableInv(run);
      if run != [] {
        OnlyWatched(run[..|run| - 1]);
        ReachableInv(run[..|run| - 1]);
        StepKeepsOwn(After(run[..|run| - 1]).value, run[|run| - 1]);
      }
      var s := After(run).value;
      forall w, j | 0 <= w < |s.watchers| && 0 <= j < |s.watchers[w].frames|
        ensures var wt := s.watchers[w];
                if wt.frames[j].Delta? then wt.frames[j].id in wt.ids else wt.frames[j].states.Keys == wt.ids
      {
        assert OwnIds(s.watchers[w]) && WatcherOk(s, w);
      }
    }
  }

  // ---- how things may still finish ----

  lemma Next(s: State, run: seq<Event>, e: Event)
    requires From(s, run).Some? && Enabled(From(s, run).value, e)
    ensures From(s, run + [e]) == Some(Step(From(s, run).value, e))
  {
    assert (run + [e])[..|run|] == run;
  }

  lemma First(s: State, e: Event, rest: seq<Event>)
    requires Enabled(s, e)
    ensures From(s, [e] + rest) == From(Step(s, e), rest)
    decreases |rest|
  {
    var run := [e] + rest;
    if rest == [] {
      assert run == [e] && run[..0] == [];
    } else {
      assert run[..|run| - 1] == [e] + rest[..|rest| - 1];
      First(s, e, rest[..|rest| - 1]);
    }
  }

  /** The events that only carry out what is under way: no daemon or watcher comes or goes. */
  predicate Finishing(e: Event) {
    e.Collect? || e.Deliver? || e.WriteSnapshot?
  }

  predicate AllFinishing(run: seq<Event>) {
    forall k :: 0 <= k < |run| ==> Finishing(run[k])
  }

  /** However the outstanding notifications finish, the last word on this daemon is the map's. */
  ghost predicate EndsTrue(s: State, w: nat, id: string) {
    forall run :: AllFinishing(run) && From(s, run).Some? && Quiet(From(s, run).value, w, id) ==>
      Believed(From(s, run).value.watchers[w].frames, id) == Some(id in s.directory)
  }

  predicate OwedOf(s: State, k: nat, w: nat, id: string) {
    k < |s.notices| && k < |s.changes| && s.changes[k].id == id && Owes(s, k, w)
  }

  /** Every notification of this daemon still owed to the watcher says what the map says; and if none is
      owed, what the watcher was told, its snapshot included, says so already. */
  ghost predicate OwedTrue(s: State, w: nat, id: string)
    requires w < |s.watchers|
  {
    && (forall k: nat :: OwedOf(s, k, w, id) ==> s.changes[k].online == (id in s.directory))
    && ((forall k: nat :: !OwedOf(s, k, w, id)) ==> Told(s.watchers[w], id) == Some(id in s.directory))
  }

  /** A registered watcher of this daemon in a state the protocol can reach. */
  ghost predicate Tracks(s: State, w: nat, id: string) {
    Inv(s) && Registered(s, w) && id in s.watchers[w].ids
  }

  /** A step that finishes something keeps the map and the changes, and the watcher's registration. */
  lemma FinishingKeeps(s: State, e: Event, w: nat, id: string)
    requires Tracks(s, w, id) && Enabled(s, e) && Finishing(e)
    ensures var s' := Step(s, e);
            && Tracks(s', w, id) && s'.directory == s.directory && s'.changes == s.changes
            && (s.watchers[w].stage.Watching? ==> s'.watchers[w].stage.Watching?)
  {
    StepKeeps(s, e);
  }

  /** Such a step takes nothing off what the watcher is owed but what it delivers to it. */
  lemma FinishingOwes(s: State, e: Event, w: nat, id: string, k: nat)
    requires Tracks(s, w, id) && Enabled(s, e) && Finishing(e)
    ensures OwedOf(Step(s, e), k, w, id) <==> OwedOf(s, k, w, id) && e != Deliver(k, w)
  {
    assert WatcherOk(s, w);
  }

  lemma SnapshotTells(s: State, w: nat, id: string)
    requires Tracks(s, w, id) && Enabled(s, WriteSnapshot(w))
    ensures Told(Step(s, WriteSnapshot(w)).watchers[w], id) == Told(s.watchers[w], id)
  {
    assert WatcherOk(s, w);
    BelievedSnoc(s.watchers[w].frames, Snapshot(s.watchers[w].stage.snap), id);
  }

  lemma DeltaTells(s: State, k: nat, w: nat, id: string)
    requires Tracks(s, w, id) && Enabled(s, Deliver(k, w))
    ensures Told(DoDeliver(s, k, w).watchers[w], id) ==
            if s.changes[k].id == id then Some(s.changes[k].online) else Told(s.watchers[w], id)
  {
    BelievedSnoc(s.watchers[w].frames, DeltaOf(s, k), id);
  }

  lemma FinishingTells(s: State, e: Event, w: nat, id: string)
    requires Tracks(s, w, id) && Enabled(s, e) && Finishing(e)
    ensures w < |Step(s, e).watchers|
    ensures Told(Step(s, e).watchers[w], id) ==
            if e.Deliver? && e.w == w && s.changes[e.k].id == id then Some(s.changes[e.k].online)
            else Told(s.watchers[w], id)
  {
    match e
    case WriteSnapshot(v) => if v == w { SnapshotTells(s, w, id); }
    case Deliver(k, v) => if v == w { DeltaTells(s, k, w, id); }
    case Collect(_) =>
  }

  lemma StepKeepsOwedTrue(s: State, e: Event, w: nat, id: string)
    requires Tracks(s, w, id) && Enabled(s, e) && Finishing(e) && OwedTrue(s, w, id)
    ensures w < |Step(s, e).watchers| && OwedTrue(Step(s, e), w, id)
  {
    FinishingKeeps(s, e, w, id);
    FinishingTells(s, e, w, id);
    forall k: nat ensures OwedOf(Step(s, e), k, w, id) <==> OwedOf(s, k, w, id) && e != Deliver(k, w) {
      FinishingOwes(s, e, w, id, k);
    }
    if e.Deliver? && e.w == w && s.changes[e.k].id == id {
      assert OwedOf(s, e.k, w, id);
    }
  }

  lemma {:induction false} OwedTrueEndsTrue(s: State, run: seq<Event>, w: nat, id: string)
    requires Tracks(s, w, id) && OwedTrue(s, w, id) && AllFinishing(run) && From(s, run).Some?
    ensures var s' := From(s, run).value;
            Tracks(s', w, id) && OwedTrue(s', w, id) && s'.directory == s.directory
    decreases |run|
  {
    if run != [] {
      var before, e := run[..|run| - 1], run[|run| - 1];
      OwedTrueEndsTrue(s, before, w, id);
      FinishingKeeps(From(s, before).value, e, w, id);
      StepKeepsOwedTrue(From(s, before).value, e, w, id);
    }
  }

  lemma QuietIsUnowed(s: State, w: nat, id: string)
    requires Tracks(s, w, id) && Quiet(s, w, id)
    ensures forall k: nat :: !OwedOf(s, k, w, id)
  {
    forall k: nat ensures !OwedOf(s, k, w, id) {
      OwedIsBusy(s, k, w, id);
    }
  }

  lemma OwedIsBusy(s: State, k: nat, w: nat, id: string)
    ensures OwedOf(s, k, w, id) ==> Busy(s, id)
  {
    assert OwedOf(s, k, w, id) ==> Unfinished(s.notices[k]);
  }

  // ---- everything outstanding can be finished, any one delivery last ----

  function Total(ns: seq<nat>): nat {
    if ns == [] then 0 else Total(ns[..|ns| - 1]) + ns[|ns| - 1]
  }

  lemma {:induction false} TotalUpdate(ns: seq<nat>, i: nat, n: nat)
    requires i < |ns|
    ensures Total(ns[i := n]) + ns[i] == Total(ns) + n
    decreases |ns|
  {
    var l := |ns| - 1;
    if i == l {
      assert ns[i := n][..l] == ns[..l];
    } else {
      TotalUpdate(ns[..l], i, n);
      assert ns[i := n][..l] == ns[..l][i := n];
    }
  }

  function Snapshots(s: State): seq<nat> {
    seq(|s.watchers|, w requires 0 <= w < |s.watchers| => if s.watchers[w].stage.Snapping? then 1 else 0)
  }

  function Collections(s: State): seq<nat> {
    seq(|s.notices|, k requires 0 <= k < |s.notices| => if s.notices[k].Uncollected? then 1 else 0)
  }

  function Deliveries(s: State): seq<nat> {
    seq(|s.notices|, k requires 0 <= k < |s.notices| => if s.notices[k].Sending? then |s.notices[k].targets| else 0)
  }

  lemma SnapshotWorks(s: State, w: nat)
    requires Enabled(s, WriteSnapshot(w))
    ensures Total(Snapshots(Step(s, WriteSnapshot(w)))) < Total(Snapshots(s))
  {
    TotalUpdate(Snapshots(s), w, 0);
    assert Snapshots(Step(s, WriteSnapshot(w))) == Snapshots(s)[w := 0];
  }

  lemma CollectWorks(s: State, k: nat)
    requires Enabled(s, Collect(k))
    ensures Snapshots(Step(s, Collect(k))) == Snapshots(s)
    ensures Total(Collections(Step(s, Collect(k)))) < Total(Collections(s))
  {
    TotalUpdate(Collections(s), k, 0);
    assert Collections(Step(s, Collect(k))) == Collections(s)[k := 0];
  }

  lemma DeliverWorks(s: State, k: nat, w: nat)
    requires Enabled(s, Deliver(k, w))
    ensures Snapshots(Step(s, Deliver(k, w))) == Snapshots(s)
    ensures Collections(Step(s, Deliver(k, w))) == Collections(s)
    ensures Total(Deliveries(Step(s, Deliver(k, w)))) < Total(Deliveries(s))
  {
    var left := s.notices[k].targets - {w};
    TotalUpdate(Deliveries(s), k, |left|);
    assert Deliveries(Step(s, Deliver(k, w))) == Deliveries(s)[k := |left|];
    assert s.notices[k].targets == left + {w};
  }

  /** Nothing is left to do but the delivery of change k to watcher w. */
  ghost predicate AllButOne(s: State, k: nat, w: nat) {
    && (forall v :: 0 <= v < |s.watchers| ==> !s.watchers[v].stage.Snapping?)
    && (forall j :: 0 <= j < |s.notices| ==> s.notices[j].Sending?
                                             && forall v :: v in s.notices[j].targets ==> j == k && v == w)
  }

  /** The next thing to do, other than that delivery. */
  lemma SomethingElse(s: State, k: nat, w: nat) returns (e: Event)
    requires Inv(s) && !AllButOne(s, k, w)
    ensures Finishing(e) && Enabled(s, e) && e != Deliver(k, w)
    ensures e.Collect? || e.Deliver? || e.WriteSnapshot?
  {
    if v: nat :| v < |s.watchers| && s.watchers[v].stage.Snapping? {
      e := WriteSnapshot(v);
    } else if j: nat :| j < |s.notices| && s.notices[j].Uncollected? {
      e := Collect(j);
    } else {
      var j: nat :| j < |s.notices| && exists v :: v in s.notices[j].targets && !(j == k && v == w);
      var v :| v in s.notices[j].targets && !(j == k && v == w);
      assert NoticeOk(s, j);
      e := Deliver(j, v);
    }
  }

  /** Finish everything but that one delivery; what is owed and told changes as the steps say. */
  lemma {:induction false} FinishAllBut(s: State, k: nat, w: nat, id: string) returns (run: seq<Event>)
    requires Tracks(s, w, id)
    ensures AllFinishing(run) && From(s, run).Some?
    ensures var s' := From(s, run).value;
            && Tracks(s', w, id) && AllButOne(s', k, w) && s'.directory == s.directory && s'.changes == s.changes
            && (OwedOf(s, k, w, id) ==> OwedOf(s', k, w, id))
            && ((forall j: nat :: !OwedOf(s, j, w, id)) ==> Told(s'.watchers[w], id) == Told(s.watchers[w], id))
    decreases Total(Snapshots(s)), Total(Collections(s)), Total(Deliveries(s))
  {
    if AllButOne(s, k, w) {
      run := [];
    } else {
      var e := SomethingElse(s, k, w);
      match e {
        case WriteSnapshot(v) => SnapshotWorks(s, v);
        case Collect(j) => CollectWorks(s, j);
        case Deliver(j, v) => DeliverWorks(s, j, v);
      }
      FinishingKeeps(s, e, w, id);
      FinishingTells(s, e, w, id);
      forall j: nat ensures OwedOf(Step(s, e), j, w, id) <==> OwedOf(s, j, w, id) && e != Deliver(j, w) {
        FinishingOwes(s, e, w, id, j);
      }
      assert e.Deliver? && e.w == w && s.changes[e.k].id == id ==> OwedOf(s, e.k, w, id);
      var rest := FinishAllBut(Step(s, e), k, w, id);
      First(s, e, rest);
      run := [e] + rest;
    }
  }

  lemma AllDoneIsQuiet(s: State, k: nat, w: nat, id: string)
    requires Tracks(s, w, id) && AllButOne(s, k, w) && !(k < |s.notices| && w in s.notices[k].targets)
    ensures Quiet(s, w, id)
  {
    forall j | 0 <= j < |s.notices| ensures !Unfinished(s.notices[j]) {
      assert s.notices[j].targets == {};
    }
  }

  /** One owed notification can be made the last. */
  lemma {:induction false} LastWord(s: State, k: nat, w: nat, id: string) returns (run: seq<Event>)
    requires Tracks(s, w, id) && OwedOf(s, k, w, id)
    ensures AllFinishing(run) && From(s, run).Some? && Quiet(From(s, run).value, w, id)
    ensures Believed(From(s, run).value.watchers[w].frames, id) == Some(s.changes[k].online)
  {
    var before := FinishAllBut(s, k, w, id);
    var s' := From(s, before).value;
    var last := Deliver(k, w);
    Next(s, before, last);
    FinishingKeeps(s', last, w, id);
    FinishingTells(s', last, w, id);
    DeliveredLast(s', k, w);
    AllDoneIsQuiet(Step(s', last), k, w, id);
    run := before + [last];
  }

  lemma DeliveredLast(s: State, k: nat, w: nat)
    requires AllButOne(s, k, w) && Enabled(s, Deliver(k, w))
    ensures AllButOne(Step(s, Deliver(k, w)), k, w) && w !in Step(s, Deliver(k, w)).notices[k].targets
  {
  }

  /** With nothing owed, what was told stays the last word. */
  lemma OldWord(s: State, w: nat, id: string) returns (run: seq<Event>)
    requires Tracks(s, w, id) && forall k: nat :: !OwedOf(s, k, w, id)
    ensures AllFinishing(run) && From(s, run).Some? && Quiet(From(s, run).value, w, id)
    ensures Believed(From(s, run).value.watchers[w].frames, id) == Told(s.watchers[w], id)
  {
    run := FinishAllBut(s, |s.notices|, w, id);
    AllDoneIsQuiet(From(s, run).value, |s.notices|, w, id);
  }

  /** The exact condition: in any reachable state, every way of finishing the outstanding notifications
      leaves a watcher with the truth about a daemon if and only if each one still owed to it says what
      the map says, and, none being owed, what it was told does. */
  lemma {:induction false} EndsTrueExactly(run: seq<Event>, w: nat, id: string)
    requires After(run).Some? && Registered(After(run).value, w) && id in After(run).value.watchers[w].ids
    ensures EndsTrue(After(run).value, w, id) <==> OwedTrue(After(run).value, w, id)
  {
    ReachableInv(run);
    var s := After(run).value;
    if OwedTrue(s, w, id) {
      forall more | AllFinishing(more) && From(s, more).Some? && Quiet(From(s, more).value, w, id)
        ensures Believed(From(s, more).value.watchers[w].frames, id) == Some(id in s.directory)
      {
        OwedTrueEndsTrue(s, more, w, id);
        QuietIsUnowed(From(s, more).value, w, id);
      }
    } else if k: nat :| OwedOf(s, k, w, id) && s.changes[k].online != (id in s.directory) {
      var more := LastWord(s, k, w, id);
    } else {
      var more := OldWord(s, w, id);
    }
  }

  // ---- a run that misleads ----

  /** One watcher of one daemon, whose connection was lost and replaced: the loss and the return are both
      unannounced, by two goroutines. */
  ghost predicate TwoPending(s: State, id: string) {
    && id in s.directory && s.registry == map[0 := {id}]
    && |s.watchers| == 1 && s.watchers[0].stage.Watching? && id in s.watchers[0].ids
    && s.changes == [Change(id, true), Change(id, false), Change(id, true)]
    && s.notices == [Sending({}), Uncollected, Uncollected]
  }

  lemma Announced(id: string) returns (run: seq<Event>)
    requires id != ""
    ensures After(run).Some?
    ensures var s := After(run).value;
            && s.registry == map[0 := {id}] && s.directory == map[id := 0] && s.conns == [Conn(id, true, 0)]
            && |s.watchers| == 1 && s.watchers[0].stage.Watching? && id in s.watchers[0].ids
            && s.changes == [Change(id, true)] && s.notices == [Sending({})]
  {
    var s := INIT;
    run := [];
    Next(INIT, run, Watch({id}));
    run, s := run + [Watch({id})], Step(s, Watch({id}));
    Next(INIT, run, WriteSnapshot(0));
    run, s := run + [WriteSnapshot(0)], Step(s, WriteSnapshot(0));
    Next(INIT, run, Register(id));
    run, s := run + [Register(id)], Step(s, Register(id));
    assert TargetsOf(s.registry, id) == {0};
    Next(INIT, run, Collect(0));
    run, s := run + [Collect(0)], Step(s, Collect(0));
    Next(INIT, run, Deliver(0, 0));
    run, s := run + [Deliver(0, 0)], Step(s, Deliver(0, 0));
    assert s.notices[0].targets == {};
  }

  lemma ReachTwoPending(id: string) returns (run: seq<Event>)
    requires id != ""
    ensures After(run).Some? && TwoPending(After(run).value, id)
  {
    run := Announced(id);
    var s := After(run).value;
    Next(INIT, run, Drop(0));
    run, s := run + [Drop(0)], Step(s, Drop(0));
    Next(INIT, run, Register(id));
    run, s := run + [Register(id)], Step(s, Register(id));
  }

  /** Nothing is outstanding, and the watcher takes a present daemon for an absent one. */
  ghost predicate Misled(s: State, id: string) {
    && Registered(s, 0) && id in s.watchers[0].ids && Quiet(s, 0, id)
    && Believed(s.watchers[0].frames, id) == Some(false) && id in s.directory
  }

  /** The last frame can lie: a daemon drops and registers again, the second goroutine announces the
      return before the first announces the loss, and the watcher is left believing a present daemon is
      offline. */
  lemma OverlapMisleads(id: string)
    requires id != ""
    ensures exists run :: After(run).Some? && Misled(After(run).value, id)
  {
    var run := ReachTwoPending(id);
    ReachableInv(run);
    var s := After(run).value;
    assert OwedOf(s, 1, 0, id);
    var more := LastWord(s, 1, 0, id);
    FromConcat(INIT, run, more);
    FinishingRun(s, more, 0, id);
    assert After(run + more).Some? && Misled(After(run + more).value, id);
  }

  /** A run continued. */
  lemma {:induction false} FromConcat(s: State, run: seq<Event>, more: seq<Event>)
    requires From(s, run).Some?
    ensures From(s, run + more) == From(From(s, run).value, more)
    decreases |more|
  {
    if more == [] {
      assert run + more == run;
    } else {
      var before, e := more[..|more| - 1], more[|more| - 1];
      FromConcat(s, run, before);
      assert run + more == (run + before) + [e] && more == before + [e];
      SameSnoc(s, run + before, From(s, run).value, before, e);
    }
  }

  lemma SameSnoc(s: State, run: seq<Event>, s': State, run': seq<Event>, e: Event)
    requires From(s, run) == From(s', run')
    ensures From(s, run + [e]) == From(s', run' + [e])
  {
    assert (run + [e])[..|run|] == run && (run' + [e])[..|run'|] == run';
  }

  lemma {:induction false} FinishingRun(s: State, run: seq<Event>, w: nat, id: string)
    requires Tracks(s, w, id) && AllFinishing(run) && From(s, run).Some?
    ensures Tracks(From(s, run).value, w, id) && From(s, run).value.directory == s.directory
    decreases |run|
  {
    if run != [] {
      FinishingRun(s, run[..|run| - 1], w, id);
      FinishingKeeps(From(s, run[..|run| - 1]).value, run[|run| - 1], w, id);
    }
  }
}
