/** The broker's one-client-per-daemon slot (internal/signalbroker/broker.go): admission, busy
    refusal, takeover, displacement and exit, as concurrent goroutines. */
module BrokerSlot {
  import opened Base

  // ---- the sections under a daemon's mutex ----

  /** The client in a daemon's slot; `id` is the identity of its goroutine. */
  datatype Seat = Seat(id: nat, pubKey: string)

  /** A second viewer with another key is refused unless it insists. */
  predicate Busy(slot: Option<Seat>, seat: Seat, takeover: bool) {
    slot.Some? && slot.value.pubKey != seat.pubKey && !takeover
  }

  predicate Mine(slot: Option<Seat>, id: nat) {
    slot.Some? && slot.value.id == id
  }

  class DaemonConn {
    var client: Option<Seat>

    constructor ()
      ensures client.None?
    {
      client := None;
    }

    /** The admission section: `evicted` is the client that loses its slot. */
    method Enter(seat: Seat, takeover: bool) returns (admitted: bool, evicted: Option<Seat>)
      modifies this
      ensures admitted <==> old(client).None? || old(client).value.pubKey == seat.pubKey || takeover
      ensures client == if admitted then Some(seat) else old(client)
      ensures evicted == if admitted then old(client) else None
    {
      var sitting := client;
      if sitting.Some? && sitting.value.pubKey != seat.pubKey && !takeover {
        return false, None;
      }
      client := Some(seat);
      return true, sitting;
    }

    method IsMine(id: nat) returns (mine: bool)
      ensures mine <==> Mine(client, id)
    {
      mine := client.Some? && client.value.id == id;
    }

    /** One message of client id's loop: how many frames go to the daemon, and whether the loop goes on. */
    method Turn(id: nat, note: Note) returns (frames: nat, goesOn: bool)
      ensures goesOn <==> Mine(client, id) && note != Proof(false)
      ensures frames == if !goesOn then 0 else if note.Proof? then 2 else 1
    {
      var mine := IsMine(id);
      if !mine {
        return 0, false;
      }
      if note.Proof? {
        if !note.valid {
          return 0, false;
        }
        return 2, true;
      }
      return 1, true;
    }

    /** The deferred section of serveClient. */
    method Leave(id: nat) returns (mine: bool)
      modifies this
      ensures mine <==> Mine(old(client), id)
      ensures client == if mine then None else old(client)
    {
      mine := client.Some? && client.value.id == id;
      if mine {
        client := None;
      }
    }
  }

  // ---- the machine ----

  datatype Note = Proof(valid: bool) | Relay

  datatype Ending = Offline | NoNonce | TurnedAway | Left | Dropped

  /** Where a client's goroutine stands; `d` is the daemon connection it found. */
  datatype Phase =
    | Looking(daemon: string)
    | NotFound                    // no such daemon; still to be counted
    | Found(d: nat)               // about to draw a nonce
    | Entering(d: nat)            // about to enter the admission section
    | Refused                     // busy; still to be counted
    | Evicting(d: nat, evicted: Option<Seat>)
    | Connecting(d: nat)          // about to send connect to the daemon
    | Reading(d: nat)
    | Got(d: nat, note: Note)     // read a message, not yet checked the slot
    | Cleared(d: nat, note: Note) // checked the slot, about to act
    | Relaying(d: nat, begun: bool) // sent the relay configuration, about to send the proof
    | Leaving(d: nat)             // about to enter the deferred section
    | Parting(d: nat)             // cleared its slot, about to send peerLeft
    | Gone(ending: Ending)

  /** Outside the slot, in it, pushed out of it, or out of it by its own exit. */
  datatype Fate = Outside | Sitting | Displaced | Parted

  /** History: after it was displaced, `late` counts the messages the goroutine acted on, the connect that
      opens its session included, and `sends` the frames it wrote to the daemon; `ousted` is the key of the
      client it displaced. */
  datatype Client = Client(pubKey: string, takeover: bool, phase: Phase, fate: Fate, late: nat, sends: nat,
                           ousted: Option<string>)

  /** A registered connection, until its goroutine exits; the counters are history. */
  datatype Daemon = Daemon(id: string, open: bool, client: Option<Seat>, admitted: nat, displaced: nat, parted: nat)

  datatype State = State(directory: map<string, nat>, daemons: seq<Daemon>, clients: seq<Client>,
                         joins: nat, offline: nat, busy: nat, noNonce: nat, admitted: nat, takeovers: nat)

  datatype Event =
    | Register(id: string)
    | Unregister(d: nat)
    | Join(daemon: string, pubKey: string, takeover: bool)
    | Lookup(c: nat)
    | CountOffline(c: nat)
    | DrawNonce(c: nat, ok: bool)
    | Admit(c: nat)
    | CountBusy(c: nat)
    | Evict(c: nat)
    | Connect(c: nat)
    | ReadNote(c: nat, note: Note)
    | ReadFails(c: nat)
    | CheckSlot(c: nat)
    | Act(c: nat)
    | SendProof(c: nat)
    | LeaveSection(c: nat)
    | SayPeerLeft(c: nat)

  const INIT := State(map[], [], [], 0, 0, 0, 0, 0, 0)

  predicate Enabled(s: State, e: Event) {
    match e
    case Register(id) => id != ""
    case Unregister(d) => d < |s.daemons| && s.daemons[d].open
    case Join(daemon, pubKey, _) => daemon != "" && pubKey != ""
    case Lookup(c) => c < |s.clients| && s.clients[c].phase.Looking?
    case CountOffline(c) => c < |s.clients| && s.clients[c].phase.NotFound?
    case DrawNonce(c, _) => c < |s.clients| && s.clients[c].phase.Found?
    case Admit(c) => c < |s.clients| && s.clients[c].phase.Entering? && s.clients[c].phase.d < |s.daemons|
    case CountBusy(c) => c < |s.clients| && s.clients[c].phase.Refused?
    case Evict(c) => c < |s.clients| && s.clients[c].phase.Evicting?
    case Connect(c) => c < |s.clients| && s.clients[c].phase.Connecting?
    case ReadNote(c, _) => c < |s.clients| && s.clients[c].phase.Reading?
    case ReadFails(c) => c < |s.clients| && s.clients[c].phase.Reading?
    case CheckSlot(c) => c < |s.clients| && s.clients[c].phase.Got? && s.clients[c].phase.d < |s.daemons|
    case Act(c) => c < |s.clients| && s.clients[c].phase.Cleared?
    case SendProof(c) => c < |s.clients| && s.clients[c].phase.Relaying?
    case LeaveSection(c) => c < |s.clients| && s.clients[c].phase.Leaving? && s.clients[c].phase.d < |s.daemons|
    case SayPeerLeft(c) => c < |s.clients| && s.clients[c].phase.Parting?
  }

  function At(s: State, c: nat, phase: Phase): State
    requires c < |s.clients|
  {
    s.(clients := s.clients[c := s.clients[c].(phase := phase)])
  }

  /** The goroutine acts, on a further message or on one it has begun, and writes to the daemon or does
      not; what it does after its displacement is noted. */
  function Acts(s: State, c: nat, further: bool, writes: bool, phase: Phase): State
    requires c < |s.clients|
  {
    var cl := s.clients[c];
    var cl' := if !cl.fate.Displaced? then cl
               else cl.(late := cl.late + (if further then 1 else 0), sends := cl.sends + (if writes then 1 else 0));
    s.(clients := s.clients[c := cl'.(phase := phase)])
  }

  function Step(s: State, e: Event): State
    requires Enabled(s, e)
  {
    match e
    case Register(id) =>
      s.(directory := s.directory[id := |s.daemons|], daemons := s.daemons + [Daemon(id, true, None, 0, 0, 0)])
    case Unregister(d) =>
      s.(directory := Unlisted(s.directory, s.daemons[d].id, d),
         daemons := s.daemons[d := s.daemons[d].(open := false)])
    case Join(daemon, pubKey, takeover) =>
      s.(joins := s.joins + 1, clients := s.clients + [Client(pubKey, takeover, Looking(daemon), Outside, 0, 0, None)])
    case Lookup(c) =>
      var id := s.clients[c].phase.daemon;
      At(s, c, if id in s.directory then Found(s.directory[id]) else NotFound)
    case CountOffline(c) => At(s, c, Gone(Offline)).(offline := s.offline + 1)
    case DrawNonce(c, ok) =>
      if ok then At(s, c, Entering(s.clients[c].phase.d))
      else At(s, c, Gone(NoNonce)).(noNonce := s.noNonce + 1)
    case Admit(c) => DoAdmit(s, c, s.clients[c].phase.d)
    case CountBusy(c) => At(s, c, Gone(TurnedAway)).(busy := s.busy + 1)
    case Evict(c) =>
      var ph := s.clients[c].phase;
      var other := ph.evicted.Some? && ph.evicted.value.pubKey != s.clients[c].pubKey;
      At(s, c, Connecting(ph.d)).(takeovers := if other then s.takeovers + 1 else s.takeovers)
    case Connect(c) => Acts(s, c, true, true, Reading(s.clients[c].phase.d))
    case ReadNote(c, note) => At(s, c, Got(s.clients[c].phase.d, note))
    case ReadFails(c) => At(s, c, Leaving(s.clients[c].phase.d))
    case CheckSlot(c) =>
      var ph := s.clients[c].phase;
      At(s, c, if Mine(s.daemons[ph.d].client, c) then Cleared(ph.d, ph.note) else Leaving(ph.d))
    case Act(c) => DoAct(s, c, s.clients[c].phase.d, s.clients[c].phase.note)
    case SendProof(c) =>
      var ph := s.clients[c].phase;
      Acts(s, c, !ph.begun, true, Reading(ph.d))
    case LeaveSection(c) => DoLeave(s, c, s.clients[c].phase.d)
    case SayPeerLeft(c) => At(s, c, Gone(Left))
  }

  /** A bad proof ends the session; a good one takes two frames to the daemon; the rest is passed on. */
  function DoAct(s: State, c: nat, d: nat, note: Note): State
    requires c < |s.clients|
  {
    match note
    case Proof(false) => Acts(s, c, true, false, Leaving(d))
    case Proof(true) => Acts(s, c, true, true, Relaying(d, s.clients[c].fate.Displaced?))
    case Relay => Acts(s, c, true, true, Reading(d))
  }

  /** The admission section: whoever sits in the slot is displaced and the newcomer takes it. */
  function DoAdmit(s: State, c: nat, d: nat): State
    requires c < |s.clients| && d < |s.daemons|
  {
    var cl := s.clients[c];
    if Busy(s.daemons[d].client, Seat(c, cl.pubKey), cl.takeover) then At(s, c, Refused)
    else TakeSeat(Vacate(s, d), c, d, s.daemons[d].client)
  }

  function Vacate(s: State, d: nat): State
    requires d < |s.daemons|
  {
    var dm := s.daemons[d];
    if dm.client.None? || dm.client.value.id >= |s.clients| then s
    else
      var o := dm.client.value.id;
      s.(daemons := s.daemons[d := dm.(client := None, displaced := dm.displaced + 1)],
         clients := s.clients[o := s.clients[o].(fate := Displaced)])
  }

  function TakeSeat(s: State, c: nat, d: nat, evicted: Option<Seat>): State
    requires c < |s.clients| && d < |s.daemons|
  {
    var cl, dm := s.clients[c], s.daemons[d];
    s.(daemons := s.daemons[d := dm.(client := Some(Seat(c, cl.pubKey)), admitted := dm.admitted + 1)],
       clients := s.clients[c := cl.(phase := Evicting(d, evicted), fate := Sitting,
                                     ousted := if evicted.Some? then Some(evicted.value.pubKey) else None)],
       admitted := s.admitted + 1)
  }

  function DoLeave(s: State, c: nat, d: nat): State
    requires c < |s.clients| && d < |s.daemons|
  {
    var cl, dm := s.clients[c], s.daemons[d];
    if Mine(dm.client, c) then
      s.(daemons := s.daemons[d := dm.(client := None, parted := dm.parted + 1)],
         clients := s.clients[c := cl.(phase := Parting(d), fate := Parted)])
    else At(s, c, Gone(Dropped))
  }

  function After(run: seq<Event>): Option<State> {
    if run == [] then Some(INIT)
    else
      match After(run[..|run| - 1])
      case None => None
      case Some(s) => if Enabled(s, run[|run| - 1]) then Some(Step(s, run[|run| - 1])) else None
  }

  // ---- the invariant ----

  /** The daemon whose slot an admitted goroutine holds or held. */
  function Room(p: Phase): Option<nat> {
    match p
    case Evicting(d, _) => Some(d)
    case Connecting(d) => Some(d)
    case Reading(d) => Some(d)
    case Got(d, _) => Some(d)
    case Cleared(d, _) => Some(d)
    case Relaying(d, _) => Some(d)
    case Leaving(d) => Some(d)
    case _ => None
  }

  ghost predicate ClientOk(s: State, c: nat)
    requires c < |s.clients|
  {
    var cl := s.clients[c];
    && (cl.phase.Found? || cl.phase.Entering? ==> cl.phase.d < |s.daemons|)
    && (Room(cl.phase).Some? ==> Room(cl.phase).value < |s.daemons|)
    && (cl.fate.Outside? <==>
          Waiting(cl.phase) || (cl.phase.Gone? && !cl.phase.ending.Left? && !cl.phase.ending.Dropped?))
    && (cl.fate.Parted? <==> cl.phase.Parting? || cl.phase == Gone(Left))
    && (cl.fate.Sitting? ==>
          Room(cl.phase).Some? && s.daemons[Room(cl.phase).value].client == Some(Seat(c, cl.pubKey)))
    && (cl.fate.Displaced? ==> Room(cl.phase).Some? || cl.phase == Gone(Dropped))
    && LateOk(cl)
    && (cl.ousted.Some? ==> !cl.fate.Outside? && (cl.ousted.value == cl.pubKey || cl.takeover))
    && (cl.phase.Evicting? ==>
          cl.ousted == if cl.phase.evicted.Some? then Some(cl.phase.evicted.value.pubKey) else None)
  }

  /** At most one message after displacement, and at most the two frames a proof takes. */
  predicate LateOk(cl: Client) {
    && (cl.late > 0 || cl.sends > 0 ==> cl.fate.Displaced?)
    && cl.late <= 1 && cl.sends <= 2 * cl.late
    && (cl.phase.Evicting? || cl.phase.Connecting? || cl.phase.Cleared? ==> cl.late == 0)
    && (cl.phase.Relaying? ==>
          && (cl.phase.begun ==> cl.fate.Displaced?)
          && cl.late == cl.sends == if cl.phase.begun then 1 else 0)
  }

  ghost predicate DaemonOk(s: State, d: nat)
    requires d < |s.daemons|
  {
    var dm := s.daemons[d];
    && (dm.client.Some? ==>
          var c := dm.client.value.id;
          && c < |s.clients| && s.clients[c].fate.Sitting? && Room(s.clients[c].phase) == Some(d)
          && s.clients[c].pubKey == dm.client.value.pubKey)
    && dm.admitted == dm.parted + dm.displaced + (if dm.client.Some? then 1 else 0)
  }

  ghost predicate DirectoryOk(s: State) {
    forall id :: id in s.directory ==> s.directory[id] < |s.daemons| && s.daemons[s.directory[id]].id == id
  }

  /** Joined, neither admitted nor counted as refused yet. */
  predicate Waiting(p: Phase) {
    p.Looking? || p.NotFound? || p.Found? || p.Entering? || p.Refused?
  }

  /** What a client is counted as; each is counted as one of the first five. */
  datatype Kind = InFlight | AsOffline | AsBusy | AsNoNonce | AsAdmitted | AsTakeover

  /** Admitted by now, and, for a takeover, past the point where it told another key to go. */
  predicate Is(cl: Client, kind: Kind) {
    match kind
    case InFlight => Waiting(cl.phase)
    case AsOffline => cl.phase == Gone(Offline)
    case AsBusy => cl.phase == Gone(TurnedAway)
    case AsNoNonce => cl.phase == Gone(NoNonce)
    case AsAdmitted => !cl.fate.Outside?
    case AsTakeover => cl.ousted.Some? && cl.ousted.value != cl.pubKey && !cl.phase.Evicting?
  }

  function Tally(clients: seq<Client>, kind: Kind): nat {
    if clients == [] then 0
    else Tally(clients[..|clients| - 1], kind) + (if Is(clients[|clients| - 1], kind) then 1 else 0)
  }

  function Counter(s: State, kind: Kind): nat {
    match kind
    case InFlight => 0
    case AsOffline => s.offline
    case AsBusy => s.busy
    case AsNoNonce => s.noNonce
    case AsAdmitted => s.admitted
    case AsTakeover => s.takeovers
  }

  ghost predicate CounterOk(s: State, kind: Kind) {
    kind.InFlight? || Counter(s, kind) == Tally(s.clients, kind)
  }

  ghost predicate TotalsOk(s: State) {
    s.joins == |s.clients| && forall kind :: CounterOk(s, kind)
  }

  ghost predicate Inv(s: State) {
    && (forall c :: 0 <= c < |s.clients| ==> ClientOk(s, c))
    && (forall d :: 0 <= d < |s.daemons| ==> DaemonOk(s, d))
    && DirectoryOk(s) && TotalsOk(s)
  }

  lemma {:induction false} TallyUpdate(clients: seq<Client>, c: nat, cl: Client, kind: Kind)
    requires c < |clients|
    ensures Tally(clients[c := cl], kind) + (if Is(clients[c], kind) then 1 else 0)
            == Tally(clients, kind) + (if Is(cl, kind) then 1 else 0)
    decreases |clients|
  {
    var n := |clients| - 1;
    if c == n {
      assert clients[c := cl][..n] == clients[..n];
    } else {
      TallyUpdate(clients[..n], c, cl, kind);
      assert clients[c := cl][..n] == clients[..n][c := cl];
    }
  }

  lemma TallySnoc(clients: seq<Client>, cl: Client, kind: Kind)
    ensures Tally(clients + [cl], kind) == Tally(clients, kind) + (if Is(cl, kind) then 1 else 0)
  {
    assert (clients + [cl])[..|clients|] == clients;
  }

  /** The counter of this kind moves as the client does. */
  predicate Counted(s: State, s': State, cl: Client, cl': Client, kind: Kind) {
    kind.InFlight?
    || Counter(s', kind) + (if Is(cl, kind) then 1 else 0) == Counter(s, kind) + (if Is(cl', kind) then 1 else 0)
  }

  lemma TotalsKept(s: State, s': State, c: nat)
    requires TotalsOk(s) && c < |s.clients| && |s'.clients| == |s.clients|
    requires s'.clients == s.clients[c := s'.clients[c]] && s'.joins == s.joins
    requires forall kind :: Counted(s, s', s.clients[c], s'.clients[c], kind)
    ensures TotalsOk(s')
  {
    forall kind ensures CounterOk(s', kind) {
      assert CounterOk(s, kind) && Counted(s, s', s.clients[c], s'.clients[c], kind);
      TallyUpdate(s.clients, c, s'.clients[c], kind);
    }
  }

  /** A step that touches one client only, and no slot. */
  lemma OneClient(s: State, s': State, c: nat)
    requires Inv(s) && c < |s.clients| && s'.directory == s.directory && s'.daemons == s.daemons
    requires |s'.clients| == |s.clients| && s'.clients == s.clients[c := s'.clients[c]]
    requires s'.clients[c].fate == s.clients[c].fate && s'.clients[c].pubKey == s.clients[c].pubKey
    requires s.clients[c].fate.Sitting? ==> Room(s'.clients[c].phase) == Room(s.clients[c].phase)
    requires ClientOk(s', c)
    requires s'.joins == s.joins && forall kind :: Counted(s, s', s.clients[c], s'.clients[c], kind)
    ensures Inv(s')
  {
    TotalsKept(s, s', c);
    forall k | 0 <= k < |s'.clients| ensures ClientOk(s', k) {
      if k != c { assert ClientOk(s, k); }
    }
    forall d | 0 <= d < |s'.daemons| ensures DaemonOk(s', d) {
      assert DaemonOk(s, d);
    }
  }

  lemma KeepVacate(s: State, d: nat)
    requires Inv(s) && d < |s.daemons|
    ensures Inv(Vacate(s, d)) && Vacate(s, d).daemons[d].client.None?
  {
    var s' := Vacate(s, d);
    assert DaemonOk(s, d);
    if s.daemons[d].client.Some? {
      var o := s.daemons[d].client.value.id;
      TotalsKept(s, s', o);
      forall k | 0 <= k < |s'.clients| ensures ClientOk(s', k) {
        assert ClientOk(s, k);
      }
      forall k | 0 <= k < |s'.daemons| ensures DaemonOk(s', k) {
        assert DaemonOk(s, k);
      }
    }
  }

  lemma KeepTakeSeat(s: State, c: nat, d: nat, evicted: Option<Seat>)
    requires Inv(s) && c < |s.clients| && s.clients[c].phase == Entering(d)
    requires d < |s.daemons| && s.daemons[d].client.None?
    requires !Busy(evicted, Seat(c, s.clients[c].pubKey), s.clients[c].takeover)
    ensures Inv(TakeSeat(s, c, d, evicted))
  {
    var s' := TakeSeat(s, c, d, evicted);
    assert ClientOk(s, c);
    TotalsKept(s, s', c);
    forall k | 0 <= k < |s'.clients| ensures ClientOk(s', k) {
      assert ClientOk(s, k);
    }
    forall k | 0 <= k < |s'.daemons| ensures DaemonOk(s', k) {
      assert DaemonOk(s, k);
    }
  }

  lemma KeepAdmit(s: State, c: nat)
    requires Inv(s) && Enabled(s, Admit(c))
    ensures Inv(DoAdmit(s, c, s.clients[c].phase.d))
  {
    var d := s.clients[c].phase.d;
    assert ClientOk(s, c) && DaemonOk(s, d);
    if Busy(s.daemons[d].client, Seat(c, s.clients[c].pubKey), s.clients[c].takeover) {
      OneClient(s, DoAdmit(s, c, d), c);
    } else {
      KeepVacate(s, d);
      KeepTakeSeat(Vacate(s, d), c, d, s.daemons[d].client);
    }
  }

  lemma KeepParting(s: State, c: nat, d: nat)
    requires Inv(s) && c < |s.clients| && s.clients[c].phase == Leaving(d)
    requires d < |s.daemons| && Mine(s.daemons[d].client, c)
    ensures Inv(DoLeave(s, c, d))
  {
    var s' := DoLeave(s, c, d);
    assert ClientOk(s, c) && DaemonOk(s, d);
    TotalsKept(s, s', c);
    forall k | 0 <= k < |s'.clients| ensures ClientOk(s', k) {
      assert ClientOk(s, k);
    }
    forall k | 0 <= k < |s'.daemons| ensures DaemonOk(s', k) {
      assert DaemonOk(s, k);
    }
  }

  lemma KeepLeave(s: State, c: nat)
    requires Inv(s) && Enabled(s, LeaveSection(c))
    ensures Inv(DoLeave(s, c, s.clients[c].phase.d))
  {
    var d := s.clients[c].phase.d;
    assert ClientOk(s, c) && DaemonOk(s, d);
    if Mine(s.daemons[d].client, c) {
      KeepParting(s, c, d);
    } else {
      OneClient(s, DoLeave(s, c, d), c);
    }
  }

  lemma KeepJoin(s: State, e: Event)
    requires Inv(s) && Enabled(s, e) && e.Join?
    ensures Inv(Step(s, e))
  {
    var s' := Step(s, e);
    forall kind ensures CounterOk(s', kind) {
      assert CounterOk(s, kind);
      TallySnoc(s.clients, s'.clients[|s.clients|], kind);
    }
    forall k | 0 <= k < |s'.clients| ensures ClientOk(s', k) {
      if k < |s.clients| { assert ClientOk(s, k); }
    }
    forall k | 0 <= k < |s'.daemons| ensures DaemonOk(s', k) {
      assert DaemonOk(s, k);
    }
  }

  lemma KeepArrivals(s: State, e: Event)
    requires Inv(s) && Enabled(s, e) && (e.Register? || e.Unregister?)
    ensures Inv(Step(s, e))
  {
    var s' := Step(s, e);
    forall kind ensures CounterOk(s', kind) {
      assert CounterOk(s, kind);
    }
    forall k | 0 <= k < |s'.clients| ensures ClientOk(s', k) {
      assert ClientOk(s, k);
    }
    forall k | 0 <= k < |s'.daemons| ensures DaemonOk(s', k) {
      if k < |s.daemons| { assert DaemonOk(s, k); }
    }
  }

  predicate BeforeSeat(e: Event) {
    e.Lookup? || e.CountOffline? || e.DrawNonce? || e.CountBusy?
  }

  /** The steps that may write to the daemon. */
  predicate Writes(e: Event) {
    e.Connect? || e.Act? || e.SendProof?
  }

  predicate InSession(e: Event) {
    e.Evict? || e.ReadNote? || e.ReadFails? || e.CheckSlot? || e.SayPeerLeft? || Writes(e)
  }

  lemma KeepBeforeSeat(s: State, e: Event)
    requires Inv(s) && Enabled(s, e) && BeforeSeat(e)
    ensures Inv(Step(s, e))
  {
    assert ClientOk(s, e.c);
    match e
    case Lookup(c) => OneClient(s, Step(s, e), c);
    case CountOffline(c) => KeepGone(s, c, Step(s, e));
    case DrawNonce(c, ok) => if ok { OneClient(s, Step(s, e), c); } else { KeepGone(s, c, Step(s, e)); }
    case CountBusy(c) => KeepGone(s, c, Step(s, e));
  }

  lemma KeepActs(s: State, c: nat, further: bool, writes: bool, phase: Phase)
    requires Inv(s) && c < |s.clients| && Room(s.clients[c].phase).Some? && Room(phase) == Room(s.clients[c].phase)
    requires !phase.Evicting? && !s.clients[c].phase.Evicting?
    requires LateOk(Acts(s, c, further, writes, phase).clients[c])
    ensures Inv(Acts(s, c, further, writes, phase))
  {
    assert ClientOk(s, c);
    OneClient(s, Acts(s, c, further, writes, phase), c);
  }

  lemma KeepWrites(s: State, e: Event)
    requires Inv(s) && Enabled(s, e) && Writes(e)
    ensures Inv(Step(s, e))
  {
    assert ClientOk(s, e.c);
    var ph := s.clients[e.c].phase;
    match e
    case Connect(c) => KeepActs(s, c, true, true, Reading(ph.d));
    case SendProof(c) => KeepActs(s, c, !ph.begun, true, Reading(ph.d));
    case Act(c) =>
      match ph.note
      case Proof(false) => KeepActs(s, c, true, false, Leaving(ph.d));
      case Proof(true) => KeepActs(s, c, true, true, Relaying(ph.d, s.clients[c].fate.Displaced?));
      case Relay => KeepActs(s, c, true, true, Reading(ph.d));
  }

  lemma KeepEvict(s: State, c: nat)
    requires Inv(s) && Enabled(s, Evict(c))
    ensures Inv(Step(s, Evict(c)))
  {
    assert ClientOk(s, c);
    OneClient(s, Step(s, Evict(c)), c);
  }

  /** A client that has not got in moves on, or is gone and counted. */
  lemma KeepGone(s: State, c: nat, s': State)
    requires Inv(s) && c < |s.clients| && Waiting(s.clients[c].phase) && s.clients[c].fate.Outside?
    requires |s'.clients| == |s.clients|
    requires var m := At(s, c, s'.clients[c].phase);
             s' == m.(offline := s'.offline, busy := s'.busy, noNonce := s'.noNonce)
    requires var p := s'.clients[c].phase;
             && (p == Gone(Offline) || p == Gone(TurnedAway) || p == Gone(NoNonce))
             && s'.offline == s.offline + (if p == Gone(Offline) then 1 else 0)
             && s'.busy == s.busy + (if p == Gone(TurnedAway) then 1 else 0)
             && s'.noNonce == s.noNonce + (if p == Gone(NoNonce) then 1 else 0)
    ensures Inv(s')
  {
    assert ClientOk(s, c);
    OneClient(s, s', c);
  }

  lemma KeepInSession(s: State, e: Event)
    requires Inv(s) && Enabled(s, e) && InSession(e) && !Writes(e)
    ensures Inv(Step(s, e))
  {
    assert ClientOk(s, e.c);
    match e
    case Evict(c) => KeepEvict(s, c);
    case ReadNote(c, _) => OneClient(s, Step(s, e), c);
    case ReadFails(c) => OneClient(s, Step(s, e), c);
    case CheckSlot(c) =>
      assert DaemonOk(s, s.clients[c].phase.d);
      OneClient(s, Step(s, e), c);
    case SayPeerLeft(c) => OneClient(s, Step(s, e), c);
  }

  lemma StepKeeps(s: State, e: Event)
    requires Inv(s) && Enabled(s, e)
    ensures Inv(Step(s, e))
  {
    if e.Join? {
      KeepJoin(s, e);
    } else if e.Register? || e.Unregister? {
      KeepArrivals(s, e);
    } else if e.Admit? {
      KeepAdmit(s, e.c);
    } else if e.LeaveSection? {
      KeepLeave(s, e.c);
    } else if BeforeSeat(e) {
      KeepBeforeSeat(s, e);
    } else if Writes(e) {
      KeepWrites(s, e);
    } else {
      KeepInSession(s, e);
    }
  }

  lemma {:induction false} ReachableInv(run: seq<Event>)
    requires After(run).Some?
    ensures Inv(After(run).value)
  {
    if run != [] {
      ReachableInv(run[..|run| - 1]);
      StepKeeps(After(run[..|run| - 1]).value, run[|run| - 1]);
    }
  }

  // ---- what the broker promises ----

  lemma {:induction false} TallyPartition(clients: seq<Client>)
    requires forall k :: 0 <= k < |clients| ==> OneKind(clients[k])
    ensures |clients| == Tally(clients, InFlight) + Tally(clients, AsOffline) + Tally(clients, AsBusy)
                         + Tally(clients, AsNoNonce) + Tally(clients, AsAdmitted)
    decreases |clients|
  {
    if clients != [] {
      assert OneKind(clients[|clients| - 1]);
      TallyPartition(clients[..|clients| - 1]);
    }
  }

  /** Outside the slot for good or for now, for one reason, or admitted. */
  predicate OneKind(cl: Client) {
    cl.fate.Outside? <==>
      Waiting(cl.phase) || cl.phase == Gone(Offline) || cl.phase == Gone(TurnedAway) || cl.phase == Gone(NoNonce)
  }

  /** Each daemon's admissions are its exits that send peerLeft, its displacements, and the client sitting
      there now; each of the broker's counters counts what it is named for; and every join ends as offline,
      busy, without a nonce, or admitted. */
  lemma {:induction false} Conservation(run: seq<Event>)
    requires After(run).Some?
    ensures var s := After(run).value;
            && (forall d :: 0 <= d < |s.daemons| ==>
                  s.daemons[d].admitted == s.daemons[d].parted + s.daemons[d].displaced
                                           + if s.daemons[d].client.Some? then 1 else 0)
            && s.offline == Tally(s.clients, AsOffline) && s.busy == Tally(s.clients, AsBusy)
            && s.noNonce == Tally(s.clients, AsNoNonce) && s.admitted == Tally(s.clients, AsAdmitted)
            && s.takeovers == Tally(s.clients, AsTakeover)
            && s.joins == s.offline + s.busy + s.noNonce + s.admitted + Tally(s.clients, InFlight)
  {
    ReachableInv(run);
    var s := After(run).value;
    forall d | 0 <= d < |s.daemons|
      ensures s.daemons[d].admitted == s.daemons[d].parted + s.daemons[d].displaced
                                       + if s.daemons[d].client.Some? then 1 else 0
    {
      assert DaemonOk(s, d);
    }
    assert CounterOk(s, AsOffline) && CounterOk(s, AsBusy) && CounterOk(s, AsNoNonce) && CounterOk(s, AsAdmitted);
    assert CounterOk(s, AsTakeover);
    forall k | 0 <= k < |s.clients| ensures OneKind(s.clients[k]) {
      assert ClientOk(s, k);
    }
    TallyPartition(s.clients);
  }

  /** One client at a time: the slot names the only goroutine that sits with this daemon. */
  lemma OneSitter(run: seq<Event>, c: nat, d: nat)
    requires After(run).Some? && c < |After(run).value.clients| && d < |After(run).value.daemons|
    ensures var s := After(run).value;
            s.clients[c].fate.Sitting? && Room(s.clients[c].phase) == Some(d) <==> Mine(s.daemons[d].client, c)
  {
    ReachableInv(run);
    assert ClientOk(After(run).value, c) && DaemonOk(After(run).value, d);
  }

  /** The client whose goroutine takes the step. */
  function Of(e: Event): Option<nat> {
    match e
    case Register(_) => None
    case Unregister(_) => None
    case Join(_, _, _) => None
    case _ => Some(e.c)
  }

  /** The same state, but that client c, about to enter, has been refused. */
  function Turned(s: State, c: nat): State
    requires c < |s.clients|
  {
    At(s, c, Refused)
  }

  /** The step e does the same, and is as possible, whether or not c has been refused. */
  ghost predicate Unseen(s: State, c: nat, e: Event)
    requires c < |s.clients|
  {
    && Enabled(Turned(s, c), e) == Enabled(s, e)
    && (Enabled(s, e) ==>
          && c < |Step(s, e).clients| && Step(s, e).clients[c] == s.clients[c]
          && Step(Turned(s, c), e) == Turned(Step(s, e), c))
  }

  lemma ArrivalsUnseen(s: State, c: nat, e: Event)
    requires c < |s.clients| && s.clients[c].phase.Entering? && Of(e).None?
    ensures Unseen(s, c, e)
  {
  }

  lemma BeforeSeatUnseen(s: State, c: nat, e: Event)
    requires c < |s.clients| && s.clients[c].phase.Entering? && Of(e) != Some(c) && BeforeSeat(e)
    ensures Unseen(s, c, e)
  {
  }

  lemma ActsUnseen(s: State, c: nat, n: nat, further: bool, writes: bool, phase: Phase)
    requires c < |s.clients| && n < |s.clients| && n != c
    ensures Acts(Turned(s, c), n, further, writes, phase) == Turned(Acts(s, n, further, writes, phase), c)
    ensures Acts(s, n, further, writes, phase).clients[c] == s.clients[c]
  {
  }

  lemma ActUnseen(s: State, c: nat, n: nat)
    requires c < |s.clients| && s.clients[c].phase.Entering? && n != c
    ensures Unseen(s, c, Act(n))
  {
    if Enabled(s, Act(n)) {
      var d := s.clients[n].phase.d;
      match s.clients[n].phase.note
      case Proof(false) => ActsUnseen(s, c, n, true, false, Leaving(d));
      case Proof(true) => ActsUnseen(s, c, n, true, true, Relaying(d, s.clients[n].fate.Displaced?));
      case Relay => ActsUnseen(s, c, n, true, true, Reading(d));
    }
  }

  lemma WritesUnseen(s: State, c: nat, e: Event)
    requires c < |s.clients| && s.clients[c].phase.Entering? && Of(e) != Some(c) && Writes(e)
    ensures Unseen(s, c, e)
  {
    if e.Act? { ActUnseen(s, c, e.c); }
  }

  lemma InSessionUnseen(s: State, c: nat, e: Event)
    requires c < |s.clients| && s.clients[c].phase.Entering? && Of(e) != Some(c) && InSession(e) && !Writes(e)
    ensures Unseen(s, c, e)
  {
  }

  /** Nobody can tell a refused client from one that has not entered yet. */
  lemma RefusedUnseen(s: State, c: nat, e: Event)
    requires Inv(s) && c < |s.clients| && s.clients[c].phase.Entering? && Of(e) != Some(c)
    ensures Unseen(s, c, e)
  {
    if Of(e).None? {
      ArrivalsUnseen(s, c, e);
    } else if BeforeSeat(e) {
      BeforeSeatUnseen(s, c, e);
    } else if Writes(e) {
      WritesUnseen(s, c, e);
    } else if InSession(e) {
      InSessionUnseen(s, c, e);
    } else if e.Admit? {
      if Enabled(s, e) { AdmitUnseen(s, c, e.c); }
    } else if Enabled(s, e) {
      LeaveUnseen(s, c, e.c);
    }
  }

  lemma AdmitUnseen(s: State, c: nat, n: nat)
    requires Inv(s) && c < |s.clients| && s.clients[c].phase.Entering? && n != c && Enabled(s, Admit(n))
    ensures var s' := DoAdmit(s, n, s.clients[n].phase.d);
            && |s'.clients| == |s.clients| && s'.clients[c] == s.clients[c]
            && DoAdmit(Turned(s, c), n, s.clients[n].phase.d) == Turned(s', c)
  {
    assert ClientOk(s, c) && DaemonOk(s, s.clients[n].phase.d);
  }

  lemma LeaveUnseen(s: State, c: nat, n: nat)
    requires Inv(s) && c < |s.clients| && s.clients[c].phase.Entering? && n != c && Enabled(s, LeaveSection(n))
    ensures var s' := DoLeave(s, n, s.clients[n].phase.d);
            && |s'.clients| == |s.clients| && s'.clients[c] == s.clients[c]
            && DoLeave(Turned(s, c), n, s.clients[n].phase.d) == Turned(s', c)
  {
  }

  /** Two runs are possible together; client c is still outside after p, and q differs in its refusal. */
  ghost predicate TurnedRuns(p: seq<Event>, q: seq<Event>, c: nat) {
    && (After(p).Some? <==> After(q).Some?)
    && (After(p).Some? ==>
          var s := After(p).value;
          c < |s.clients| && s.clients[c].phase.Entering? && After(q).value == Turned(s, c))
  }

  lemma {:induction false} TurnedStep(p: seq<Event>, q: seq<Event>, c: nat, e: Event)
    requires TurnedRuns(p, q, c) && Of(e) != Some(c)
    ensures TurnedRuns(p + [e], q + [e], c)
  {
    assert (p + [e])[..|p|] == p && (q + [e])[..|q|] == q;
    if After(p).Some? {
      ReachableInv(p);
      RefusedUnseen(After(p).value, c, e);
    }
  }

  lemma {:induction false} TurnedContinue(p: seq<Event>, q: seq<Event>, c: nat, more: seq<Event>)
    requires TurnedRuns(p, q, c) && forall k :: 0 <= k < |more| ==> Of(more[k]) != Some(c)
    ensures TurnedRuns(p + more, q + more, c)
    decreases |more|
  {
    if more == [] {
      assert p + more == p && q + more == q;
    } else {
      TurnedStep(p, q, c, more[0]);
      TurnedContinue(p + [more[0]], q + [more[0]], c, more[1..]);
      assert (p + [more[0]]) + more[1..] == p + more && (q + [more[0]]) + more[1..] == q + more;
    }
  }

  /** A busy join changes nothing for anybody else, ever: whatever the others do next is possible with the
      refusal if and only if it is without, and leaves the same slots, clients and counters. */
  lemma {:induction false} BusyChangesNothing(run: seq<Event>, c: nat, more: seq<Event>)
    requires After(run).Some? && Enabled(After(run).value, Admit(c))
    requires var s := After(run).value;
             Busy(s.daemons[s.clients[c].phase.d].client, Seat(c, s.clients[c].pubKey), s.clients[c].takeover)
    requires forall k :: 0 <= k < |more| ==> Of(more[k]) != Some(c)
    ensures TurnedRuns(run + more, run + [Admit(c)] + more, c)
  {
    assert (run + [Admit(c)])[..|run|] == run;
    TurnedContinue(run, run + [Admit(c)], c, more);
  }

  /** Only the same key coming back, or an explicit takeover, displaces anyone. */
  lemma OnlyRejoinOrTakeoverDisplaces(s: State, e: Event, c: nat)
    requires Inv(s) && Enabled(s, e) && c < |s.clients|
    requires s.clients[c].fate.Sitting? && Step(s, e).clients[c].fate.Displaced?
    ensures e.Admit? && e.c != c && (s.clients[e.c].takeover || s.clients[e.c].pubKey == s.clients[c].pubKey)
    ensures Mine(Step(s, e).daemons[s.clients[e.c].phase.d].client, e.c)
  {
    assert ClientOk(s, c);
    if e.Admit? {
      AdmitTouches(s, e.c, c);
      assert DaemonOk(s, s.clients[e.c].phase.d);
    } else {
      OthersKeepFate(s, e, c);
    }
  }

  lemma AdmitTouches(s: State, n: nat, c: nat)
    requires Inv(s) && Enabled(s, Admit(n)) && c < |s.clients|
    ensures c < |Step(s, Admit(n)).clients|
    ensures var d := s.clients[n].phase.d;
            var s' := Step(s, Admit(n));
            && ((s'.clients[c].fate == s.clients[c].fate && s'.clients[c].late == s.clients[c].late)
                || (c == n && s'.clients[c].fate.Sitting?)
                || (Mine(s.daemons[d].client, c) && s'.clients[c].fate.Displaced?
                    && s'.clients[c].late == s.clients[c].late
                    && !Busy(s.daemons[d].client, Seat(n, s.clients[n].pubKey), s.clients[n].takeover)
                    && Mine(s'.daemons[d].client, n)))
  {
    assert ClientOk(s, n) && ClientOk(s, c) && DaemonOk(s, s.clients[n].phase.d);
  }

  lemma OthersKeepFate(s: State, e: Event, c: nat)
    requires Inv(s) && Enabled(s, e) && c < |s.clients| && !e.Admit?
    ensures c < |Step(s, e).clients|
    ensures var fate := Step(s, e).clients[c].fate;
            fate == s.clients[c].fate || (e == LeaveSection(c) && s.clients[c].fate.Sitting? && fate.Parted?)
  {
    assert ClientOk(s, c);
    if e.LeaveSection? { assert DaemonOk(s, s.clients[e.c].phase.d); }
  }

  lemma DisplacedStaysStep(s: State, e: Event, c: nat)
    requires Inv(s) && Enabled(s, e) && c < |s.clients| && s.clients[c].fate.Displaced?
    ensures c < |Step(s, e).clients| && Step(s, e).clients[c].fate.Displaced?
  {
    assert ClientOk(s, c);
    if e.Admit? { AdmitTouches(s, e.c, c); assert ClientOk(s, e.c); } else { OthersKeepFate(s, e, c); }
  }

  /** A displaced client never gets the slot back, never clears it and never announces that its peer
      left; from its displacement on it acts on at most one message, the connect it had not sent yet or
      one it had already been cleared for, and writes at most the two frames that takes. */
  lemma {:induction false} DisplacedActsAtMostOnce(run: seq<Event>, more: seq<Event>, c: nat)
    requires After(run).Some? && After(run + more).Some?
    requires c < |After(run).value.clients| && After(run).value.clients[c].fate.Displaced?
    ensures c < |After(run + more).value.clients|
    ensures var cl := After(run + more).value.clients[c];
            cl.fate.Displaced? && cl.late <= 1 && cl.sends <= 2 && !cl.phase.Parting? && cl.phase != Gone(Left)
            && forall d :: 0 <= d < |After(run + more).value.daemons| ==>
                             !Mine(After(run + more).value.daemons[d].client, c)
  {
    if more == [] {
      assert run + more == run;
    } else {
      var before := more[..|more| - 1];
      assert (run + more)[..|run + more| - 1] == run + before;
      DisplacedActsAtMostOnce(run, before, c);
      ReachableInv(run + before);
      DisplacedStaysStep(After(run + before).value, more[|more| - 1], c);
    }
    ReachableInv(run + more);
    DisplacedIsOut(After(run + more).value, c);
  }

  lemma DisplacedIsOut(s: State, c: nat)
    requires Inv(s) && c < |s.clients| && s.clients[c].fate.Displaced?
    ensures var cl := s.clients[c];
            cl.late <= 1 && cl.sends <= 2 && !cl.phase.Parting? && cl.phase != Gone(Left)
            && forall d :: 0 <= d < |s.daemons| ==> !Mine(s.daemons[d].client, c)
  {
    assert ClientOk(s, c);
    forall d | 0 <= d < |s.daemons| ensures !Mine(s.daemons[d].client, c) {
      assert DaemonOk(s, d);
    }
  }

  /** Own steps left to a displaced goroutine. */
  function Rank(p: Phase): nat {
    match p
    case Evicting(_, _) => 6
    case Connecting(_) => 5
    case Cleared(_, _) => 5
    case Relaying(_, _) => 4
    case Reading(_) => 3
    case Got(_, _) => 2
    case Leaving(_) => 1
    case _ => 0
  }

  /** The step a displaced goroutine takes: every one brings it nearer its exit, at most six away. */
  lemma DisplacedExits(s: State, e: Event)
    requires Inv(s) && Enabled(s, e) && (InSession(e) || e.LeaveSection?) && s.clients[e.c].fate.Displaced?
    ensures Rank(Step(s, e).clients[e.c].phase) < Rank(s.clients[e.c].phase) <= 6
    ensures Rank(Step(s, e).clients[e.c].phase) == 0 ==> Step(s, e).clients[e.c].phase == Gone(Dropped)
  {
    assert ClientOk(s, e.c);
    if e.LeaveSection? || e.CheckSlot? {
      assert DaemonOk(s, s.clients[e.c].phase.d);
    }
  }

  /** Until it is gone, a displaced goroutine always has a step of its own to take. */
  lemma {:induction false} DisplacedProgress(run: seq<Event>, c: nat)
    requires After(run).Some? && c < |After(run).value.clients|
    requires After(run).value.clients[c].fate.Displaced? && !After(run).value.clients[c].phase.Gone?
    ensures exists e :: Of(e) == Some(c) && Enabled(After(run).value, e)
  {
    ReachableInv(run);
    var s := After(run).value;
    assert ClientOk(s, c);
    var e := match s.clients[c].phase
      case Evicting(_, _) => Evict(c)
      case Connecting(_) => Connect(c)
      case Reading(_) => ReadFails(c)
      case Got(_, _) => CheckSlot(c)
      case Cleared(_, _) => Act(c)
      case Relaying(_, _) => SendProof(c)
      case _ => LeaveSection(c);
    assert Of(e) == Some(c) && Enabled(s, e);
  }

  /** How many of these steps are the client's own. */
  function StepsOf(events: seq<Event>, c: nat): nat {
    if events == [] then 0
    else StepsOf(events[..|events| - 1], c) + if Of(events[|events| - 1]) == Some(c) then 1 else 0
  }

  lemma DisplacedRank(s: State, e: Event, c: nat)
    requires Inv(s) && Enabled(s, e) && c < |s.clients| && s.clients[c].fate.Displaced?
    ensures c < |Step(s, e).clients|
    ensures Rank(Step(s, e).clients[c].phase) + (if Of(e) == Some(c) then 1 else 0) <= Rank(s.clients[c].phase)
  {
    assert ClientOk(s, c);
    if Of(e) == Some(c) {
      DisplacedExits(s, e);
    } else {
      OthersKeepPhase(s, e, c);
    }
  }

  lemma OthersKeepPhase(s: State, e: Event, c: nat)
    requires Inv(s) && Enabled(s, e) && c < |s.clients| && s.clients[c].fate.Displaced? && Of(e) != Some(c)
    ensures c < |Step(s, e).clients| && Step(s, e).clients[c].phase == s.clients[c].phase
  {
    assert ClientOk(s, c);
    if e.Admit? { assert DaemonOk(s, s.clients[e.c].phase.d); }
  }

  /** From its displacement on, a goroutine takes at most six more steps of its own, whatever the others do:
      those it has taken and those it has left make no more than it had. */
  lemma {:induction false} DisplacedBound(run: seq<Event>, more: seq<Event>, c: nat)
    requires After(run).Some? && After(run + more).Some?
    requires c < |After(run).value.clients| && After(run).value.clients[c].fate.Displaced?
    ensures c < |After(run + more).value.clients|
    ensures StepsOf(more, c) + Rank(After(run + more).value.clients[c].phase)
            <= Rank(After(run).value.clients[c].phase) <= 6
    decreases |more|
  {
    if more == [] {
      assert run + more == run;
    } else {
      var before := more[..|more| - 1];
      assert (run + more)[..|run + more| - 1] == run + before;
      DisplacedBound(run, before, c);
      DisplacedActsAtMostOnce(run, before, c);
      ReachableInv(run + before);
      DisplacedRank(After(run + before).value, more[|more| - 1], c);
    }
  }

  // ---- who gets in ----

  /** Admission, exactly: a join that reaches the slot gets it if and only if the slot was empty, held the
      same key, or takeover was asked; otherwise it is refused and no slot changes. */
  lemma {:induction false} AdmittedExactly(run: seq<Event>, c: nat)
    requires After(run).Some? && Enabled(After(run).value, Admit(c))
    ensures var s := After(run).value;
            var s' := Step(s, Admit(c));
            var d := s.clients[c].phase.d;
            var slot := s.daemons[d].client;
            && |s'.daemons| == |s.daemons| && |s'.clients| == |s.clients|
            && (Mine(s'.daemons[d].client, c) <==>
                  slot.None? || slot.value.pubKey == s.clients[c].pubKey || s.clients[c].takeover)
            && (!Mine(s'.daemons[d].client, c) ==> s'.clients[c].phase.Refused? && s'.daemons == s.daemons)
            && (slot.Some? ==> slot.value.id < |s.clients| && s.clients[slot.value.id].pubKey == slot.value.pubKey)
  {
    ReachableInv(run);
    var s := After(run).value;
    assert ClientOk(s, c) && DaemonOk(s, s.clients[c].phase.d);
  }

  /** Connection d is the last registered under its id. */
  predicate IsLast(daemons: seq<Daemon>, d: nat) {
    d < |daemons| && forall k :: d < k < |daemons| ==> daemons[k].id != daemons[d].id
  }

  predicate Lists(s: State, d: nat)
    requires d < |s.daemons|
  {
    s.daemons[d].id in s.directory && s.directory[s.daemons[d].id] == d
  }

  /** The map lists exactly the connections that are open and not superseded. */
  ghost predicate Listed(s: State, d: nat)
    requires d < |s.daemons|
  {
    Lists(s, d) <==> s.daemons[d].open && IsLast(s.daemons, d)
  }

  lemma OthersKeepListing(s: State, e: Event)
    requires Enabled(s, e) && !e.Register? && !e.Unregister?
    ensures var s' := Step(s, e);
            && s'.directory == s.directory && |s'.daemons| == |s.daemons|
            && forall d :: 0 <= d < |s.daemons| ==>
                 s'.daemons[d].id == s.daemons[d].id && s'.daemons[d].open == s.daemons[d].open
  {
  }

  lemma StepKeepsListing(s: State, e: Event)
    requires Inv(s) && Enabled(s, e) && forall d :: 0 <= d < |s.daemons| ==> Listed(s, d)
    ensures forall d :: 0 <= d < |Step(s, e).daemons| ==> Listed(Step(s, e), d)
  {
    if !e.Register? && !e.Unregister? { OthersKeepListing(s, e); }
    var s' := Step(s, e);
    forall d | 0 <= d < |s'.daemons| ensures Listed(s', d) {
      if d < |s.daemons| {
        assert Listed(s, d);
        LastStays(s, s', d);
      }
    }
  }

  lemma LastStays(s: State, s': State, d: nat)
    requires d < |s.daemons| <= |s'.daemons| <= |s.daemons| + 1
    requires forall k :: 0 <= k < |s.daemons| ==> s'.daemons[k].id == s.daemons[k].id
    ensures IsLast(s'.daemons, d) <==>
              IsLast(s.daemons, d)
              && (|s'.daemons| > |s.daemons| ==> s'.daemons[|s.daemons|].id != s.daemons[d].id)
  {
  }

  lemma {:induction false} ReachableListing(run: seq<Event>)
    requires After(run).Some?
    ensures forall d :: 0 <= d < |After(run).value.daemons| ==> Listed(After(run).value, d)
  {
    if run != [] {
      ReachableInv(run[..|run| - 1]);
      ReachableListing(run[..|run| - 1]);
      StepKeepsListing(After(run[..|run| - 1]).value, run[|run| - 1]);
    }
  }

  /** A join finds its daemon if and only if the last connection registered under the id is still open, and
      then it finds that one. */
  lemma {:induction false} LookupExactly(run: seq<Event>, c: nat, d: nat)
    requires After(run).Some? && Enabled(After(run).value, Lookup(c))
    ensures var s := After(run).value;
            var phase := Step(s, Lookup(c)).clients[c].phase;
            && (phase == Found(d) <==>
                  && d < |s.daemons| && s.daemons[d].id == s.clients[c].phase.daemon
                  && s.daemons[d].open && IsLast(s.daemons, d))
            && (phase.Found? || phase.NotFound?)
  {
    ReachableInv(run);
    ReachableListing(run);
    var s := After(run).value;
    if d < |s.daemons| { assert Listed(s, d); }
  }

  /** A join that found its daemon asks for that daemon's slot if it could draw a nonce, and is gone if not;
      and once it has the slot it sends its connect and reads on. */
  lemma JoinProceeds(s: State, c: nat)
    ensures c < |s.clients| && s.clients[c].phase.Found? ==>
              var d := s.clients[c].phase.d;
              && Step(s, DrawNonce(c, true)).clients[c].phase == Entering(d)
              && Step(s, DrawNonce(c, false)).clients[c].phase == Gone(NoNonce)
    ensures c < |s.clients| && s.clients[c].phase.Evicting? ==>
              var d := s.clients[c].phase.d;
              && Enabled(Step(s, Evict(c)), Connect(c))
              && Step(Step(s, Evict(c)), Connect(c)).clients[c].phase == Reading(d)
  {
  }

  // ---- what the sitting client can do ----

  /** A client that sits and sent something is cleared; a relayed message goes to the daemon and the loop
      goes on, a good proof goes there in two frames, a bad one ends the loop. */
  lemma {:induction false} SittingServed(run: seq<Event>, c: nat)
    requires After(run).Some? && c < |After(run).value.clients|
    requires After(run).value.clients[c].fate.Sitting? && After(run).value.clients[c].phase.Got?
    ensures var s := After(run).value;
            var d, note := s.clients[c].phase.d, s.clients[c].phase.note;
            && Enabled(s, CheckSlot(c))
            && var s1 := Step(s, CheckSlot(c));
               && Enabled(s1, Act(c))
               && var s2 := Step(s1, Act(c));
                  if note.Relay? then s2.clients[c].phase == Reading(d)
                  else if !note.valid then s2.clients[c].phase == Leaving(d)
                  else Enabled(s2, SendProof(c)) && Step(s2, SendProof(c)).clients[c].phase == Reading(d)
  {
    ReachableInv(run);
    assert ClientOk(After(run).value, c);
  }
}
