/** What the signalling machine promises over every sequence of messages, window openings and
    closings, unpairings and reconnects, whatever the outside world answers. A run is the life of one
    daemon process; `simbeamd unpair` is another process, which shares only the pin file with it. */
module SignallingRuns {
  import opened Base
  import opened Pairing
  import opened RtcSession
  import opened Signalling

  datatype Event =
    | Recv(msg: Msg, env: Env)
    | OpenWindow(secret: string, now: int, ttl: int)
    | CloseWindow
    | UnpairLoads                                            // an unpair process reads the file
    | UnpairWrites(i: nat, key: string, saved: bool)         // the i-th such process writes it back and exits
    | Reconnect                                              // the broker connection is lost; serveOnce starts over

  /** The daemon, and history: how often the window was opened, which key each opening let in, the
      keys the loop has pinned, when the current client connected and last proved its key, the
      candidates the loop took for the current session, and the sessions it built and closed; and the
      unpair processes there have been. */
  datatype Sys = Sys(d: Daemon, opens: nat, grants: map<nat, string>, added: set<string>,
                     connectAt: nat, proofAt: nat, taken: seq<string>, sessions: Sessions, unpairs: seq<Unpairing>)

  /** What an unpair process read, after how many events, and whether it has exited. */
  datatype Unpairing = Unpairing(loaded: set<string>, at: nat, done: bool)

  /** Sessions are numbered as they are built; the loop's variable names one of them at most. */
  datatype Sessions = Sessions(built: nat, current: Option<nat>, closed: set<nat>)

  /** A new session takes the variable over; a cleanup closes the one the variable then names. */
  function Track(h: Sessions, starts: bool, cleans: bool): Sessions {
    var now := if starts then Sessions(h.built + 1, Some(h.built), h.closed) else h;
    if !cleans then now
    else Sessions(now.built, None, if now.current.Some? then now.closed + {now.current.value} else now.closed)
  }

  function Start(stored: set<string>): Sys {
    Sys(Daemon(CLEAN, UNARMED, Pins(stored, stored)), 0, map[], {}, 0, 0, [], Sessions(0, None, {}), [])
  }

  /** A key was let in by the window just now. */
  predicate LetIn(s: Sys, crypto: Crypto, e: Event) {
    && e.Recv? && e.msg.Connect? && e.msg.key !in s.d.pins.memory
    && Judge(s.d.win, crypto, e.msg.key, e.msg.nonce, e.msg.pair, e.env.now).Accepted?
  }

  /** An offer was answered just now. */
  predicate Answers(s: Sys, e: Event) {
    e.Recv? && e.msg.OfferMsg? && s.d.loop.authed && e.env.started && e.env.described && e.env.local.Some?
  }

  /** An offer was given a session just now, whether or not it could then be answered. */
  predicate StartsSession(s: Sys, e: Event) {
    e.Recv? && e.msg.OfferMsg? && s.d.loop.authed && e.env.started
  }

  /** The candidates the loop takes for the session being built or running. */
  function Takes(l: Loop, taken: seq<string>, m: Msg): seq<string> {
    if !m.CandidateMsg? || !l.authed || !l.trickle then taken
    else if l.sess.None? && |taken| >= MAX_EARLY then taken
    else taken + [m.candidate]
  }

  function Step(s: Sys, crypto: Crypto, n: nat, e: Event): Sys {
    match e
    case OpenWindow(secret, now, ttl) => s.(d := s.d.(win := Arm(secret, now, ttl)), opens := s.opens + 1)
    case CloseWindow => s.(d := s.d.(win := Disarm(s.d.win)))
    case UnpairLoads => s.(unpairs := s.unpairs + [Unpairing(s.d.pins.disk, n, false)])
    case UnpairWrites(i, key, saved) =>
      if i >= |s.unpairs| || s.unpairs[i].done then s
      else
        var file := Unpin(Pins(s.unpairs[i].loaded, s.d.pins.disk), key, saved).disk;
        s.(d := s.d.(pins := s.d.pins.(disk := file)), unpairs := s.unpairs[i := s.unpairs[i].(done := true)])
    case Reconnect => s.(d := s.d.(loop := CLEAN), taken := [], sessions := Track(s.sessions, false, true))
    case Recv(m, env) =>
      var d' := Handle(s.d, crypto, m, env).0;
      Sys(d', s.opens,
          if LetIn(s, crypto, e) && s.opens > 0 then s.grants[s.opens - 1 := m.key] else s.grants,
          s.added + (d'.pins.memory - s.d.pins.memory),
          if m.Connect? then n else s.connectAt,
          if m.Proof? then n else s.proofAt,
          if d'.loop == CLEAN || m.Connect? then []
          else if Answers(s, e) && s.d.loop.sess.Some? then []
          else Takes(s.d.loop, s.taken, m),
          Track(s.sessions, StartsSession(s, e), Cleans(s.d, crypto, m, env)),
          s.unpairs)
  }

  function After(stored: set<string>, crypto: Crypto, run: seq<Event>): Sys {
    if run == [] then Start(stored)
    else Step(After(stored, crypto, run[..|run| - 1]), crypto, |run| - 1, run[|run| - 1])
  }

  // ---- enrollment ----

  ghost predicate GrantsOk(s: Sys, stored: set<string>) {
    && (forall g :: g in s.grants ==> g < s.opens)
    && (s.opens == 0 ==> s.d.win.secret == "" && s.d.win.expires.None? && !s.d.win.consumed)
    && (s.opens > 0 && !s.d.win.consumed ==> s.opens - 1 !in s.grants)
    && (s.d.loop.enrolling ==> s.d.loop.authPub in s.grants.Values)
    && s.added <= s.grants.Values
    && s.d.pins.memory <= stored + s.added
  }

  lemma StepKeepsGrants(s: Sys, stored: set<string>, crypto: Crypto, n: nat, e: Event)
    requires GrantsOk(s, stored)
    ensures GrantsOk(Step(s, crypto, n, e), stored)
  {
    var s' := Step(s, crypto, n, e);
    if LetIn(s, crypto, e) {
      assert s.opens - 1 in s'.grants && s'.grants[s.opens - 1] == e.msg.key;
      forall key | key in s.grants.Values ensures key in s'.grants.Values {
        var g :| g in s.grants && s.grants[g] == key;
        assert g in s'.grants && s'.grants[g] == key;
      }
    }
  }

  lemma {:induction false} ReachableGrants(stored: set<string>, crypto: Crypto, run: seq<Event>)
    ensures GrantsOk(After(stored, crypto, run), stored)
    decreases |run|
  {
    if run != [] {
      var before := run[..|run| - 1];
      ReachableGrants(stored, crypto, before);
      StepKeepsGrants(After(stored, crypto, before), stored, crypto, |run| - 1, run[|run| - 1]);
    }
  }

  /** Each opening of the window lets in at most one key: the keys pinned by the loop map
      injectively to openings, and every key in the pinned set was stored or is one of them. */
  lemma OneKeyPerOpening(stored: set<string>, crypto: Crypto, run: seq<Event>) returns (opening: map<string, nat>)
    ensures var s := After(stored, crypto, run);
            && opening.Keys == s.added
            && (forall key :: key in opening ==> opening[key] < s.opens)
            && (forall a, b :: a in opening && b in opening && opening[a] == opening[b] ==> a == b)
            && s.d.pins.memory <= stored + s.added
  {
    ReachableGrants(stored, crypto, run);
    var s := After(stored, crypto, run);
    opening := map key | key in s.added :: Opening(s, key);
  }

  ghost function Opening(s: Sys, key: string): (g: nat)
    requires key in s.grants.Values
    ensures g in s.grants && s.grants[g] == key
  {
    var g :| g in s.grants && s.grants[g] == key;
    g
  }

  // ---- authentication ----

  predicate IsConnect(e: Event) { e.Recv? && e.msg.Connect? }

  /** The loop's credentials come from the run itself. */
  ghost predicate AuthOk(stored: set<string>, crypto: Crypto, run: seq<Event>) {
    var s := After(stored, crypto, run);
    var l := s.d.loop;
    && (l.sess.Some? ==> l.authed)
    && (l.authed ==> l.authPub != "")
    && (l.authPub != "" ==> ChallengedAt(stored, crypto, run, s.connectAt, l))
    && (l.authed ==> s.connectAt < s.proofAt && ProvedAt(stored, crypto, run, s.proofAt, l))
  }

  /** Event p is a proof that verified under this key and nonce, and pinned the key if it enrolled. */
  ghost predicate ProvedAt(stored: set<string>, crypto: Crypto, run: seq<Event>, p: nat, l: Loop) {
    && p < |run| && run[p].Recv? && run[p].msg.Proof?
    && crypto.signed(l.authPub, l.authNonce, run[p].msg.sig)
    && (l.enrolling ==> l.authPub in After(stored, crypto, run[..p + 1]).d.pins.disk)
  }

  /** Event c is the run's last connect, for this key, challenged with this nonce; the client was
      pinned then unless it is enrolling. */
  ghost predicate ChallengedAt(stored: set<string>, crypto: Crypto, run: seq<Event>, c: nat, l: Loop) {
    && c < |run| && IsConnect(run[c])
    && run[c].msg.key == l.authPub && run[c].env.nonce == Some(l.authNonce)
    && (forall j :: c < j < |run| ==> !IsConnect(run[j]))
    && (l.enrolling <==> l.authPub !in After(stored, crypto, run[..c]).d.pins.memory)
  }

  predicate SameCredentials(l: Loop, l': Loop) {
    l'.authPub == l.authPub && l'.authNonce == l.authNonce && l'.enrolling == l.enrolling
  }

  /** The evidence for a set of credentials outlives any event that is not a connect. */
  lemma EvidenceCarries(stored: set<string>, crypto: Crypto, run: seq<Event>, k: nat, l: Loop, l': Loop)
    requires run != [] && !IsConnect(run[|run| - 1]) && SameCredentials(l, l')
    ensures ChallengedAt(stored, crypto, run[..|run| - 1], k, l) ==> ChallengedAt(stored, crypto, run, k, l')
    ensures ProvedAt(stored, crypto, run[..|run| - 1], k, l) ==> ProvedAt(stored, crypto, run, k, l')
  {
    var before := run[..|run| - 1];
    if k < |before| {
      assert before[..k] == run[..k] && before[..k + 1] == run[..k + 1];
      assert forall j :: 0 <= j < |before| ==> before[j] == run[j];
    }
  }

  /** Messages that leave the credentials alone leave the evidence for them alone. */
  lemma {:induction false} AuthCarries(stored: set<string>, crypto: Crypto, run: seq<Event>)
    requires run != [] && AuthOk(stored, crypto, run[..|run| - 1]) && !IsConnect(run[|run| - 1])
    requires var s := After(stored, crypto, run[..|run| - 1]);
             var s' := After(stored, crypto, run);
             && SameCredentials(s.d.loop, s'.d.loop)
             && s'.d.loop.authed == s.d.loop.authed && (s'.d.loop.sess.Some? ==> s'.d.loop.authed)
             && s'.connectAt == s.connectAt && s'.proofAt == s.proofAt
    ensures AuthOk(stored, crypto, run)
  {
    var s := After(stored, crypto, run[..|run| - 1]);
    var s' := After(stored, crypto, run);
    EvidenceCarries(stored, crypto, run, s.connectAt, s.d.loop, s'.d.loop);
    EvidenceCarries(stored, crypto, run, s.proofAt, s.d.loop, s'.d.loop);
  }

  lemma AuthAfterConnect(stored: set<string>, crypto: Crypto, run: seq<Event>)
    requires run != [] && IsConnect(run[|run| - 1])
    ensures AuthOk(stored, crypto, run)
  {
  }

  lemma AuthAfterProof(stored: set<string>, crypto: Crypto, run: seq<Event>)
    requires run != [] && AuthOk(stored, crypto, run[..|run| - 1])
    requires run[|run| - 1].Recv? && run[|run| - 1].msg.Proof?
    ensures AuthOk(stored, crypto, run)
  {
    var s := After(stored, crypto, run[..|run| - 1]);
    var l := After(stored, crypto, run).d.loop;
    if l.authed {
      EvidenceCarries(stored, crypto, run, s.connectAt, s.d.loop, l);
    }
    assert run[..|run|] == run;
  }

  lemma AuthAfterOther(stored: set<string>, crypto: Crypto, run: seq<Event>)
    requires run != [] && AuthOk(stored, crypto, run[..|run| - 1])
    requires run[|run| - 1].Recv? && !run[|run| - 1].msg.Proof? && !run[|run| - 1].msg.Connect?
    ensures AuthOk(stored, crypto, run)
  {
    if After(stored, crypto, run).d.loop != CLEAN {
      AuthCarries(stored, crypto, run);
    }
  }

  lemma {:induction false} ReachableAuth(stored: set<string>, crypto: Crypto, run: seq<Event>)
    ensures AuthOk(stored, crypto, run)
    decreases |run|
  {
    if run != [] {
      ReachableAuth(stored, crypto, run[..|run| - 1]);
      var e := run[|run| - 1];
      if IsConnect(e) {
        AuthAfterConnect(stored, crypto, run);
      } else if e.Recv? && e.msg.Proof? {
        AuthAfterProof(stored, crypto, run);
      } else if e.Recv? {
        AuthAfterOther(stored, crypto, run);
      } else if !e.Reconnect? {
        AuthCarries(stored, crypto, run);
      }
    }
  }

  /** A live session implies an authenticated client; and an authenticated client signed, after the
      latest connect, the nonce minted for that connect, with a key that was pinned at that connect
      or was written to the pin file by that proof. */
  lemma {:induction false} Authenticated(stored: set<string>, crypto: Crypto, run: seq<Event>)
    ensures var l := After(stored, crypto, run).d.loop;
            l.sess.Some? ==> l.authed
    ensures var l := After(stored, crypto, run).d.loop;
            l.authed ==>
              exists c, p :: 0 <= c < p < |run| && IsConnect(run[c])
                             && run[c].msg.key == l.authPub != "" && run[c].env.nonce == Some(l.authNonce)
                             && (forall j :: c < j < |run| ==> !IsConnect(run[j]))
                             && run[p].Recv? && run[p].msg.Proof?
                             && crypto.signed(l.authPub, l.authNonce, run[p].msg.sig)
                             && (l.authPub in After(stored, crypto, run[..c]).d.pins.memory
                                 || l.authPub in After(stored, crypto, run[..p + 1]).d.pins.disk)
  {
    ReachableAuth(stored, crypto, run);
    var s := After(stored, crypto, run);
    if s.d.loop.authed {
      var c, p := s.connectAt, s.proofAt;
      assert IsConnect(run[c]) && run[p].msg.Proof?;
    }
  }

  // ---- candidates across the two buffers ----

  ghost predicate CandidatesOk(s: Sys) {
    var l := s.d.loop;
    && (l.sess.None? ==> l.early == s.taken && |s.taken| <= MAX_EARLY)
    && (l.sess.Some? ==>
          && l.early == [] && l.sess.value.remoteSet && l.sess.value.pending == []
          && l.sess.value.calls != [] && l.sess.value.calls[0].Describe?
          && l.sess.value.calls[1..] == Applied(s.taken))
  }

  lemma OfferKeepsCandidates(s: Sys, crypto: Crypto, n: nat, e: Event)
    requires CandidatesOk(s) && Answers(s, e)
    ensures CandidatesOk(Step(s, crypto, n, e))
  {
    EarlyCandidatesSurvive(s.d.loop.early, e.msg.sdp);
    var calls := [Describe(e.msg.sdp)] + Applied(s.d.loop.early);
    assert calls[1..] == Applied(s.d.loop.early);
  }

  lemma CandidateKeepsCandidates(s: Sys, crypto: Crypto, n: nat, e: Event)
    requires CandidatesOk(s) && e.Recv? && e.msg.CandidateMsg?
    ensures CandidatesOk(Step(s, crypto, n, e))
  {
    var c := e.msg.candidate;
    if s.d.loop.sess.Some? && s.d.loop.authed && s.d.loop.trickle {
      var calls := s.d.loop.sess.value.calls;
      assert (calls + [Apply(c)])[1..] == calls[1..] + [Apply(c)];
      assert Applied(s.taken + [c]) == Applied(s.taken) + [Apply(c)];
    }
  }

  lemma StepKeepsCandidates(s: Sys, crypto: Crypto, n: nat, e: Event)
    requires CandidatesOk(s)
    ensures CandidatesOk(Step(s, crypto, n, e))
  {
    if Answers(s, e) {
      OfferKeepsCandidates(s, crypto, n, e);
    } else if e.Recv? && e.msg.CandidateMsg? {
      CandidateKeepsCandidates(s, crypto, n, e);
    }
  }

  /** The candidates taken for a session reach its peer connection exactly once each, in arrival
      order, behind the remote description; those taken ahead of the offer are all still held. */
  lemma {:induction false} CandidatesReachTheSession(stored: set<string>, crypto: Crypto, run: seq<Event>)
    ensures CandidatesOk(After(stored, crypto, run))
    decreases |run|
  {
    if run != [] {
      var before := run[..|run| - 1];
      CandidatesReachTheSession(stored, crypto, before);
      StepKeepsCandidates(After(stored, crypto, before), crypto, |run| - 1, run[|run| - 1]);
    }
  }

  // ---- what becomes of the sessions ----

  ghost predicate SessionsOk(s: Sys) {
    var h := s.sessions;
    && (h.current.Some? <==> s.d.loop.sess.Some?)
    && (h.current.Some? ==> h.current.value < h.built && h.current.value !in h.closed)
    && (forall i :: i in h.closed ==> i < h.built)
  }

  lemma StepKeepsSessions(s: Sys, crypto: Crypto, n: nat, e: Event)
    requires SessionsOk(s)
    ensures SessionsOk(Step(s, crypto, n, e))
  {
  }

  lemma {:induction false} ReachableSessions(stored: set<string>, crypto: Crypto, run: seq<Event>)
    ensures SessionsOk(After(stored, crypto, run))
    decreases |run|
  {
    if run != [] {
      var before := run[..|run| - 1];
      ReachableSessions(stored, crypto, before);
      StepKeepsSessions(After(stored, crypto, before), crypto, |run| - 1, run[|run| - 1]);
    }
  }

  /** Event j of the run was an offer that got a session. */
  predicate StartsAt(stored: set<string>, crypto: Crypto, run: seq<Event>, j: nat)
    requires j < |run|
  {
    StartsSession(After(stored, crypto, run[..j]), run[j])
  }

  /** While session i was current, a further offer got a session. */
  predicate Overtaken(stored: set<string>, crypto: Crypto, run: seq<Event>, i: nat) {
    exists j :: 0 <= j < |run| && StartsAt(stored, crypto, run, j)
                && After(stored, crypto, run[..j]).sessions.current == Some(i)
  }

  lemma OvertakenStep(stored: set<string>, crypto: Crypto, run: seq<Event>, i: nat)
    requires run != []
    ensures var before := run[..|run| - 1];
            var s := After(stored, crypto, before);
            Overtaken(stored, crypto, run, i) <==>
              Overtaken(stored, crypto, before, i)
              || (StartsSession(s, run[|run| - 1]) && s.sessions.current == Some(i))
  {
    var n := |run| - 1;
    forall j: nat | j < n
      ensures StartsAt(stored, crypto, run[..n], j) == StartsAt(stored, crypto, run, j)
      ensures run[..n][..j] == run[..j]
    {
      assert run[..n][..j] == run[..j];
    }
    if StartsSession(After(stored, crypto, run[..n]), run[n]) {
      assert StartsAt(stored, crypto, run, n);
    }
  }

  /** Session i is open, and nobody's to close. */
  predicate Left(h: Sessions, i: nat) {
    i < h.built && i !in h.closed && h.current != Some(i)
  }

  lemma StepLeaves(s: Sys, crypto: Crypto, n: nat, e: Event, i: nat)
    requires SessionsOk(s)
    ensures var h, h' := s.sessions, Step(s, crypto, n, e).sessions;
            && h.built <= h'.built
            && (Left(h', i) <==> Left(h, i) || (StartsSession(s, e) && h.current == Some(i)))
  {
  }

  lemma LeftStep(stored: set<string>, crypto: Crypto, run: seq<Event>, i: nat)
    requires run != []
    ensures var s := After(stored, crypto, run[..|run| - 1]);
            && s.sessions.built <= After(stored, crypto, run).sessions.built
            && (Left(After(stored, crypto, run).sessions, i) <==>
                  Left(s.sessions, i) || (StartsSession(s, run[|run| - 1]) && s.sessions.current == Some(i)))
  {
    ReachableSessions(stored, crypto, run[..|run| - 1]);
    StepLeaves(After(stored, crypto, run[..|run| - 1]), crypto, |run| - 1, run[|run| - 1], i);
  }

  /** A session of the past is open, and no longer the loop's to close, if and only if an offer got
      another session while it was current. Once left behind it stays open: no later event closes it. */
  lemma {:induction false} SessionsLeftBehind(stored: set<string>, crypto: Crypto, run: seq<Event>, i: nat)
    ensures Left(After(stored, crypto, run).sessions, i) <==> Overtaken(stored, crypto, run, i)
    decreases |run|
  {
    if run != [] {
      LeftStep(stored, crypto, run, i);
      OvertakenStep(stored, crypto, run, i);
      SessionsLeftBehind(stored, crypto, run[..|run| - 1], i);
    }
  }

  /** No offer got a session while the loop had one. */
  predicate NeverTwice(stored: set<string>, crypto: Crypto, run: seq<Event>) {
    forall j :: 0 <= j < |run| && StartsAt(stored, crypto, run, j) ==>
      After(stored, crypto, run[..j]).d.loop.sess.None?
  }

  lemma {:induction false} TwiceLeaves(stored: set<string>, crypto: Crypto, run: seq<Event>, j: nat)
    requires j < |run| && StartsAt(stored, crypto, run, j)
    requires After(stored, crypto, run[..j]).d.loop.sess.Some?
    ensures exists i: nat :: Left(After(stored, crypto, run).sessions, i)
  {
    ReachableSessions(stored, crypto, run[..j]);
    var i := After(stored, crypto, run[..j]).sessions.current.value;
    assert Overtaken(stored, crypto, run, i);
    SessionsLeftBehind(stored, crypto, run, i);
  }

  lemma {:induction false} LeftIsTwice(stored: set<string>, crypto: Crypto, run: seq<Event>, i: nat)
    requires Left(After(stored, crypto, run).sessions, i)
    ensures !NeverTwice(stored, crypto, run)
  {
    SessionsLeftBehind(stored, crypto, run, i);
    var j :| 0 <= j < |run| && StartsAt(stored, crypto, run, j)
             && After(stored, crypto, run[..j]).sessions.current == Some(i);
    ReachableSessions(stored, crypto, run[..j]);
  }

  /** So at most the current session is open if and only if no offer ever got a session while the loop had
      one. */
  lemma {:induction false} OneSessionExactly(stored: set<string>, crypto: Crypto, run: seq<Event>)
    ensures (forall i: nat :: !Left(After(stored, crypto, run).sessions, i)) <==> NeverTwice(stored, crypto, run)
  {
    if !NeverTwice(stored, crypto, run) {
      var j :| 0 <= j < |run| && StartsAt(stored, crypto, run, j)
               && After(stored, crypto, run[..j]).d.loop.sess.Some?;
      TwiceLeaves(stored, crypto, run, j);
    } else if i: nat :| Left(After(stored, crypto, run).sessions, i) {
      LeftIsTwice(stored, crypto, run, i);
    }
  }

  lemma Next(stored: set<string>, crypto: Crypto, run: seq<Event>, e: Event)
    ensures After(stored, crypto, run + [e]) == Step(After(stored, crypto, run), crypto, |run|, e)
  {
    assert (run + [e])[..|run|] == run;
  }

  lemma Receives(stored: set<string>, crypto: Crypto, run: seq<Event>, m: Msg, env: Env)
    ensures var s, s' := After(stored, crypto, run), After(stored, crypto, run + [Recv(m, env)]);
            && s'.d == Handle(s.d, crypto, m, env).0
            && s'.sessions == Track(s.sessions, StartsSession(s, Recv(m, env)), Cleans(s.d, crypto, m, env))
            && s'.unpairs == s.unpairs
  {
    Next(stored, crypto, run, Recv(m, env));
  }

  /** A pinned client connects and proves its key. */
  lemma Admitted(crypto: Crypto, key: string, c: string, sig: string, env: Env) returns (run: seq<Event>)
    requires key != "" && crypto.signed(key, c, sig) && env.nonce == Some(c)
    ensures var s := After({key}, crypto, run);
            s.d.loop == CLEAN.(authPub := key, authNonce := c, authed := true) && s.sessions == Sessions(0, None, {})
  {
    run := [];
    Receives({key}, crypto, run, Connect(key, "", ""), env);
    run := run + [Recv(Connect(key, "", ""), env)];
    Receives({key}, crypto, run, Proof(sig), env);
    run := run + [Recv(Proof(sig), env)];
  }

  /** A client that sends a second offer gets a second session, and the first one stays open. */
  lemma SecondOffer(crypto: Crypto, key: string, c: string, sig: string, sdp: string) returns (run: seq<Event>)
    requires key != "" && crypto.signed(key, c, sig)
    ensures After({key}, crypto, run).sessions == Sessions(2, Some(1), {})
  {
    var env := Env(0, Some(c), true, true, true, Some("answer"));
    run := Admitted(crypto, key, c, sig, env);
    Receives({key}, crypto, run, OfferMsg(sdp), env);
    run := run + [Recv(OfferMsg(sdp), env)];
    Receives({key}, crypto, run, OfferMsg(sdp), env);
    run := run + [Recv(OfferMsg(sdp), env)];
  }
}
