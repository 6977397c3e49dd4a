/** The daemon's message loop over one broker connection (serveOnce in internal/server/remote.go). */
module Signalling {
  import opened Base
  import opened Pairing
  import opened RtcSession

  const MAX_EARLY: nat := 64

  datatype Msg =
    | Connect(key: string, nonce: string, pair: string)
    | ICEServers(trickle: bool)
    | Proof(sig: string)
    | OfferMsg(sdp: string)
    | CandidateMsg(candidate: string)
    | PeerLeft

  /** What the outside world answers while one message is handled: the clock, a fresh nonce if one
      could be drawn, and whether the pin was saved, the session built, the offer taken, the answer made. */
  datatype Env = Env(now: int, nonce: Option<string>, saved: bool, started: bool, described: bool,
                     local: Option<string>)

  datatype Reply =
    | NotPaired(code: PairCode)
    | NonceError
    | Challenge(nonce: string)
    | ChallengeFailed
    | CouldNotSave
    | Unauthenticated
    | NoSession
    | AnswerFailed
    | Answered(answer: string)

  /** The code on the wire for a key that is not let in. */
  datatype PairCode = PairExpired | PairUsed | PairInvalid

  function CodeOf(v: Verdict): PairCode {
    match v
    case Expired => PairExpired
    case Used => PairUsed
    case _ => PairInvalid
  }

  /** The loop's variables. */
  datatype Loop = Loop(sess: Option<Session>, authPub: string, authNonce: string, enrolling: bool, authed: bool,
                       trickle: bool, early: seq<string>)

  const CLEAN := Loop(None, "", "", false, false, false, [])

  datatype Daemon = Daemon(loop: Loop, win: Window, pins: Pins)

  function Handle(d: Daemon, crypto: Crypto, m: Msg, env: Env): (Daemon, Option<Reply>) {
    match m
    case Connect(key, nonce, pair) => OnConnect(d, crypto, key, nonce, pair, env)
    case ICEServers(trickle) => (d.(loop := d.loop.(trickle := trickle)), None)
    case Proof(sig) => OnProof(d, crypto, sig, env)
    case OfferMsg(sdp) => OnOffer(d, sdp, env)
    case CandidateMsg(c) => (d.(loop := OnCandidate(d.loop, c)), None)
    case PeerLeft => (d.(loop := CLEAN), None)
  }

  /** Any prior client is dropped; a pinned key is challenged, another must open the window. */
  function OnConnect(d: Daemon, crypto: Crypto, key: string, nonce: string, pair: string, env: Env)
    : (Daemon, Option<Reply>)
  {
    var pinned := key in d.pins.memory;
    var v := if pinned then Accepted else Judge(d.win, crypto, key, nonce, pair, env.now);
    var win := if pinned then d.win else Spend(d.win, v);
    if !v.Accepted? then (d.(loop := CLEAN, win := win), Some(NotPaired(CodeOf(v))))
    else if env.nonce.None? then (d.(loop := CLEAN, win := win), Some(NonceError))
    else
      var loop := CLEAN.(authPub := key, authNonce := env.nonce.value, enrolling := !pinned);
      (d.(loop := loop, win := win), Some(Challenge(env.nonce.value)))
  }

  function OnProof(d: Daemon, crypto: Crypto, sig: string, env: Env): (Daemon, Option<Reply>) {
    var l := d.loop;
    if l.authPub == "" || !crypto.signed(l.authPub, l.authNonce, sig) then (d.(loop := CLEAN), Some(ChallengeFailed))
    else if !l.enrolling then (d.(loop := l.(authed := true)), None)
    else
      var pins := Pin(d.pins, l.authPub, env.saved);
      if !env.saved then (d.(loop := CLEAN, pins := pins), Some(CouldNotSave))
      else (d.(loop := l.(authed := true), pins := pins), None)
  }

  function OnOffer(d: Daemon, sdp: string, env: Env): (Daemon, Option<Reply>) {
    var l := d.loop;
    if !l.authed then (d, Some(Unauthenticated))
    else if !env.started then (d, Some(NoSession))
    else if !(env.described && env.local.Some?) then (d.(loop := CLEAN), Some(AnswerFailed))
    else
      var sess := RtcSession.Answered(AddAll(FRESH, l.early), sdp, true);
      (d.(loop := l.(sess := Some(sess), early := [])), Some(Answered(env.local.value)))
  }

  function OnCandidate(l: Loop, c: string): Loop {
    if !l.authed || !l.trickle then l
    else if l.sess.None? then
      if |l.early| < MAX_EARLY then l.(early := l.early + [c]) else l
    else l.(sess := Some(Add(l.sess.value, c)))
  }

  /** The messages that end with the loop cleaning up. */
  predicate Cleans(d: Daemon, crypto: Crypto, m: Msg, env: Env) {
    var l := d.loop;
    match m
    case Connect(_, _, _) => true
    case PeerLeft => true
    case Proof(sig) =>
      l.authPub == "" || !crypto.signed(l.authPub, l.authNonce, sig) || (l.enrolling && !env.saved)
    case OfferMsg(_) => l.authed && env.started && !(env.described && env.local.Some?)
    case _ => false
  }

  class SignalLoop {
    const win: PairingWindow
    const pinned: PinnedStore
    var sess: Peer?
    var authPub: string
    var authNonce: string
    var enrolling: bool
    var authed: bool
    var trickle: bool
    var early: seq<string>

    ghost function View(): Daemon
      reads this, win, pinned, sess
    {
      Daemon(Loop(if sess == null then None else Some(sess.View()), authPub, authNonce, enrolling, authed,
                  trickle, early),
             win.View(), pinned.View())
    }

    constructor (win: PairingWindow, pinned: PinnedStore)
      ensures this.win == win && this.pinned == pinned && sess == null
      ensures View() == Daemon(CLEAN, win.View(), pinned.View())
    {
      this.win, this.pinned := win, pinned;
      sess, authPub, authNonce, enrolling, authed, trickle, early := null, "", "", false, false, false, [];
    }

    method Cleanup()
      modifies this, sess
      ensures sess == null && View() == old(View()).(loop := CLEAN)
      ensures old(sess) != null ==> old(sess).closed
    {
      if sess != null {
        sess.Close();
      }
      sess, authPub, authNonce, enrolling, authed, trickle, early := null, "", "", false, false, false, [];
    }

    method HandleConnect(crypto: Crypto, key: string, nonce: string, pair: string, env: Env)
      returns (reply: Option<Reply>)
      modifies this, win, sess
      ensures (View(), reply) == OnConnect(old(View()), crypto, key, nonce, pair, env) && sess == null
      ensures old(sess) != null ==> old(sess).closed
    {
      Cleanup();
      var allow := pinned.Contains(key);
      var enroll := false;
      var code := PairInvalid;
      if !allow {
        var v := win.Verify(crypto, key, nonce, pair, env.now);
        match v {
          case Accepted => allow, enroll := true, true;
          case Expired => code := PairExpired;
          case Used => code := PairUsed;
          case _ => code := PairInvalid;
        }
      }
      if !allow {
        return Some(NotPaired(code));
      }
      if env.nonce.None? {
        return Some(NonceError);
      }
      authPub, authNonce, enrolling, authed := key, env.nonce.value, enroll, false;
      reply := Some(Challenge(env.nonce.value));
    }

    method HandleProof(crypto: Crypto, sig: string, env: Env) returns (reply: Option<Reply>)
      modifies this, pinned, sess
      ensures (View(), reply) == OnProof(old(View()), crypto, sig, env)
      ensures sess == null || sess == old(sess)
      ensures old(sess) != null ==>
                old(sess).closed == (old(sess.closed) || Cleans(old(View()), crypto, Proof(sig), env))
    {
      if authPub == "" || !crypto.signed(authPub, authNonce, sig) {
        Cleanup();
        return Some(ChallengeFailed);
      }
      if enrolling {
        var ok := pinned.Add(authPub, env.saved);
        if !ok {
          Cleanup();
          return Some(CouldNotSave);
        }
      }
      authed := true;
      reply := None;
    }

    method HandleOffer(sdp: string, env: Env) returns (reply: Option<Reply>)
      modifies this
      ensures (View(), reply) == OnOffer(old(View()), sdp, env)
      ensures sess == null || sess == old(sess) || (fresh(sess) && !sess.closed)
    {
      if !authed {
        return Some(Unauthenticated);
      }
      if !env.started {
        return Some(NoSession);
      }
      var peer := new Peer();
      var held := early;
      for k := 0 to |held|
        invariant fresh(peer) && !peer.closed && peer.View() == AddAll(FRESH, held[..k])
        invariant unchanged(this)
      {
        assert held[..k + 1][..k] == held[..k];
        peer.AddCandidate(held[k]);
      }
      assert held[..|held|] == held;
      sess := peer;
      early := [];
      var answer := peer.Answer(sdp, env.described, env.local);
      if answer.None? {
        Cleanup();
        return Some(AnswerFailed);
      }
      reply := Some(Answered(answer.value));
    }

    method HandleCandidate(c: string)
      modifies this, sess
      ensures View() == old(View()).(loop := OnCandidate(old(View()).loop, c)) && sess == old(sess)
      ensures sess != null ==> sess.closed == old(sess.closed)
    {
      if !authed || !trickle {
        return;
      }
      if sess == null {
        if |early| < MAX_EARLY {
          early := early + [c];
        }
        return;
      }
      sess.AddCandidate(c);
    }

    /** A cleanup closes the current session; after a failed answer that is the new one, not the old. */
    method HandleMessage(crypto: Crypto, m: Msg, env: Env) returns (reply: Option<Reply>)
      modifies this, win, pinned, sess
      ensures (View(), reply) == Handle(old(View()), crypto, m, env)
      ensures old(sess) != null ==>
                old(sess).closed == (old(sess.closed) || (Cleans(old(View()), crypto, m, env) && !m.OfferMsg?))
    {
      reply := None;
      match m {
        case Connect(key, nonce, pair) => reply := HandleConnect(crypto, key, nonce, pair, env);
        case ICEServers(t) => trickle := t;
        case Proof(sig) => reply := HandleProof(crypto, sig, env);
        case OfferMsg(sdp) => reply := HandleOffer(sdp, env);
        case CandidateMsg(c) => HandleCandidate(c);
        case PeerLeft => Cleanup();
      }
    }
  }
}
