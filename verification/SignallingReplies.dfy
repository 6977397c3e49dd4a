/** What the daemon's loop answers, and that a client that does as it is told gets its session. */
module SignallingReplies {
  import opened Base
  import opened Pairing
  import opened RtcSession
  import opened Signalling
  import opened SignallingRuns

  /** A connect is challenged with the nonce just drawn if and only if the key is pinned or the window takes
      its proof, and a nonce could be drawn; otherwise the reply says why not. */
  lemma ConnectAnswered(d: Daemon, crypto: Crypto, key: string, nonce: string, pair: string, env: Env)
    ensures var reply := Handle(d, crypto, Connect(key, nonce, pair), env).1;
            var phase := PhaseOf(d.win, env.now);
            var letIn := key in d.pins.memory || (phase.Open? && crypto.enrolls(d.win.secret, key, nonce, pair));
            && (forall n :: reply == Some(Challenge(n)) <==> letIn && env.nonce == Some(n))
            && (reply == Some(NonceError) <==> letIn && env.nonce.None?)
            && (reply == Some(NotPaired(PairUsed)) <==> !letIn && phase.Consumed?)
            && (reply == Some(NotPaired(PairExpired)) <==> !letIn && phase.Lapsed?)
            && (reply == Some(NotPaired(PairInvalid)) <==> !letIn && (phase.NeverArmed? || phase.Open?))
  {
    PhaseMatchesVerdict(d.win, crypto, key, nonce, pair, env.now);
  }

  /** A proof is taken in silence if and only if a challenge is out, the signature is the key's over it, and
      an enrolling key could be saved; otherwise the client is dropped and told which failed. */
  lemma ProofAnswered(d: Daemon, crypto: Crypto, sig: string, env: Env)
    ensures var (d', reply) := Handle(d, crypto, Proof(sig), env);
            var l := d.loop;
            var proved := l.authPub != "" && crypto.signed(l.authPub, l.authNonce, sig);
            && (reply.None? <==> proved && (l.enrolling ==> env.saved))
            && (reply.None? ==> d'.loop == l.(authed := true))
            && (reply.Some? ==> d'.loop == CLEAN && reply.value == if proved then CouldNotSave else ChallengeFailed)
  {
  }

  /** An offer of an authenticated client is answered with the connection's own description if a session
      could be built and took the offer; otherwise the reply says what failed. */
  lemma OfferAnswered(d: Daemon, crypto: Crypto, sdp: string, env: Env)
    ensures var (d', reply) := Handle(d, crypto, OfferMsg(sdp), env);
            && (reply == Some(Unauthenticated) <==> !d.loop.authed)
            && (reply == Some(NoSession) <==> d.loop.authed && !env.started)
            && (reply == Some(AnswerFailed) <==>
                  d.loop.authed && env.started && (!env.described || env.local.None?))
            && (forall answer :: reply == Some(Reply.Answered(answer)) <==>
                  d.loop.authed && env.started && env.described && env.local == Some(answer))
            && ((reply == Some(Unauthenticated) || reply == Some(NoSession)) ==> d' == d)
            && (reply == Some(AnswerFailed) ==> d'.loop == CLEAN)
            && (reply.Some? && reply.value.Answered? ==> d'.loop.sess.Some? && d'.loop.early == [])
  {
  }

  /** A client that signs the challenge it was sent and then offers is authenticated, and answered, if the
      daemon's own part works: from any state, whatever was there before. */
  lemma HonestClient(d: Daemon, crypto: Crypto, key: string, nonce: string, pair: string, env: Env,
                     n: string, sig: string, env': Env, sdp: string, env'': Env)
    requires key != "" && Handle(d, crypto, Connect(key, nonce, pair), env).1 == Some(Challenge(n))
    requires crypto.signed(key, n, sig) && env'.saved
    ensures var d1 := Handle(d, crypto, Connect(key, nonce, pair), env).0;
            var (d2, reply2) := Handle(d1, crypto, Proof(sig), env');
            var (d3, reply3) := Handle(d2, crypto, OfferMsg(sdp), env'');
            && d2.loop.authed && d2.loop.authPub == key && reply2 == None && key in d2.pins.memory
            && (env''.started && env''.described && env''.local.Some? ==>
                  d3.loop.sess.Some? && reply3 == Some(Reply.Answered(env''.local.value)))
  {
  }

  /** Of an authenticated client that trickles, the first 64 candidates are held for the session to come. */
  lemma SixtyFourHeld(l: Loop, c: string)
    ensures l.authed && l.trickle && l.sess.None? ==>
              OnCandidate(l, c).early == if |l.early| < 64 then l.early + [c] else l.early
  {
  }

  // ---- trickle is the broker's last word ----

  predicate CleansAt(stored: set<string>, crypto: Crypto, run: seq<Event>, j: nat)
    requires j < |run|
  {
    run[j].Reconnect? || (run[j].Recv? && Cleans(After(stored, crypto, run[..j]).d, crypto, run[j].msg, run[j].env))
  }

  predicate Verdicts(run: seq<Event>, j: nat)
    requires j < |run|
  {
    run[j].Recv? && run[j].msg.ICEServers?
  }

  /** Event i was the broker's word that both sides trickle, and neither another word nor a clean-up came
      after it. */
  predicate LastWordAt(stored: set<string>, crypto: Crypto, run: seq<Event>, i: nat) {
    && i < |run| && Verdicts(run, i) && run[i].msg.trickle
    && forall j :: i < j < |run| ==> !Verdicts(run, j) && !CleansAt(stored, crypto, run, j)
  }

  lemma StepTrickle(s: Sys, crypto: Crypto, n: nat, e: Event)
    ensures Step(s, crypto, n, e).d.loop.trickle <==>
              if e.Recv? && e.msg.ICEServers? then e.msg.trickle
              else s.d.loop.trickle && !e.Reconnect? && !(e.Recv? && Cleans(s.d, crypto, e.msg, e.env))
  {
  }

  lemma LastWordStep(stored: set<string>, crypto: Crypto, run: seq<Event>, i: nat)
    requires run != []
    ensures var n := |run| - 1;
            LastWordAt(stored, crypto, run, i) <==>
              if i == n then Verdicts(run, n) && run[n].msg.trickle
              else LastWordAt(stored, crypto, run[..n], i) && !Verdicts(run, n) && !CleansAt(stored, crypto, run, n)
  {
    var n := |run| - 1;
    forall j: nat | j < n
      ensures CleansAt(stored, crypto, run[..n], j) == CleansAt(stored, crypto, run, j)
      ensures Verdicts(run[..n], j) == Verdicts(run, j)
    {
      assert run[..n][..j] == run[..j];
    }
  }

  /** The loop trickles if and only if the broker's last word since the last clean-up said so. */
  lemma {:induction false} TrickleExactly(stored: set<string>, crypto: Crypto, run: seq<Event>)
    ensures After(stored, crypto, run).d.loop.trickle <==> exists i :: LastWordAt(stored, crypto, run, i)
    decreases |run|
  {
    if run != [] {
      var n := |run| - 1;
      TrickleExactly(stored, crypto, run[..n]);
      StepTrickle(After(stored, crypto, run[..n]), crypto, n, run[n]);
      forall i: nat
        ensures LastWordAt(stored, crypto, run, i) <==>
                  if i == n then Verdicts(run, n) && run[n].msg.trickle
                  else LastWordAt(stored, crypto, run[..n], i) && !Verdicts(run, n) && !CleansAt(stored, crypto, run, n)
      {
        LastWordStep(stored, crypto, run, i);
      }
      assert Verdicts(run, n) && run[n].msg.trickle ==> LastWordAt(stored, crypto, run, n);
    }
  }
}
