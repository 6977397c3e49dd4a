/** The pin file over every run of the signalling machine: where what it holds comes from, and when that
    is what the daemon has in memory. The daemon writes it when it enrols a key; an unpair process reads
    it, takes one key out and writes it back, and the two know nothing of each other. */
module PinDurability {
  import opened Base
  import opened Pairing
  import opened Signalling
  import opened SignallingRuns

  /** Whether this event is the daemon saving an enrolment, and with what success. */
  function Saves(s: Sys, crypto: Crypto, e: Event): Option<bool> {
    match e
    case Recv(Proof(sig), env) =>
      var l := s.d.loop;
      if l.authPub != "" && crypto.signed(l.authPub, l.authNonce, sig) && l.enrolling then Some(env.saved) else None
    case _ => None
  }

  /** This event is an unpair process writing the file. */
  predicate Unpairs(s: Sys, e: Event) {
    e.UnpairWrites? && e.i < |s.unpairs| && !s.unpairs[e.i].done && e.saved
  }

  lemma StepPins(s: Sys, crypto: Crypto, n: nat, e: Event)
    ensures var p, p' := s.d.pins, Step(s, crypto, n, e).d.pins;
            && p'.memory == p.memory + (if Saves(s, crypto, e).Some? then {s.d.loop.authPub} else {})
            && p'.disk == if Saves(s, crypto, e) == Some(true) then p'.memory
                          else if Unpairs(s, e) then s.unpairs[e.i].loaded - {e.key}
                          else p.disk
  {
  }

  // ---- what an unpair process read ----

  ghost predicate LoadedOk(stored: set<string>, crypto: Crypto, run: seq<Event>, u: Unpairing) {
    u.at < |run| && u.loaded == After(stored, crypto, run[..u.at]).d.pins.disk
  }

  lemma StepUnpairs(s: Sys, crypto: Crypto, n: nat, e: Event, i: nat)
    requires i < |Step(s, crypto, n, e).unpairs|
    ensures var u := Step(s, crypto, n, e).unpairs[i];
            if i < |s.unpairs| then u.loaded == s.unpairs[i].loaded && u.at == s.unpairs[i].at
            else u.loaded == s.d.pins.disk && u.at == n
  {
  }

  /** Each holds what the file held when it read it. */
  lemma {:induction false} Loaded(stored: set<string>, crypto: Crypto, run: seq<Event>, i: nat)
    requires i < |After(stored, crypto, run).unpairs|
    ensures LoadedOk(stored, crypto, run, After(stored, crypto, run).unpairs[i])
    decreases |run|
  {
    var n := |run| - 1;
    var before := run[..n];
    var s := After(stored, crypto, before);
    StepUnpairs(s, crypto, n, run[n], i);
    if i < |s.unpairs| {
      Loaded(stored, crypto, before, i);
      assert before[..s.unpairs[i].at] == run[..s.unpairs[i].at];
    }
  }

  // ---- where the file comes from ----

  /** The file goes back to what memory held after `root` events, less the keys dropped since. */
  datatype Source = Source(root: nat, dropped: set<string>)

  /** A save takes all of memory; an unpairing takes what it read, which has a source of its own. */
  function SourceOf(stored: set<string>, crypto: Crypto, run: seq<Event>): (r: Source)
    ensures r.root <= |run|
    decreases |run|
  {
    if run == [] then Source(0, {})
    else
      var n := |run| - 1;
      var s, e := After(stored, crypto, run[..n]), run[n];
      if Saves(s, crypto, e) == Some(true) then Source(|run|, {})
      else if Unpairs(s, e) then
        Loaded(stored, crypto, run[..n], e.i);
        var read := SourceOf(stored, crypto, run[..s.unpairs[e.i].at]);
        Source(read.root, read.dropped + {e.key})
      else SourceOf(stored, crypto, run[..n])
  }

  ghost predicate Comes(stored: set<string>, crypto: Crypto, run: seq<Event>, file: set<string>, src: Source) {
    src.root <= |run| && file == After(stored, crypto, run[..src.root]).d.pins.memory - src.dropped
  }

  lemma ComesStill(stored: set<string>, crypto: Crypto, run: seq<Event>, m: nat, file: set<string>, src: Source)
    requires m <= |run| && Comes(stored, crypto, run[..m], file, src)
    ensures Comes(stored, crypto, run, file, src)
  {
    assert run[..m][..src.root] == run[..src.root];
  }

  lemma ComesNow(stored: set<string>, crypto: Crypto, run: seq<Event>)
    ensures Comes(stored, crypto, run, After(stored, crypto, run).d.pins.memory, Source(|run|, {}))
  {
    assert run[..|run|] == run;
  }

  lemma {:induction false} SavedFile(stored: set<string>, crypto: Crypto, run: seq<Event>)
    requires run != []
    requires Saves(After(stored, crypto, run[..|run| - 1]), crypto, run[|run| - 1]) == Some(true)
    ensures Comes(stored, crypto, run, After(stored, crypto, run).d.pins.disk, SourceOf(stored, crypto, run))
  {
    StepPins(After(stored, crypto, run[..|run| - 1]), crypto, |run| - 1, run[|run| - 1]);
    ComesNow(stored, crypto, run);
  }

  lemma {:induction false} UnpairedFile(stored: set<string>, crypto: Crypto, run: seq<Event>, u: Unpairing)
    requires run != [] && var s, e := After(stored, crypto, run[..|run| - 1]), run[|run| - 1];
                          Unpairs(s, e) && u == s.unpairs[e.i]
    requires u.at < |run| - 1 && Comes(stored, crypto, run[..u.at], u.loaded, SourceOf(stored, crypto, run[..u.at]))
    ensures Comes(stored, crypto, run, After(stored, crypto, run).d.pins.disk, SourceOf(stored, crypto, run))
  {
    StepPins(After(stored, crypto, run[..|run| - 1]), crypto, |run| - 1, run[|run| - 1]);
    ComesStill(stored, crypto, run, u.at, u.loaded, SourceOf(stored, crypto, run[..u.at]));
  }

  lemma {:induction false} KeptFile(stored: set<string>, crypto: Crypto, run: seq<Event>)
    requires run != [] && !WritesAt(stored, crypto, run, |run| - 1)
    requires var before := run[..|run| - 1];
             Comes(stored, crypto, before, After(stored, crypto, before).d.pins.disk, SourceOf(stored, crypto, before))
    ensures Comes(stored, crypto, run, After(stored, crypto, run).d.pins.disk, SourceOf(stored, crypto, run))
  {
    var before := run[..|run| - 1];
    StepPins(After(stored, crypto, before), crypto, |run| - 1, run[|run| - 1]);
    SourceBefore(stored, crypto, run);
    ComesStill(stored, crypto, run, |run| - 1, After(stored, crypto, before).d.pins.disk,
               SourceOf(stored, crypto, before));
  }

  /** The file is what memory held at its source, less what has been dropped. */
  lemma {:induction false} FileExactly(stored: set<string>, crypto: Crypto, run: seq<Event>)
    ensures Comes(stored, crypto, run, After(stored, crypto, run).d.pins.disk, SourceOf(stored, crypto, run))
    decreases |run|
  {
    if run == [] {
      ComesNow(stored, crypto, run);
    } else {
      var n := |run| - 1;
      var s, e := After(stored, crypto, run[..n]), run[n];
      if Saves(s, crypto, e) == Some(true) {
        SavedFile(stored, crypto, run);
      } else if Unpairs(s, e) {
        Loaded(stored, crypto, run[..n], e.i);
        var u := s.unpairs[e.i];
        assert run[..n][..u.at] == run[..u.at];
        FileExactly(stored, crypto, run[..u.at]);
        UnpairedFile(stored, crypto, run, u);
      } else {
        FileExactly(stored, crypto, run[..n]);
        KeptFile(stored, crypto, run);
      }
    }
  }

  // ---- memory ----

  /** Event j enrolled this key, whether or not it could be saved. */
  predicate EnrolsAt(stored: set<string>, crypto: Crypto, run: seq<Event>, j: nat, key: string)
    requires j < |run|
  {
    var s := After(stored, crypto, run[..j]);
    Saves(s, crypto, run[j]).Some? && s.d.loop.authPub == key
  }

  predicate EnrolledSince(stored: set<string>, crypto: Crypto, run: seq<Event>, k: nat, key: string) {
    exists j :: k <= j < |run| && EnrolsAt(stored, crypto, run, j, key)
  }

  lemma EnrolledStep(stored: set<string>, crypto: Crypto, run: seq<Event>, k: nat, key: string)
    requires k < |run|
    ensures var n := |run| - 1;
            EnrolledSince(stored, crypto, run, k, key) <==>
              EnrolsAt(stored, crypto, run, n, key) || EnrolledSince(stored, crypto, run[..n], k, key)
  {
    var n := |run| - 1;
    forall j: nat | j < n
      ensures EnrolsAt(stored, crypto, run[..n], j, key) == EnrolsAt(stored, crypto, run, j, key)
    {
      assert run[..n][..j] == run[..j];
    }
  }

  /** The daemon never forgets a key: it has what it had and what was enrolled since. */
  lemma {:induction false} MemoryExactly(stored: set<string>, crypto: Crypto, run: seq<Event>, k: nat, key: string)
    requires k <= |run|
    ensures key in After(stored, crypto, run).d.pins.memory <==>
              key in After(stored, crypto, run[..k]).d.pins.memory || EnrolledSince(stored, crypto, run, k, key)
    decreases |run|
  {
    if k == |run| {
      assert run[..k] == run;
    } else {
      var n := |run| - 1;
      MemoryExactly(stored, crypto, run[..n], k, key);
      assert run[..n][..k] == run[..k];
      EnrolledStep(stored, crypto, run, k, key);
      StepPins(After(stored, crypto, run[..n]), crypto, n, run[n]);
    }
  }

  /** Exactly when a key is pinned though no file holds it: it was pinned where the file comes from and
      an unpairing has dropped it since, or it was not and has been enrolled since, its save having failed
      or been overwritten. The other way round never happens: what the file holds is in memory. */
  lemma {:induction false} UnsavedExactly(stored: set<string>, crypto: Crypto, run: seq<Event>, key: string)
    ensures var pins := After(stored, crypto, run).d.pins;
            var src := SourceOf(stored, crypto, run);
            var pinned := key in After(stored, crypto, run[..src.root]).d.pins.memory;
            && (key in pins.memory && key !in pins.disk <==>
                  if pinned then key in src.dropped else EnrolledSince(stored, crypto, run, src.root, key))
            && (key in pins.disk ==> key in pins.memory)
  {
    FileExactly(stored, crypto, run);
    MemoryExactly(stored, crypto, run, SourceOf(stored, crypto, run).root, key);
  }

  /** The next enrolment that is saved puts every key back that an unpairing took out. */
  lemma {:induction false} SaveRestores(stored: set<string>, crypto: Crypto, run: seq<Event>, e: Event)
    requires Saves(After(stored, crypto, run), crypto, e) == Some(true)
    ensures var pins, pins' := After(stored, crypto, run).d.pins, After(stored, crypto, run + [e]).d.pins;
            pins'.disk == pins'.memory && pins.memory <= pins'.disk
  {
    Next(stored, crypto, run, e);
    StepPins(After(stored, crypto, run), crypto, |run|, e);
  }

  // ---- when no unpairing is overtaken ----

  /** Event j wrote the file. */
  predicate WritesAt(stored: set<string>, crypto: Crypto, run: seq<Event>, j: nat)
    requires j < |run|
  {
    var s := After(stored, crypto, run[..j]);
    Saves(s, crypto, run[j]) == Some(true) || Unpairs(s, run[j])
  }

  predicate NoWrites(stored: set<string>, crypto: Crypto, run: seq<Event>, l: nat) {
    forall j :: l <= j < |run| ==> !WritesAt(stored, crypto, run, j)
  }

  /** Nobody wrote the file between an unpair process's reading and its writing. */
  ghost predicate Undisturbed(stored: set<string>, crypto: Crypto, run: seq<Event>) {
    forall j :: 0 <= j < |run| && Unpairs(After(stored, crypto, run[..j]), run[j]) ==>
      NoWrites(stored, crypto, run[..j], After(stored, crypto, run[..j]).unpairs[run[j].i].at)
  }

  lemma WritesBefore(stored: set<string>, crypto: Crypto, run: seq<Event>, n: nat, j: nat)
    requires j < n <= |run|
    ensures WritesAt(stored, crypto, run[..n], j) == WritesAt(stored, crypto, run, j)
  {
    assert run[..n][..j] == run[..j];
  }

  lemma {:induction false} SourceBefore(stored: set<string>, crypto: Crypto, run: seq<Event>)
    requires run != [] && !WritesAt(stored, crypto, run, |run| - 1)
    ensures SourceOf(stored, crypto, run) == SourceOf(stored, crypto, run[..|run| - 1])
  {
  }

  lemma {:induction false} SourceStays(stored: set<string>, crypto: Crypto, run: seq<Event>, l: nat)
    requires l <= |run| && NoWrites(stored, crypto, run, l)
    ensures SourceOf(stored, crypto, run) == SourceOf(stored, crypto, run[..l])
    decreases |run|
  {
    if l == |run| {
      assert run[..l] == run;
    } else {
      var n := |run| - 1;
      forall j | l <= j < n ensures !WritesAt(stored, crypto, run[..n], j) {
        WritesBefore(stored, crypto, run, n, j);
      }
      SourceStays(stored, crypto, run[..n], l);
      assert run[..n][..l] == run[..l];
      SourceBefore(stored, crypto, run);
    }
  }

  /** The length of the run up to the daemon's last successful save. */
  function LastSaved(stored: set<string>, crypto: Crypto, run: seq<Event>): (k: nat)
    ensures k <= |run|
  {
    if run == [] then 0
    else
      var before := run[..|run| - 1];
      if Saves(After(stored, crypto, before), crypto, run[|run| - 1]) == Some(true) then |run|
      else LastSaved(stored, crypto, before)
  }

  predicate UnpairsAt(stored: set<string>, crypto: Crypto, run: seq<Event>, j: nat, key: string)
    requires j < |run|
  {
    Unpairs(After(stored, crypto, run[..j]), run[j]) && run[j].key == key
  }

  predicate UnpairedSince(stored: set<string>, crypto: Crypto, run: seq<Event>, k: nat, key: string) {
    exists j :: k <= j < |run| && UnpairsAt(stored, crypto, run, j, key)
  }

  lemma UnpairedStep(stored: set<string>, crypto: Crypto, run: seq<Event>, k: nat, key: string)
    requires k < |run|
    ensures var n := |run| - 1;
            UnpairedSince(stored, crypto, run, k, key) <==>
              UnpairsAt(stored, crypto, run, n, key) || UnpairedSince(stored, crypto, run[..n], k, key)
  {
    var n := |run| - 1;
    forall j: nat | j < n
      ensures UnpairsAt(stored, crypto, run[..n], j, key) == UnpairsAt(stored, crypto, run, j, key)
    {
      assert run[..n][..j] == run[..j];
    }
  }

  lemma UndisturbedBefore(stored: set<string>, crypto: Crypto, run: seq<Event>)
    requires run != [] && Undisturbed(stored, crypto, run)
    ensures Undisturbed(stored, crypto, run[..|run| - 1])
  {
    var before := run[..|run| - 1];
    forall j | 0 <= j < |before| && Unpairs(After(stored, crypto, before[..j]), before[j])
      ensures NoWrites(stored, crypto, before[..j], After(stored, crypto, before[..j]).unpairs[before[j].i].at)
    {
      assert before[..j] == run[..j] && before[j] == run[j];
    }
  }

  lemma {:induction false} SequentialSource(stored: set<string>, crypto: Crypto, run: seq<Event>, key: string)
    requires Undisturbed(stored, crypto, run)
    ensures var src := SourceOf(stored, crypto, run);
            && src.root == LastSaved(stored, crypto, run)
            && (key in src.dropped <==> UnpairedSince(stored, crypto, run, src.root, key))
    decreases |run|
  {
    if run != [] {
      var n := |run| - 1;
      var s, e := After(stored, crypto, run[..n]), run[n];
      UndisturbedBefore(stored, crypto, run);
      SequentialSource(stored, crypto, run[..n], key);
      if Saves(s, crypto, e) != Some(true) {
        UnpairedStep(stored, crypto, run, LastSaved(stored, crypto, run), key);
        if Unpairs(s, e) {
          Loaded(stored, crypto, run[..n], e.i);
          SourceStays(stored, crypto, run[..n], s.unpairs[e.i].at);
          assert run[..n][..s.unpairs[e.i].at] == run[..s.unpairs[e.i].at];
        }
      }
    }
  }

  /** Event j was a save that succeeded. */
  predicate SavedAt(stored: set<string>, crypto: Crypto, run: seq<Event>, j: nat)
    requires j < |run|
  {
    Saves(After(stored, crypto, run[..j]), crypto, run[j]) == Some(true)
  }

  /** While no unpairing is overtaken: a key is in the file if and only if it was pinned at the last
      successful save and has not been unpaired since, and in memory if and only if it was pinned then or
      an enrolment of it has failed to save since. */
  lemma {:induction false} SequentialExactly(stored: set<string>, crypto: Crypto, run: seq<Event>, key: string)
    requires Undisturbed(stored, crypto, run)
    ensures var pins := After(stored, crypto, run).d.pins;
            var k := LastSaved(stored, crypto, run);
            var pinned := key in After(stored, crypto, run[..k]).d.pins.memory;
            && (key in pins.disk <==> pinned && !UnpairedSince(stored, crypto, run, k, key))
            && (key in pins.memory <==> pinned || EnrolledSince(stored, crypto, run, k, key))
    ensures forall j :: LastSaved(stored, crypto, run) <= j < |run| ==> !SavedAt(stored, crypto, run, j)
  {
    FileExactly(stored, crypto, run);
    SequentialSource(stored, crypto, run, key);
    MemoryExactly(stored, crypto, run, LastSaved(stored, crypto, run), key);
    forall j | LastSaved(stored, crypto, run) <= j < |run|
      ensures !SavedAt(stored, crypto, run, j)
    {
      SavedNoLater(stored, crypto, run, j);
    }
  }

  lemma {:induction false} SavedNoLater(stored: set<string>, crypto: Crypto, run: seq<Event>, j: nat)
    requires LastSaved(stored, crypto, run) <= j < |run|
    ensures !SavedAt(stored, crypto, run, j)
    decreases |run|
  {
    var n := |run| - 1;
    LastSavedBefore(stored, crypto, run);
    if j < n {
      SavedNoLater(stored, crypto, run[..n], j);
      SavedBefore(stored, crypto, run, j);
    }
  }

  lemma {:induction false} LastSavedBefore(stored: set<string>, crypto: Crypto, run: seq<Event>)
    requires LastSaved(stored, crypto, run) < |run|
    ensures var n := |run| - 1;
            && LastSaved(stored, crypto, run) == LastSaved(stored, crypto, run[..n])
            && !SavedAt(stored, crypto, run, n)
  {
  }

  lemma {:induction false} SavedBefore(stored: set<string>, crypto: Crypto, run: seq<Event>, j: nat)
    requires j + 1 < |run|
    ensures SavedAt(stored, crypto, run[..|run| - 1], j) == SavedAt(stored, crypto, run, j)
  {
    assert run[..|run| - 1][..j] == run[..j];
  }

  // ---- runs in which memory and file part ----

  /** A new key shows the secret of an open window and is challenged. */
  lemma Enrolling(crypto: Crypto, secret: string, key: string, nonce: string, pair: string, env: Env)
    returns (run: seq<Event>)
    requires key != "" && crypto.enrolls(secret, key, nonce, pair) && env.nonce.Some? && env.now == 0
    ensures var d := After({}, crypto, run).d;
            && d.loop == CLEAN.(authPub := key, authNonce := env.nonce.value, enrolling := true)
            && d.pins == Pins({}, {})
  {
    run := [OpenWindow(secret, 0, 1)];
    Opened(crypto, secret);
    Receives({}, crypto, run, Connect(key, nonce, pair), env);
    Admits(After({}, crypto, run).d, crypto, key, nonce, pair, env);
    run := run + [Recv(Connect(key, nonce, pair), env)];
  }

  lemma Opened(crypto: Crypto, secret: string)
    ensures After({}, crypto, [OpenWindow(secret, 0, 1)]).d == Daemon(CLEAN, Arm(secret, 0, 1), Pins({}, {}))
  {
    Next({}, crypto, [], OpenWindow(secret, 0, 1));
    assert [] + [OpenWindow(secret, 0, 1)] == [OpenWindow(secret, 0, 1)];
  }

  lemma Admits(d: Daemon, crypto: Crypto, key: string, nonce: string, pair: string, env: Env)
    requires key !in d.pins.memory && env.nonce.Some? && Judge(d.win, crypto, key, nonce, pair, env.now).Accepted?
    ensures var d' := OnConnect(d, crypto, key, nonce, pair, env).0;
            d'.loop == CLEAN.(authPub := key, authNonce := env.nonce.value, enrolling := true) && d'.pins == d.pins
  {
  }

  /** Memory runs ahead of the file: a new key whose save failed is refused that time, but stays pinned
      in memory. */
  lemma FailedSave(crypto: Crypto, secret: string, key: string, nonce: string, pair: string, c: string, sig: string)
    returns (run: seq<Event>)
    requires key != "" && crypto.enrolls(secret, key, nonce, pair) && crypto.signed(key, c, sig)
    ensures After({}, crypto, run).d.pins == Pins({key}, {}) && After({}, crypto, run).d.loop == CLEAN
  {
    var env := Env(0, Some(c), false, false, false, None);
    run := Enrolling(crypto, secret, key, nonce, pair, env);
    Receives({}, crypto, run, Proof(sig), env);
    run := run + [Recv(Proof(sig), env)];
  }

  /** So the same key authenticates when it tries again, though no file holds it. */
  lemma UnsavedKeyAuthenticates(crypto: Crypto, secret: string, key: string, nonce: string, pair: string,
                                c: string, sig: string, c': string, sig': string) returns (run: seq<Event>)
    requires key != "" && crypto.enrolls(secret, key, nonce, pair)
    requires crypto.signed(key, c, sig) && crypto.signed(key, c', sig')
    ensures var d := After({}, crypto, run).d;
            d.loop.authed && d.loop.authPub == key && key !in d.pins.disk
  {
    run := FailedSave(crypto, secret, key, nonce, pair, c, sig);
    var env := Env(0, Some(c'), false, false, false, None);
    Receives({}, crypto, run, Connect(key, "", ""), env);
    run := run + [Recv(Connect(key, "", ""), env)];
    assert After({}, crypto, run).d.loop == CLEAN.(authPub := key, authNonce := c');
    Receives({}, crypto, run, Proof(sig'), env);
    run := run + [Recv(Proof(sig'), env)];
  }

  /** A stored key is unpaired by another process. */
  lemma Unpaired(crypto: Crypto, key: string) returns (run: seq<Event>)
    ensures After({key}, crypto, run).d == Daemon(CLEAN, UNARMED, Pins({key}, {}))
    ensures forall j :: 0 <= j < |run| ==> !run[j].Recv?
  {
    run := [UnpairLoads];
    Next({key}, crypto, [], UnpairLoads);
    assert [] + [UnpairLoads] == [UnpairLoads];
    assert After({key}, crypto, run) == Start({key}).(unpairs := [Unpairing({key}, 0, false)]);
    Next({key}, crypto, run, UnpairWrites(0, key, true));
    StepPins(After({key}, crypto, run), crypto, 1, UnpairWrites(0, key, true));
    run := run + [UnpairWrites(0, key, true)];
  }

  /** An unpaired key still authenticates with the daemon that is running, though nothing failed. */
  lemma UnpairedKeyAuthenticates(crypto: Crypto, key: string, c: string, sig: string) returns (run: seq<Event>)
    requires key != "" && crypto.signed(key, c, sig)
    ensures var d := After({key}, crypto, run).d;
            d.loop.authed && d.loop.authPub == key && key !in d.pins.disk
    ensures forall j :: 0 <= j < |run| && run[j].Recv? ==> run[j].env.saved
  {
    run := Unpaired(crypto, key);
    var env := Env(0, Some(c), true, false, false, None);
    Receives({key}, crypto, run, Connect(key, "", ""), env);
    run := run + [Recv(Connect(key, "", ""), env)];
    assert After({key}, crypto, run).d.loop == CLEAN.(authPub := key, authNonce := c);
    Receives({key}, crypto, run, Proof(sig), env);
    run := run + [Recv(Proof(sig), env)];
  }

  /** A process that read the empty file is about to unpair something; meanwhile a new key is enrolled. */
  lemma EnrolledMeanwhile(crypto: Crypto, secret: string, key: string, nonce: string, pair: string,
                          c: string, sig: string) returns (run: seq<Event>)
    requires key != "" && crypto.enrolls(secret, key, nonce, pair) && crypto.signed(key, c, sig)
    ensures var s := After({}, crypto, run);
            && s.d.loop.authed && s.d.loop.authPub == key && s.d.pins == Pins({key}, {key})
            && |s.unpairs| == 1 && s.unpairs[0].loaded == {} && !s.unpairs[0].done
    ensures forall j :: 0 <= j < |run| && run[j].Recv? ==> run[j].env.saved
  {
    var env := Env(0, Some(c), true, false, false, None);
    run := [OpenWindow(secret, 0, 1)];
    Opened(crypto, secret);
    Next({}, crypto, run, UnpairLoads);
    var s := After({}, crypto, run + [UnpairLoads]);
    run := run + [UnpairLoads];
    assert s.d == Daemon(CLEAN, Arm(secret, 0, 1), Pins({}, {})) && |s.unpairs| == 1;
    assert s.unpairs[0].loaded == {} && !s.unpairs[0].done;
    Receives({}, crypto, run, Connect(key, nonce, pair), env);
    Admits(s.d, crypto, key, nonce, pair, env);
    run := run + [Recv(Connect(key, nonce, pair), env)];
    Receives({}, crypto, run, Proof(sig), env);
    run := run + [Recv(Proof(sig), env)];
  }

  /** A key that was saved, and authenticated, is lost from the file when an unpairing of another key read
      it before and writes it after. */
  lemma SavedKeyLost(crypto: Crypto, secret: string, key: string, nonce: string, pair: string,
                     c: string, sig: string, other: string) returns (run: seq<Event>)
    requires key != "" && other != key && crypto.enrolls(secret, key, nonce, pair) && crypto.signed(key, c, sig)
    ensures var d := After({}, crypto, run).d;
            d.loop.authed && d.loop.authPub == key && key !in d.pins.disk
    ensures forall j :: 0 <= j < |run| && run[j].Recv? ==> run[j].env.saved
  {
    run := EnrolledMeanwhile(crypto, secret, key, nonce, pair, c, sig);
    var e := UnpairWrites(0, other, true);
    Next({}, crypto, run, e);
    StepPins(After({}, crypto, run), crypto, |run|, e);
    run := run + [e];
  }
}
