/** The replies of the attach machine: what the client is told about each attempt, and when. */
module AttachLog {
  import opened Base
  import opened AttachMachine
  import opened AttachInvariant
  import opened AttachSteps

  /** The replies of one kind about one attempt, in the order they were sent. */
  function Said(log: seq<Reply>, kind: Kind, i: nat): seq<Reply> {
    if log == [] then []
    else
      var last := log[|log| - 1];
      Said(log[..|log| - 1], kind, i) + if About(last) == Some((kind, i)) then [last] else []
  }

  lemma SaidMore(log: seq<Reply>, r: Reply, kind: Kind, i: nat)
    ensures Said(log + [r], kind, i) == Said(log, kind, i) + if About(r) == Some((kind, i)) then [r] else []
  {
    assert (log + [r])[..|log|] == log;
  }

  ghost predicate LogOk(s: State, kind: Kind, i: nat) {
    Said(s.log, kind, i) == if i < |s.attempts| then Due(s.attempts[i], kind, i) else []
  }

  ghost predicate LogInv(s: State) {
    forall kind, i :: LogOk(s, kind, i)
  }

  lemma StepKeepsLog(s: State, e: Event)
    requires Inv(s) && LogInv(s) && Enabled(s, e)
    ensures LogInv(Step(s, e))
  {
    StepKeeps(s, e);
    SpokenKeepsLog(s, Step(s, e), Moved(s, e));
  }

  lemma SpokenKeepsLog(s: State, s': State, moved: nat)
    requires LogInv(s) && Moves(s, s', moved)
    ensures LogInv(s')
  {
    forall kind, i: nat ensures LogOk(s', kind, i) {
      SpokenLogOk(s, s', moved, kind, i);
    }
  }

  /** What is due about attempt i, which may not exist yet. */
  function DueOf(s: State, kind: Kind, i: nat): seq<Reply> {
    if i < |s.attempts| then Due(s.attempts[i], kind, i) else []
  }

  /** What a step said about attempt i, in this part. */
  function News(s: State, s': State, kind: Kind, i: nat): seq<Reply> {
    if |s'.log| == |s.log| + 1 && About(s'.log[|s.log|]) == Some((kind, i)) then [s'.log[|s.log|]] else []
  }

  lemma DueOfMoved(s: State, s': State, kind: Kind, i: nat)
    requires i < |s.attempts| && Speaks(s, s', i)
    ensures DueOf(s', kind, i) == DueOf(s, kind, i) + News(s, s', kind, i)
  {
  }

  lemma DueOfOther(s: State, s': State, moved: nat, kind: Kind, i: nat)
    requires Moves(s, s', moved) && i != moved
    ensures DueOf(s', kind, i) == DueOf(s, kind, i) && News(s, s', kind, i) == []
  {
    if i < |s.attempts| {
      assert Ages(s.attempts[i], s'.attempts[i]);
    }
  }

  lemma DueOfNew(s: State, s': State, moved: nat, kind: Kind)
    requires Moves(s, s', moved) && moved >= |s.attempts|
    ensures DueOf(s', kind, moved) == [] && News(s, s', kind, moved) == []
  {
  }

  lemma SpokenLogOk(s: State, s': State, moved: nat, kind: Kind, i: nat)
    requires LogOk(s, kind, i) && Moves(s, s', moved)
    ensures LogOk(s', kind, i)
  {
    if i != moved {
      DueOfOther(s, s', moved, kind, i);
    } else if i < |s.attempts| {
      DueOfMoved(s, s', kind, i);
    } else {
      DueOfNew(s, s', moved, kind);
    }
    LogGrows(s, s', moved, kind, i);
  }

  lemma LogGrows(s: State, s': State, moved: nat, kind: Kind, i: nat)
    requires Speaks(s, s', moved)
    ensures Said(s'.log, kind, i) == Said(s.log, kind, i) + News(s, s', kind, i)
  {
    if |s'.log| > |s.log| {
      SaidMore(s.log, s'.log[|s.log|], kind, i);
    }
  }

  lemma {:induction false} ReachableLog(threads: nat, run: seq<Event>)
    requires After(threads, run).Some?
    ensures Inv(After(threads, run).value) && LogInv(After(threads, run).value)
  {
    ReachableInv(threads, run);
    if run != [] {
      var before := run[..|run| - 1];
      ReachableLog(threads, before);
      StepKeepsLog(After(threads, before).value, run[|run| - 1]);
    }
  }
}
