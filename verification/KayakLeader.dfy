// The log of a leader, told from its rounds and starts alone (kayak/twopc_runner.go).

module KayakLeader {
  import opened Common
  import opened KayakLog
  import opened KayakNode

  datatype Write = Write(data: Payload, term: uint64)

  function Writes(log: seq<Log>): (ws: seq<Write>)
    ensures |ws| == |log|
  {
    seq(|log|, i requires 0 <= i < |log| => Write(log[i].data, log[i].term))
  }

  // Everyone prepared, and so did the leader itself.
  predicate Goes(prepared: bool, io: Io) {
    prepared && io.prepare && io.storeLog
  }

  // What a run writes: the payloads of the rounds that go, each under the term of the last start.
  function Applied(term: uint64, steps: seq<Step>): seq<Write>
    decreases |steps|
  {
    if steps == [] then [] else
    match steps[0]
    case Handle(_, _) => Applied(term, steps[1..])
    case Round(data, prepared, io) => (if Goes(prepared, io) then [Write(data, term)] else []) + Applied(term, steps[1..])
    case Restart(peersTerm, _) => Applied(peersTerm, steps[1..])
  }

  // One round: it commits exactly when it goes, reports success exactly when the worker applies
  // the batch as well, and otherwise leaves nothing in its slot that can be deleted.
  lemma RoundIff(digest: Digest, s: NodeState, data: Payload, prepared: bool, io: Io)
    requires Safe(digest, s) && io.stableStore && s.index < MAX_UINT64
    ensures var (t, r) := RoundStep(digest, s, data, prepared, io);
            && Safe(digest, t) && t.term == s.term && t.persistedTerm == s.persistedTerm
            && Writes(Committed(t)) == Writes(Committed(s)) + (if Goes(prepared, io) then [Write(data, s.term)] else [])
            && (r.Ok? <==> Goes(prepared, io) && io.commit)
            && (!Goes(prepared, io) && io.deleteRange ==> t == s.(store := s.store - {s.index + 1}))
  {
    hide VerifyHash;
    var l := NewLog(digest, s, data);
    var s1 := LocalPrepare(s, l, io).0;
    RoundSafe(digest, s, data, prepared, io);
    if Goes(prepared, io) {
      LocalPrepareSafe(digest, s, l, io);
      LocalCommitSafe(digest, s1, l, io);
    } else {
      LocalRollbackSafe(digest, s, l, io);
      assert s1 == s || !prepared;
      if io.deleteRange { assert LocalRollback(s, l, io).store == s.store - {s.index + 1}; }
    }
  }

  lemma StepWrites(digest: Digest, s: NodeState, step: Step)
    requires Safe(digest, s) && Possible(digest, s, step) && !step.Handle?
    ensures var t := Apply(digest, s, step).0;
            && Safe(digest, t) && t.term == (if step.Restart? then step.peersTerm else s.term)
            && Writes(Committed(t)) == Writes(Committed(s)) +
               (if step.Round? && Goes(step.prepared, step.io) then [Write(step.data, s.term)] else [])
  {
    hide Safe, RoundStep, RestartStep, Goes;
    match step
    case Round(data, prepared, io) => RoundIff(digest, s, data, prepared, io);
    case Restart(peersTerm, io) => RestartSafe(digest, s, peersTerm, io); RestartTerm(s, peersTerm, io);
  }

  lemma RestartTerm(s: NodeState, peersTerm: uint64, io: Io)
    requires RestartStep(s, peersTerm, io).1.Ok?
    ensures RestartStep(s, peersTerm, io).0.term == peersTerm
  {
  }

  // The committed log of a node that leads is exactly what its rounds wrote, in that order and
  // under the terms of its starts, whatever failed in between.
  lemma {:induction false} LeaderLogIs(digest: Digest, s: NodeState, steps: seq<Step>)
    requires Safe(digest, s) && PossibleRun(digest, s, steps) && forall i :: 0 <= i < |steps| ==> !steps[i].Handle?
    ensures Safe(digest, Run(digest, s, steps))
    ensures Writes(Committed(Run(digest, s, steps))) == Writes(Committed(s)) + Applied(s.term, steps)
    decreases |steps|
  {
    hide Safe, Apply, Goes, Writes;
    if steps != [] {
      StepWrites(digest, s, steps[0]);
      LeaderLogIs(digest, Apply(digest, s, steps[0]).0, steps[1..]);
    }
  }

  // From the first start on.
  lemma LeaderLogFromStart(digest: Digest, steps: seq<Step>)
    requires PossibleRun(digest, FRESH, steps) && forall i :: 0 <= i < |steps| ==> !steps[i].Handle?
    ensures var s := Run(digest, FRESH, steps);
            Safe(digest, s) && Writes(Committed(s)) == Applied(0, steps)
  {
    FreshIsSafe(digest);
    LeaderLogIs(digest, FRESH, steps);
  }

  // ----- terms -----

  // The term in use is the one on disk.
  lemma StepTerm(digest: Digest, s: NodeState, step: Step)
    requires Possible(digest, s, step) && s.term == s.persistedTerm
    ensures var t := Apply(digest, s, step).0;
            s.term <= t.term == t.persistedTerm && t.term == if step.Restart? then step.peersTerm else s.term
  {
    hide VerifyHash, Sealed;
  }

  // In any run the term never goes back, so no start under an older term ever succeeds.
  lemma {:induction false} TermsRise(digest: Digest, s: NodeState, steps: seq<Step>)
    requires PossibleRun(digest, s, steps) && s.term == s.persistedTerm
    ensures s.term <= Run(digest, s, steps).term == Run(digest, s, steps).persistedTerm
    ensures forall i :: 0 <= i < |steps| && steps[i].Restart? ==> s.term <= steps[i].peersTerm <= Run(digest, s, steps).term
    decreases |steps|
  {
    hide Apply, Possible;
    if steps != [] {
      var t := Apply(digest, s, steps[0]).0;
      StepTerm(digest, s, steps[0]);
      TermsRise(digest, t, steps[1..]);
      forall i | 0 < i < |steps| && steps[i].Restart? ensures s.term <= steps[i].peersTerm <= Run(digest, s, steps).term {
        assert steps[1..][i - 1] == steps[i];
      }
    }
  }

  ghost predicate Ordered(ws: seq<Write>, term: uint64) {
    && (forall i, j :: 0 <= i < j < |ws| ==> ws[i].term <= ws[j].term)
    && (forall i :: 0 <= i < |ws| ==> ws[i].term <= term)
  }

  // And along the log of a leader the terms never fall.
  lemma {:induction false} LogTermsRise(digest: Digest, s: NodeState, steps: seq<Step>)
    requires Safe(digest, s) && PossibleRun(digest, s, steps) && forall i :: 0 <= i < |steps| ==> !steps[i].Handle?
    requires s.term == s.persistedTerm && Ordered(Writes(Committed(s)), s.term)
    ensures var t := Run(digest, s, steps); Safe(digest, t) && Ordered(Writes(Committed(t)), t.term)
    decreases |steps|
  {
    hide Safe, Apply, Goes, Writes;
    if steps != [] {
      var t := Apply(digest, s, steps[0]).0;
      StepTerm(digest, s, steps[0]);
      StepWrites(digest, s, steps[0]);
      LogTermsRise(digest, t, steps[1..]);
    }
  }
}
