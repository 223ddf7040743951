// What the answer of a handler tells the leader, and when it is given (kayak/twopc_runner.go).

module KayakAnswers {
  import opened Common
  import opened KayakLog
  import opened KayakNode
  import opened KayakChain

  // The entry can go behind what is stored.
  predicate Extends(store: map<uint64, Log>, l: Log) {
    l.lastHash == Top(store)
  }

  // A follower answers a Prepare with Ok exactly for a correct entry that it has something stored
  // for already, or that extends its store and gets through the storage worker and the log store.
  lemma PreparedIff(digest: Digest, s: NodeState, log: Option<Log>, io: Io)
    requires Safe(digest, s)
    ensures PrepareStep(digest, s, log, io).1.Ok? <==>
            && log.Some? && VerifyHash(digest, log.value) && io.lastIndex
            && (|| LastIndex(s.store) >= log.value.index
                || (Extends(s.store, log.value) && (s.store == map[] || io.getLog) && io.prepare && io.storeLog))
  {
    hide VerifyHash;
    if s.store != map[] {
      assert LastIndex(s.store) in s.store;
    }
  }

  // So Ok means that the store has an entry as recent as the one asked about. What is new is that
  // entry alone, and it comes with the storage worker's consent.
  lemma PreparedMeansStored(digest: Digest, s: NodeState, log: Option<Log>, io: Io)
    ensures var (t, r) := PrepareStep(digest, s, log, io);
            && (r.Ok? ==> log.Some? && LastIndex(t.store) >= log.value.index)
            && (t == s || (r.Ok? && io.prepare && io.storeLog && t.phase == Prepared
                           && LastIndex(s.store) < log.value.index == LastIndex(t.store)
                           && t == s.(store := s.store[log.value.index := log.value], phase := Prepared)))
  {
    hide VerifyHash;
    var (t, r) := PrepareStep(digest, s, log, io);
    if r.Ok? && LastIndex(s.store) < log.value.index {
      LastIndexIs(t.store, log.value.index);
    }
  }

  // A Commit takes effect exactly on the entry stored right behind the commit position, while
  // the node is prepared; then it is what the node has committed last, whatever the worker says.
  lemma CommittedIff(digest: Digest, s: NodeState, log: Option<Log>, io: Io)
    requires Safe(digest, s)
    ensures var (t, r) := CommitStep(digest, s, log, io);
            var took := s.phase == Prepared && log.Some? && VerifyHash(digest, log.value) && log.value.index == s.index + 1
                        && log.value.index in s.store && io.lastIndex && io.getLog;
            && (took ==> && t.index == s.index + 1 && t.store == s.store && t.head == Some(s.store[t.index].hash)
                         && t.lastTerm == s.store[t.index].term && t.phase == Idle && t.term == s.term
                         && (io.stableStore ==> t.persisted == t.index))
            && (!took ==> t == s)
            && (r.Ok? <==> took && io.commit)
  {
    hide VerifyHash;
  }

  // A Rollback is answered with Ok exactly when there is nothing to take back, or the entry behind
  // the commit position goes. Then nothing is stored there, unless the deletion failed.
  lemma RolledBackIff(digest: Digest, s: NodeState, log: Option<Log>, io: Io)
    requires Safe(digest, s)
    ensures var (t, r) := RollbackStep(digest, s, log, io);
            && (r.Ok? <==> && s.phase == Prepared && log.Some? && VerifyHash(digest, log.value) && io.lastIndex
                           && (|| LastIndex(s.store) < log.value.index
                               || (log.value.index == s.index + 1 && log.value.index in s.store && io.getLog && io.rollback)))
            && (r.Ok? && io.deleteRange ==> t.store == s.store - {log.value.index})
            && (r.Ok? && log.value.index in s.store ==> t == s.(store := t.store, phase := Idle))
            && (r.Err? || log.value.index !in s.store ==> t == s)
  {
    hide VerifyHash;
    var t := RollbackStep(digest, s, log, io).0;
    if RollbackStep(digest, s, log, io).1.Ok? && io.deleteRange {
      assert t.store == s.store - {log.value.index};
    }
  }

  // Rolling back what was just prepared behind the commit position gives the node back.
  lemma RollbackUndoesPrepare(digest: Digest, s: NodeState, log: Option<Log>, io: Io)
    requires Safe(digest, s) && PrepareStep(digest, s, log, io).0 != s && log.value.index == s.index + 1
    ensures var t := PrepareStep(digest, s, log, io).0;
            RollbackStep(digest, t, log, WORKING) == (s.(phase := Idle), Ok)
  {
    var t := PrepareStep(digest, s, log, io).0;
    PrepareSafe(digest, s, log, io);
    PreparedMeansStored(digest, s, log, io);
    RolledBackIff(digest, t, log, WORKING);
    assert t.store - {log.value.index} == s.store;
  }

  // Requests from anyone but the leader, and unknown ones, are refused and change nothing.
  predicate Stray(step: Step) {
    step.Handle? && (!step.req.fromLeader || step.req.call.Unknown?)
  }

  lemma {:induction false} StraysChangeNothing(digest: Digest, s: NodeState, steps: seq<Step>)
    requires forall i :: 0 <= i < |steps| ==> Stray(steps[i])
    ensures Run(digest, s, steps) == s && forall i :: 0 <= i < |steps| ==> Apply(digest, s, steps[i]).1.Err?
    decreases |steps|
  {
    if steps != [] {
      assert Stray(steps[0]);
      StraysChangeNothing(digest, s, steps[1..]);
      forall i | 0 <= i < |steps| ensures Apply(digest, s, steps[i]).1.Err? { assert Stray(steps[i]); }
    }
  }
}
