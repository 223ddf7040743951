// The kayak runner object and the two-phase commit coordinator it drives
// (kayak/twopc_runner.go, twopc/twopc.go, kayak/boltdb_store.go).

module KayakRunner {
  import opened Common
  import opened KayakLog
  import opened KayakNode
  import opened KayakCluster

  class TwoPCRunner {
    const digest: Digest
    var logs: map<uint64, Log>
    var committedIndex: uint64
    var storedTerm: uint64
    var currentTerm: uint64
    var lastLogIndex: uint64
    var lastLogTerm: uint64
    var lastLogHash: Option<Hash>
    var currentState: Phase

    ghost function State(): NodeState
      reads this
    {
      NodeState(logs, committedIndex, storedTerm, currentTerm, lastLogIndex, lastLogTerm, lastLogHash, currentState)
    }

    constructor (digest: Digest)
      ensures State() == FRESH && this.digest == digest
    {
      this.digest := digest;
      logs := map[];
      committedIndex, storedTerm, currentTerm := 0, 0, 0;
      lastLogIndex, lastLogTerm, lastLogHash, currentState := 0, 0, None, Idle;
    }

    // Deletes an inclusive range of entries by moving a cursor upwards from min; the bolt
    // transaction either completes or changes nothing.
    method DeleteRange(min: uint64, max: uint64, ok: bool)
      modifies this`logs
      ensures logs == if ok then Without(old(logs), min, max) else old(logs)
    {
      if !ok { return; }
      var rest := set k | k in logs && min <= k;
      while rest != {}
        invariant rest <= logs.Keys
        invariant forall k :: k in rest ==> min <= k
        invariant forall k :: k in logs ==> k in old(logs) && logs[k] == old(logs)[k]
        invariant forall k :: k in old(logs) && k !in logs ==> min <= k <= max
        invariant forall k :: k in logs && min <= k && k !in rest ==> k > max
        decreases rest
      {
        MinExists(rest);
        var k: uint64 :| k in rest && IsBottom(rest, k);
        if k > max { break; }
        logs := logs - {k};
        rest := rest - {k};
      }
      assert logs == Without(old(logs), min, max);
    }

    method ProcessPrepare(log: Option<Log>, io: Io) returns (r: Outcome)
      modifies this
      ensures (State(), r) == PrepareStep(digest, old(State()), log, io)
    {
      if log.None? || !VerifyHash(digest, log.value) { return Err(InvalidLog); }
      if !io.lastIndex { return Err(IoFailure); }
      var l := log.value;
      var last := LastIndex(logs);
      if last >= l.index { return Ok; }
      if l.lastHash.Some? && last == 0 { return Err(InvalidLog); }
      if last > 0 {
        if !io.getLog { return Err(IoFailure); }
        if l.lastHash != Some(logs[last].hash) { return Err(InvalidLog); }
      }
      if !io.prepare { return Err(StorageFailure); }
      if !io.storeLog { return Err(IoFailure); }
      logs := logs[l.index := l];
      currentState := Prepared;
      return Ok;
    }

    method ProcessCommit(log: Option<Log>, io: Io) returns (r: Outcome)
      modifies this
      ensures (State(), r) == CommitStep(digest, old(State()), log, io)
    {
      if currentState != Prepared { return Err(InvalidRequest); }
      if log.None? || !VerifyHash(digest, log.value) { return Err(InvalidLog); }
      if !io.lastIndex { return Err(IoFailure); }
      var l := log.value;
      if LastIndex(logs) < l.index { return Err(InvalidLog); }
      if Next(lastLogIndex) != l.index { return Err(InvalidLog); }
      if !io.getLog { return Err(IoFailure); }
      if l.index !in logs { return Err(NotFound); }
      var lastLog := logs[l.index];
      r := if io.commit then Ok else Err(StorageFailure);
      if io.stableStore { committedIndex := l.index; }
      lastLogHash := Some(lastLog.hash);
      lastLogIndex := lastLog.index;
      lastLogTerm := lastLog.term;
      currentState := Idle;
    }

    method ProcessRollback(log: Option<Log>, io: Io) returns (r: Outcome)
      modifies this
      ensures (State(), r) == RollbackStep(digest, old(State()), log, io)
    {
      if currentState != Prepared { return Err(InvalidRequest); }
      if log.None? || !VerifyHash(digest, log.value) { return Err(InvalidLog); }
      if !io.lastIndex { return Err(IoFailure); }
      var l := log.value;
      if LastIndex(logs) < l.index { return Ok; }
      if Next(lastLogIndex) != l.index { return Err(InvalidLog); }
      if !io.getLog { return Err(IoFailure); }
      if l.index !in logs { return Err(NotFound); }
      if !io.rollback { return Err(StorageFailure); }
      DeleteRange(Next(lastLogIndex), l.index, io.deleteRange);
      currentState := Idle;
      return Ok;
    }

    // The hooks the leader hangs into the coordinator.

    method PrepareLocally(l: Log, io: Io) returns (r: Outcome)
      modifies this
      ensures (State(), r) == LocalPrepare(old(State()), l, io)
    {
      if !io.prepare { return Err(StorageFailure); }
      if !io.storeLog { return Err(IoFailure); }
      logs := logs[l.index := l];
      return Ok;
    }

    method RollBackLocally(l: Log, io: Io)
      modifies this
      ensures State() == LocalRollback(old(State()), l, io)
    {
      DeleteRange(Next(lastLogIndex), l.index, io.deleteRange);
    }

    method CommitLocally(l: Log, io: Io) returns (r: Outcome)
      modifies this
      ensures (State(), r) == LocalCommit(old(State()), l, io)
    {
      r := if io.commit then Ok else Err(StorageFailure);
      if io.stableStore { committedIndex := l.index; }
      lastLogHash := Some(l.hash);
      lastLogIndex := l.index;
      lastLogTerm := l.term;
    }

    method TryRestore(peersTerm: uint64, io: Io) returns (r: Outcome)
      modifies this
      ensures r == RestartStep(old(State()), peersTerm, io).1
      ensures r.Ok? ==> State() == RestartStep(old(State()), peersTerm, io).0
      // a failed start leaves the committed entries on disk for the next attempt
      ensures r.Err? ==> committedIndex == old(committedIndex) && storedTerm == old(storedTerm)
      ensures forall k :: k in old(logs) && k <= committedIndex ==> k in logs && logs[k] == old(logs)[k]
    {
      currentState := Idle;
      if peersTerm < storedTerm { return Err(InvalidConfig); }
      var lastCommitted := committedIndex;
      var term := 0;
      var head: Option<Hash> := None;
      if lastCommitted > 0 {
        if !io.getLog { return Err(IoFailure); }
        if lastCommitted !in logs { return Err(NotFound); }
        term := logs[lastCommitted].term;
        head := Some(logs[lastCommitted].hash);
      }
      if peersTerm < term { return Err(InvalidConfig); }
      if lastCommitted > 0 && logs[lastCommitted].index != lastCommitted { return Err(InvalidLog); }
      if !io.lastIndex { return Err(IoFailure); }
      var lastIndex := LastIndex(logs);
      if lastIndex > lastCommitted {
        DeleteRange(lastCommitted + 1, lastIndex, io.deleteRange);
      }
      currentTerm := peersTerm;
      lastLogTerm := term;
      lastLogIndex := lastCommitted;
      lastLogHash := head;
      if !io.stableStore { return Err(IoFailure); }
      storedTerm := peersTerm;
      return Ok;
    }
  }

  predicate IsBottom(keys: set<uint64>, m: uint64) {
    m in keys && forall k :: k in keys ==> m <= k
  }

  lemma {:induction false} MinExists(keys: set<uint64>)
    requires keys != {}
    ensures exists m: uint64 :: IsBottom(keys, m)
    decreases |keys|
  {
    var k :| k in keys;
    var rest := keys - {k};
    assert forall j :: j in keys ==> j == k || j in rest;
    if rest == {} {
      assert IsBottom(keys, k);
    } else {
      MinExists(rest);
      var m: uint64 :| IsBottom(rest, m);
      assert IsBottom(keys, if k < m then k else m);
    }
  }

  // ----- Coordinator.Put -----

  // One remote call: whether the request arrives, whether its answer does, and how the calls
  // the handler makes turn out.
  datatype Link = Link(delivered: bool, answered: bool, io: Io)

  ghost function States(workers: seq<TwoPCRunner>): (states: seq<NodeState>)
    reads workers
    ensures |states| == |workers|
    ensures forall i :: 0 <= i < |workers| ==> states[i] == workers[i].State()
  {
    if workers == [] then [] else States(workers[..|workers| - 1]) + [workers[|workers| - 1].State()]
  }

  ghost predicate Distinct(leader: TwoPCRunner, workers: seq<TwoPCRunner>) {
    && (forall i :: 0 <= i < |workers| ==> workers[i] != leader && workers[i].digest == leader.digest)
    && (forall i, j :: 0 <= i < j < |workers| ==> workers[i] != workers[j])
  }

  // The events of one phase, in worker order.

  function PrepareEvents(links: seq<Link>): seq<Event> {
    if links == [] then [] else
    var k := |links| - 1;
    PrepareEvents(links[..k]) + [AskPrepare(k, links[k].delivered, links[k].answered, links[k].io)]
  }

  lemma PrepareEventsEnds(links: seq<Link>)
    ensures PrepareEvents(links[..0]) == [] && links[..|links|] == links
  {
  }

  lemma PrepareEventsSnoc(links: seq<Link>, k: nat)
    requires k < |links|
    ensures PrepareEvents(links[..k + 1]) ==
            PrepareEvents(links[..k]) + [AskPrepare(k, links[k].delivered, links[k].answered, links[k].io)]
  {
    assert links[..k + 1][..k] == links[..k];
  }

  function CommitEvents(links: seq<Link>): seq<Event> {
    if links == [] then [] else
    var k := |links| - 1;
    CommitEvents(links[..k]) + [AskCommit(k, links[k].delivered, links[k].io)]
  }

  function RollbackEvents(links: seq<Link>): seq<Event> {
    if links == [] then [] else
    var k := |links| - 1;
    RollbackEvents(links[..k]) + [AskRollback(k, links[k].delivered, links[k].io)]
  }

  predicate AllOk(errs: seq<Outcome>) {
    forall i :: 0 <= i < |errs| ==> errs[i].Ok?
  }

  lemma AllOkNone()
    ensures AllOk([])
  {
  }

  lemma AllOkSnoc(errs: seq<Outcome>, r: Outcome)
    ensures AllOk(errs + [r]) <==> AllOk(errs) && r.Ok?
  {
    if AllOk(errs + [r]) {
      assert (errs + [r])[|errs|] == r;
      forall i | 0 <= i < |errs| ensures errs[i].Ok? { assert (errs + [r])[i] == errs[i]; }
    }
  }

  lemma StatesUpdate(old_: seq<NodeState>, new_: seq<NodeState>, k: nat)
    requires k < |old_| == |new_| && forall i :: 0 <= i < |old_| && i != k ==> old_[i] == new_[i]
    ensures new_ == old_[k := new_[k]]
  {
  }

  // What the leader learns from a Prepare call; one that does not get through, or whose answer
  // does not, counts as failed.
  function Reply(digest: Digest, f: NodeState, l: Log, link: Link): Outcome {
    if link.delivered && link.answered then PrepareStep(digest, f, Some(l), link.io).1 else Err(IoFailure)
  }

  // Every worker asked says that it has prepared.
  ghost predicate Unanimous(digest: Digest, followers: seq<NodeState>, l: Log, links: seq<Link>) {
    |links| <= |followers| && forall k :: 0 <= k < |links| ==> Reply(digest, followers[k], l, links[k]).Ok?
  }

  method CallPrepare(ghost leader: TwoPCRunner, workers: seq<TwoPCRunner>, k: nat, l: Log, link: Link,
                     ghost c: Cluster, ghost before: seq<Event>, ghost stage: Stage)
    returns (r: Outcome, ghost events: seq<Event>)
    requires Distinct(leader, workers) && k < |workers|
    requires stage.Preparing? && stage.l == l && k in stage.waiting
    requires Leads(leader.digest, c, before, Cluster(leader.State(), States(workers), stage))
    modifies workers[k]
    ensures events == before + [AskPrepare(k, link.delivered, link.answered, link.io)]
    ensures Leads(leader.digest, c, events,
                  Cluster(leader.State(), States(workers), Preparing(l, stage.waiting - {k}, stage.failed || r.Err?)))
  {
    ghost var d := Cluster(leader.State(), States(workers), stage);
    r := Err(IoFailure);
    if link.delivered {
      var answer := workers[k].ProcessPrepare(Some(l), link.io);
      if link.answered { r := answer; }
    }
    ghost var e := AskPrepare(k, link.delivered, link.answered, link.io);
    StatesUpdate(d.followers, States(workers), k);
    LeadsOn(leader.digest, c, before, d, e);
    events := before + [e];
  }

  method CallCommit(ghost leader: TwoPCRunner, workers: seq<TwoPCRunner>, k: nat, l: Log, link: Link,
                    ghost c: Cluster, ghost before: seq<Event>, ghost stage: Stage)
    returns (r: Outcome, ghost events: seq<Event>)
    requires Distinct(leader, workers) && k < |workers|
    requires stage.Committing? && stage.l == l && k in stage.waiting
    requires Leads(leader.digest, c, before, Cluster(leader.State(), States(workers), stage))
    modifies workers[k]
    ensures events == before + [AskCommit(k, link.delivered, link.io)]
    ensures Leads(leader.digest, c, events,
                  Cluster(leader.State(), States(workers), Committing(l, stage.waiting - {k})))
  {
    ghost var d := Cluster(leader.State(), States(workers), stage);
    r := Err(IoFailure);
    if link.delivered {
      var answer := workers[k].ProcessCommit(Some(l), link.io);
      if link.answered { r := answer; }
    }
    ghost var e := AskCommit(k, link.delivered, link.io);
    StatesUpdate(d.followers, States(workers), k);
    LeadsOn(leader.digest, c, before, d, e);
    events := before + [e];
  }

  method CallRollback(ghost leader: TwoPCRunner, workers: seq<TwoPCRunner>, k: nat, l: Log, link: Link,
                      ghost c: Cluster, ghost before: seq<Event>, ghost stage: Stage)
    returns (r: Outcome, ghost events: seq<Event>)
    requires Distinct(leader, workers) && k < |workers|
    requires stage.RollingBack? && stage.l == l && k in stage.waiting
    requires Leads(leader.digest, c, before, Cluster(leader.State(), States(workers), stage))
    modifies workers[k]
    ensures events == before + [AskRollback(k, link.delivered, link.io)]
    ensures Leads(leader.digest, c, events,
                  Cluster(leader.State(), States(workers), RollingBack(l, stage.waiting - {k})))
  {
    ghost var d := Cluster(leader.State(), States(workers), stage);
    r := Err(IoFailure);
    if link.delivered {
      var answer := workers[k].ProcessRollback(Some(l), link.io);
      if link.answered { r := answer; }
    }
    ghost var e := AskRollback(k, link.delivered, link.io);
    StatesUpdate(d.followers, States(workers), k);
    LeadsOn(leader.digest, c, before, d, e);
    events := before + [e];
  }

  // The workers from the k-th on.
  ghost function Above(k: nat, n: nat): set<nat> {
    Below(n) - Below(k)
  }

  lemma AboveEnds(n: nat)
    ensures Above(0, n) == Below(n) && Above(n, n) == {}
  {
  }

  lemma AboveStep(k: nat, n: nat)
    requires k < n
    ensures k in Above(k, n) && Above(k, n) - {k} == Above(k + 1, n)
  {
  }

  // Phase one: every worker is asked to prepare, whatever the others answer.
  method PrepareAll(ghost leader: TwoPCRunner, workers: seq<TwoPCRunner>, l: Log, links: seq<Link>,
                    ghost c: Cluster, ghost before: seq<Event>)
    returns (errs: seq<Outcome>, ghost events: seq<Event>)
    requires Distinct(leader, workers) && |links| == |workers|
    requires Leads(leader.digest, c, before,
                   Cluster(leader.State(), States(workers), Preparing(l, Below(|workers|), false)))
    modifies workers
    ensures events == before + PrepareEvents(links)
    ensures |errs| == |workers|
    ensures Leads(leader.digest, c, events,
                  Cluster(leader.State(), States(workers), Preparing(l, {}, !AllOk(errs))))
  {
    hide Leads, Distinct, Above, AllOk, PrepareEvents;
    PrepareEventsEnds(links);
    AllOkNone();
    AboveEnds(|workers|);
    events := before;
    errs := [];
    ghost var waiting := Below(|workers|);
    for k := 0 to |workers|
      invariant events == before + PrepareEvents(links[..k])
      invariant |errs| == k
      invariant waiting == Above(k, |workers|)
      invariant Leads(leader.digest, c, events, Cluster(leader.State(), States(workers), Preparing(l, waiting, !AllOk(errs))))
    {
      AboveStep(k, |workers|);
      var r;
      r, events := CallPrepare(leader, workers, k, l, links[k], c, events, Preparing(l, waiting, !AllOk(errs)));
      AllOkSnoc(errs, r);
      PrepareEventsSnoc(links, k);
      waiting := waiting - {k};
      errs := errs + [r];
    }
  }

  // The calls of phase one do not depend on each other: it fails exactly when some worker, as it
  // was before, does not reply with Ok.
  lemma {:induction false} PreparesDecide(digest: Digest, c0: Cluster, before: seq<Event>, c: Cluster, l: Log, links: seq<Link>, k: nat)
    returns (d: Cluster)
    requires Leads(digest, c0, before, c) && c.stage == Preparing(l, Below(|c.followers|), false)
    requires k <= |links| == |c.followers|
    ensures Leads(digest, c0, before + PrepareEvents(links[..k]), d)
    ensures |d.followers| == |c.followers| && forall j :: k <= j < |c.followers| ==> d.followers[j] == c.followers[j]
    ensures d.stage == Preparing(l, Above(k, |c.followers|), !Unanimous(digest, c.followers, l, links[..k]))
    decreases k
  {
    hide Leads, PrepareStep, Above;
    if k == 0 {
      AboveEnds(|c.followers|);
      PrepareEventsEnds(links);
      assert before + [] == before;
      d := c;
    } else {
      var b := PreparesDecide(digest, c0, before, c, l, links, k - 1);
      var link := links[k - 1];
      var e := AskPrepare(k - 1, link.delivered, link.answered, link.io);
      AboveStep(k - 1, |c.followers|);
      LeadsOn(digest, c0, before + PrepareEvents(links[..k - 1]), b, e);
      PrepareEventsSnoc(links, k - 1);
      assert before + PrepareEvents(links[..k - 1]) + [e] == before + PrepareEvents(links[..k]);
      d := After(digest, b, e);
      UnanimousSnoc(digest, c.followers, l, links, k - 1);
    }
  }

  lemma UnanimousSnoc(digest: Digest, followers: seq<NodeState>, l: Log, links: seq<Link>, k: nat)
    requires k < |links| <= |followers|
    ensures Unanimous(digest, followers, l, links[..k + 1]) <==>
            Unanimous(digest, followers, l, links[..k]) && Reply(digest, followers[k], l, links[k]).Ok?
  {
    hide Reply;
    var more := links[..k + 1];
    assert more[k] == links[k] && forall j :: 0 <= j < k ==> more[j] == links[..k][j];
  }

  lemma LeadsOnce(digest: Digest, c: Cluster, events: seq<Event>, d: Cluster, e: Cluster)
    requires Leads(digest, c, events, d) && Leads(digest, c, events, e)
    ensures d == e
  {
  }

  // Phase two, once everyone has prepared. The answers do not change the outcome.
  method CommitAll(ghost leader: TwoPCRunner, workers: seq<TwoPCRunner>, l: Log, links: seq<Link>,
                   ghost c: Cluster, ghost before: seq<Event>)
    returns (errs: seq<Outcome>, ghost events: seq<Event>)
    requires Distinct(leader, workers) && |links| == |workers|
    requires Leads(leader.digest, c, before,
                   Cluster(leader.State(), States(workers), Committing(l, Below(|workers|))))
    modifies workers
    ensures events == before + CommitEvents(links)
    ensures |errs| == |workers|
    ensures Leads(leader.digest, c, events, Cluster(leader.State(), States(workers), Committing(l, {})))
  {
    hide Leads, Distinct, Above;
    AboveEnds(|workers|);
    events := before;
    errs := [];
    ghost var waiting := Below(|workers|);
    for k := 0 to |workers|
      invariant events == before + CommitEvents(links[..k])
      invariant |errs| == k
      invariant waiting == Above(k, |workers|)
      invariant Leads(leader.digest, c, events, Cluster(leader.State(), States(workers), Committing(l, waiting)))
    {
      AboveStep(k, |workers|);
      var r;
      r, events := CallCommit(leader, workers, k, l, links[k], c, events, Committing(l, waiting));
      assert links[..k + 1][..k] == links[..k];
      waiting := waiting - {k};
      errs := errs + [r];
    }
    assert links[..|links|] == links;
  }

  // Phase two after a failure.
  method RollbackAll(ghost leader: TwoPCRunner, workers: seq<TwoPCRunner>, l: Log, links: seq<Link>,
                     ghost c: Cluster, ghost before: seq<Event>)
    returns (errs: seq<Outcome>, ghost events: seq<Event>)
    requires Distinct(leader, workers) && |links| == |workers|
    requires Leads(leader.digest, c, before,
                   Cluster(leader.State(), States(workers), RollingBack(l, Below(|workers|))))
    modifies workers
    ensures events == before + RollbackEvents(links)
    ensures |errs| == |workers|
    ensures Leads(leader.digest, c, events, Cluster(leader.State(), States(workers), RollingBack(l, {})))
  {
    hide Leads, Distinct, Above;
    AboveEnds(|workers|);
    events := before;
    errs := [];
    ghost var waiting := Below(|workers|);
    for k := 0 to |workers|
      invariant events == before + RollbackEvents(links[..k])
      invariant |errs| == k
      invariant waiting == Above(k, |workers|)
      invariant Leads(leader.digest, c, events, Cluster(leader.State(), States(workers), RollingBack(l, waiting)))
    {
      AboveStep(k, |workers|);
      var r;
      r, events := CallRollback(leader, workers, k, l, links[k], c, events, RollingBack(l, waiting));
      assert links[..k + 1][..k] == links[..k];
      waiting := waiting - {k};
      errs := errs + [r];
    }
    assert links[..|links|] == links;
  }

  // The first error among the answers, in worker order.
  method FirstError(errs: seq<Outcome>) returns (r: Outcome)
    ensures r.Ok? <==> AllOk(errs)
    ensures r.Err? ==> exists i :: 0 <= i < |errs| && errs[i] == r && AllOk(errs[..i])
  {
    for i := 0 to |errs|
      invariant AllOk(errs[..i])
    {
      if errs[i].Err? { return errs[i]; }
      assert errs[..i + 1] == errs[..i] + [errs[i]];
    }
    assert errs[..|errs|] == errs;
    return Ok;
  }

  // The commit half of Put: the workers, then the leader, whose answer replaces theirs.
  method CommitRound(leader: TwoPCRunner, workers: seq<TwoPCRunner>, l: Log, links: seq<Link>, io: Io,
                     ghost c: Cluster, ghost before: seq<Event>)
    returns (r: Outcome, ghost events: seq<Event>)
    requires Distinct(leader, workers) && |links| == |workers|
    requires Leads(leader.digest, c, before,
                   Cluster(leader.State(), States(workers), Committing(l, Below(|workers|))))
    modifies leader, workers
    ensures events == before + CommitEvents(links) + [FinishCommit(io)]
    ensures Leads(leader.digest, c, events, Cluster(leader.State(), States(workers), Quiet))
    ensures (leader.State(), r) == LocalCommit(old(leader.State()), l, io)
  {
    var errs;
    errs, events := CommitAll(leader, workers, l, links, c, before);
    ghost var d := Cluster(leader.State(), States(workers), Committing(l, {}));
    r := leader.CommitLocally(l, io);
    LeadsOn(leader.digest, c, events, d, FinishCommit(io));
    events := events + [FinishCommit(io)];
    assert States(workers) == d.followers;
  }

  // The rollback half of Put, once the leader itself has rolled back.
  method RollbackRound(ghost leader: TwoPCRunner, workers: seq<TwoPCRunner>, l: Log, links: seq<Link>,
                       ghost c: Cluster, ghost before: seq<Event>)
    returns (ghost events: seq<Event>)
    requires Distinct(leader, workers) && |links| == |workers|
    requires Leads(leader.digest, c, before,
                   Cluster(leader.State(), States(workers), RollingBack(l, Below(|workers|))))
    modifies workers
    ensures events == before + RollbackEvents(links) + [FinishRollback]
    ensures Leads(leader.digest, c, events, Cluster(leader.State(), States(workers), Quiet))
  {
    var errs;
    errs, events := RollbackAll(leader, workers, l, links, c, before);
    ghost var d := Cluster(leader.State(), States(workers), RollingBack(l, {}));
    LeadsOn(leader.digest, c, events, d, FinishRollback);
    events := events + [FinishRollback];
  }

  lemma PhaseOneFails(digest: Digest, c0: Cluster, before: seq<Event>, c: Cluster, l: Log, links: seq<Link>, d: Cluster)
    requires Leads(digest, c0, before, c) && c.stage == Preparing(l, Below(|c.followers|), false) && |links| == |c.followers|
    requires Leads(digest, c0, before + PrepareEvents(links), d)
    ensures d.stage.Preparing? && (d.stage.failed <==> !Unanimous(digest, c.followers, l, links))
  {
    hide Leads, PrepareEvents, Unanimous;
    var e := PreparesDecide(digest, c0, before, c, l, links, |links|);
    PrepareEventsEnds(links);
    LeadsOnce(digest, c0, before + PrepareEvents(links), d, e);
  }

  // Phase one and the decision: with every worker prepared and the entry stored locally the
  // round goes on to commit; otherwise the leader rolls back first.
  method PhaseOne(leader: TwoPCRunner, workers: seq<TwoPCRunner>, l: Log, links: seq<Link>, io: Io,
                  ghost c: Cluster, ghost before: seq<Event>)
    returns (r: Outcome, ghost events: seq<Event>)
    requires Distinct(leader, workers) && |links| == |workers|
    requires Leads(leader.digest, c, before,
                   Cluster(leader.State(), States(workers), Preparing(l, Below(|workers|), false)))
    modifies leader, workers
    ensures events == before + PrepareEvents(links) + [Decide(io)]
    ensures Leads(leader.digest, c, events,
                  Cluster(leader.State(), States(workers),
                          if r.Ok? then Committing(l, Below(|workers|)) else RollingBack(l, Below(|workers|))))
    ensures r.Ok? ==> (leader.State(), r) == LocalPrepare(old(leader.State()), l, io)
    ensures leader.lastLogIndex == old(leader.lastLogIndex)
    ensures r.Ok? <==> Unanimous(leader.digest, old(States(workers)), l, links) && LocalPrepare(old(leader.State()), l, io).1.Ok?
  {
    hide Leads, PrepareEvents, AllOk, Unanimous;
    ghost var start := Cluster(leader.State(), States(workers), Preparing(l, Below(|workers|), false));
    var errs;
    errs, events := PrepareAll(leader, workers, l, links, c, before);
    ghost var d := Cluster(leader.State(), States(workers), Preparing(l, {}, !AllOk(errs)));
    PhaseOneFails(leader.digest, c, before, start, l, links, d);
    LeadsOn(leader.digest, c, events, d, Decide(io));
    events := events + [Decide(io)];
    r := FirstError(errs);
    if r.Ok? {
      r := leader.PrepareLocally(l, io);
    }
    if r.Err? {
      leader.RollBackLocally(l, io);
    }
    assert States(workers) == d.followers;
  }

  // What one round adds to a run, given how its calls turn out and whether it ends in a commit.
  function RoundEvents(before: seq<Event>, first: seq<Link>, second: seq<Link>, io: Io, committed: bool): seq<Event> {
    if committed then before + PrepareEvents(first) + [Decide(io)] + CommitEvents(second) + [FinishCommit(io)]
    else before + PrepareEvents(first) + [Decide(io)] + RollbackEvents(second) + [FinishRollback]
  }

  // Coordinator.Put: prepare everywhere, then commit everywhere or roll back everywhere.
  method Put(leader: TwoPCRunner, workers: seq<TwoPCRunner>, l: Log, first: seq<Link>, second: seq<Link>, io: Io,
             ghost c: Cluster, ghost before: seq<Event>)
    returns (r: Outcome, ghost committed: bool)
    requires Distinct(leader, workers) && |first| == |second| == |workers|
    requires Leads(leader.digest, c, before,
                   Cluster(leader.State(), States(workers), Preparing(l, Below(|workers|), false)))
    modifies leader, workers
    ensures Leads(leader.digest, c, RoundEvents(before, first, second, io, committed),
                  Cluster(leader.State(), States(workers), Quiet))
    ensures committed <==> Unanimous(leader.digest, old(States(workers)), l, first) && LocalPrepare(old(leader.State()), l, io).1.Ok?
    ensures committed ==> && (leader.State(), r) == LocalCommit(LocalPrepare(old(leader.State()), l, io).0, l, io)
    ensures !committed ==> r.Err? && leader.lastLogIndex == old(leader.lastLogIndex)
  {
    ghost var events;
    r, events := PhaseOne(leader, workers, l, first, io, c, before);
    committed := r.Ok?;
    if r.Ok? {
      r, events := CommitRound(leader, workers, l, second, io, c, events);
    } else {
      events := RollbackRound(leader, workers, l, second, c, events);
    }
  }

  // Applies one payload. What happens to the cluster is the run of the transition system that
  // the calls' fates prescribe; success means that the leader has committed the payload.
  method ProcessNewLog(leader: TwoPCRunner, workers: seq<TwoPCRunner>, data: Payload,
                       first: seq<Link>, second: seq<Link>, io: Io)
    returns (r: Outcome, ghost committed: bool)
    requires Distinct(leader, workers) && |first| == |second| == |workers|
    requires leader.lastLogIndex + 1 < MAX_UINT64
    modifies leader, workers
    ensures Leads(leader.digest, old(Cluster(leader.State(), States(workers), Quiet)),
                  RoundEvents([Begin(data)], first, second, io, committed),
                  Cluster(leader.State(), States(workers), Quiet))
    ensures committed <==> Unanimous(leader.digest, old(States(workers)), NewLog(leader.digest, old(leader.State()), data), first)
                           && io.prepare && io.storeLog
    ensures r.Ok? <==> committed && io.commit
    ensures !committed ==> leader.lastLogIndex == old(leader.lastLogIndex)
    ensures committed ==>
              && leader.lastLogIndex == old(leader.lastLogIndex) + 1
              && leader.lastLogIndex in leader.logs
              && leader.logs[leader.lastLogIndex] == NewLog(leader.digest, old(leader.State()), data)
  {
    ghost var c := Cluster(leader.State(), States(workers), Quiet);
    var l := Sealed(leader.digest, Next(leader.lastLogIndex), leader.currentTerm, data, leader.lastLogHash);
    LeadsOn(leader.digest, c, [], c, Begin(data));
    assert [] + [Begin(data)] == [Begin(data)];
    r, committed := Put(leader, workers, l, first, second, io, c, [Begin(data)]);
  }
}
