// The law of two-phase commit: nobody commits before everybody has prepared, and a round is
// committed everywhere or leaves no trace (twopc/twopc.go, kayak/twopc_runner.go).

module KayakAtomic {
  import opened Common
  import opened KayakLog
  import opened KayakNode
  import opened KayakChain
  import opened KayakAnswers
  import opened KayakCluster
  import opened KayakRounds

  // ----- nobody commits before everybody has prepared -----

  // Something as recent as the entry is stored.
  ghost predicate Has(f: NodeState, l: Log) {
    LastIndex(f.store) >= l.index
  }

  // Who has been asked and did not refuse has it; once the leader commits, everyone does.
  ghost predicate Secured(c: Cluster) {
    match c.stage
    case Preparing(l, waiting, failed) => failed || forall i :: 0 <= i < |c.followers| && i !in waiting ==> Has(c.followers[i], l)
    case Committing(l, _) => forall i :: 0 <= i < |c.followers| ==> Has(c.followers[i], l)
    case _ => true
  }

  lemma StepSecured(digest: Digest, c: Cluster, e: Event)
    requires Secured(c) && Enabled(digest, c, e) && (e.RestartFollower? ==> c.stage.Quiet?)
    ensures Secured(After(digest, c, e))
  {
    hide VerifyHash, PrepareStep, RollbackStep, RestartStep, LocalPrepare, LocalRollback, LocalCommit;
    match e
    case AskPrepare(i, _, _, io) => PreparedMeansStored(digest, c.followers[i], Some(c.stage.l), io);
    case _ =>
  }

  // Followers restart between rounds only.
  ghost predicate QuietRestarts(digest: Digest, c: Cluster, events: seq<Event>)
    requires EnabledRun(digest, c, events)
    decreases |events|
  {
    events == [] ||
    ((events[0].RestartFollower? ==> c.stage.Quiet?) && QuietRestarts(digest, After(digest, c, events[0]), events[1..]))
  }

  // In every run, lost calls and failing stores included: while the leader commits an entry, every
  // follower has something stored at its index, so no follower can miss it for want of a Prepare.
  lemma {:induction false} CommitsOnlyPrepared(digest: Digest, c: Cluster, events: seq<Event>)
    requires Secured(c) && EnabledRun(digest, c, events) && QuietRestarts(digest, c, events)
    ensures Secured(AfterRun(digest, c, events))
    decreases |events|
  {
    hide Enabled, After, Secured;
    if events != [] {
      StepSecured(digest, c, events[0]);
      CommitsOnlyPrepared(digest, After(digest, c, events[0]), events[1..]);
    }
  }

  // In particular from a quiet cluster.
  lemma EveryonePrepared(digest: Digest, c: Cluster, events: seq<Event>, i: nat)
    requires c.stage.Quiet? && EnabledRun(digest, c, events) && QuietRestarts(digest, c, events)
    ensures var d := AfterRun(digest, c, events);
            d.stage.Committing? && i < |d.followers| ==> LastIndex(d.followers[i].store) >= d.stage.l.index
  {
    CommitsOnlyPrepared(digest, c, events);
  }

  // ----- all or nothing -----

  // Phase one may go wrong anywhere; the calls of phase two arrive and find working stores.
  predicate Settles(e: Event) {
    match e
    case Begin(_) => false
    case AskPrepare(_, _, _, _) => true
    case Decide(io) => io.deleteRange
    case AskCommit(_, delivered, io) => delivered && io == WORKING
    case FinishCommit(io) => io.stableStore
    case AskRollback(_, delivered, io) => delivered && io == WORKING
    case FinishRollback => true
    case RestartFollower(_, _, _) => false
    case RestartLeader(_, _) => false
  }

  predicate Settling(events: seq<Event>) {
    forall i :: 0 <= i < |events| ==> Settles(events[i])
  }

  // A call of phase one that goes well. Reading the last entry takes part only where there is one.
  predicate Yes(first: bool, e: Event) {
    match e
    case AskPrepare(_, delivered, answered, io) =>
      delivered && answered && io.lastIndex && (first || io.getLog) && io.prepare && io.storeLog
    case Decide(io) => io.prepare && io.storeLog
    case _ => true
  }

  predicate AllYes(first: bool, events: seq<Event>) {
    forall i :: 0 <= i < |events| ==> Yes(first, events[i])
  }

  lemma YesSnoc(first: bool, events: seq<Event>, e: Event)
    ensures AllYes(first, [e] + events) <==> Yes(first, e) && AllYes(first, events)
    ensures Settling([e] + events) <==> Settles(e) && Settling(events)
  {
    var all := [e] + events;
    assert all[0] == e && forall i :: 0 <= i < |events| ==> all[i + 1] == events[i];
  }

  // The leader before the round: nothing stored behind its commit position.
  ghost predicate Ready(digest: Digest, leader: NodeState, l: Log) {
    Entry(digest, leader, l) && LastIndex(leader.store) == leader.index
  }

  // A clean follower prepares exactly when the call goes well, and otherwise stays as it is.
  lemma CleanAsked(digest: Digest, leader: NodeState, l: Log, f: NodeState, io: Io)
    requires Ready(digest, leader, l) && Clean(digest, leader, f)
    ensures var (g, r) := PrepareStep(digest, f, Some(l), io);
            && (r.Ok? <==> Yes(leader.index == 0, AskPrepare(0, true, true, io)))
            && if r.Ok? then HoldsEntry(digest, leader, l, g) else g == f
  {
    hide VerifyHash;
    PreparedIff(digest, f, Some(l), io);
    PreparedMeansStored(digest, f, Some(l), io);
    PrepareSafe(digest, f, Some(l), io);
    SameTop(digest, leader, f);
    assert f.store == map[] <==> leader.index == 0;
  }

  lemma SameTop(digest: Digest, leader: NodeState, f: NodeState)
    requires Safe(digest, leader) && Clean(digest, leader, f)
    ensures Top(f.store) == leader.head && (f.store == map[] <==> leader.index == 0)
  {
    hide VerifyHash;
    if f.index > 0 {
      assert f.index in f.store && f.store[f.index] == leader.store[f.index];
    }
  }

  lemma HolderRollsBack(digest: Digest, leader: NodeState, l: Log, f: NodeState)
    requires Ready(digest, leader, l) && (Clean(digest, leader, f) || HoldsEntry(digest, leader, l, f))
    ensures Clean(digest, leader, RollbackStep(digest, f, Some(l), WORKING).0)
  {
    hide VerifyHash;
    RolledBackIff(digest, f, Some(l), WORKING);
    RollbackSafe(digest, f, Some(l), WORKING);
    var g := RollbackStep(digest, f, Some(l), WORKING).0;
    if HoldsEntry(digest, leader, l, f) {
      assert g.store == f.store - {l.index};
      assert f.index > 0 ==> f.index in g.store;
      if f.index == 0 {
        assert forall k :: k in f.store ==> 1 <= k <= l.index;
        assert g.store.Keys == {};
      } else {
        LastIndexIs(g.store, f.index);
      }
    }
  }

  // Nothing has gone wrong so far.
  predicate Going(c: Cluster) {
    c.stage.Committing? || (c.stage.Preparing? && !c.stage.failed)
  }

  // Phase one of a round for l that began in c0. Who refused, or could not be asked, is clean.
  ghost predicate Asked(digest: Digest, c0: Cluster, l: Log, c: Cluster) {
    && c.stage.Preparing? && c.stage.l == l && c.leader == c0.leader
    && (forall j :: j in c.stage.waiting ==> j < |c.followers|)
    && forall j: nat :: j < |c.followers| ==>
         || ((j in c.stage.waiting || c.stage.failed) && Clean(digest, c0.leader, c.followers[j]))
         || (j !in c.stage.waiting && HoldsEntry(digest, c0.leader, l, c.followers[j]))
  }

  // Phase two after a failure: who has been told is clean again.
  ghost predicate Undoing(digest: Digest, c0: Cluster, l: Log, c: Cluster) {
    && c.stage.RollingBack? && c.stage.l == l && c.leader == c0.leader
    && (forall j :: j in c.stage.waiting ==> j < |c.followers|)
    && forall j: nat :: j < |c.followers| ==>
         || Clean(digest, c0.leader, c.followers[j])
         || (j in c.stage.waiting && HoldsEntry(digest, c0.leader, l, c.followers[j]))
  }

  ghost predicate Open(digest: Digest, c0: Cluster, l: Log, c: Cluster) {
    && Ready(digest, c0.leader, l) && |c.followers| == |c0.followers|
    && (|| Asked(digest, c0, l, c) || Undoing(digest, c0, l, c)
        || (Telling(digest, c, l) && Committed(c.leader) == Committed(c0.leader)))
  }

  // The leader is as it was, and so are the committed logs of the followers, with nothing behind.
  ghost predicate Undone(digest: Digest, c0: Cluster, d: Cluster) {
    && d.stage.Quiet? && d.leader == c0.leader && |d.followers| == |c0.followers|
    && forall j :: 0 <= j < |d.followers| ==> Clean(digest, c0.leader, d.followers[j])
  }

  lemma OpenAsk(digest: Digest, c0: Cluster, l: Log, c: Cluster, e: Event)
    requires Ready(digest, c0.leader, l) && Asked(digest, c0, l, c) && Enabled(digest, c, e) && e.AskPrepare?
    ensures var d := After(digest, c, e);
            Asked(digest, c0, l, d) && |d.followers| == |c.followers| && (Going(d) <==> Going(c) && Yes(c0.leader.index == 0, e))
  {
    hide Clean, HoldsEntry, PrepareStep, Ready;
    assert Clean(digest, c0.leader, c.followers[e.i]);
    CleanAsked(digest, c0.leader, l, c.followers[e.i], e.io);
  }

  lemma LeaderUndone(digest: Digest, leader: NodeState, l: Log, io: Io)
    requires Ready(digest, leader, l) && io.deleteRange
    ensures LocalRollback(leader, l, io) == leader && (LocalPrepare(leader, l, io).1.Err? ==> LocalPrepare(leader, l, io).0 == leader)
    ensures LocalPrepare(leader, l, io).1.Ok? <==> io.prepare && io.storeLog
  {
    hide VerifyHash;
    assert l.index !in leader.store;
    assert LocalRollback(leader, l, io).store == leader.store;
  }

  lemma OpenDecide(digest: Digest, c0: Cluster, l: Log, c: Cluster, e: Event)
    requires Ready(digest, c0.leader, l) && Asked(digest, c0, l, c) && Enabled(digest, c, e) && e.Decide? && Settles(e)
    ensures var d := After(digest, c, e);
            Open(digest, c0, l, d) || |c.followers| != |c0.followers|
    ensures Going(After(digest, c, e)) <==> Going(c) && Yes(c0.leader.index == 0, e)
  {
    hide Clean, HoldsEntry, HasEntry, VerifyHash, LocalPrepare, LocalRollback;
    LeaderUndone(digest, c0.leader, l, e.io);
    var d := After(digest, c, e);
    if Going(d) {
      LocalPrepareSafe(digest, c.leader, l, e.io);
      StoresLocally(c.leader, l, e.io);
      forall j: nat | j < |d.followers| ensures HoldsEntry(digest, d.leader, l, d.followers[j]) {
        StillHolds(digest, c.leader, l, c.followers[j]);
      }
    }
  }

  lemma StoresLocally(s: NodeState, l: Log, io: Io)
    requires LocalPrepare(s, l, io).1.Ok?
    ensures LocalPrepare(s, l, io).0 == s.(store := s.store[l.index := l])
  {
  }

  lemma OpenRollback(digest: Digest, c0: Cluster, l: Log, c: Cluster, e: Event)
    requires Ready(digest, c0.leader, l) && Undoing(digest, c0, l, c) && Enabled(digest, c, e) && e.AskRollback? && Settles(e)
    ensures Undoing(digest, c0, l, After(digest, c, e)) && |After(digest, c, e).followers| == |c.followers|
  {
    hide Clean, HoldsEntry, RollbackStep, Ready;
    HolderRollsBack(digest, c0.leader, l, c.followers[e.i]);
  }

  // Every event keeps the round on its way, and what went wrong once stays so.
  lemma OpenStep(digest: Digest, c0: Cluster, l: Log, c: Cluster, e: Event)
    requires Open(digest, c0, l, c) && Enabled(digest, c, e) && Settles(e)
    ensures var d := After(digest, c, e);
            if d.stage.Quiet? then (if Going(c) then RoundDone(digest, c0, l, d) else Undone(digest, c0, d))
            else Open(digest, c0, l, d) && (Going(d) <==> Going(c) && Yes(c0.leader.index == 0, e))
    ensures After(digest, c, e).stage.Quiet? ==> Yes(c0.leader.index == 0, e)
  {
    hide Clean, HoldsEntry, HasEntry, Safe, VerifyHash;
    match c.stage
    case Preparing(_, _, _) =>
      if e.AskPrepare? { OpenAsk(digest, c0, l, c, e); } else { OpenDecide(digest, c0, l, c, e); }
    case Committing(_, _) =>
      if e.AskCommit? { TellingStep(digest, c, l, e.i); } else { FinishWith(digest, c, l, e.io); }
    case RollingBack(_, _) =>
      if e.AskRollback? { OpenRollback(digest, c0, l, c, e); }
  }

  // The answer of the worker changes nothing in what the leader commits.
  lemma FinishWith(digest: Digest, c: Cluster, l: Log, io: Io)
    requires Telling(digest, c, l) && c.stage.waiting == {} && io.stableStore
    ensures After(digest, c, FinishCommit(io)) == After(digest, c, FinishCommit(WORKING))
    ensures RoundDone(digest, c, l, After(digest, c, FinishCommit(io)))
  {
    FinishStep(digest, c, l);
  }

  lemma {:induction false} OpenRun(digest: Digest, c0: Cluster, l: Log, c: Cluster, events: seq<Event>)
    requires Open(digest, c0, l, c) && EnabledRun(digest, c, events) && Settling(events)
    ensures var d := AfterRun(digest, c, events);
            d.stage.Quiet? ==>
              if Going(c) && AllYes(c0.leader.index == 0, events) then RoundDone(digest, c0, l, d) else Undone(digest, c0, d)
    decreases |events|
  {
    hide Open, Enabled, After, RoundDone, Undone, Yes, Settles, Settling, AllYes;
    if events == [] {
      OpenNotQuiet(digest, c0, l, c);
    } else {
      var e, rest := events[0], events[1..];
      var d := After(digest, c, e);
      assert events == [e] + rest;
      YesSnoc(c0.leader.index == 0, rest, e);
      OpenStep(digest, c0, l, c, e);
      if d.stage.Quiet? {
        NothingStarts(digest, d, rest);
        assert rest == [] && AllYes(c0.leader.index == 0, []) by { NoEvents(c0.leader.index == 0); }
      } else {
        OpenRun(digest, c0, l, d, rest);
      }
    }
  }

  lemma OpenNotQuiet(digest: Digest, c0: Cluster, l: Log, c: Cluster)
    requires Open(digest, c0, l, c)
    ensures !c.stage.Quiet?
  {
  }

  lemma NoEvents(first: bool)
    ensures AllYes(first, [])
  {
  }

  lemma NothingStarts(digest: Digest, d: Cluster, events: seq<Event>)
    requires d.stage.Quiet? && EnabledRun(digest, d, events) && Settling(events)
    ensures events == []
  {
  }

  // A round from a cluster with nothing pending, whatever goes wrong in its first phase, as long
  // as the calls of the second get through: if every call of the first phase went well the payload
  // is committed on the leader and on every follower, and otherwise it is nowhere.
  lemma RoundIsAtomic(digest: Digest, c: Cluster, data: Payload, events: seq<Event>)
    requires Safe(digest, c.leader) && c.stage.Quiet? && c.leader.index + 1 < MAX_UINT64 && LastIndex(c.leader.store) == c.leader.index
    requires forall j :: 0 <= j < |c.followers| ==> Clean(digest, c.leader, c.followers[j])
    requires EnabledRun(digest, c, [Begin(data)] + events) && Settling(events)
    requires AfterRun(digest, c, [Begin(data)] + events).stage.Quiet?
    ensures var d := AfterRun(digest, c, [Begin(data)] + events);
            if AllYes(c.leader.index == 0, events) then RoundDone(digest, c, NewLog(digest, c.leader, data), d) else Undone(digest, c, d)
  {
    hide Clean, HoldsEntry, Safe, VerifyHash, Settling, AllYes;
    var l := NewLog(digest, c.leader, data);
    var d := After(digest, c, Begin(data));
    assert ([Begin(data)] + events)[1..] == events;
    assert VerifyHash(digest, l);
    OpenRun(digest, c, l, d, events);
  }
}
