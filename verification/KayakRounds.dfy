// Two rounds worked through for every cluster: one without faults, and one whose rollback is lost
// (kayak/twopc_runner.go, twopc/twopc.go).

module KayakRounds {
  import opened Common
  import opened KayakLog
  import opened KayakNode
  import opened KayakChain
  import opened KayakCluster
  import opened KayakBreaking

  // Caught up, with nothing stored beyond the committed entries.
  ghost predicate Clean(digest: Digest, leader: NodeState, f: NodeState) {
    CaughtUp(digest, leader, f) && LastIndex(f.store) == f.index
  }

  ghost predicate HoldsEntry(digest: Digest, leader: NodeState, l: Log, f: NodeState) {
    && CaughtUp(digest, leader, f) && f.phase == Prepared
    && LastIndex(f.store) == l.index && l.index in f.store && f.store[l.index] == l
  }

  // Caught up with a leader that commits l next.
  ghost predicate HasEntry(digest: Digest, leader: NodeState, l: Log, f: NodeState) {
    && Safe(digest, f) && f.index == l.index && LastIndex(f.store) == l.index
    && (forall k: uint64 :: 1 <= k <= leader.index ==> k in f.store && k in leader.store && f.store[k] == leader.store[k])
    && f.index in f.store && f.store[f.index] == l
  }

  ghost predicate Entry(digest: Digest, leader: NodeState, l: Log) {
    && Safe(digest, leader) && leader.index + 1 < MAX_UINT64
    && l.index == leader.index + 1 && VerifyHash(digest, l) && l.lastHash == leader.head
  }

  lemma CleanPrepares(digest: Digest, leader: NodeState, l: Log, f: NodeState)
    requires Entry(digest, leader, l) && Clean(digest, leader, f)
    ensures var (g, r) := PrepareStep(digest, f, Some(l), WORKING);
            r.Ok? && HoldsEntry(digest, leader, l, g)
  {
    PrepareSafe(digest, f, Some(l), WORKING);
    var g := f.(store := f.store[l.index := l], phase := Prepared);
    LastIndexIs(g.store, l.index);
    if f.index > 0 {
      assert f.index in f.store && f.store[f.index] == leader.store[f.index];
    }
  }

  lemma HolderCommits(digest: Digest, leader: NodeState, l: Log, f: NodeState)
    requires Entry(digest, leader, l) && HoldsEntry(digest, leader, l, f)
    ensures HasEntry(digest, leader, l, CommitStep(digest, f, Some(l), WORKING).0)
  {
    CommitSafe(digest, f, Some(l), WORKING);
  }

  // Phase one: followers that have been asked hold the entry, the others are still clean.
  ghost predicate Asking(digest: Digest, c: Cluster, l: Log) {
    && Entry(digest, c.leader, l) && c.stage.Preparing? && c.stage.l == l && !c.stage.failed
    && (forall j :: j in c.stage.waiting ==> j < |c.followers|)
    && (forall j: nat :: j < |c.followers| ==>
          if j in c.stage.waiting then Clean(digest, c.leader, c.followers[j])
          else HoldsEntry(digest, c.leader, l, c.followers[j]))
  }

  // Phase two: followers that have been told have committed the entry, the others still hold it.
  ghost predicate Telling(digest: Digest, c: Cluster, l: Log) {
    && Entry(digest, c.leader, l) && c.stage.Committing? && c.stage.l == l
    && l.index in c.leader.store && c.leader.store[l.index] == l
    && (forall j :: j in c.stage.waiting ==> j < |c.followers|)
    && (forall j: nat :: j < |c.followers| ==>
          if j in c.stage.waiting then HoldsEntry(digest, c.leader, l, c.followers[j])
          else HasEntry(digest, c.leader, l, c.followers[j]))
  }

  // The leader has committed the entry and so has every follower; all are ready for the next.
  ghost predicate RoundDone(digest: Digest, c: Cluster, l: Log, d: Cluster) {
    && Safe(digest, c.leader) && Safe(digest, d.leader) && d.stage.Quiet?
    && Committed(d.leader) == Committed(c.leader) + [l]
    && |d.followers| == |c.followers|
    && (forall j :: 0 <= j < |d.followers| ==> Clean(digest, d.leader, d.followers[j]))
  }

  // ----- without faults -----

  // Every call arrives, is answered, and finds working stores; nobody restarts.
  predicate FaultFree(e: Event) {
    match e
    case Begin(_) => true
    case AskPrepare(_, delivered, answered, io) => delivered && answered && io == WORKING
    case Decide(io) => io == WORKING
    case AskCommit(_, delivered, io) => delivered && io == WORKING
    case FinishCommit(io) => io == WORKING
    case AskRollback(_, delivered, io) => delivered && io == WORKING
    case FinishRollback => true
    case RestartFollower(_, _, _) => false
    case RestartLeader(_, _) => false
  }

  // Events of one round after its beginning, without faults.
  predicate RestOfRound(events: seq<Event>) {
    forall i :: 0 <= i < |events| ==> FaultFree(events[i]) && !events[i].Begin?
  }

  lemma AskingStep(digest: Digest, c: Cluster, l: Log, i: nat)
    requires Asking(digest, c, l) && i in c.stage.waiting
    ensures Enabled(digest, c, AskPrepare(i, true, true, WORKING))
    ensures var d := After(digest, c, AskPrepare(i, true, true, WORKING));
            && Asking(digest, d, l) && d.leader == c.leader && |d.followers| == |c.followers|
            && d.stage.waiting == c.stage.waiting - {i}
  {
    hide Clean, HoldsEntry, PrepareStep, Entry;
    assert Clean(digest, c.leader, c.followers[i]);
    CleanPrepares(digest, c.leader, l, c.followers[i]);
  }

  lemma TellingStep(digest: Digest, c: Cluster, l: Log, i: nat)
    requires Telling(digest, c, l) && i in c.stage.waiting
    ensures Enabled(digest, c, AskCommit(i, true, WORKING))
    ensures var d := After(digest, c, AskCommit(i, true, WORKING));
            && Telling(digest, d, l) && d.leader == c.leader && |d.followers| == |c.followers|
            && d.stage.waiting == c.stage.waiting - {i}
  {
    hide HoldsEntry, HasEntry, CommitStep;
    assert HoldsEntry(digest, c.leader, l, c.followers[i]);
    HolderCommits(digest, c.leader, l, c.followers[i]);
  }

  // Storing the entry locally changes nothing a follower is compared with.
  lemma StillHolds(digest: Digest, s: NodeState, l: Log, f: NodeState)
    requires Entry(digest, s, l) && HoldsEntry(digest, s, l, f)
    ensures HoldsEntry(digest, s.(store := s.store[l.index := l]), l, f)
  {
    hide VerifyHash;
  }

  lemma DecideStep(digest: Digest, c: Cluster, l: Log)
    requires Asking(digest, c, l) && c.stage.waiting == {}
    ensures Enabled(digest, c, Decide(WORKING))
    ensures var d := After(digest, c, Decide(WORKING));
            && Telling(digest, d, l) && |d.followers| == |c.followers|
            && Committed(d.leader) == Committed(c.leader)
  {
    hide HoldsEntry, Clean, HasEntry, VerifyHash;
    LocalPrepareSafe(digest, c.leader, l, WORKING);
    var d := After(digest, c, Decide(WORKING));
    assert d.leader == c.leader.(store := c.leader.store[l.index := l]);
    forall j: nat | j < |d.followers| ensures HoldsEntry(digest, d.leader, l, d.followers[j]) {
      assert HoldsEntry(digest, c.leader, l, c.followers[j]);
      StillHolds(digest, c.leader, l, c.followers[j]);
    }
  }

  lemma CleanAgain(digest: Digest, leader: NodeState, l: Log, f: NodeState)
    requires Entry(digest, leader, l) && l.index in leader.store && leader.store[l.index] == l
    requires HasEntry(digest, leader, l, f)
    ensures Clean(digest, LocalCommit(leader, l, WORKING).0, f)
  {
    hide VerifyHash;
  }

  lemma FinishStep(digest: Digest, c: Cluster, l: Log)
    requires Telling(digest, c, l) && c.stage.waiting == {}
    ensures Enabled(digest, c, FinishCommit(WORKING))
    ensures RoundDone(digest, c, l, After(digest, c, FinishCommit(WORKING)))
  {
    hide HoldsEntry, HasEntry, Clean, VerifyHash;
    LocalCommitSafe(digest, c.leader, l, WORKING);
    forall j | 0 <= j < |c.followers|
      ensures Clean(digest, LocalCommit(c.leader, l, WORKING).0, c.followers[j])
    {
      assert HasEntry(digest, c.leader, l, c.followers[j]);
      CleanAgain(digest, c.leader, l, c.followers[j]);
    }
  }

  // Where a round for l that began in c0 can be.
  ghost predicate Underway(digest: Digest, c0: Cluster, l: Log, c: Cluster) {
    && Safe(digest, c0.leader) && |c.followers| == |c0.followers|
    && (Asking(digest, c, l) || Telling(digest, c, l)) && Committed(c.leader) == Committed(c0.leader)
  }

  // Every event without a fault takes the round a step further, and there is nothing else to do.
  lemma UnderwayStep(digest: Digest, c0: Cluster, l: Log, c: Cluster, e: Event)
    requires Underway(digest, c0, l, c) && Enabled(digest, c, e) && FaultFree(e)
    ensures Underway(digest, c0, l, After(digest, c, e)) || RoundDone(digest, c0, l, After(digest, c, e))
  {
    hide HoldsEntry, HasEntry, Clean, Entry, Safe;
    if c.stage.Preparing? {
      if e.AskPrepare? { AskingStep(digest, c, l, e.i); } else { DecideStep(digest, c, l); }
    } else {
      if e.AskCommit? { TellingStep(digest, c, l, e.i); } else { FinishStep(digest, c, l); }
    }
  }

  lemma {:induction false} UnderwayRun(digest: Digest, c0: Cluster, l: Log, c: Cluster, events: seq<Event>)
    requires Underway(digest, c0, l, c) && EnabledRun(digest, c, events)
    requires RestOfRound(events)
    ensures var d := AfterRun(digest, c, events);
            if d.stage.Quiet? then RoundDone(digest, c0, l, d) else Underway(digest, c0, l, d)
    decreases |events|
  {
    hide Asking, Telling, RoundDone, Safe;
    if events == [] {
      NotQuiet(digest, c0, l, c);
    } else {
      var d := After(digest, c, events[0]);
      UnderwayStep(digest, c0, l, c, events[0]);
      if RoundDone(digest, c0, l, d) {
        NothingMore(digest, c0, l, d, events[1..]);
      } else {
        UnderwayRun(digest, c0, l, d, events[1..]);
      }
    }
  }

  lemma NotQuiet(digest: Digest, c0: Cluster, l: Log, c: Cluster)
    requires Underway(digest, c0, l, c)
    ensures !c.stage.Quiet?
  {
  }

  // A quiet cluster only waits for the next round.
  lemma NothingMore(digest: Digest, c0: Cluster, l: Log, d: Cluster, events: seq<Event>)
    requires RoundDone(digest, c0, l, d) && EnabledRun(digest, d, events)
    requires RestOfRound(events)
    ensures events == [] && d.stage.Quiet?
  {
  }

  // A round without faults, in whatever order the followers answer: once the leader is done, the
  // payload is committed on the leader and on every follower, and all are ready for the next one.
  lemma FaultFreeRound(digest: Digest, c: Cluster, data: Payload, events: seq<Event>)
    requires Safe(digest, c.leader) && c.stage.Quiet? && c.leader.index + 1 < MAX_UINT64
    requires forall j :: 0 <= j < |c.followers| ==> Clean(digest, c.leader, c.followers[j])
    requires EnabledRun(digest, c, [Begin(data)] + events) && RestOfRound(events)
    requires AfterRun(digest, c, [Begin(data)] + events).stage.Quiet?
    ensures RoundDone(digest, c, NewLog(digest, c.leader, data), AfterRun(digest, c, [Begin(data)] + events))
  {
    var l := NewLog(digest, c.leader, data);
    var d := After(digest, c, Begin(data));
    assert ([Begin(data)] + events)[1..] == events;
    BeginUnderway(digest, c, data);
    UnderwayRun(digest, c, l, d, events);
  }

  lemma BeginUnderway(digest: Digest, c: Cluster, data: Payload)
    requires Safe(digest, c.leader) && c.stage.Quiet? && c.leader.index + 1 < MAX_UINT64
    requires forall j :: 0 <= j < |c.followers| ==> Clean(digest, c.leader, c.followers[j])
    ensures var l, d := NewLog(digest, c.leader, data), After(digest, c, Begin(data));
            Underway(digest, c, l, d) && Asking(digest, d, l)
  {
    hide VerifyHash, Clean, Safe;
    assert VerifyHash(digest, NewLog(digest, c.leader, data));
  }

  // And the leader can always get done: there is such a run.
  lemma {:induction false} RoundCanFinish(digest: Digest, c0: Cluster, l: Log, c: Cluster) returns (events: seq<Event>)
    requires Underway(digest, c0, l, c)
    ensures EnabledRun(digest, c, events) && RestOfRound(events)
    ensures AfterRun(digest, c, events).stage.Quiet?
    decreases c.stage.Preparing?, if c.stage.Quiet? then {} else c.stage.waiting
  {
    hide HoldsEntry, HasEntry, Clean, Entry, Safe;
    var e := if c.stage.waiting == {} then (if c.stage.Preparing? then Decide(WORKING) else FinishCommit(WORKING)) else
             var i :| i in c.stage.waiting; if c.stage.Preparing? then AskPrepare(i, true, true, WORKING) else AskCommit(i, true, WORKING);
    var d := After(digest, c, e);
    UnderwayStep(digest, c0, l, c, e);
    if RoundDone(digest, c0, l, d) {
      events := [e];
      assert [e][1..] == [];
    } else {
      var rest := RoundCanFinish(digest, c0, l, d);
      events := [e] + rest;
      assert events[1..] == rest;
    }
  }

  // ----- a lost rollback -----

  // A run in which everything agreement relies on holds, except that this many rollbacks are not
  // delivered.
  ghost predicate LossyRun(digest: Digest, c: Cluster, events: seq<Event>, lost: nat)
    decreases |events|
  {
    if events == [] then lost == 0 else
    var e := events[0];
    && Enabled(digest, c, e)
    && (|| (Reliable(c, e) && LossyRun(digest, After(digest, c, e), events[1..], lost))
        || (e.AskRollback? && !e.delivered && lost > 0 && LossyRun(digest, After(digest, c, e), events[1..], lost - 1)))
  }

  // Such a run ends between rounds, with all logs in agreement, and yet agreement can be broken
  // from there with reliable rollbacks only.
  ghost predicate Exposed(digest: Digest, c: Cluster, lost: nat) {
    exists events, d :: LossyRun(digest, c, events, lost) && Leads(digest, c, events, d) && Calm(digest, d) && Breakable(digest, d)
  }

  lemma ExposedLater(digest: Digest, c: Cluster, e: Event, lost: nat, now: nat)
    requires Enabled(digest, c, e) && Exposed(digest, After(digest, c, e), lost)
    requires (Reliable(c, e) && now == lost) || (e.AskRollback? && !e.delivered && now == lost + 1)
    ensures Exposed(digest, c, now)
  {
    hide Enabled, After, Reliable, Calm, Breakable;
    var b := After(digest, c, e);
    var events, d :| LossyRun(digest, b, events, lost) && Leads(digest, b, events, d) && Calm(digest, d) && Breakable(digest, d);
    assert ([e] + events)[1..] == events;
    assert LossyRun(digest, c, [e] + events, now);
    assert Leads(digest, c, [e] + events, d);
  }

  // Follower i is the only one that holds an entry; everyone is caught up.
  ghost predicate Held(digest: Digest, c: Cluster, i: nat) {
    && Safe(digest, c.leader) && c.leader.index + 1 < MAX_UINT64
    && (forall j: nat :: j < |c.followers| ==> CaughtUp(digest, c.leader, c.followers[j]))
    && i < |c.followers| && Holds(c.leader, c.followers[i])
    && (forall j: nat :: j < |c.followers| && j != i ==> !Holds(c.leader, c.followers[j]))
  }

  lemma HeldBreakable(digest: Digest, c: Cluster, i: nat)
    requires Held(digest, c, i) && c.stage.Quiet?
    ensures Calm(digest, c) && Breakable(digest, c)
  {
    hide Breakable, VerifyHash, CanPrepare;
    forall j: nat | j < |c.followers|
      ensures CanPrepare(c.leader, c.followers[j]) && Safe(digest, c.followers[j]) && Committed(c.followers[j]) == Committed(c.leader)
    {
      CaughtUpCanPrepare(digest, c.leader, c.followers[j]);
      SameCommittedLog(c.leader, c.followers[j]);
    }
    BreakableIff(digest, c);
  }

  // The rollbacks go out; the one to follower i is lost, if it has not been already.
  lemma {:induction false} RollbackLost(digest: Digest, c: Cluster, i: nat)
    requires c.stage.RollingBack? && Held(digest, c, i)
    requires forall j :: j in c.stage.waiting ==> j < |c.followers|
    ensures Exposed(digest, c, if i in c.stage.waiting then 1 else 0)
    decreases c.stage.waiting
  {
    hide Breakable, Holds, Calm, Safe, CaughtUp;
    if c.stage.waiting == {} {
      var d := c.(stage := Quiet);
      HeldBreakable(digest, d, i);
      assert LossyRun(digest, d, [], 0) && Leads(digest, d, [], d);
      ExposedLater(digest, c, FinishRollback, 0, 0);
    } else {
      var j :| j in c.stage.waiting;
      var e := AskRollback(j, false, WORKING);
      var d := After(digest, c, e);
      RollbackLost(digest, d, i);
      ExposedLater(digest, c, e, if i in d.stage.waiting then 1 else 0, if i in c.stage.waiting then 1 else 0);
    }
  }

  lemma HeldDecides(digest: Digest, c: Cluster, i: nat)
    requires c.stage.Preparing? && c.stage.failed && c.stage.waiting == {} && Held(digest, c, i)
    requires c.stage.l.index == c.leader.index + 1
    ensures Exposed(digest, c, 1)
  {
    hide Breakable, Exposed, VerifyHash;
    var e := Decide(WORKING);
    var d := After(digest, c, e);
    LocalRollbackKeeps(digest, c.leader, c.stage.l, WORKING);
    forall j: nat | j < |d.followers|
      ensures CaughtUp(digest, d.leader, d.followers[j]) && (Holds(d.leader, d.followers[j]) <==> Holds(c.leader, c.followers[j]))
    {
      assert CaughtUp(digest, c.leader, c.followers[j]);
    }
    RollbackLost(digest, d, i);
    ExposedLater(digest, c, e, 1, 1);
  }

  // The other followers never hear of the round.
  lemma {:induction false} PreparesLost(digest: Digest, c: Cluster, i: nat)
    requires c.stage.Preparing? && (c.stage.failed || c.stage.waiting != {}) && Held(digest, c, i)
    requires c.stage.l.index == c.leader.index + 1
    requires forall j :: j in c.stage.waiting ==> j < |c.followers|
    ensures Exposed(digest, c, 1)
    decreases c.stage.waiting
  {
    hide Breakable, Exposed, Holds, Safe, CaughtUp;
    if c.stage.waiting == {} {
      HeldDecides(digest, c, i);
    } else {
      var j :| j in c.stage.waiting;
      var e := AskPrepare(j, false, false, WORKING);
      PreparesLost(digest, After(digest, c, e), i);
      ExposedLater(digest, c, e, 1, 1);
    }
  }

  // After the first follower has prepared, it is the only one that holds anything.
  lemma FirstHolds(digest: Digest, c: Cluster, l: Log)
    requires Asking(digest, c, l) && |c.followers| > 0 && (forall j: nat :: j in c.stage.waiting <==> 0 < j < |c.followers|)
    ensures Held(digest, c, 0)
  {
    hide VerifyHash;
    assert HoldsEntry(digest, c.leader, l, c.followers[0]);
    forall j: nat | 0 < j < |c.followers|
      ensures CaughtUp(digest, c.leader, c.followers[j]) && !Holds(c.leader, c.followers[j])
    {
      assert Clean(digest, c.leader, c.followers[j]);
    }
  }

  // One follower prepares, the others never hear of the round, and the rollback to that one
  // follower is the only thing that goes wrong besides: the cluster is quiet again with all logs
  // in agreement, but agreement can be broken from there even if every later rollback is reliable.
  lemma LostRollbackExposes(digest: Digest, c: Cluster, data: Payload)
    requires Safe(digest, c.leader) && c.stage.Quiet? && c.leader.index + 1 < MAX_UINT64 && |c.followers| >= 2
    requires forall j :: 0 <= j < |c.followers| ==> Clean(digest, c.leader, c.followers[j])
    ensures Exposed(digest, c, 1)
  {
    hide Exposed, Asking, Telling, Held, VerifyHash, Clean, Safe;
    var l := NewLog(digest, c.leader, data);
    var b := After(digest, c, Begin(data));
    BeginUnderway(digest, c, data);
    OnePrepares(digest, b, l);
    ExposedLater(digest, c, Begin(data), 1, 1);
  }

  lemma OnePrepares(digest: Digest, c: Cluster, l: Log)
    requires Asking(digest, c, l) && |c.followers| >= 2 && c.stage.waiting == Everyone(c)
    ensures Exposed(digest, c, 1)
  {
    hide Exposed, Held, HoldsEntry, Clean, PrepareStep;
    var e := AskPrepare(0, true, true, WORKING);
    AskingStep(digest, c, l, 0);
    var d := After(digest, c, e);
    FirstHolds(digest, d, l);
    assert 1 in d.stage.waiting;
    PreparesLost(digest, d, 0);
    ExposedLater(digest, c, e, 1, 1);
  }

  // Without such a loss nothing is exposed: a run that loses no rollback keeps agreement out of
  // reach of every further one.
  lemma NoLossNoExposure(digest: Digest, c: Cluster)
    requires Inv(digest, c)
    ensures !Exposed(digest, c, 0)
  {
    hide Inv, Breakable, Calm, Enabled, Reliable, After;
    forall events, d | LossyRun(digest, c, events, 0) && Leads(digest, c, events, d) ensures !Breakable(digest, d) {
      LosslessIsReliable(digest, c, events);
      RunAgrees(digest, c, events);
      InvNotBreakable(digest, d);
    }
  }

  lemma {:induction false} LosslessIsReliable(digest: Digest, c: Cluster, events: seq<Event>)
    requires LossyRun(digest, c, events, 0)
    ensures EnabledRun(digest, c, events) && ReliableRun(digest, c, events)
    decreases |events|
  {
    hide Enabled, Reliable, After;
    if events != [] { LosslessIsReliable(digest, After(digest, c, events[0]), events[1..]); }
  }

  lemma InvNotBreakable(digest: Digest, c: Cluster)
    requires Inv(digest, c)
    ensures !Breakable(digest, c)
  {
    hide Inv, Agreement, Enabled, Reliable, After;
    forall events | EnabledRun(digest, c, events) && ReliableRun(digest, c, events)
      ensures Agreement(digest, AfterRun(digest, c, events))
    {
      RunAgrees(digest, c, events);
    }
  }
}
