// From exactly which quiet clusters reliable rollbacks can no longer save agreement
// (kayak/twopc_runner.go: a Prepare at an index that is stored already succeeds without comparing).

module KayakBreaking {
  import opened Common
  import opened KayakLog
  import opened KayakNode
  import opened KayakChain
  import opened KayakCluster

  // Some run with reliable rollbacks ends in disagreement.
  ghost predicate Breakable(digest: Digest, c: Cluster) {
    exists events :: EnabledRun(digest, c, events) && ReliableRun(digest, c, events)
                     && !Agreement(digest, AfterRun(digest, c, events))
  }

  // Between rounds; followers agree with the leader but may lag behind it.
  ghost predicate Calm(digest: Digest, c: Cluster) {
    Agreement(digest, c) && c.stage.Quiet? && c.leader.index + 1 < MAX_UINT64
  }

  // The follower accepts the leader's next entry, now or after a restart: something is stored at
  // its index already, or the last entry it has is the one the leader committed last.
  ghost predicate CanPrepare(leader: NodeState, f: NodeState) {
    LastIndex(f.store) > leader.index || Top(f.store) == leader.head || f.head == leader.head
  }

  // ----- from a held entry to disagreement -----

  lemma BreakableLater(digest: Digest, c: Cluster, e: Event)
    requires Enabled(digest, c, e) && Reliable(c, e) && Breakable(digest, After(digest, c, e))
    ensures Breakable(digest, c)
  {
    hide Enabled, Reliable, After, Agreement;
    var d := After(digest, c, e);
    var rest :| EnabledRun(digest, d, rest) && ReliableRun(digest, d, rest) && !Agreement(digest, AfterRun(digest, d, rest));
    assert ([e] + rest)[1..] == rest;
    assert EnabledRun(digest, c, [e] + rest) && ReliableRun(digest, c, [e] + rest);
  }

  lemma DisagreementNow(digest: Digest, c: Cluster)
    requires !Agreement(digest, c)
    ensures Breakable(digest, c)
  {
    hide Agreement;
    assert EnabledRun(digest, c, []) && ReliableRun(digest, c, []);
  }

  // A round that everyone is going to prepare, while follower i sits on another entry in the
  // slot; followers below k have been asked.
  ghost predicate Doomed(digest: Digest, c: Cluster, i: nat, k: nat) {
    && NodesSafe(digest, c) && StageOk(digest, c.leader, c.stage)
    && c.stage.Preparing? && !c.stage.failed && c.stage.l.lastHash == c.leader.head
    && k <= |c.followers| && (forall j :: j in c.stage.waiting <==> k <= j < |c.followers|)
    && (forall j :: k <= j < |c.followers| ==> CanPrepare(c.leader, c.followers[j]))
    && i < |c.followers| && Holds(c.leader, c.followers[i])
    && c.followers[i].store[c.leader.index + 1] != c.stage.l
  }

  // Ready means able without a restart.
  lemma ReadyPrepares(digest: Digest, leader: NodeState, stage: Stage, f: NodeState)
    requires Safe(digest, f) && StageOk(digest, leader, stage) && stage.Preparing? && stage.l.lastHash == leader.head
    requires LastIndex(f.store) > leader.index || Top(f.store) == leader.head
    ensures var (g, r) := PrepareStep(digest, f, Some(stage.l), WORKING);
            r.Ok? && Safe(digest, g) && (Holds(leader, f) ==> g == f)
  {
    PrepareSafe(digest, f, Some(stage.l), WORKING);
  }

  // A restart leaves the committed entries, of which the last one is the head.
  lemma RestartReady(digest: Digest, f: NodeState)
    requires Safe(digest, f)
    ensures var (g, r) := RestartStep(f, MAX_UINT64, WORKING);
            r.Ok? && Safe(digest, g) && Top(g.store) == f.head
  {
    RestartSafe(digest, f, MAX_UINT64, WORKING);
    var g := RestartStep(f, MAX_UINT64, WORKING).0;
    if f.index == 0 {
      assert forall k :: k in g.store ==> k <= 0;
    } else {
      LastIndexIs(g.store, f.index);
    }
  }

  lemma DoomedReplace(digest: Digest, c: Cluster, i: nat, k: nat, g: NodeState)
    requires Doomed(digest, c, i, k) && k < |c.followers|
    requires Safe(digest, g) && (i == k ==> g == c.followers[k])
    ensures CanPrepare(c.leader, g) ==> Doomed(digest, c.(followers := c.followers[k := g]), i, k)
    ensures Doomed(digest, c.(followers := c.followers[k := g],
                              stage := Preparing(c.stage.l, c.stage.waiting - {k}, false)), i, k + 1)
  {
    hide Safe, CanPrepare, Holds, VerifyHash;
  }

  lemma DoomedStep(digest: Digest, c: Cluster, i: nat, k: nat)
    requires Doomed(digest, c, i, k) && k < |c.followers|
    requires LastIndex(c.followers[k].store) > c.leader.index || Top(c.followers[k].store) == c.leader.head
    ensures Enabled(digest, c, AskPrepare(k, true, true, WORKING))
    ensures Doomed(digest, After(digest, c, AskPrepare(k, true, true, WORKING)), i, k + 1)
  {
    hide Safe, VerifyHash, PrepareStep, Top;
    ReadyPrepares(digest, c.leader, c.stage, c.followers[k]);
    DoomedReplace(digest, c, i, k, PrepareStep(digest, c.followers[k], Some(c.stage.l), WORKING).0);
  }

  lemma DoomedRestart(digest: Digest, c: Cluster, i: nat, k: nat)
    requires Doomed(digest, c, i, k) && k < |c.followers|
    requires LastIndex(c.followers[k].store) <= c.leader.index && c.followers[k].head == c.leader.head
    ensures var (g, r) := RestartStep(c.followers[k], MAX_UINT64, WORKING);
            && r.Ok? && Top(g.store) == c.leader.head
            && Doomed(digest, c.(followers := c.followers[k := g]), i, k)
  {
    hide Safe, VerifyHash, RestartStep, Top;
    assert !Holds(c.leader, c.followers[k]);
    RestartReady(digest, c.followers[k]);
    DoomedReplace(digest, c, i, k, RestartStep(c.followers[k], MAX_UINT64, WORKING).0);
  }

  // The held entry is what gets committed, whatever the request says.
  lemma HeldCommits(digest: Digest, leader: NodeState, stage: Stage, f: NodeState)
    requires Safe(digest, leader) && Safe(digest, f) && StageOk(digest, leader, stage) && !stage.Quiet?
    requires Holds(leader, f)
    ensures var g := CommitStep(digest, f, Some(stage.l), WORKING).0;
            Safe(digest, g) && g.index == leader.index + 1 && g.store == f.store
  {
    CommitSafe(digest, f, Some(stage.l), WORKING);
  }

  lemma WrongCommit(digest: Digest, c: Cluster, i: nat)
    requires NodesSafe(digest, c) && StageOk(digest, c.leader, c.stage) && c.stage.Committing?
    requires i < |c.followers| && i in c.stage.waiting
    requires Holds(c.leader, c.followers[i]) && c.followers[i].store[c.leader.index + 1] != c.stage.l
    ensures Breakable(digest, c)
  {
    hide Breakable, CommitStep, VerifyHash;
    var e := AskCommit(i, true, WORKING);
    var d := After(digest, c, e);
    HeldCommits(digest, c.leader, c.stage, c.followers[i]);
    var n := c.leader.index;
    var f := d.followers[i];
    assert Committed(f)[n] == f.store[n + 1] != c.stage.l == Decided(d)[n];
    assert !Agreement(digest, d);
    DisagreementNow(digest, d);
    BreakableLater(digest, c, e);
  }

  lemma DoomedDecides(digest: Digest, c: Cluster, i: nat)
    requires Doomed(digest, c, i, |c.followers|)
    ensures Breakable(digest, c)
  {
    hide Breakable, VerifyHash, Safe, LocalPrepare;
    var e := Decide(WORKING);
    assert c.stage.waiting == {};
    LocalPrepareKeeps(digest, c.leader, c.stage.l, WORKING);
    var d := After(digest, c, e);
    assert LocalPrepare(c.leader, c.stage.l, WORKING).1.Ok? by { PreparesLocally(c.leader, c.stage.l); }
    WrongCommit(digest, d, i);
    BreakableLater(digest, c, e);
  }

  lemma PreparesLocally(s: NodeState, l: Log)
    ensures LocalPrepare(s, l, WORKING).1.Ok?
  {
  }

  lemma {:induction false} DoomedBreaks(digest: Digest, c: Cluster, i: nat, k: nat)
    requires Doomed(digest, c, i, k) && k <= |c.followers|
    ensures Breakable(digest, c)
    decreases |c.followers| - k, 1
  {
    hide Breakable, Doomed, NodesSafe, StageOk, Safe, Top;
    if k == |c.followers| {
      DoomedDecides(digest, c, i);
    } else {
      DoomedTurn(digest, c, i, k);
      if Ready(c, k) {
        DoomedAsked(digest, c, i, k);
      } else {
        var e := RestartFollower(k, MAX_UINT64, WORKING);
        var g := RestartStep(c.followers[k], MAX_UINT64, WORKING).0;
        var d := c.(followers := c.followers[k := g]);
        DoomedRestart(digest, c, i, k);
        DoomedAsked(digest, d, i, k);
        assert After(digest, c, e) == d;
        BreakableLater(digest, c, e);
      }
    }
  }

  lemma {:induction false} DoomedAsked(digest: Digest, c: Cluster, i: nat, k: nat)
    requires Doomed(digest, c, i, k) && k < |c.followers| && Ready(c, k)
    ensures Breakable(digest, c)
    decreases |c.followers| - k, 0
  {
    hide Breakable, Doomed, NodesSafe, StageOk, Safe, Top;
    var e := AskPrepare(k, true, true, WORKING);
    DoomedStep(digest, c, i, k);
    DoomedBreaks(digest, After(digest, c, e), i, k + 1);
    BreakableLater(digest, c, e);
  }

  ghost predicate Ready(c: Cluster, k: nat)
    requires k < |c.followers|
  {
    LastIndex(c.followers[k].store) > c.leader.index || Top(c.followers[k].store) == c.leader.head
  }

  lemma DoomedTurn(digest: Digest, c: Cluster, i: nat, k: nat)
    requires Doomed(digest, c, i, k) && k < |c.followers|
    ensures Ready(c, k) || (LastIndex(c.followers[k].store) <= c.leader.index && c.followers[k].head == c.leader.head)
  {
    hide Safe, VerifyHash, Top;
    assert CanPrepare(c.leader, c.followers[k]);
  }

  // ----- a follower that can never prepare again -----

  // No round gets past it, so nothing is ever committed: every follower keeps what it has, and
  // the leader too.
  ghost predicate Frozen(digest: Digest, c: Cluster, j: nat) {
    && NodesSafe(digest, c) && StageOk(digest, c.leader, c.stage) && !c.stage.Committing?
    && (forall i :: 0 <= i < |c.followers| ==> Committed(c.followers[i]) <= Committed(c.leader))
    && j < |c.followers| && !CanPrepare(c.leader, c.followers[j])
    && (c.stage.Preparing? ==> c.stage.l.lastHash == c.leader.head && (j in c.stage.waiting || c.stage.failed))
  }

  lemma FrozenAgrees(digest: Digest, c: Cluster, j: nat)
    requires Frozen(digest, c, j)
    ensures Agreement(digest, c)
  {
    hide Safe, CanPrepare, StageOk;
  }

  // Prepare, rollback and restart leave a follower that cannot prepare as it is in that respect.
  lemma StuckPrepare(digest: Digest, leader: NodeState, l: Log, f: NodeState, io: Io)
    requires Safe(digest, f) && !CanPrepare(leader, f)
    requires leader.index < MAX_UINT64 && l.index == leader.index + 1 && l.lastHash == leader.head
    ensures PrepareStep(digest, f, Some(l), io).0 == f && PrepareStep(digest, f, Some(l), io).1.Err?
  {
  }

  lemma StuckRollback(digest: Digest, leader: NodeState, l: Log, f: NodeState, io: Io)
    requires !CanPrepare(leader, f) && leader.index < MAX_UINT64 && l.index == leader.index + 1
    ensures RollbackStep(digest, f, Some(l), io).0 == f
  {
  }

  lemma StuckRestart(digest: Digest, leader: NodeState, f: NodeState, peersTerm: uint64, io: Io)
    requires Safe(digest, f) && !CanPrepare(leader, f) && RestartStep(f, peersTerm, io).1.Ok?
    ensures !CanPrepare(leader, RestartStep(f, peersTerm, io).0)
  {
    hide VerifyHash;
    var g := RestartStep(f, peersTerm, io).0;
    assert g.head == f.head;
    if g.store != f.store {
      assert forall k :: k in g.store <==> k in f.store && k <= f.index;
      if f.index == 0 {
        assert forall k :: k in g.store ==> k <= 0;
      } else {
        LastIndexIs(g.store, f.index);
      }
    }
  }

  // Replacing a follower by one with the same committed log.
  lemma FrozenReplace(digest: Digest, c: Cluster, j: nat, i: nat, g: NodeState, stage: Stage)
    requires Frozen(digest, c, j) && i < |c.followers| && Safe(digest, g) && Committed(g) == Committed(c.followers[i])
    requires i == j ==> !CanPrepare(c.leader, g)
    requires StageOk(digest, c.leader, stage) && !stage.Committing?
    requires stage.Preparing? ==> stage.l.lastHash == c.leader.head && (j in stage.waiting || stage.failed)
    ensures Frozen(digest, c.(followers := c.followers[i := g], stage := stage), j)
  {
    hide Safe, CanPrepare, VerifyHash;
  }

  // A leader with the same committed log.
  lemma FrozenLeader(digest: Digest, c: Cluster, j: nat, leader: NodeState, stage: Stage)
    requires Frozen(digest, c, j) && Safe(digest, leader) && leader.index == c.leader.index && Committed(leader) == Committed(c.leader)
    requires StageOk(digest, leader, stage) && !stage.Committing?
    requires stage.Preparing? ==> stage.l.lastHash == leader.head && (j in stage.waiting || stage.failed)
    ensures Frozen(digest, Cluster(leader, c.followers, stage), j)
  {
    hide VerifyHash;
    SameHead(digest, leader, c.leader);
    assert CanPrepare(leader, c.followers[j]) == CanPrepare(c.leader, c.followers[j]);
  }

  lemma SameHead(digest: Digest, a: NodeState, b: NodeState)
    requires Safe(digest, a) && Safe(digest, b) && a.index == b.index && Committed(a) == Committed(b)
    ensures a.head == b.head
  {
    if a.index > 0 {
      assert Committed(a)[a.index - 1] == a.store[a.index] && Committed(b)[a.index - 1] == b.store[a.index];
    }
  }

  lemma FrozenAsked(digest: Digest, c: Cluster, j: nat, e: Event)
    requires Frozen(digest, c, j) && Enabled(digest, c, e) && (e.AskPrepare? || e.AskRollback?)
    ensures Frozen(digest, After(digest, c, e), j)
  {
    hide Safe, VerifyHash, PrepareStep, RollbackStep, CanPrepare;
    var f := c.followers[e.i];
    var d := After(digest, c, e);
    if e.AskPrepare? {
      PrepareSafe(digest, f, Some(c.stage.l), e.io);
      if e.i == j { StuckPrepare(digest, c.leader, c.stage.l, f, e.io); }
    } else {
      RollbackSafe(digest, f, Some(c.stage.l), e.io);
      if e.i == j { StuckRollback(digest, c.leader, c.stage.l, f, e.io); }
    }
    FrozenReplace(digest, c, j, e.i, d.followers[e.i], d.stage);
    assert d == c.(followers := c.followers[e.i := d.followers[e.i]], stage := d.stage);
  }

  lemma FrozenStep(digest: Digest, c: Cluster, j: nat, e: Event)
    requires Frozen(digest, c, j) && Enabled(digest, c, e)
    ensures Frozen(digest, After(digest, c, e), j)
  {
    hide Safe, VerifyHash, RestartStep, LocalPrepare, LocalRollback, CanPrepare;
    match e
    case Begin(data) => FrozenLeader(digest, c, j, c.leader, After(digest, c, e).stage);
    case AskPrepare(_, _, _, _) => FrozenAsked(digest, c, j, e);
    case AskRollback(_, _, _) => FrozenAsked(digest, c, j, e);
    case Decide(io) =>
      LocalRollbackSafe(digest, c.leader, c.stage.l, io);
      FrozenLeader(digest, c, j, LocalRollback(c.leader, c.stage.l, io), After(digest, c, e).stage);
    case FinishRollback => FrozenLeader(digest, c, j, c.leader, Quiet);
    case RestartFollower(i, peersTerm, io) =>
      RestartSafe(digest, c.followers[i], peersTerm, io);
      if i == j { StuckRestart(digest, c.leader, c.followers[i], peersTerm, io); }
      FrozenReplace(digest, c, j, i, RestartStep(c.followers[i], peersTerm, io).0, c.stage);
    case RestartLeader(peersTerm, io) =>
      RestartSafe(digest, c.leader, peersTerm, io);
      FrozenLeader(digest, c, j, RestartStep(c.leader, peersTerm, io).0, Quiet);
    case _ =>
  }

  lemma {:induction false} FrozenRun(digest: Digest, c: Cluster, j: nat, events: seq<Event>)
    requires Frozen(digest, c, j) && EnabledRun(digest, c, events)
    ensures Agreement(digest, AfterRun(digest, c, events))
    decreases |events|
  {
    hide Frozen, Enabled, After, Agreement;
    if events == [] {
      FrozenAgrees(digest, c, j);
    } else {
      FrozenStep(digest, c, j, events[0]);
      FrozenRun(digest, After(digest, c, events[0]), j, events[1..]);
    }
  }

  // ----- both together -----

  lemma CalmInv(digest: Digest, c: Cluster)
    requires Calm(digest, c) && forall i: nat :: i < |c.followers| ==> !Holds(c.leader, c.followers[i])
    ensures Inv(digest, c)
  {
    hide VerifyHash;
    forall i: nat | i < |c.followers|
      ensures Agrees(c.leader, c.stage, c.followers[i]) && Faithful(c.leader, c.stage, c.followers[i], i)
    {
      var f := c.followers[i];
      assert Committed(f) <= Committed(c.leader);
      forall k: uint64 | 1 <= k <= f.index && k <= c.leader.index ensures f.store[k] == c.leader.store[k] {
        assert Committed(f)[k - 1] == Committed(c.leader)[k - 1];
      }
    }
  }

  lemma HeldBreaks(digest: Digest, c: Cluster, i: nat)
    requires Calm(digest, c) && i < |c.followers| && Holds(c.leader, c.followers[i])
    requires forall j: nat :: j < |c.followers| ==> CanPrepare(c.leader, c.followers[j])
    ensures Breakable(digest, c)
  {
    hide Breakable, Safe, CanPrepare, VerifyHash;
    var held := c.followers[i].store[c.leader.index + 1];
    var e := Begin(if held.data == [] then [0] else []);
    var d := After(digest, c, e);
    assert d.stage.l != held;
    assert VerifyHash(digest, d.stage.l);
    assert Doomed(digest, d, i, 0);
    DoomedBreaks(digest, d, i, 0);
    BreakableLater(digest, c, e);
  }

  // Between rounds, disagreement can still arise exactly when some follower holds a prepared entry
  // right behind the leader's commit position - the trace a lost rollback leaves behind - and
  // every follower would prepare the next entry.
  lemma BreakableIff(digest: Digest, c: Cluster)
    requires Calm(digest, c)
    ensures Breakable(digest, c) <==>
            && (exists i: nat :: i < |c.followers| && Holds(c.leader, c.followers[i]))
            && (forall j: nat :: j < |c.followers| ==> CanPrepare(c.leader, c.followers[j]))
  {
    hide CanPrepare, Safe, Holds, VerifyHash, Agreement;
    var held := exists i: nat :: i < |c.followers| && Holds(c.leader, c.followers[i]);
    var able := forall j: nat :: j < |c.followers| ==> CanPrepare(c.leader, c.followers[j]);
    if held && able {
      var i: nat :| i < |c.followers| && Holds(c.leader, c.followers[i]);
      HeldBreaks(digest, c, i);
    } else if Breakable(digest, c) {
      var events :| EnabledRun(digest, c, events) && ReliableRun(digest, c, events)
                    && !Agreement(digest, AfterRun(digest, c, events));
      if !held {
        CalmInv(digest, c);
        RunAgrees(digest, c, events);
      } else {
        var j: nat :| j < |c.followers| && !CanPrepare(c.leader, c.followers[j]);
        CalmFrozen(digest, c, j);
        FrozenRun(digest, c, j, events);
      }
    }
  }

  lemma CalmFrozen(digest: Digest, c: Cluster, j: nat)
    requires Calm(digest, c) && j < |c.followers| && !CanPrepare(c.leader, c.followers[j])
    ensures Frozen(digest, c, j)
  {
    hide CanPrepare, Safe, VerifyHash;
  }

  // A follower that has committed what the leader has can always prepare.
  lemma CaughtUpCanPrepare(digest: Digest, leader: NodeState, f: NodeState)
    requires Safe(digest, leader) && CaughtUp(digest, leader, f)
    ensures CanPrepare(leader, f)
  {
    hide VerifyHash;
    if f.index > 0 {
      assert f.store[f.index] == leader.store[f.index];
    }
  }
}
