// A leader driving any number of followers through two-phase commit rounds
// (twopc/twopc.go, kayak/twopc_runner.go). Requests of one phase reach the followers in any
// order; each is handled before the leader moves on, or never.

module KayakCluster {
  import opened Common
  import opened KayakLog
  import opened KayakNode
  import opened KayakChain

  // Where the leader stands in Coordinator.Put; `waiting` are the followers still to be asked.
  datatype Stage =
    | Quiet
    | Preparing(l: Log, waiting: set<nat>, failed: bool)
    | Committing(l: Log, waiting: set<nat>)
    | RollingBack(l: Log, waiting: set<nat>)

  datatype Cluster = Cluster(leader: NodeState, followers: seq<NodeState>, stage: Stage)

  datatype Event =
    | Begin(data: Payload)
    | AskPrepare(i: nat, delivered: bool, answered: bool, io: Io)
    | Decide(io: Io)
    | AskCommit(i: nat, delivered: bool, io: Io)
    | FinishCommit(io: Io)
    | AskRollback(i: nat, delivered: bool, io: Io)
    | FinishRollback
    | RestartFollower(i: nat, peersTerm: uint64, io: Io)
    | RestartLeader(peersTerm: uint64, io: Io)

  function Below(n: nat): (s: set<nat>)
    ensures forall i: nat :: i in s <==> i < n
  {
    if n == 0 then {} else Below(n - 1) + {n - 1}
  }

  function Everyone(c: Cluster): set<nat> {
    Below(|c.followers|)
  }

  ghost predicate Enabled(digest: Digest, c: Cluster, e: Event) {
    match e
    case Begin(data) => c.stage.Quiet? && c.leader.index + 1 < MAX_UINT64
    case AskPrepare(i, _, _, _) => c.stage.Preparing? && i < |c.followers| && i in c.stage.waiting
    case Decide(_) => c.stage.Preparing? && c.stage.waiting == {}
    case AskCommit(i, _, _) => c.stage.Committing? && i < |c.followers| && i in c.stage.waiting
    case FinishCommit(_) => c.stage.Committing? && c.stage.waiting == {}
    case AskRollback(i, _, _) => c.stage.RollingBack? && i < |c.followers| && i in c.stage.waiting
    case FinishRollback => c.stage.RollingBack? && c.stage.waiting == {}
    case RestartFollower(i, peersTerm, io) =>
      i < |c.followers| && RestartStep(c.followers[i], peersTerm, io).1.Ok?
    case RestartLeader(peersTerm, io) =>
      c.stage.Quiet? && RestartStep(c.leader, peersTerm, io).1.Ok?
  }

  // What agreement relies on: committed indexes reach the stable store, and a follower that
  // holds an entry prepared right at its commit position hears the rollback, its stores and
  // storage worker letting it through.
  ghost predicate Reliable(c: Cluster, e: Event) {
    && (e.AskCommit? || e.FinishCommit? ==> e.io.stableStore)
    && (e.AskRollback? && e.i < |c.followers| && Holds(c.leader, c.followers[e.i]) ==>
          e.delivered && e.io.lastIndex && e.io.getLog && e.io.rollback)
  }

  function After(digest: Digest, c: Cluster, e: Event): Cluster
    requires Enabled(digest, c, e)
  {
    match e
    case Begin(data) => c.(stage := Preparing(NewLog(digest, c.leader, data), Everyone(c), false))
    case AskPrepare(i, delivered, answered, io) =>
      var (f, r) := PrepareStep(digest, c.followers[i], Some(c.stage.l), io);
      var good := delivered && answered && r.Ok?;
      c.(followers := if delivered then c.followers[i := f] else c.followers,
         stage := Preparing(c.stage.l, c.stage.waiting - {i}, c.stage.failed || !good))
    case Decide(io) =>
      var l := c.stage.l;
      var (s, r) := if c.stage.failed then (c.leader, Err(StorageFailure)) else LocalPrepare(c.leader, l, io);
      if r.Ok? then c.(leader := s, stage := Committing(l, Everyone(c)))
      else c.(leader := LocalRollback(s, l, io), stage := RollingBack(l, Everyone(c)))
    case AskCommit(i, delivered, io) =>
      c.(followers := if delivered then c.followers[i := CommitStep(digest, c.followers[i], Some(c.stage.l), io).0] else c.followers,
         stage := Committing(c.stage.l, c.stage.waiting - {i}))
    case FinishCommit(io) => c.(leader := LocalCommit(c.leader, c.stage.l, io).0, stage := Quiet)
    case AskRollback(i, delivered, io) =>
      c.(followers := if delivered then c.followers[i := RollbackStep(digest, c.followers[i], Some(c.stage.l), io).0] else c.followers,
         stage := RollingBack(c.stage.l, c.stage.waiting - {i}))
    case FinishRollback => c.(stage := Quiet)
    case RestartFollower(i, peersTerm, io) =>
      c.(followers := c.followers[i := RestartStep(c.followers[i], peersTerm, io).0])
    case RestartLeader(peersTerm, io) => c.(leader := RestartStep(c.leader, peersTerm, io).0)
  }

  ghost predicate EnabledRun(digest: Digest, c: Cluster, events: seq<Event>)
    decreases |events|
  {
    events == [] ||
    (Enabled(digest, c, events[0]) && EnabledRun(digest, After(digest, c, events[0]), events[1..]))
  }

  ghost predicate ReliableRun(digest: Digest, c: Cluster, events: seq<Event>)
    requires EnabledRun(digest, c, events)
    decreases |events|
  {
    events == [] ||
    (Reliable(c, events[0]) && ReliableRun(digest, After(digest, c, events[0]), events[1..]))
  }

  ghost function AfterRun(digest: Digest, c: Cluster, events: seq<Event>): Cluster
    requires EnabledRun(digest, c, events)
    decreases |events|
  {
    if events == [] then c else AfterRun(digest, After(digest, c, events[0]), events[1..])
  }

  ghost predicate Leads(digest: Digest, c: Cluster, events: seq<Event>, d: Cluster) {
    EnabledRun(digest, c, events) && AfterRun(digest, c, events) == d
  }

  lemma {:induction false} LeadsOn(digest: Digest, c: Cluster, events: seq<Event>, d: Cluster, e: Event)
    requires Leads(digest, c, events, d) && Enabled(digest, d, e)
    ensures Leads(digest, c, events + [e], After(digest, d, e))
    decreases |events|
  {
    if events == [] {
      assert [e][1..] == [];
      assert EnabledRun(digest, After(digest, c, e), []);
    } else {
      LeadsOn(digest, After(digest, c, events[0]), events[1..], d, e);
      assert (events + [e])[1..] == events[1..] + [e];
    }
  }

  // ----- invariant -----

  // The follower is at the leader's commit position and has an entry prepared right behind it.
  ghost predicate Holds(leader: NodeState, f: NodeState) {
    f.index == leader.index && f.phase == Prepared && leader.index < MAX_UINT64 && (leader.index + 1) in f.store
  }

  ghost predicate NodesSafe(digest: Digest, c: Cluster) {
    Safe(digest, c.leader) && forall i :: 0 <= i < |c.followers| ==> Safe(digest, c.followers[i])
  }

  // The entry of the round in progress extends the leader's log; while it is being committed
  // the leader has it stored.
  ghost predicate StageOk(digest: Digest, leader: NodeState, stage: Stage) {
    stage.Quiet? ||
    (&& leader.index < MAX_UINT64 && stage.l.index == leader.index + 1 && VerifyHash(digest, stage.l)
     && (stage.Committing? ==> stage.l.index in leader.store && leader.store[stage.l.index] == stage.l))
  }

  ghost predicate SameCommitted(a: NodeState, b: NodeState) {
    && a.index == b.index
    && forall k: uint64 :: 1 <= k <= a.index ==> k in a.store && k in b.store && a.store[k] == b.store[k]
  }

  // What a follower has committed the leader has too, up to the entry being committed.
  ghost predicate Agrees(leader: NodeState, stage: Stage, f: NodeState) {
    && f.index <= leader.index + (if stage.Committing? then 1 else 0)
    && (forall k: uint64 :: 1 <= k <= f.index && k <= leader.index ==>
          k in f.store && k in leader.store && f.store[k] == leader.store[k])
    && (f.index > leader.index ==>
          stage.Committing? && f.index in f.store && f.store[f.index] == stage.l && f.phase == Idle)
  }

  // A follower that could commit next can only commit the entry of the round in progress.
  ghost predicate Faithful(leader: NodeState, stage: Stage, f: NodeState, i: nat) {
    Holds(leader, f) ==>
      && !stage.Quiet?
      && f.store[leader.index + 1] == stage.l
      && (stage.RollingBack? ==> i in stage.waiting)
  }

  ghost predicate FollowersOk(c: Cluster) {
    forall i: nat :: i < |c.followers| ==>
      Agrees(c.leader, c.stage, c.followers[i]) && Faithful(c.leader, c.stage, c.followers[i], i)
  }

  ghost predicate Inv(digest: Digest, c: Cluster) {
    NodesSafe(digest, c) && StageOk(digest, c.leader, c.stage) && FollowersOk(c)
  }

  // The leader's committed entries and, while the followers are told to commit, the new one.
  ghost function Decided(c: Cluster): seq<Log>
    requires forall k: uint64 :: 1 <= k <= c.leader.index ==> k in c.leader.store
  {
    Committed(c.leader) + if c.stage.Committing? then [c.stage.l] else []
  }

  ghost predicate Agreement(digest: Digest, c: Cluster) {
    && NodesSafe(digest, c)
    && forall i :: 0 <= i < |c.followers| ==> Committed(c.followers[i]) <= Decided(c)
  }

  lemma InvAgreement(digest: Digest, c: Cluster)
    requires Inv(digest, c)
    ensures Agreement(digest, c)
  {
    hide VerifyHash, Faithful, Holds;
    var decided := Decided(c);
    forall i | 0 <= i < |c.followers|
      ensures Committed(c.followers[i]) <= decided
    {
      var f := c.followers[i];
      assert Agrees(c.leader, c.stage, f);
      forall k: nat | k < f.index
        ensures Committed(f)[k] == decided[k]
      {
        var key: uint64 := k + 1;
        assert Committed(f)[k] == f.store[key];
      }
    }
  }

  // ----- every event keeps the invariant -----

  lemma PrepareKeeps(digest: Digest, leader: NodeState, stage: Stage, f: NodeState, i: nat, io: Io)
    requires Safe(digest, leader) && Safe(digest, f) && StageOk(digest, leader, stage) && stage.Preparing?
    requires Agrees(leader, stage, f) && Faithful(leader, stage, f, i)
    ensures var g := PrepareStep(digest, f, Some(stage.l), io).0;
            Safe(digest, g) && Agrees(leader, stage, g) && Faithful(leader, stage, g, i)
  {
    PrepareSafe(digest, f, Some(stage.l), io);
    var g := PrepareStep(digest, f, Some(stage.l), io).0;
    assert g == f || (stage.l.index !in f.store && g.store == f.store[stage.l.index := stage.l]);
  }

  lemma CommitKeeps(digest: Digest, leader: NodeState, stage: Stage, f: NodeState, i: nat, io: Io)
    requires Safe(digest, leader) && Safe(digest, f) && StageOk(digest, leader, stage) && stage.Committing?
    requires Agrees(leader, stage, f) && Faithful(leader, stage, f, i) && io.stableStore
    ensures var g := CommitStep(digest, f, Some(stage.l), io).0;
            Safe(digest, g) && Agrees(leader, stage, g) && Faithful(leader, stage, g, i)
  {
    CommitSafe(digest, f, Some(stage.l), io);
  }

  lemma RollbackKeeps(digest: Digest, leader: NodeState, stage: Stage, f: NodeState, i: nat, io: Io)
    requires Safe(digest, leader) && Safe(digest, f) && StageOk(digest, leader, stage) && stage.RollingBack?
    requires Agrees(leader, stage, f) && Faithful(leader, stage, f, i)
    requires Holds(leader, f) ==> io.lastIndex && io.getLog && io.rollback
    ensures var g := RollbackStep(digest, f, Some(stage.l), io).0;
            Safe(digest, g) && Agrees(leader, stage, g) && !Holds(leader, g)
  {
    RollbackSafe(digest, f, Some(stage.l), io);
  }

  lemma RestartKeeps(digest: Digest, leader: NodeState, stage: Stage, f: NodeState, i: nat, peersTerm: uint64, io: Io)
    requires Safe(digest, leader) && Safe(digest, f) && Agrees(leader, stage, f)
    requires RestartStep(f, peersTerm, io).1.Ok?
    ensures var g := RestartStep(f, peersTerm, io).0;
            Safe(digest, g) && Agrees(leader, stage, g) && Faithful(leader, stage, g, i)
  {
    RestartSafe(digest, f, peersTerm, io);
  }

  // Replacing follower i by a good one keeps the invariant as the waiting set shrinks by i.
  lemma ReplaceFollower(digest: Digest, c: Cluster, i: nat, g: NodeState, stage: Stage)
    requires Inv(digest, c) && i < |c.followers|
    requires StageOk(digest, c.leader, stage)
    requires c.stage.Quiet? == stage.Quiet? && c.stage.RollingBack? == stage.RollingBack?
    requires c.stage.Committing? == stage.Committing?
    requires !stage.Quiet? ==> stage.l == c.stage.l && c.stage.waiting - {i} <= stage.waiting
    requires Safe(digest, g) && Agrees(c.leader, stage, g) && Faithful(c.leader, stage, g, i)
    ensures Inv(digest, c.(followers := c.followers[i := g], stage := stage))
  {
    var d := c.(followers := c.followers[i := g], stage := stage);
    forall j: nat | j < |d.followers|
      ensures Agrees(d.leader, d.stage, d.followers[j]) && Faithful(d.leader, d.stage, d.followers[j], j)
    {
      if j != i {
        assert Agrees(c.leader, c.stage, c.followers[j]) && Faithful(c.leader, c.stage, c.followers[j], j);
      }
    }
  }

  lemma AskPrepareKeeps(digest: Digest, c: Cluster, e: Event)
    requires Inv(digest, c) && Enabled(digest, c, e) && e.AskPrepare?
    ensures Inv(digest, After(digest, c, e))
  {
    hide Safe, Holds, VerifyHash, PrepareStep, CommitStep, RollbackStep;
    var f := c.followers[e.i];
    var d := After(digest, c, e);
    assert Agrees(c.leader, c.stage, f) && Faithful(c.leader, c.stage, f, e.i);
    var g := if e.delivered then PrepareStep(digest, f, Some(c.stage.l), e.io).0 else f;
    PrepareKeeps(digest, c.leader, c.stage, f, e.i, e.io);
    ReplaceFollower(digest, c, e.i, g, d.stage);
    assert d == c.(followers := c.followers[e.i := g], stage := d.stage);
  }

  lemma AskCommitKeeps(digest: Digest, c: Cluster, e: Event)
    requires Inv(digest, c) && Enabled(digest, c, e) && Reliable(c, e) && e.AskCommit?
    ensures Inv(digest, After(digest, c, e))
  {
    hide Safe, Holds, VerifyHash, PrepareStep, CommitStep, RollbackStep;
    var f := c.followers[e.i];
    var d := After(digest, c, e);
    assert Agrees(c.leader, c.stage, f) && Faithful(c.leader, c.stage, f, e.i);
    var g := if e.delivered then CommitStep(digest, f, Some(c.stage.l), e.io).0 else f;
    CommitKeeps(digest, c.leader, c.stage, f, e.i, e.io);
    ReplaceFollower(digest, c, e.i, g, d.stage);
    assert d == c.(followers := c.followers[e.i := g], stage := d.stage);
  }

  lemma AskRollbackKeeps(digest: Digest, c: Cluster, e: Event)
    requires Inv(digest, c) && Enabled(digest, c, e) && Reliable(c, e) && e.AskRollback?
    ensures Inv(digest, After(digest, c, e))
  {
    hide Safe, Holds, VerifyHash, PrepareStep, CommitStep, RollbackStep;
    var f := c.followers[e.i];
    var d := After(digest, c, e);
    assert Agrees(c.leader, c.stage, f) && Faithful(c.leader, c.stage, f, e.i);
    var g := if e.delivered then RollbackStep(digest, f, Some(c.stage.l), e.io).0 else f;
    if e.delivered { RollbackKeeps(digest, c.leader, c.stage, f, e.i, e.io); }
    ReplaceFollower(digest, c, e.i, g, d.stage);
    assert d == c.(followers := c.followers[e.i := g], stage := d.stage);
  }

  lemma RestartFollowerKeeps(digest: Digest, c: Cluster, e: Event)
    requires Inv(digest, c) && Enabled(digest, c, e) && e.RestartFollower?
    ensures Inv(digest, After(digest, c, e))
  {
    var f := c.followers[e.i];
    assert Agrees(c.leader, c.stage, f);
    RestartKeeps(digest, c.leader, c.stage, f, e.i, e.peersTerm, e.io);
    ReplaceFollower(digest, c, e.i, RestartStep(f, e.peersTerm, e.io).0, c.stage);
  }

  // The leader's own steps leave the followers alone. What they need of the new leader state:
  // the same commit position and the same committed entries.
  lemma LeaderMoves(digest: Digest, c: Cluster, leader: NodeState, stage: Stage)
    requires Inv(digest, c) && Safe(digest, leader) && StageOk(digest, leader, stage)
    requires SameCommitted(leader, c.leader)
    requires c.stage.Committing? ==> stage.Committing?
    requires c.stage.RollingBack? ==> c.stage.waiting == {}
    requires !stage.Quiet? && !c.stage.Quiet? ==> stage.l == c.stage.l
    requires stage.Quiet? ==> c.stage.Quiet? || c.stage.RollingBack?
    requires stage.RollingBack? ==> stage.waiting == Everyone(c)
    ensures Inv(digest, Cluster(leader, c.followers, stage))
  {
    forall i: nat | i < |c.followers|
      ensures Agrees(leader, stage, c.followers[i]) && Faithful(leader, stage, c.followers[i], i)
    {
      var f := c.followers[i];
      assert Agrees(c.leader, c.stage, f) && Faithful(c.leader, c.stage, f, i);
    }
  }

  lemma FinishAgrees(leader: NodeState, stage: Stage, leader': NodeState, f: NodeState, i: nat)
    requires stage.Committing? && leader.index < MAX_UINT64 && stage.l.index == leader.index + 1
    requires stage.l.index in leader.store && leader.store[stage.l.index] == stage.l
    requires leader'.index == stage.l.index && leader'.store == leader.store
    requires Agrees(leader, stage, f) && Faithful(leader, stage, f, i)
    ensures Agrees(leader', Quiet, f) && Faithful(leader', Quiet, f, i)
  {
  }

  lemma FinishCommitKeeps(digest: Digest, c: Cluster, e: Event)
    requires Inv(digest, c) && Enabled(digest, c, e) && Reliable(c, e) && e.FinishCommit?
    ensures Inv(digest, After(digest, c, e))
    ensures Committed(After(digest, c, e).leader) == Committed(c.leader) + [c.stage.l]
  {
    hide Holds, VerifyHash, Agrees, Faithful;
    var d := After(digest, c, e);
    LocalCommitSafe(digest, c.leader, c.stage.l, e.io);
    forall i: nat | i < |c.followers|
      ensures Agrees(d.leader, d.stage, d.followers[i]) && Faithful(d.leader, d.stage, d.followers[i], i)
    {
      assert Agrees(c.leader, c.stage, c.followers[i]) && Faithful(c.leader, c.stage, c.followers[i], i);
      FinishAgrees(c.leader, c.stage, d.leader, c.followers[i], i);
    }
  }

  lemma LocalPrepareKeeps(digest: Digest, s: NodeState, l: Log, io: Io)
    requires Safe(digest, s) && s.index < MAX_UINT64 && l.index == s.index + 1 && VerifyHash(digest, l)
    ensures var (t, r) := LocalPrepare(s, l, io);
            Safe(digest, t) && SameCommitted(t, s) && (r.Ok? ==> l.index in t.store && t.store[l.index] == l)
  {
  }

  lemma LocalRollbackKeeps(digest: Digest, s: NodeState, l: Log, io: Io)
    requires Safe(digest, s) && s.index < MAX_UINT64 && l.index == s.index + 1
    ensures Safe(digest, LocalRollback(s, l, io)) && SameCommitted(LocalRollback(s, l, io), s)
  {
  }

  lemma DecideKeeps(digest: Digest, c: Cluster, e: Event)
    requires Inv(digest, c) && Enabled(digest, c, e) && e.Decide?
    ensures Inv(digest, After(digest, c, e)) && SameCommitted(After(digest, c, e).leader, c.leader)
  {
    var l := c.stage.l;
    var (s, r) := if c.stage.failed then (c.leader, Err(StorageFailure)) else LocalPrepare(c.leader, l, e.io);
    LocalPrepareKeeps(digest, c.leader, l, e.io);
    if r.Ok? {
      LeaderMoves(digest, c, s, Committing(l, Everyone(c)));
    } else {
      LocalRollbackKeeps(digest, s, l, e.io);
      LeaderMoves(digest, c, LocalRollback(s, l, e.io), RollingBack(l, Everyone(c)));
    }
  }

  lemma SameCommittedLog(a: NodeState, b: NodeState)
    requires SameCommitted(a, b)
    ensures Committed(a) == Committed(b)
  {
  }

  lemma EventKeeps(digest: Digest, c: Cluster, e: Event)
    requires Inv(digest, c) && Enabled(digest, c, e) && Reliable(c, e)
    ensures Inv(digest, After(digest, c, e))
    ensures Committed(c.leader) <= Committed(After(digest, c, e).leader)
  {
    match e
    case Begin(_) => LeaderMoves(digest, c, c.leader, After(digest, c, e).stage);
    case AskPrepare(_, _, _, _) => AskPrepareKeeps(digest, c, e);
    case Decide(_) =>
      DecideKeeps(digest, c, e);
      SameCommittedLog(After(digest, c, e).leader, c.leader);
    case AskCommit(_, _, _) => AskCommitKeeps(digest, c, e);
    case FinishCommit(_) => FinishCommitKeeps(digest, c, e);
    case AskRollback(_, _, _) => AskRollbackKeeps(digest, c, e);
    case FinishRollback => LeaderMoves(digest, c, c.leader, Quiet);
    case RestartFollower(_, _, _) => RestartFollowerKeeps(digest, c, e);
    case RestartLeader(peersTerm, io) =>
      RestartSafe(digest, c.leader, peersTerm, io);
      LeaderMoves(digest, c, After(digest, c, e).leader, Quiet);
  }

  // Agreement: however rounds, lost requests, failures and restarts interleave, every follower's
  // committed log is a prefix of what the leader has decided, and the leader never takes back.
  lemma {:induction false} RunAgrees(digest: Digest, c: Cluster, events: seq<Event>)
    requires Inv(digest, c) && EnabledRun(digest, c, events) && ReliableRun(digest, c, events)
    ensures var d := AfterRun(digest, c, events);
            Inv(digest, d) && Agreement(digest, d) && Committed(c.leader) <= Committed(d.leader)
    decreases |events|
  {
    InvAgreement(digest, c);
    if events != [] {
      EventKeeps(digest, c, events[0]);
      RunAgrees(digest, After(digest, c, events[0]), events[1..]);
    }
  }

  function FreshCluster(n: nat): Cluster {
    Cluster(FRESH, seq(n, _ => FRESH), Quiet)
  }

  lemma FreshClusterInv(digest: Digest, n: nat)
    ensures Inv(digest, FreshCluster(n))
  {
  }

  // Any two followers have committed the same entries as far as both of them got.
  lemma FollowersConsistent(digest: Digest, n: nat, events: seq<Event>, i: nat, j: nat)
    requires EnabledRun(digest, FreshCluster(n), events) && ReliableRun(digest, FreshCluster(n), events)
    requires var d := AfterRun(digest, FreshCluster(n), events); i < |d.followers| && j < |d.followers|
    ensures var d := AfterRun(digest, FreshCluster(n), events);
            && NodesSafe(digest, d)
            && (|| Committed(d.followers[i]) <= Committed(d.followers[j])
                || Committed(d.followers[j]) <= Committed(d.followers[i]))
  {
    FreshClusterInv(digest, n);
    RunAgrees(digest, FreshCluster(n), events);
    var d := AfterRun(digest, FreshCluster(n), events);
    assert Committed(d.followers[i]) <= Decided(d) && Committed(d.followers[j]) <= Decided(d);
  }

  // The follower has committed what the leader has.
  ghost predicate CaughtUp(digest: Digest, leader: NodeState, f: NodeState) {
    Safe(digest, f) && SameCommitted(leader, f)
  }
}
