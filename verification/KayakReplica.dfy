// Replicas: a cluster whose nodes each drive a storage worker (kayak/twopc_runner.go over
// sqlchain/storage/storage.go). What a worker answers is no longer left open: it follows from what
// the worker was told before.

module KayakReplica {
  import opened Common
  import opened KayakLog
  import opened KayakNode
  import opened KayakAnswers
  import opened KayakCluster
  import S = Storage

  // A payload is a batch of queries under a transaction id.
  datatype Batch<Q> = Batch(id: S.TxID, queries: seq<Q>)

  datatype Setup<!D, !Q> = Setup(digest: Digest, decode: Payload -> Batch<Q>, run: S.Engine<D, Q>, start: D)

  datatype System<D, Q> = System(c: Cluster, lead: S.State<D, Q>, workers: seq<S.State<D, Q>>)

  // How a worker fares when it is called: whether its check of the request (worker/db_storage.go)
  // lets a Prepare or Commit through, and a Rollback; whether a transaction can be begun, how many
  // queries are reached, and whether the SQL commit works.
  datatype Sql = Sql(admits: bool, undoes: bool, begins: bool, reach: nat, durable: bool)

  // ----- the workers -----

  function Prepares<D, Q>(su: Setup<D, Q>, w: S.State<D, Q>, l: Log, sql: Sql): (S.State<D, Q>, bool) {
    if !sql.admits then (w, false) else
    var (v, err) := S.PrepareStep(w, su.decode(l.data).id, su.decode(l.data).queries, sql.begins);
    (v, err == S.NoError)
  }

  function Commits<D, Q>(su: Setup<D, Q>, w: S.State<D, Q>, l: Log, sql: Sql): (S.State<D, Q>, bool) {
    if !sql.admits then (w, false) else
    var (v, err) := S.CommitStep(su.run, w, su.decode(l.data).id, sql.reach, sql.durable);
    (v, err == S.NoError)
  }

  function RollsBack<D, Q>(su: Setup<D, Q>, w: S.State<D, Q>, l: Log, sql: Sql): (S.State<D, Q>, bool) {
    if !sql.undoes then (w, false) else
    var (v, err) := S.RollbackStep(w, su.decode(l.data).id);
    (v, err == S.NoError)
  }

  // A process that starts finds the database and no transaction.
  function Reopened<D, Q>(w: S.State<D, Q>): S.State<D, Q> {
    S.State(w.db, None, S.NO_ID, [])
  }

  // Whether a handler gets as far as its worker: the worker's refusal would show.

  predicate PrepareAsks(digest: Digest, f: NodeState, l: Log, io: Io) {
    PrepareStep(digest, f, Some(l), io.(prepare := false)).1 == Err(StorageFailure)
  }

  predicate CommitAsks(digest: Digest, f: NodeState, l: Log, io: Io) {
    CommitStep(digest, f, Some(l), io.(commit := false)).1 == Err(StorageFailure)
  }

  predicate RollbackAsks(digest: Digest, f: NodeState, l: Log, io: Io) {
    RollbackStep(digest, f, Some(l), io.(rollback := false)).1 == Err(StorageFailure)
  }

  // ----- the system -----

  // The worker of the follower a call goes to, with its answer.
  function Told<D, Q>(su: Setup<D, Q>, sys: System<D, Q>, e: Event, sql: Sql): (S.State<D, Q>, bool)
    requires |sys.workers| == |sys.c.followers| && Enabled(su.digest, sys.c, e) && (e.AskPrepare? || e.AskCommit? || e.AskRollback?)
  {
    var f, w, l := sys.c.followers[e.i], sys.workers[e.i], sys.c.stage.l;
    if e.AskPrepare? then if e.delivered && PrepareAsks(su.digest, f, l, e.io) then Prepares(su, w, l, sql) else (w, false)
    else if e.AskCommit? then if e.delivered && CommitAsks(su.digest, f, l, e.io) then Commits(su, w, l, sql) else (w, false)
    else if e.delivered && RollbackAsks(su.digest, f, l, e.io) then RollsBack(su, w, l, sql) else (w, false)
  }

  // The leader's own worker: prepared once everyone else has, and rolled back with the round.
  function LeadDecides<D, Q>(su: Setup<D, Q>, w: S.State<D, Q>, l: Log, failed: bool, io: Io, sql: Sql): (S.State<D, Q>, bool) {
    if failed then (RollsBack(su, w, l, sql).0, false) else
    var (v, ok) := Prepares(su, w, l, sql);
    if ok && io.storeLog then (v, true) else (RollsBack(su, v, l, sql).0, ok)
  }

  // The event as it turns out, with the workers' answers in it.
  function Actual<D, Q>(su: Setup<D, Q>, sys: System<D, Q>, e: Event, sql: Sql): Event
    requires |sys.workers| == |sys.c.followers| && Enabled(su.digest, sys.c, e)
  {
    match e
    case AskPrepare(i, delivered, answered, io) => AskPrepare(i, delivered, answered, io.(prepare := Told(su, sys, e, sql).1))
    case Decide(io) => Decide(io.(prepare := LeadDecides(su, sys.lead, sys.c.stage.l, sys.c.stage.failed, io, sql).1))
    case AskCommit(i, delivered, io) => AskCommit(i, delivered, io.(commit := Told(su, sys, e, sql).1))
    case FinishCommit(io) => FinishCommit(io.(commit := Commits(su, sys.lead, sys.c.stage.l, sql).1))
    case AskRollback(i, delivered, io) => AskRollback(i, delivered, io.(rollback := Told(su, sys, e, sql).1))
    case _ => e
  }

  function Evolve<D, Q>(su: Setup<D, Q>, sys: System<D, Q>, e: Event, sql: Sql): (next: System<D, Q>)
    requires |sys.workers| == |sys.c.followers| && Enabled(su.digest, sys.c, e)
    ensures |next.workers| == |next.c.followers| == |sys.workers|
  {
    var c := After(su.digest, sys.c, Actual(su, sys, e, sql));
    match e
    case AskPrepare(i, _, _, _) => System(c, sys.lead, sys.workers[i := Told(su, sys, e, sql).0])
    case AskCommit(i, _, _) => System(c, sys.lead, sys.workers[i := Told(su, sys, e, sql).0])
    case AskRollback(i, _, _) => System(c, sys.lead, sys.workers[i := Told(su, sys, e, sql).0])
    case Decide(io) => System(c, LeadDecides(su, sys.lead, sys.c.stage.l, sys.c.stage.failed, io, sql).0, sys.workers)
    case FinishCommit(_) => System(c, Commits(su, sys.lead, sys.c.stage.l, sql).0, sys.workers)
    case RestartFollower(i, _, _) => System(c, sys.lead, sys.workers[i := Reopened(sys.workers[i])])
    case RestartLeader(_, _) => System(c, Reopened(sys.lead), sys.workers)
    case _ => System(c, sys.lead, sys.workers)
  }

  // ----- invariant -----

  ghost function Batches<D, Q>(su: Setup<D, Q>, log: seq<Log>): (bs: seq<seq<Q>>)
    ensures |bs| == |log|
  {
    seq(|log|, i requires 0 <= i < |log| => su.decode(log[i].data).queries)
  }

  // The database is what the committed log makes of the one everybody started with.
  ghost predicate Replays<D(!new), Q>(su: Setup<D, Q>, s: NodeState, w: S.State<D, Q>) {
    && (forall k: uint64 :: 1 <= k <= s.index ==> k in s.store)
    && S.Replay(su.run, su.start, Batches(su, Committed(s))) == Some(w.db)
  }

  // The batch of the entry is open on the worker.
  ghost predicate OpenFor<D(!new), Q>(su: Setup<D, Q>, w: S.State<D, Q>, l: Log) {
    w.tx == Some(w.db) && w.id == su.decode(l.data).id && w.queries == su.decode(l.data).queries
  }

  ghost predicate WorkerOk<D(!new), Q>(su: Setup<D, Q>, leader: NodeState, f: NodeState, w: S.State<D, Q>) {
    && Replays(su, f, w) && (w.tx.Some? ==> w.tx.value == w.db)
    && (Holds(leader, f) ==> OpenFor(su, w, f.store[leader.index + 1]))
  }

  ghost predicate LeadOk<D(!new), Q>(su: Setup<D, Q>, leader: NodeState, stage: Stage, w: S.State<D, Q>) {
    Replays(su, leader, w) && if stage.Committing? then OpenFor(su, w, stage.l) else w.tx.None?
  }

  ghost predicate SystemInv<D(!new), Q>(su: Setup<D, Q>, sys: System<D, Q>) {
    && Inv(su.digest, sys.c) && |sys.workers| == |sys.c.followers| && LeadOk(su, sys.c.leader, sys.c.stage, sys.lead)
    && forall i :: 0 <= i < |sys.workers| ==> WorkerOk(su, sys.c.leader, sys.c.followers[i], sys.workers[i])
  }

  // What is relied on: commit positions reach the stable store, rollbacks reach the followers that
  // hold the entry and find working log stores, the request check does not turn commits and
  // rollbacks away, no query of a committed batch fails, and SQL commits work. Nothing is said
  // about when the workers themselves accept a call.
  ghost predicate Sturdy<D, Q>(su: Setup<D, Q>, sys: System<D, Q>, e: Event, sql: Sql)
    requires |sys.workers| == |sys.c.followers| && Enabled(su.digest, sys.c, e)
  {
    && (e.AskCommit? || e.FinishCommit? ==> e.io.stableStore && sql.admits && sql.durable)
    && (e.AskCommit? ==> NoQueryFails(su, sys.workers[e.i], sys.c.stage.l, sql))
    && (e.FinishCommit? ==> NoQueryFails(su, sys.lead, sys.c.stage.l, sql))
    && (e.AskRollback? && Holds(sys.c.leader, sys.c.followers[e.i]) ==> e.delivered && e.io.lastIndex && e.io.getLog && sql.undoes)
    && (e.Decide? ==> sql.undoes)
  }

  ghost predicate NoQueryFails<D, Q>(su: Setup<D, Q>, w: S.State<D, Q>, l: Log, sql: Sql) {
    S.CommitStep(su.run, w, su.decode(l.data).id, sql.reach, sql.durable).1 != S.ExecFailed
  }

  // ----- one follower -----

  // Committing an open batch adds it to the replay.
  lemma CommitReplays<D(!new), Q>(su: Setup<D, Q>, s: NodeState, w: S.State<D, Q>, t: NodeState, l: Log, sql: Sql)
    requires Replays(su, s, w) && OpenFor(su, w, l) && NoQueryFails(su, w, l, sql) && sql.admits && sql.durable
    requires (forall k: uint64 :: 1 <= k <= t.index ==> k in t.store) && Committed(t) == Committed(s) + [l]
    ensures var (v, ok) := Commits(su, w, l, sql); ok && v.tx.None? && Replays(su, t, v)
  {
    var before, b := Batches(su, Committed(s)), su.decode(l.data).queries;
    assert Batches(su, Committed(t)) == before + [b];
    S.ReplaySnoc(su.run, su.start, before, b, w.db);
    S.ReachDoesNotMatter(su.run, w.db, b, sql.reach);
  }

  lemma SameReplay<D(!new), Q>(su: Setup<D, Q>, s: NodeState, w: S.State<D, Q>, t: NodeState, v: S.State<D, Q>)
    requires Replays(su, s, w) && v.db == w.db
    requires (forall k: uint64 :: 1 <= k <= t.index ==> k in t.store) && Committed(t) == Committed(s)
    ensures Replays(su, t, v)
  {
  }

  lemma PrepareTold<D(!new), Q>(su: Setup<D, Q>, leader: NodeState, l: Log, f: NodeState, w: S.State<D, Q>, io: Io, sql: Sql)
    requires Safe(su.digest, f) && WorkerOk(su, leader, f, w) && leader.index < MAX_UINT64 && l.index == leader.index + 1
    ensures var (v, ok) := if PrepareAsks(su.digest, f, l, io) then Prepares(su, w, l, sql) else (w, false);
            WorkerOk(su, leader, PrepareStep(su.digest, f, Some(l), io.(prepare := ok)).0, v)
  {
    hide VerifyHash, Safe, Replays;
    var (v, ok) := if PrepareAsks(su.digest, f, l, io) then Prepares(su, w, l, sql) else (w, false);
    var g := PrepareStep(su.digest, f, Some(l), io.(prepare := ok)).0;
    PrepareSafe(su.digest, f, Some(l), io.(prepare := ok));
    PreparedMeansStored(su.digest, f, Some(l), io.(prepare := ok));
    assert Safe(su.digest, g);
    SafePresent(su.digest, g);
    SameReplay(su, f, w, g, v);
    if g == f && PrepareAsks(su.digest, f, l, io) {
      AskedIsNew(su.digest, f, l, io);
      assert !Holds(leader, f);
    }
  }

  lemma SafePresent(digest: Digest, s: NodeState)
    requires Safe(digest, s)
    ensures forall k: uint64 :: 1 <= k <= s.index ==> k in s.store
  {
  }

  lemma AskedIsNew(digest: Digest, f: NodeState, l: Log, io: Io)
    requires PrepareAsks(digest, f, l, io)
    ensures LastIndex(f.store) < l.index && l.index !in f.store
  {
  }

  lemma CommitTold<D(!new), Q>(su: Setup<D, Q>, leader: NodeState, stage: Stage, f: NodeState, i: nat, w: S.State<D, Q>, io: Io, sql: Sql)
    requires Safe(su.digest, f) && WorkerOk(su, leader, f, w) && StageOk(su.digest, leader, stage) && stage.Committing?
    requires Faithful(leader, stage, f, i) && sql.admits && sql.durable && io.stableStore && NoQueryFails(su, w, stage.l, sql)
    ensures var (v, ok) := if CommitAsks(su.digest, f, stage.l, io) then Commits(su, w, stage.l, sql) else (w, false);
            WorkerOk(su, leader, CommitStep(su.digest, f, Some(stage.l), io.(commit := ok)).0, v)
  {
    hide VerifyHash, Safe, Replays, CommitStep, CommitAsks, Commits;
    var l := stage.l;
    var (v, ok) := if CommitAsks(su.digest, f, l, io) then Commits(su, w, l, sql) else (w, false);
    var g := CommitStep(su.digest, f, Some(l), io.(commit := ok)).0;
    CommitEffect(su.digest, f, l, io, ok);
    if CommitAsks(su.digest, f, l, io) {
      CommitSafe(su.digest, f, Some(l), io.(commit := ok));
      SafePresent(su.digest, f);
      SafePresent(su.digest, g);
      OneMore(f, g);
      CommitReplays(su, f, w, g, l, sql);
    }
  }

  lemma CommitEffect(digest: Digest, f: NodeState, l: Log, io: Io, ok: bool)
    requires Safe(digest, f)
    ensures var g := CommitStep(digest, f, Some(l), io.(commit := ok)).0;
            if CommitAsks(digest, f, l, io)
            then f.phase == Prepared && g.index == l.index == f.index + 1 && g.index in f.store && g.store == f.store
            else g == f
  {
    hide VerifyHash;
    CommittedIff(digest, f, Some(l), io.(commit := false));
    CommittedIff(digest, f, Some(l), io.(commit := ok));
  }

  // One step further in the same store is one entry more.
  lemma OneMore(f: NodeState, g: NodeState)
    requires (forall k: uint64 :: 1 <= k <= f.index ==> k in f.store) && f.index < MAX_UINT64
    requires g.store == f.store && g.index == f.index + 1 && g.index in g.store
    ensures Committed(g) == Committed(f) + [g.store[g.index]]
  {
  }

  // The worker is never in the way of a rollback that reaches it.
  lemma RollbackTold<D(!new), Q>(su: Setup<D, Q>, leader: NodeState, stage: Stage, f: NodeState, i: nat, w: S.State<D, Q>, io: Io, sql: Sql)
    requires Safe(su.digest, f) && WorkerOk(su, leader, f, w) && StageOk(su.digest, leader, stage) && stage.RollingBack?
    requires Faithful(leader, stage, f, i) && (Holds(leader, f) ==> sql.undoes)
    ensures var (v, ok) := if RollbackAsks(su.digest, f, stage.l, io) then RollsBack(su, w, stage.l, sql) else (w, false);
            && WorkerOk(su, leader, RollbackStep(su.digest, f, Some(stage.l), io.(rollback := ok)).0, v)
            && (Holds(leader, f) && io.lastIndex && io.getLog ==> ok)
  {
    hide VerifyHash, Safe, Replays, RollbackStep, RollbackAsks;
    var l := stage.l;
    var (v, ok) := if RollbackAsks(su.digest, f, l, io) then RollsBack(su, w, l, sql) else (w, false);
    var g := RollbackStep(su.digest, f, Some(l), io.(rollback := ok)).0;
    RollbackEffect(su.digest, f, l, io, ok);
    RollbackSafe(su.digest, f, Some(l), io.(rollback := ok));
    SafePresent(su.digest, g);
    SameReplay(su, f, w, g, v);
    HeldIsAsked(su.digest, leader, stage, f, io);
  }

  lemma RollbackEffect(digest: Digest, f: NodeState, l: Log, io: Io, ok: bool)
    ensures var g := RollbackStep(digest, f, Some(l), io.(rollback := ok)).0;
            if ok && RollbackAsks(digest, f, l, io) then g.phase == Idle else g == f
  {
    hide VerifyHash;
  }

  lemma HeldIsAsked(digest: Digest, leader: NodeState, stage: Stage, f: NodeState, io: Io)
    requires StageOk(digest, leader, stage) && !stage.Quiet? && Safe(digest, f)
    ensures RollbackAsks(digest, f, stage.l, io) ==> Holds(leader, f)
    ensures Holds(leader, f) && io.lastIndex && io.getLog ==> RollbackAsks(digest, f, stage.l, io)
  {
  }

  lemma RestartTold<D(!new), Q>(su: Setup<D, Q>, leader: NodeState, f: NodeState, w: S.State<D, Q>, peersTerm: uint64, io: Io)
    requires Safe(su.digest, f) && WorkerOk(su, leader, f, w) && RestartStep(f, peersTerm, io).1.Ok?
    ensures WorkerOk(su, leader, RestartStep(f, peersTerm, io).0, Reopened(w))
  {
    hide VerifyHash, Safe, Replays, RestartStep;
    var g := RestartStep(f, peersTerm, io).0;
    RestartSafe(su.digest, f, peersTerm, io);
    SafePresent(su.digest, g);
    SameReplay(su, f, w, g, Reopened(w));
  }

  // ----- the leader -----

  lemma LeadWorker<D(!new), Q>(su: Setup<D, Q>, w: S.State<D, Q>, l: Log, failed: bool, io: Io, sql: Sql)
    requires w.tx.None? && sql.undoes
    ensures var (v, ok) := LeadDecides(su, w, l, failed, io, sql);
            && v.db == w.db && if !failed && ok && io.storeLog then OpenFor(su, v, l) else v.tx.None?
  {
  }

  lemma DecideTold<D(!new), Q>(su: Setup<D, Q>, s: NodeState, stage: Stage, w: S.State<D, Q>, io: Io, sql: Sql)
    requires Safe(su.digest, s) && StageOk(su.digest, s, stage) && stage.Preparing? && LeadOk(su, s, stage, w) && sql.undoes
    ensures var (v, ok) := LeadDecides(su, w, stage.l, stage.failed, io, sql);
            var (t, r) := if stage.failed then (s, Err(StorageFailure)) else LocalPrepare(s, stage.l, io.(prepare := ok));
            if r.Ok? then LeadOk(su, t, Committing(stage.l, {}), v)
            else LeadOk(su, LocalRollback(t, stage.l, io.(prepare := ok)), RollingBack(stage.l, {}), v)
  {
    hide VerifyHash, Safe, Replays, LeadDecides, OpenFor;
    var l := stage.l;
    LeadWorker(su, w, l, stage.failed, io, sql);
    var (v, ok) := LeadDecides(su, w, l, stage.failed, io, sql);
    var jo := io.(prepare := ok);
    var (t, r) := if stage.failed then (s, Err(StorageFailure)) else LocalPrepare(s, l, jo);
    LocalPrepareSafe(su.digest, s, l, jo);
    LocalRollbackSafe(su.digest, t, l, jo);
    SafePresent(su.digest, t);
    SafePresent(su.digest, LocalRollback(t, l, jo));
    SameReplay(su, s, w, t, v);
    SameReplay(su, s, w, LocalRollback(t, l, jo), v);
  }

  lemma FinishTold<D(!new), Q>(su: Setup<D, Q>, s: NodeState, stage: Stage, w: S.State<D, Q>, io: Io, sql: Sql)
    requires Safe(su.digest, s) && StageOk(su.digest, s, stage) && stage.Committing? && LeadOk(su, s, stage, w)
    requires io.stableStore && sql.admits && sql.durable && NoQueryFails(su, w, stage.l, sql)
    ensures var (v, ok) := Commits(su, w, stage.l, sql);
            ok && LeadOk(su, LocalCommit(s, stage.l, io.(commit := ok)).0, Quiet, v)
  {
    hide VerifyHash, Safe, Replays;
    var l := stage.l;
    var jo := io.(commit := Commits(su, w, l, sql).1);
    LocalCommitSafe(su.digest, s, l, jo);
    SafePresent(su.digest, LocalCommit(s, l, jo).0);
    CommitReplays(su, s, w, LocalCommit(s, l, jo).0, l, sql);
  }

  // ----- every event -----

  lemma SameHolds<D(!new), Q>(su: Setup<D, Q>, leader: NodeState, leader': NodeState, f: NodeState, w: S.State<D, Q>)
    requires WorkerOk(su, leader, f, w) && (leader'.index == leader.index || !Holds(leader', f))
    ensures WorkerOk(su, leader', f, w)
  {
    hide Replays;
  }

  lemma ActualReliable<D(!new), Q>(su: Setup<D, Q>, sys: System<D, Q>, e: Event, sql: Sql)
    requires SystemInv(su, sys) && Enabled(su.digest, sys.c, e) && Sturdy(su, sys, e, sql)
    ensures Enabled(su.digest, sys.c, Actual(su, sys, e, sql)) && Reliable(sys.c, Actual(su, sys, e, sql))
  {
    hide Safe, VerifyHash, WorkerOk, LeadOk, RollbackAsks, RollsBack, Holds;
    if e.AskRollback? {
      var c := sys.c;
      assert WorkerOk(su, c.leader, c.followers[e.i], sys.workers[e.i]);
      assert Faithful(c.leader, c.stage, c.followers[e.i], e.i);
      RollbackTold(su, c.leader, c.stage, c.followers[e.i], e.i, sys.workers[e.i], e.io, sql);
    }
  }

  // A call to a follower: its worker stays in step, and nobody else is concerned.
  lemma AskedStays<D(!new), Q>(su: Setup<D, Q>, sys: System<D, Q>, e: Event, sql: Sql)
    requires SystemInv(su, sys) && Enabled(su.digest, sys.c, e) && Sturdy(su, sys, e, sql)
    requires e.AskPrepare? || e.AskCommit? || e.AskRollback?
    ensures var g := After(su.digest, sys.c, Actual(su, sys, e, sql)).followers[e.i];
            WorkerOk(su, sys.c.leader, g, Told(su, sys, e, sql).0)
  {
    hide Safe, VerifyHash, WorkerOk, LeadOk, PrepareStep, CommitStep, RollbackStep, PrepareAsks, CommitAsks, RollbackAsks,
         Prepares, Commits, RollsBack, Holds, NoQueryFails;
    var c, f, w := sys.c, sys.c.followers[e.i], sys.workers[e.i];
    assert WorkerOk(su, c.leader, f, w) && Faithful(c.leader, c.stage, f, e.i);
    if e.delivered {
      match e
      case AskPrepare(i, _, _, io) => PrepareTold(su, c.leader, c.stage.l, f, w, io, sql);
      case AskCommit(i, _, io) => CommitTold(su, c.leader, c.stage, f, i, w, io, sql);
      case AskRollback(i, _, io) => RollbackTold(su, c.leader, c.stage, f, i, w, io, sql);
    }
  }

  lemma LeadStays<D(!new), Q>(su: Setup<D, Q>, sys: System<D, Q>, e: Event, sql: Sql)
    requires SystemInv(su, sys) && Enabled(su.digest, sys.c, e) && Sturdy(su, sys, e, sql)
    ensures var next := Evolve(su, sys, e, sql); LeadOk(su, next.c.leader, next.c.stage, next.lead)
  {
    hide Safe, VerifyHash, WorkerOk, Replays, PrepareStep, CommitStep, RollbackStep, Told, LocalPrepare, LocalRollback, LocalCommit,
         RestartStep, NoQueryFails, LeadDecides, Commits;
    var c := sys.c;
    match e
    case Decide(io) => DecideTold(su, c.leader, c.stage, sys.lead, io, sql);
    case FinishCommit(io) => FinishTold(su, c.leader, c.stage, sys.lead, io, sql);
    case RestartLeader(peersTerm, io) =>
      RestartSafe(su.digest, c.leader, peersTerm, io);
      SafePresent(su.digest, RestartStep(c.leader, peersTerm, io).0);
      SameReplay(su, c.leader, sys.lead, RestartStep(c.leader, peersTerm, io).0, Reopened(sys.lead));
    case _ =>
  }

  // Where the leader or a restart is concerned.
  lemma OthersStay<D(!new), Q>(su: Setup<D, Q>, sys: System<D, Q>, e: Event, sql: Sql, i: nat)
    requires SystemInv(su, sys) && Enabled(su.digest, sys.c, e) && Sturdy(su, sys, e, sql) && i < |sys.workers|
    requires !(e.AskPrepare? || e.AskCommit? || e.AskRollback?)
    ensures var next := Evolve(su, sys, e, sql);
            WorkerOk(su, next.c.leader, next.c.followers[i], next.workers[i])
  {
    hide Safe, VerifyHash, WorkerOk, LeadOk, RestartStep, NoQueryFails, LeadDecides, Commits;
    var c := sys.c;
    assert WorkerOk(su, c.leader, c.followers[i], sys.workers[i]) && Agrees(c.leader, c.stage, c.followers[i]);
    if e.RestartFollower? {
      if e.i == i { RestartTold(su, c.leader, c.followers[i], sys.workers[i], e.peersTerm, e.io); }
    } else {
      if e.RestartLeader? { RestartSafe(su.digest, c.leader, e.peersTerm, e.io); }
      SameHolds(su, c.leader, Evolve(su, sys, e, sql).c.leader, c.followers[i], sys.workers[i]);
    }
  }

  lemma WorkersStay<D(!new), Q>(su: Setup<D, Q>, sys: System<D, Q>, e: Event, sql: Sql, i: nat)
    requires SystemInv(su, sys) && Enabled(su.digest, sys.c, e) && Sturdy(su, sys, e, sql) && i < |sys.workers|
    ensures var next := Evolve(su, sys, e, sql);
            WorkerOk(su, next.c.leader, next.c.followers[i], next.workers[i])
  {
    hide Safe, VerifyHash, WorkerOk, LeadOk, PrepareStep, CommitStep, RollbackStep, Told, Sturdy, Inv;
    if e.AskPrepare? || e.AskCommit? || e.AskRollback? {
      AskedStays(su, sys, e, sql);
      assert i != e.i ==> WorkerOk(su, sys.c.leader, sys.c.followers[i], sys.workers[i]);
    } else {
      OthersStay(su, sys, e, sql, i);
    }
  }

  lemma SystemStep<D(!new), Q>(su: Setup<D, Q>, sys: System<D, Q>, e: Event, sql: Sql)
    requires SystemInv(su, sys) && Enabled(su.digest, sys.c, e) && Sturdy(su, sys, e, sql)
    ensures SystemInv(su, Evolve(su, sys, e, sql))
  {
    hide Inv, After, WorkerOk, LeadOk, Sturdy, Told, Enabled, Actual;
    var next := Evolve(su, sys, e, sql);
    ActualReliable(su, sys, e, sql);
    EventKeeps(su.digest, sys.c, Actual(su, sys, e, sql));
    EvolvesCluster(su, sys, e, sql);
    LeadStays(su, sys, e, sql);
    forall i | 0 <= i < |next.workers| ensures WorkerOk(su, next.c.leader, next.c.followers[i], next.workers[i]) {
      WorkersStay(su, sys, e, sql, i);
    }
  }

  lemma EvolvesCluster<D, Q>(su: Setup<D, Q>, sys: System<D, Q>, e: Event, sql: Sql)
    requires |sys.workers| == |sys.c.followers| && Enabled(su.digest, sys.c, e)
    ensures Evolve(su, sys, e, sql).c == After(su.digest, sys.c, Actual(su, sys, e, sql))
  {
    hide After, Told;
  }

  // ----- runs -----

  datatype Move = Move(e: Event, sql: Sql)

  ghost predicate SturdyRun<D(!new), Q>(su: Setup<D, Q>, sys: System<D, Q>, moves: seq<Move>)
    requires |sys.workers| == |sys.c.followers|
    decreases |moves|
  {
    moves == [] ||
    (&& Enabled(su.digest, sys.c, moves[0].e) && Sturdy(su, sys, moves[0].e, moves[0].sql)
     && SturdyRun(su, Evolve(su, sys, moves[0].e, moves[0].sql), moves[1..]))
  }

  ghost function EndOf<D(!new), Q>(su: Setup<D, Q>, sys: System<D, Q>, moves: seq<Move>): (end: System<D, Q>)
    requires |sys.workers| == |sys.c.followers| && SturdyRun(su, sys, moves)
    ensures |end.workers| == |end.c.followers| == |sys.workers|
    decreases |moves|
  {
    if moves == [] then sys else EndOf(su, Evolve(su, sys, moves[0].e, moves[0].sql), moves[1..])
  }

  lemma {:induction false} RunStays<D(!new), Q>(su: Setup<D, Q>, sys: System<D, Q>, moves: seq<Move>)
    requires |sys.workers| == |sys.c.followers| && SystemInv(su, sys) && SturdyRun(su, sys, moves)
    ensures SystemInv(su, EndOf(su, sys, moves))
    decreases |moves|
  {
    hide SystemInv, Evolve, Enabled, Sturdy;
    if moves != [] {
      SystemStep(su, sys, moves[0].e, moves[0].sql);
      RunStays(su, Evolve(su, sys, moves[0].e, moves[0].sql), moves[1..]);
    }
  }

  function FreshSystem<D, Q>(su: Setup<D, Q>, n: nat): (sys: System<D, Q>)
    ensures |sys.workers| == |sys.c.followers| == n
  {
    System(FreshCluster(n), S.State(su.start, None, S.NO_ID, []), seq(n, _ => S.State(su.start, None, S.NO_ID, [])))
  }

  lemma FreshReplays<D(!new), Q>(su: Setup<D, Q>, w: S.State<D, Q>)
    requires w.db == su.start
    ensures Replays(su, FRESH, w)
  {
    assert Batches(su, Committed(FRESH)) == [];
  }

  lemma FreshSystemInv<D(!new), Q>(su: Setup<D, Q>, n: nat)
    ensures SystemInv(su, FreshSystem(su, n))
  {
    hide Replays;
    FreshClusterInv(su.digest, n);
    FreshReplays(su, S.State(su.start, None, S.NO_ID, []));
  }

  // The database of a replica is the replay of its committed log, and its committed log a prefix
  // of what the leader has decided.
  ghost predicate Replica<D(!new), Q>(su: Setup<D, Q>, sys: System<D, Q>, i: nat)
    requires i < |sys.c.followers| == |sys.workers|
  {
    && Agreement(su.digest, sys.c)
    && S.Replay(su.run, su.start, Batches(su, Committed(sys.c.followers[i]))) == Some(sys.workers[i].db)
  }

  // In every run of a cluster of any size from its first start on, through lost calls, refused and
  // failed rounds and restarts: every node's database is the replay of its committed log, batch by
  // batch and in its order, and all committed logs agree.
  lemma DatabasesReplicate<D(!new), Q>(su: Setup<D, Q>, n: nat, moves: seq<Move>)
    requires SturdyRun(su, FreshSystem(su, n), moves)
    ensures var sys := EndOf(su, FreshSystem(su, n), moves);
            && Agreement(su.digest, sys.c) && Replays(su, sys.c.leader, sys.lead)
            && forall i :: 0 <= i < n ==> Replica(su, sys, i)
  {
    hide Replays, Agreement, Inv, SturdyRun, EndOf;
    FreshSystemInv(su, n);
    RunStays(su, FreshSystem(su, n), moves);
    var sys := EndOf(su, FreshSystem(su, n), moves);
    InvAgreement(su.digest, sys.c);
    forall i | 0 <= i < |sys.workers| ensures Replica(su, sys, i) {
      assert WorkerOk(su, sys.c.leader, sys.c.followers[i], sys.workers[i]);
      ReplayOf(su, sys.c.followers[i], sys.workers[i]);
    }
  }

  lemma ReplayOf<D(!new), Q>(su: Setup<D, Q>, s: NodeState, w: S.State<D, Q>)
    requires Replays(su, s, w)
    ensures (forall k: uint64 :: 1 <= k <= s.index ==> k in s.store) && S.Replay(su.run, su.start, Batches(su, Committed(s))) == Some(w.db)
  {
  }

  // So replicas that have committed equally far have equal databases.
  lemma EqualReplicas<D(!new), Q>(su: Setup<D, Q>, n: nat, moves: seq<Move>, i: nat, j: nat)
    requires SturdyRun(su, FreshSystem(su, n), moves)
    requires var sys := EndOf(su, FreshSystem(su, n), moves);
             i < n && j < n && sys.c.followers[i].index == sys.c.followers[j].index
    ensures var sys := EndOf(su, FreshSystem(su, n), moves); sys.workers[i].db == sys.workers[j].db
  {
    hide SturdyRun, EndOf;
    DatabasesReplicate(su, n, moves);
    var sys := EndOf(su, FreshSystem(su, n), moves);
    assert Replica(su, sys, i) && Replica(su, sys, j);
    var a, b := Committed(sys.c.followers[i]), Committed(sys.c.followers[j]);
    assert a <= KayakCluster.Decided(sys.c) && b <= KayakCluster.Decided(sys.c) && |a| == |b|;
    assert a == b;
  }

  // ----- a transaction that nobody closes -----

  // A Prepare that the worker takes and a Rollback behind it, as they reach the follower.
  function Attempt<D, Q>(su: Setup<D, Q>, f: NodeState, w: S.State<D, Q>, l: Log, io: Io, sql: Sql): (NodeState, S.State<D, Q>) {
    var (v, ok) := if PrepareAsks(su.digest, f, l, io) then Prepares(su, w, l, sql) else (w, false);
    var g := PrepareStep(su.digest, f, Some(l), io.(prepare := ok)).0;
    var (u, undone) := if RollbackAsks(su.digest, g, l, io) then RollsBack(su, v, l, sql) else (v, false);
    (RollbackStep(su.digest, g, Some(l), io.(rollback := undone)).0, u)
  }

  // The worker is prepared before the entry is stored. If storing it fails, the node does not count
  // as prepared, so the rollback is turned away before it gets to the worker: the transaction stays
  // open and the next batch is refused. It is accepted exactly when the entry had been stored.
  lemma RetryIff<D(!new), Q>(su: Setup<D, Q>, f: NodeState, w: S.State<D, Q>, l: Log, io: Io, sql: Sql, m: Log, sql': Sql)
    requires Safe(su.digest, f) && f.phase == Idle && LastIndex(f.store) == f.index < MAX_UINT64 && w.tx.None?
    requires VerifyHash(su.digest, l) && l.index == f.index + 1 && Extends(f.store, l)
    requires VerifyHash(su.digest, m) && m.index == f.index + 1 && Extends(f.store, m)
    requires io.lastIndex && io.getLog && io.deleteRange
    requires sql.admits && sql.undoes && sql.begins && sql'.admits && sql'.begins && su.decode(m.data).id != su.decode(l.data).id
    ensures var (g, v) := Attempt(su, f, w, l, io, sql);
            g == f && PrepareAsks(su.digest, g, m, io.(storeLog := true)) && (Prepares(su, v, m, sql').1 <==> io.storeLog)
  {
    hide VerifyHash, PrepareStep, RollbackStep, PrepareAsks, RollbackAsks;
    AsksIff(su.digest, f, l, io);
    AsksIff(su.digest, f, m, io.(storeLog := true));
    var v := Prepares(su, w, l, sql).0;
    var jo := io.(prepare := true);
    var g := PrepareStep(su.digest, f, Some(l), jo).0;
    PreparedIff(su.digest, f, Some(l), jo);
    PreparedMeansStored(su.digest, f, Some(l), jo);
    PrepareSafe(su.digest, f, Some(l), jo);
    if io.storeLog {
      UndoAsks(su.digest, f, g, l, io);
    } else {
      IdleTurnsAway(su.digest, f, l, io);
      RollbackEffect(su.digest, f, l, io, false);
    }
  }

  // Only a restart frees it: whatever was open, the next batch is then taken and starts from the
  // database as it was.
  lemma RestartFrees<D(!new), Q>(su: Setup<D, Q>, w: S.State<D, Q>, l: Log, sql: Sql)
    ensures var (v, ok) := Prepares(su, Reopened(w), l, sql);
            v.db == w.db && (ok <==> sql.admits && sql.begins) && (ok ==> OpenFor(su, v, l))
  {
  }

  lemma AsksIff(digest: Digest, f: NodeState, l: Log, io: Io)
    requires Safe(digest, f) && LastIndex(f.store) < l.index && VerifyHash(digest, l) && Extends(f.store, l) && io.lastIndex && io.getLog
    ensures PrepareAsks(digest, f, l, io)
  {
    hide VerifyHash;
  }

  lemma IdleTurnsAway(digest: Digest, f: NodeState, l: Log, io: Io)
    requires f.phase == Idle
    ensures !RollbackAsks(digest, f, l, io)
  {
  }

  lemma UndoAsks(digest: Digest, f: NodeState, g: NodeState, l: Log, io: Io)
    requires Safe(digest, f) && Safe(digest, g) && VerifyHash(digest, l) && LastIndex(f.store) == f.index && l.index == f.index + 1
    requires f.phase == Idle && g == f.(store := f.store[l.index := l], phase := Prepared) && io.lastIndex && io.getLog && io.deleteRange
    ensures RollbackAsks(digest, g, l, io) && RollbackStep(digest, g, Some(l), io.(rollback := true)).0 == f
  {
    hide VerifyHash;
    RolledBackIff(digest, g, Some(l), io.(rollback := true));
    RolledBackIff(digest, g, Some(l), io.(rollback := false));
    assert g.store - {l.index} == f.store;
  }
}
