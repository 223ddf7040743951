// One kayak node as a state machine: the three request handlers, the leader's own part of a
// round, and a restart (kayak/twopc_runner.go). Handlers run one at a time, so a step is atomic;
// every call into the log store, the stable store or the storage worker may fail.

module KayakNode {
  import opened Common
  import opened KayakLog

  datatype Phase = Idle | Prepared

  datatype Error = InvalidRequest | InvalidLog | InvalidConfig | NotFound | IoFailure | StorageFailure

  datatype Outcome = Ok | Err(error: Error)

  // Which of the calls a step makes into the stores and the storage worker succeed.
  datatype Io = Io(lastIndex: bool, getLog: bool, storeLog: bool, deleteRange: bool, stableStore: bool,
                   prepare: bool, commit: bool, rollback: bool)

  datatype Call = Prepare | Commit | Rollback | Unknown

  datatype Request = Request(fromLeader: bool, call: Call, log: Option<Log>)

  datatype NodeState = NodeState(
    store: map<uint64, Log>,   // log store, by index
    persisted: uint64,         // CommittedIndex in the stable store, 0 when absent
    persistedTerm: uint64,     // CurrentTerm in the stable store, 0 when absent
    term: uint64,              // currentTerm
    index: uint64,             // lastLogIndex
    lastTerm: uint64,          // lastLogTerm
    head: Option<Hash>,        // lastLogHash
    phase: Phase)

  const FRESH := NodeState(map[], 0, 0, 0, 0, 0, None, Idle)

  // ----- log store -----

  predicate IsTop(keys: set<uint64>, m: uint64) {
    m in keys && forall k :: k in keys ==> k <= m
  }

  lemma {:induction false} MaxExists(keys: set<uint64>)
    requires keys != {}
    ensures exists m: uint64 :: IsTop(keys, m)
    decreases |keys|
  {
    var k :| k in keys;
    var rest := keys - {k};
    assert forall j :: j in keys ==> j == k || j in rest;
    if rest == {} {
      assert IsTop(keys, k);
    } else {
      MaxExists(rest);
      var m: uint64 :| IsTop(rest, m);
      assert IsTop(keys, if m < k then k else m);
    }
  }

  // The largest stored index, 0 for an empty store.
  function LastIndex(store: map<uint64, Log>): (last: uint64)
    ensures store == map[] ==> last == 0
    ensures store != map[] ==> last in store
    ensures forall k :: k in store ==> k <= last
  {
    if store.Keys == {} then
      assert store == map[];
      0
    else
      MaxExists(store.Keys);
      var m: uint64 :| m in store.Keys && IsTop(store.Keys, m);
      m
  }

  lemma LastIndexIs(store: map<uint64, Log>, m: uint64)
    requires m in store && forall k :: k in store ==> k <= m
    ensures LastIndex(store) == m
  {
  }

  // The hash of the last stored entry.
  function Top(store: map<uint64, Log>): Option<Hash> {
    var last := LastIndex(store);
    if last == 0 || last !in store then None else Some(store[last].hash)
  }

  // What is left after deleting the inclusive range.
  function Without(store: map<uint64, Log>, min: uint64, max: uint64): map<uint64, Log> {
    map k | k in store && !(min <= k <= max) :: store[k]
  }

  // uint64 increment.
  function Next(i: uint64): uint64 {
    if i == MAX_UINT64 then 0 else i + 1
  }

  // ----- handlers -----

  function PrepareStep(digest: Digest, s: NodeState, log: Option<Log>, io: Io): (NodeState, Outcome) {
    if log.None? || !VerifyHash(digest, log.value) then (s, Err(InvalidLog)) else
    if !io.lastIndex then (s, Err(IoFailure)) else
    var l := log.value;
    var last := LastIndex(s.store);
    // already prepared: the stored entry is not compared with this one
    if last >= l.index then (s, Ok) else
    if last == 0 && l.lastHash.Some? then (s, Err(InvalidLog)) else
    if last > 0 && !io.getLog then (s, Err(IoFailure)) else
    if last > 0 && l.lastHash != Some(s.store[last].hash) then (s, Err(InvalidLog)) else
    if !io.prepare then (s, Err(StorageFailure)) else
    if !io.storeLog then (s, Err(IoFailure)) else
    (s.(store := s.store[l.index := l], phase := Prepared), Ok)
  }

  // The checks that Commit and Rollback share, up to reading the stored entry. `missing` is what
  // the handler answers when nothing as recent as the request is stored.
  function HeadCheck(digest: Digest, s: NodeState, log: Option<Log>, io: Io, missing: Outcome): (r: Option<Outcome>)
    ensures r.None? ==> s.phase == Prepared && log.Some? && log.value.index == Next(s.index)
                        && log.value.index in s.store
  {
    if s.phase != Prepared then Some(Err(InvalidRequest)) else
    if log.None? || !VerifyHash(digest, log.value) then Some(Err(InvalidLog)) else
    if !io.lastIndex then Some(Err(IoFailure)) else
    if LastIndex(s.store) < log.value.index then Some(missing) else
    if Next(s.index) != log.value.index then Some(Err(InvalidLog)) else
    if !io.getLog then Some(Err(IoFailure)) else
    if log.value.index !in s.store then Some(Err(NotFound)) else
    None
  }

  // Moves the commit position to a stored entry. A failed stable-store write goes unnoticed.
  function Advance(s: NodeState, l: Log, io: Io): NodeState {
    s.(persisted := if io.stableStore then l.index else s.persisted,
       index := l.index, lastTerm := l.term, head := Some(l.hash))
  }

  function CommitStep(digest: Digest, s: NodeState, log: Option<Log>, io: Io): (NodeState, Outcome) {
    var refused := HeadCheck(digest, s, log, io, Err(InvalidLog));
    if refused.Some? then (s, refused.value) else
    var stored := s.store[log.value.index];
    (Advance(s, stored, io).(persisted := if io.stableStore then log.value.index else s.persisted, phase := Idle),
     if io.commit then Ok else Err(StorageFailure))
  }

  function RollbackStep(digest: Digest, s: NodeState, log: Option<Log>, io: Io): (NodeState, Outcome) {
    var refused := HeadCheck(digest, s, log, io, Ok);
    if refused.Some? then (s, refused.value) else
    if !io.rollback then (s, Err(StorageFailure)) else
    // a failed deletion is ignored
    (s.(store := if io.deleteRange then Without(s.store, Next(s.index), log.value.index) else s.store,
        phase := Idle), Ok)
  }

  function RequestStep(digest: Digest, s: NodeState, req: Request, io: Io): (NodeState, Outcome) {
    if !req.fromLeader then (s, Err(InvalidRequest)) else
    match req.call
    case Prepare => PrepareStep(digest, s, req.log, io)
    case Commit => CommitStep(digest, s, req.log, io)
    case Rollback => RollbackStep(digest, s, req.log, io)
    case Unknown => (s, Err(InvalidRequest))
  }

  // ----- the leader's own part of a round -----

  function NewLog(digest: Digest, s: NodeState, data: Payload): Log {
    Sealed(digest, Next(s.index), s.term, data, s.head)
  }

  function LocalPrepare(s: NodeState, l: Log, io: Io): (NodeState, Outcome) {
    if !io.prepare then (s, Err(StorageFailure)) else
    if !io.storeLog then (s, Err(IoFailure)) else
    (s.(store := s.store[l.index := l]), Ok)
  }

  function LocalRollback(s: NodeState, l: Log, io: Io): NodeState {
    s.(store := if io.deleteRange then Without(s.store, Next(s.index), l.index) else s.store)
  }

  function LocalCommit(s: NodeState, l: Log, io: Io): (NodeState, Outcome) {
    (Advance(s, l, io), if io.commit then Ok else Err(StorageFailure))
  }

  // A whole round as the leader sees it; `prepared` says whether every other server prepared.
  // A single server takes the same path with nobody else to ask.
  function RoundStep(digest: Digest, s: NodeState, data: Payload, prepared: bool, io: Io): (NodeState, Outcome) {
    var l := NewLog(digest, s, data);
    if !prepared then (LocalRollback(s, l, io), Err(StorageFailure)) else
    var (s1, r1) := LocalPrepare(s, l, io);
    if r1.Err? then (LocalRollback(s1, l, io), r1) else
    LocalCommit(s1, l, io)
  }

  // ----- restart -----

  // Init: only what the two stores hold survives. On an error the node does not start.
  function RestartStep(s: NodeState, peersTerm: uint64, io: Io): (NodeState, Outcome) {
    if peersTerm < s.persistedTerm then (s, Err(InvalidConfig)) else
    if s.persisted > 0 && !io.getLog then (s, Err(IoFailure)) else
    if s.persisted > 0 && s.persisted !in s.store then (s, Err(NotFound)) else
    var term := if s.persisted > 0 then s.store[s.persisted].term else 0;
    if peersTerm < term then (s, Err(InvalidConfig)) else
    if s.persisted > 0 && s.store[s.persisted].index != s.persisted then (s, Err(InvalidLog)) else
    if !io.lastIndex then (s, Err(IoFailure)) else
    var last := LastIndex(s.store);
    // a failed truncation is ignored
    var store := if last > s.persisted && io.deleteRange then Without(s.store, s.persisted + 1, last) else s.store;
    var head := if s.persisted > 0 then Some(s.store[s.persisted].hash) else None;
    var started := NodeState(store, s.persisted, peersTerm, peersTerm, s.persisted, term, head, Idle);
    if !io.stableStore then (started.(persistedTerm := s.persistedTerm), Err(IoFailure)) else
    (started, Ok)
  }

  // ----- runs -----

  datatype Step =
    | Handle(req: Request, io: Io)
    | Round(data: Payload, prepared: bool, io: Io)
    | Restart(peersTerm: uint64, io: Io)

  function Apply(digest: Digest, s: NodeState, step: Step): (NodeState, Outcome) {
    match step
    case Handle(req, io) => RequestStep(digest, s, req, io)
    case Round(data, prepared, io) => RoundStep(digest, s, data, prepared, io)
    case Restart(peersTerm, io) => RestartStep(s, peersTerm, io)
  }

  // Stable-store writes succeed, a restart that reports an error has not happened yet, and the
  // index has not run out of uint64 values.
  ghost predicate Possible(digest: Digest, s: NodeState, step: Step) {
    && step.io.stableStore
    && (step.Restart? ==> Apply(digest, s, step).1.Ok?)
    && (step.Round? ==> s.index < MAX_UINT64)
  }

  ghost predicate PossibleRun(digest: Digest, s: NodeState, steps: seq<Step>)
    decreases |steps|
  {
    steps == [] ||
    (Possible(digest, s, steps[0]) && PossibleRun(digest, Apply(digest, s, steps[0]).0, steps[1..]))
  }

  function Run(digest: Digest, s: NodeState, steps: seq<Step>): NodeState
    decreases |steps|
  {
    if steps == [] then s else Run(digest, Apply(digest, s, steps[0]).0, steps[1..])
  }

  // ----- invariant -----

  // Entries 1..index are stored, every stored entry sits at its own index with a correct hash,
  // and the volatile fields describe the entry at the commit position.
  ghost predicate Safe(digest: Digest, s: NodeState) {
    && 0 !in s.store
    && (forall k :: k in s.store ==> s.store[k].index == k && VerifyHash(digest, s.store[k]))
    && (forall k: uint64 :: 1 <= k <= s.index ==> k in s.store)
    && s.persisted == s.index
    && s.head == (if s.index == 0 then None else Some(s.store[s.index].hash))
    && s.lastTerm == (if s.index == 0 then 0 else s.store[s.index].term)
  }

  // Each stored entry names the hash of the entry stored just before it.
  ghost predicate Linked(store: map<uint64, Log>) {
    && (1 in store ==> store[1].lastHash.None?)
    && (forall k: uint64 :: 2 <= k && k in store && (k - 1) in store ==>
          store[k].lastHash == Some(store[k - 1].hash))
  }

  // Entries 1..index, in order.
  ghost function Committed(s: NodeState): (log: seq<Log>)
    requires forall k: uint64 :: 1 <= k <= s.index ==> k in s.store
    ensures |log| == s.index
  {
    seq(s.index, i requires 0 <= i < s.index => s.store[i + 1])
  }

  lemma FreshIsSafe(digest: Digest)
    ensures Safe(digest, FRESH) && Linked(FRESH.store)
  {
  }

  // ----- single-node safety -----

  // Storing an entry above everything stored disturbs nothing below it.
  lemma StoreSafe(digest: Digest, s: NodeState, l: Log)
    requires Safe(digest, s) && VerifyHash(digest, l) && LastIndex(s.store) < l.index
    ensures var t := s.(store := s.store[l.index := l], phase := Prepared);
            Safe(digest, t) && Committed(t) == Committed(s)
  {
    assert forall k :: k in s.store ==> k < l.index;
    assert s.index == 0 || s.index in s.store;
  }

  lemma StoreLinked(store: map<uint64, Log>, l: Log)
    requires Linked(store) && 0 !in store && LastIndex(store) < l.index
    requires LastIndex(store) == 0 ==> l.lastHash.None?
    requires LastIndex(store) > 0 ==> l.lastHash == Some(store[LastIndex(store)].hash)
    ensures Linked(store[l.index := l])
  {
    var more := store[l.index := l];
    assert forall k :: k in store ==> k < l.index;
    forall k: uint64 | 2 <= k && k in more && (k - 1) in more
      ensures more[k].lastHash == Some(more[k - 1].hash)
    {
      if k == l.index {
        assert LastIndex(store) == k - 1;
      }
    }
  }

  lemma PrepareSafe(digest: Digest, s: NodeState, log: Option<Log>, io: Io)
    requires Safe(digest, s)
    ensures var t := PrepareStep(digest, s, log, io).0;
            Safe(digest, t) && t.index == s.index && Committed(t) == Committed(s) && (Linked(s.store) ==> Linked(t.store))
  {
    var t := PrepareStep(digest, s, log, io).0;
    if t != s {
      StoreSafe(digest, s, log.value);
      if Linked(s.store) { StoreLinked(s.store, log.value); }
    }
  }

  lemma CommitSafe(digest: Digest, s: NodeState, log: Option<Log>, io: Io)
    requires Safe(digest, s) && io.stableStore
    ensures var t := CommitStep(digest, s, log, io).0;
            && Safe(digest, t) && (Linked(s.store) ==> Linked(t.store))
            && t.store == s.store
            && (t.index == s.index || t.index == s.index + 1)
            && Committed(s) <= Committed(t)
  {
    hide VerifyHash;
  }

  lemma RollbackSafe(digest: Digest, s: NodeState, log: Option<Log>, io: Io)
    requires Safe(digest, s)
    ensures var t := RollbackStep(digest, s, log, io).0;
            Safe(digest, t) && t.index == s.index && Committed(t) == Committed(s) && (Linked(s.store) ==> Linked(t.store))
  {
  }

  // The leader's own steps.
  lemma LocalPrepareSafe(digest: Digest, s: NodeState, l: Log, io: Io)
    requires Safe(digest, s) && s.index < MAX_UINT64 && l.index == s.index + 1 && VerifyHash(digest, l)
    ensures var (t, r) := LocalPrepare(s, l, io);
            && Safe(digest, t) && t.index == s.index && Committed(t) == Committed(s)
            && (r.Ok? ==> l.index in t.store && t.store[l.index] == l)
  {
    hide VerifyHash;
  }

  lemma LocalRollbackSafe(digest: Digest, s: NodeState, l: Log, io: Io)
    requires Safe(digest, s) && s.index < MAX_UINT64 && l.index == s.index + 1
    ensures var t := LocalRollback(s, l, io);
            Safe(digest, t) && t.index == s.index && Committed(t) == Committed(s)
  {
    hide VerifyHash;
  }

  lemma LocalCommitSafe(digest: Digest, s: NodeState, l: Log, io: Io)
    requires Safe(digest, s) && s.index < MAX_UINT64 && l.index == s.index + 1 && io.stableStore
    requires l.index in s.store && s.store[l.index] == l
    ensures var t := LocalCommit(s, l, io).0;
            Safe(digest, t) && t.index == l.index && t.store == s.store && Committed(t) == Committed(s) + [l]
  {
    hide VerifyHash;
  }

  lemma RoundSafe(digest: Digest, s: NodeState, data: Payload, prepared: bool, io: Io)
    requires Safe(digest, s) && io.stableStore && s.index < MAX_UINT64
    ensures var (t, r) := RoundStep(digest, s, data, prepared, io);
            && Safe(digest, t)
            && Committed(s) <= Committed(t)
            && (r.Ok? ==> t.index == s.index + 1 && Committed(t) == Committed(s) + [NewLog(digest, s, data)])
  {
    hide VerifyHash, Safe, LocalPrepare, LocalCommit, LocalRollback;
    var l := NewLog(digest, s, data);
    var s1 := LocalPrepare(s, l, io).0;
    LocalRollbackSafe(digest, s, l, io);
    LocalPrepareSafe(digest, s, l, io);
    LocalRollbackSafe(digest, s1, l, io);
    if prepared && LocalPrepare(s, l, io).1.Ok? {
      LocalCommitSafe(digest, s1, l, io);
    }
  }

  lemma RestartSafe(digest: Digest, s: NodeState, peersTerm: uint64, io: Io)
    requires Safe(digest, s) && RestartStep(s, peersTerm, io).1.Ok?
    ensures var t := RestartStep(s, peersTerm, io).0;
            && Safe(digest, t) && t.phase == Idle && t.index == s.index
            && Committed(t) == Committed(s) && (Linked(s.store) ==> Linked(t.store))
  {
  }

  lemma HandleSafe(digest: Digest, s: NodeState, req: Request, io: Io)
    requires Safe(digest, s) && io.stableStore
    ensures var t := RequestStep(digest, s, req, io).0;
            Safe(digest, t) && Committed(s) <= Committed(t) && (Linked(s.store) ==> Linked(t.store))
  {
    match req.call
    case Prepare => PrepareSafe(digest, s, req.log, io);
    case Commit => CommitSafe(digest, s, req.log, io);
    case Rollback => RollbackSafe(digest, s, req.log, io);
    case Unknown =>
  }

  lemma StepSafe(digest: Digest, s: NodeState, step: Step)
    requires Safe(digest, s) && Possible(digest, s, step)
    ensures var t := Apply(digest, s, step).0;
            Safe(digest, t) && Committed(s) <= Committed(t)
  {
    match step
    case Handle(req, io) => HandleSafe(digest, s, req, io);
    case Round(data, prepared, io) => RoundSafe(digest, s, data, prepared, io);
    case Restart(peersTerm, io) => RestartSafe(digest, s, peersTerm, io);
  }

  // Whatever mix of requests, rounds, failures and restarts a node goes through, its committed
  // entries stay where they are: the committed log only ever grows at its end.
  lemma {:induction false} RunSafe(digest: Digest, s: NodeState, steps: seq<Step>)
    requires Safe(digest, s) && PossibleRun(digest, s, steps)
    ensures Safe(digest, Run(digest, s, steps))
    ensures Committed(s) <= Committed(Run(digest, s, steps))
    decreases |steps|
  {
    if steps != [] {
      StepSafe(digest, s, steps[0]);
      RunSafe(digest, Apply(digest, s, steps[0]).0, steps[1..]);
    }
  }

  // In particular from the first start on.
  lemma RunSafeFromStart(digest: Digest, steps: seq<Step>, more: seq<Step>)
    requires PossibleRun(digest, FRESH, steps) && PossibleRun(digest, Run(digest, FRESH, steps), more)
    ensures var s := Run(digest, FRESH, steps);
            Safe(digest, s) && Safe(digest, Run(digest, s, more)) && Committed(s) <= Committed(Run(digest, s, more))
  {
    FreshIsSafe(digest);
    RunSafe(digest, FRESH, steps);
    RunSafe(digest, Run(digest, FRESH, steps), more);
  }

  // An offset handed out by a successful round reads back the data it was given, for good.
  lemma AppliedDataIsDurable(digest: Digest, s: NodeState, data: Payload, prepared: bool, io: Io, later: seq<Step>)
    requires Safe(digest, s) && io.stableStore && s.index < MAX_UINT64
    requires RoundStep(digest, s, data, prepared, io).1.Ok?
    requires PossibleRun(digest, RoundStep(digest, s, data, prepared, io).0, later)
    ensures var t := RoundStep(digest, s, data, prepared, io).0;
            var offset := t.index;
            var u := Run(digest, t, later);
            1 <= offset <= u.index && offset in u.store && u.store[offset].data == data
  {
    var t := RoundStep(digest, s, data, prepared, io).0;
    var u := Run(digest, t, later);
    RoundSafe(digest, s, data, prepared, io);
    RunSafe(digest, t, later);
    assert Committed(u)[t.index - 1] == Committed(t)[t.index - 1] == NewLog(digest, s, data);
  }

  // With working stores a restart brings back exactly the committed entries.
  lemma RestartRecovers(digest: Digest, s: NodeState, peersTerm: uint64, io: Io)
    requires Safe(digest, s)
    requires io.lastIndex && io.getLog && io.deleteRange && io.stableStore
    ensures RestartStep(s, peersTerm, io).1.Ok? <==> s.persistedTerm <= peersTerm && s.lastTerm <= peersTerm
    ensures var (t, r) := RestartStep(s, peersTerm, io);
            r.Ok? ==> && t.index == s.index && t.head == s.head
                      && t.store == (map k | k in s.store && k <= s.index :: s.store[k])
  {
  }

  // The stable-store write is what makes a commit last: when it fails, the next restart takes
  // the freshly committed entry away again.
  lemma UnpersistedCommitIsLost(digest: Digest, s: NodeState, log: Option<Log>, io: Io, peersTerm: uint64, io': Io)
    requires Safe(digest, s) && !io.stableStore && io'.deleteRange
    requires var t := CommitStep(digest, s, log, io).0;
             t.index != s.index && RestartStep(t, peersTerm, io').1.Ok?
    ensures var t := CommitStep(digest, s, log, io).0;
            var u := RestartStep(t, peersTerm, io').0;
            t.index == s.index + 1 && u.index == s.index && t.index !in u.store && Safe(digest, u)
  {
  }

  // ----- links -----

  // Nothing is stored beyond the entry a leader may be working on.
  ghost predicate Tight(s: NodeState) {
    forall k :: k in s.store ==> k <= s.index + 1
  }

  lemma OverwriteLinkedIff(store: map<uint64, Log>, l: Log)
    requires Linked(store) && 1 <= l.index < MAX_UINT64
    requires l.index == 1 ==> l.lastHash.None?
    requires l.index > 1 ==> (l.index - 1) in store && l.lastHash == Some(store[l.index - 1].hash)
    ensures Linked(store[l.index := l])
            <==> ((l.index + 1) in store ==> store[l.index + 1].lastHash == Some(l.hash))
  {
    var more := store[l.index := l];
    var after: uint64 := l.index + 1;
    if Linked(more) && after in store {
      assert more[after].lastHash == Some(more[after - 1].hash);
    }
  }

  lemma RoundLinked(digest: Digest, s: NodeState, data: Payload, prepared: bool, io: Io)
    requires Safe(digest, s) && s.index < MAX_UINT64 && Linked(s.store) && Tight(s)
    ensures var t := RoundStep(digest, s, data, prepared, io).0;
            Linked(t.store) && Tight(t)
  {
    hide VerifyHash, Sealed;
    if s.index + 1 < MAX_UINT64 {
      OverwriteLinkedIff(s.store, NewLog(digest, s, data));
    }
  }

  lemma StepLinked(digest: Digest, s: NodeState, step: Step)
    requires Safe(digest, s) && Linked(s.store) && Possible(digest, s, step)
    requires step.Round? ==> Tight(s)
    ensures var t := Apply(digest, s, step).0;
            Linked(t.store) && (Tight(s) && !step.Handle? ==> Tight(t))
  {
    match step
    case Handle(req, io) => HandleSafe(digest, s, req, io);
    case Round(data, prepared, io) => RoundLinked(digest, s, data, prepared, io);
    case Restart(peersTerm, io) => RestartSafe(digest, s, peersTerm, io);
  }

  ghost predicate OneRole(s: NodeState, steps: seq<Step>) {
    || (forall i :: 0 <= i < |steps| ==> !steps[i].Round?)
    || (Tight(s) && forall i :: 0 <= i < |steps| ==> !steps[i].Handle?)
  }

  // A node that only ever serves one role keeps its chain of hashes intact.
  lemma {:induction false} RunLinked(digest: Digest, s: NodeState, steps: seq<Step>)
    requires Safe(digest, s) && Linked(s.store) && PossibleRun(digest, s, steps) && OneRole(s, steps)
    ensures Linked(Run(digest, s, steps).store)
    decreases |steps|
  {
    if steps != [] {
      var t := Apply(digest, s, steps[0]).0;
      StepSafe(digest, s, steps[0]);
      StepLinked(digest, s, steps[0]);
      assert OneRole(t, steps[1..]);
      RunLinked(digest, t, steps[1..]);
    }
  }

  // The leader's local prepare overwrites its slot without looking further. A round keeps the
  // links exactly when no entry waits beyond that slot, or the one that does names the new hash.
  lemma RoundKeepsLinksIff(digest: Digest, s: NodeState, data: Payload, io: Io)
    requires Safe(digest, s) && Linked(s.store) && s.index + 1 < MAX_UINT64
    requires io.prepare && io.storeLog && io.stableStore
    ensures var l := NewLog(digest, s, data);
            Linked(RoundStep(digest, s, data, true, io).0.store)
            <==> ((s.index + 2) in s.store ==> s.store[s.index + 2].lastHash == Some(l.hash))
  {
    OverwriteLinkedIff(s.store, NewLog(digest, s, data));
  }
}
