// Whole runs of the account state against the plain ledger.

module LedgerRuns {
  import opened Common
  import opened LedgerSpec
  import opened LedgerRefinement

  lemma TransferWithin(s: State, sender: Address, receiver: Address, amount: uint64)
    ensures Within(s, Transfer(s, sender, receiver, amount).0)
  {
    hide Within, LoadOrStore, Touch, Put, Look, SafeAdd, SafeSub;
    assert Within(s, s) by { ReflexiveWithin(s); }
    if sender != receiver {
      var s1 := LoadOrStore(s, sender, Zero(sender));
      var s2 := LoadOrStore(s1, receiver, Zero(receiver));
      StoreWithin(s, sender, Zero(sender));
      StoreWithin(s1, receiver, Zero(receiver));
      WithinTrans(s, s1, s2);
      MoveWithin(s2, sender, receiver, amount);
      WithinTrans(s, s2, Move(s2, sender, receiver, amount).0);
    }
  }

  lemma ReflexiveWithin(s: State)
    ensures Within(s, s)
  {
  }

  lemma MoveWithin(s: State, sender: Address, receiver: Address, amount: uint64)
    ensures Within(s, Move(s, sender, receiver, amount).0)
  {
    hide Within, Touch, Put, Look, SafeAdd, SafeSub;
    ReflexiveWithin(s);
    var (t, err) := Move(s, sender, receiver, amount);
    if err == NoError && t != s {
      var s1 := Touch(s, sender);
      var s2 := Touch(s1, receiver);
      var a := Look(s, sender).value.(stable := SafeSub(Look(s, sender).value.stable, amount).0);
      var b := Look(s, receiver).value.(stable := SafeAdd(Look(s, receiver).value.stable, amount).0);
      var s3 := Put(s2, sender, a);
      StoreWithin(s, sender, a);
      StoreWithin(s1, receiver, b);
      PutWithin(s2, sender, a);
      PutWithin(s3, receiver, b);
      WithinTrans(s, s1, s2);
      WithinTrans(s, s2, s3);
      WithinTrans(s, s3, t);
    }
  }

  lemma {:induction false} BillWithin(s: State, receivers: seq<Address>, fees: seq<uint64>, rewards: seq<uint64>)
    ensures Within(s, Bill(s, receivers, fees, rewards).0)
    decreases |receivers|
  {
    hide Within, Change;
    ReflexiveWithin(s);
    if receivers != [] && fees != [] {
      var (s1, err1) := Change(s, receivers[0], Covenant, fees[0], true);
      ChangeWithin(s, receivers[0], Covenant, fees[0], true);
      if err1 == NoError && rewards != [] {
        var (s2, err2) := Change(s1, receivers[0], Stable, rewards[0], true);
        ChangeWithin(s1, receivers[0], Stable, rewards[0], true);
        WithinTrans(s, s1, s2);
        if err2 == NoError {
          BillWithin(s2, receivers[1..], fees[1..], rewards[1..]);
          WithinTrans(s, s2, Bill(s2, receivers[1..], fees[1..], rewards[1..]).0);
        }
      }
    }
  }

  // ----- operations -----

  datatype Op =
    | Store(k: Address, account: Account)
    | Remove(k: Address)
    | Adjust(k: Address, coin: Coin, amount: uint64, up: bool)
    | Send(sender: Address, receiver: Address, amount: uint64)
    | Settle(receivers: seq<Address>, fees: seq<uint64>, rewards: seq<uint64>)
    | Commit(done: set<Address>, ok: bool) // done: what was worked off before a write failed
    | Restart(loaded: map<Address, Account>)
    | Discard

  // Operations on the overlay alone.
  predicate Pending(op: Op) {
    op.Store? || op.Remove? || op.Adjust? || op.Send? || op.Settle?
  }

  function Step(s: State, op: Op): (State, Error) {
    match op
    case Store(k, v) => (LoadOrStore(s, k, v), NoError)
    case Remove(k) => (Delete(s, k), NoError)
    case Adjust(k, c, amount, up) => Change(s, k, c, amount, up)
    case Send(x, y, amount) => Transfer(s, x, y, amount)
    case Settle(rs, fees, rewards) => Bill(s, rs, fees, rewards)
    case Commit(done, ok) => if ok then (CommitAll(s), NoError) else (CommitPart(s, done), WriteFailed)
    case Restart(r) => (Reload(s, r), NoError)
    case Discard => (Clean(s), NoError)
  }

  ghost predicate Possible(s: State, op: Op) {
    op.Restart? ==> Rekeyed(s.bucket, op.loaded)
  }

  function PlainStep(l: Ledger, op: Op): (Ledger, Error) {
    match op
    case Store(k, v) => (l.(current := PlainStore(l.current, k, v)), NoError)
    case Remove(k) => (l.(current := l.current - {k}), NoError)
    case Adjust(k, c, amount, up) =>
      var (m, err) := PlainChange(l.current, k, c, amount, up);
      (l.(current := m), err)
    case Send(x, y, amount) =>
      var (m, err) := PlainTransfer(l.current, x, y, amount);
      (l.(current := m), err)
    case Settle(rs, fees, rewards) =>
      if |rs| <= |fees| && |rs| <= |rewards| then
        var (m, err) := PlainBill(l.current, rs, fees, rewards);
        (l.(current := m), err)
      else (l, Crash)
    case Commit(_, ok) => if ok then (Ledger(l.current, l.current), NoError) else (l, WriteFailed)
    case Restart(_) => (Ledger(l.committed, l.committed), NoError)
    case Discard => (Ledger(l.committed, l.committed), NoError)
  }

  // What the plain ledger knows of the overlay.
  ghost predicate Refines(s: State, l: Ledger) {
    Effective(s) == l.current && s.bucket == l.committed && SharedOk(s) && Behind(s)
  }

  // Where the overlay and the plain ledger do the same.
  ghost predicate Meant(s: State, op: Op) {
    match op
    case Store(k, _) => !Shadowed(s, k)
    case Adjust(k, _, _, _) => !Marked(s, k)
    case Send(x, y, _) => x == y || (!Shadowed(s, x) && !Shadowed(s, y))
    case Settle(rs, fees, rewards) =>
      |rs| <= |fees| && |rs| <= |rewards| && forall k :: k in rs ==> !Marked(s, k)
    case Restart(_) => OwnAddress(s.bucket)
    case Discard => s.readonly == s.bucket
    case _ => true
  }

  // An overlay change stays within the overlay.
  lemma StepWithin(s: State, op: Op)
    requires Pending(op)
    ensures Within(s, Step(s, op).0)
  {
    hide Within;
    match op
    case Store(k, v) => StoreWithin(s, k, v);
    case Remove(k) => DeleteWithin(s, k);
    case Adjust(k, c, amount, up) => ChangeWithin(s, k, c, amount, up);
    case Send(x, y, amount) => TransferWithin(s, x, y, amount);
    case Settle(rs, fees, rewards) => BillWithin(s, rs, fees, rewards);
  }

  lemma WithinBehind(s: State, t: State)
    requires Within(s, t) && SharedOk(s) && Behind(s)
    ensures SharedOk(t) && Behind(t)
  {
    forall k | k in t.readonly.Keys + t.bucket.Keys && k !in t.dirty ensures Find(t.readonly, k) == Find(t.bucket, k) {
      assert k !in s.dirty && k !in s.shared;
      assert Find(t.readonly, k) == Find(s.readonly, k);
    }
  }

  lemma StepEffective(s: State, op: Op)
    requires Pending(op) && Meant(s, op)
    ensures forall com :: PlainStep(Ledger(Effective(s), com), op) == (Ledger(Effective(Step(s, op).0), com), Step(s, op).1)
  {
    hide Effective, Change, PlainChange, Transfer, PlainTransfer, Bill, PlainBill, LoadOrStore, PlainStore, Delete;
    match op
    case Store(k, v) => StoreRefines(s, k, v);
    case Remove(k) => DeleteRefines(s, k);
    case Adjust(k, c, amount, up) => ChangeRefines(s, k, c, amount, up);
    case Send(x, y, amount) => TransferRefines(s, x, y, amount);
    case Settle(rs, fees, rewards) => BillRefines(s, rs, fees, rewards);
  }

  lemma EffectiveCommitted(s: State)
    ensures s.dirty == map[] ==> Effective(s) == s.readonly
  {
  }

  // One step of the overlay is one step of the plain ledger, with the same answer.
  lemma StepRefines(s: State, l: Ledger, op: Op)
    requires Refines(s, l) && Possible(s, op) && Meant(s, op)
    ensures Refines(Step(s, op).0, PlainStep(l, op).0) && Step(s, op).1 == PlainStep(l, op).1
  {
    hide Effective, Within;
    var t := Step(s, op).0;
    if Pending(op) {
      StepEffective(s, op);
      StepWithin(s, op);
      WithinBehind(s, t);
      WithinBucket(s, t);
    } else {
      match op
      case Commit(done, ok) =>
        CommitPartKeeps(s, done);
        CommitAllKeeps(s);
      case Restart(r) =>
        ReloadIff(s.bucket, r);
        EffectiveCommitted(t);
      case Discard =>
        EffectiveCommitted(t);
    }
  }

  lemma WithinBucket(s: State, t: State)
    requires Within(s, t)
    ensures t.bucket == s.bucket
  {
  }

  // ----- runs -----

  ghost predicate PossibleRun(s: State, ops: seq<Op>)
    decreases |ops|
  {
    ops == [] || (Possible(s, ops[0]) && PossibleRun(Step(s, ops[0]).0, ops[1..]))
  }

  ghost predicate MeantRun(s: State, ops: seq<Op>)
    decreases |ops|
  {
    ops == [] || (Meant(s, ops[0]) && MeantRun(Step(s, ops[0]).0, ops[1..]))
  }

  function Run(s: State, ops: seq<Op>): (r: (State, seq<Error>))
    ensures |r.1| == |ops|
    decreases |ops|
  {
    if ops == [] then (s, []) else
    var (t, err) := Step(s, ops[0]);
    var (u, errs) := Run(t, ops[1..]);
    (u, [err] + errs)
  }

  function PlainRun(l: Ledger, ops: seq<Op>): (r: (Ledger, seq<Error>))
    ensures |r.1| == |ops|
    decreases |ops|
  {
    if ops == [] then (l, []) else
    var (t, err) := PlainStep(l, ops[0]);
    var (u, errs) := PlainRun(t, ops[1..]);
    (u, [err] + errs)
  }

  // A run of the overlay is a run of the plain ledger, answer by answer.
  lemma {:induction false} RunRefines(s: State, l: Ledger, ops: seq<Op>)
    requires Refines(s, l) && PossibleRun(s, ops) && MeantRun(s, ops)
    ensures Refines(Run(s, ops).0, PlainRun(l, ops).0) && Run(s, ops).1 == PlainRun(l, ops).1
    decreases |ops|
  {
    hide Refines, Step, PlainStep, Meant, Possible;
    if ops != [] {
      StepRefines(s, l, ops[0]);
      RunRefines(Step(s, ops[0]).0, PlainStep(l, ops[0]).0, ops[1..]);
    }
  }

  // ----- runs without deletions -----

  // Whether a commit has failed and neither a commit nor a restart has made up for it.
  predicate Failed(op: Op, failed: bool) {
    match op
    case Commit(_, ok) => !ok
    case Restart(_) => false
    case _ => failed
  }

  // No deletions, accounts stored under their own address, bills with enough entries, and no
  // clean-up while a commit has failed.
  predicate TameOp(op: Op, failed: bool) {
    match op
    case Store(k, v) => v.address == k
    case Remove(_) => false
    case Settle(rs, fees, rewards) => |rs| <= |fees| && |rs| <= |rewards|
    case Discard => !failed
    case _ => true
  }

  predicate Tame(ops: seq<Op>, failed: bool)
    decreases |ops|
  {
    ops == [] || (TameOp(ops[0], failed) && Tame(ops[1..], Failed(ops[0], failed)))
  }

  ghost predicate Unmarked(s: State) {
    forall k :: k in s.dirty ==> s.dirty[k].Some?
  }

  ghost predicate Kept(s: State, l: Ledger, failed: bool) {
    && Refines(s, l) && Unmarked(s) && OwnAddress(l.current) && OwnAddress(l.committed)
    && (!failed ==> s.shared == {} && s.readonly == s.bucket)
  }

  lemma PartsUnmarked(s: State, k: Address, v: Account)
    requires Unmarked(s)
    ensures Unmarked(LoadOrStore(s, k, v)) && Unmarked(Touch(s, k)) && Unmarked(Put(s, k, v))
  {
  }

  lemma TransferUnmarked(s: State, sender: Address, receiver: Address, amount: uint64)
    requires Unmarked(s)
    ensures Unmarked(Transfer(s, sender, receiver, amount).0)
  {
    hide Unmarked, LoadOrStore, Touch, Put, Look, SafeAdd, SafeSub;
    if sender != receiver {
      var s1 := LoadOrStore(s, sender, Zero(sender));
      var s2 := LoadOrStore(s1, receiver, Zero(receiver));
      PartsUnmarked(s, sender, Zero(sender));
      PartsUnmarked(s1, receiver, Zero(receiver));
      if Move(s2, sender, receiver, amount).1 == NoError {
        var a := Look(s2, sender).value.(stable := SafeSub(Look(s2, sender).value.stable, amount).0);
        var b := Look(s2, receiver).value.(stable := SafeAdd(Look(s2, receiver).value.stable, amount).0);
        PartsUnmarked(s2, sender, a);
        PartsUnmarked(Touch(s2, sender), receiver, b);
        var s3 := Touch(Touch(s2, sender), receiver);
        PartsUnmarked(s3, sender, a);
        PartsUnmarked(Put(s3, sender, a), receiver, b);
      }
    }
  }

  lemma {:induction false} BillUnmarked(s: State, receivers: seq<Address>, fees: seq<uint64>, rewards: seq<uint64>)
    requires Unmarked(s)
    ensures Unmarked(Bill(s, receivers, fees, rewards).0)
    decreases |receivers|
  {
    hide Change;
    if receivers != [] && fees != [] {
      var (s1, err1) := Change(s, receivers[0], Covenant, fees[0], true);
      ChangeUnmarked(s, receivers[0], Covenant, fees[0], true);
      if err1 == NoError && rewards != [] {
        ChangeUnmarked(s1, receivers[0], Stable, rewards[0], true);
        var (s2, err2) := Change(s1, receivers[0], Stable, rewards[0], true);
        BillUnmarked(s2, receivers[1..], fees[1..], rewards[1..]);
      }
    }
  }

  lemma ChangeUnmarked(s: State, k: Address, c: Coin, amount: uint64, up: bool)
    requires Unmarked(s)
    ensures Unmarked(Change(s, k, c, amount, up).0)
  {
    hide SafeAdd, SafeSub;
  }

  lemma {:induction false} PlainBillOwn(m: map<Address, Account>, receivers: seq<Address>, fees: seq<uint64>, rewards: seq<uint64>)
    requires OwnAddress(m) && |receivers| <= |fees| && |receivers| <= |rewards|
    ensures OwnAddress(PlainBill(m, receivers, fees, rewards).0)
    decreases |receivers|
  {
    if receivers != [] {
      var (m1, err1) := PlainChange(m, receivers[0], Covenant, fees[0], true);
      var (m2, err2) := PlainChange(m1, receivers[0], Stable, rewards[0], true);
      PlainBillOwn(m2, receivers[1..], fees[1..], rewards[1..]);
    }
  }

  lemma PlainOwn(l: Ledger, op: Op)
    requires OwnAddress(l.current) && OwnAddress(l.committed) && TameOp(op, false)
    ensures OwnAddress(PlainStep(l, op).0.current) && OwnAddress(PlainStep(l, op).0.committed)
  {
    if op.Settle? {
      PlainBillOwn(l.current, op.receivers, op.fees, op.rewards);
    }
  }

  lemma StepUnmarked(s: State, op: Op)
    requires Unmarked(s) && !op.Remove?
    ensures Unmarked(Step(s, op).0)
  {
    hide Transfer, Change, Bill;
    match op
    case Adjust(k, c, amount, up) => ChangeUnmarked(s, k, c, amount, up);
    case Send(x, y, amount) => TransferUnmarked(s, x, y, amount);
    case Settle(rs, fees, rewards) => BillUnmarked(s, rs, fees, rewards);
    case _ =>
  }

  lemma StepSynced(s: State, op: Op)
    requires Pending(op) && s.shared == {}
    ensures Step(s, op).0.shared == {} && Step(s, op).0.readonly == s.readonly && Step(s, op).0.bucket == s.bucket
  {
    hide Step;
    StepWithin(s, op);
    var t := Step(s, op).0;
    SameMap(t.readonly, s.readonly);
  }

  lemma TameStep(s: State, l: Ledger, op: Op, failed: bool)
    requires Kept(s, l, failed) && Possible(s, op) && TameOp(op, failed)
    ensures Kept(Step(s, op).0, PlainStep(l, op).0, Failed(op, failed))
    ensures Step(s, op).1 == PlainStep(l, op).1 != Crash
  {
    hide Effective, Rekeyed, Merge, Change, Transfer, Bill, LoadOrStore, PlainChange, PlainTransfer, PlainBill, PlainStore;
    assert Meant(s, op);
    StepRefines(s, l, op);
    StepUnmarked(s, op);
    PlainOwn(l, op);
    NoCrash(s, op);
    if Pending(op) && s.shared == {} {
      StepSynced(s, op);
    }
    if op.Commit? {
      CommitAllKeeps(s);
    }
    if op.Restart? {
      ReloadIff(s.bucket, op.loaded);
    }
  }

  lemma NoCrash(s: State, op: Op)
    requires Unmarked(s) && TameOp(op, false)
    ensures Step(s, op).1 != Crash
  {
    hide Change, Transfer, Bill;
    match op
    case Adjust(k, c, amount, up) => ChangeRefines(s, k, c, amount, up);
    case Send(x, y, amount) => TransferRefines(s, x, y, amount);
    case Settle(rs, fees, rewards) => BillRefines(s, rs, fees, rewards);
    case _ =>
  }

  // From the start on, whatever is stored, sent, billed, committed, half committed, cleaned up or
  // reloaded: the overlay answers like the plain ledger and never crashes.
  lemma {:induction false} TameRun(s: State, l: Ledger, ops: seq<Op>, failed: bool)
    requires Kept(s, l, failed) && PossibleRun(s, ops) && Tame(ops, failed)
    ensures Refines(Run(s, ops).0, PlainRun(l, ops).0) && Run(s, ops).1 == PlainRun(l, ops).1
    ensures Crash !in Run(s, ops).1
    decreases |ops|
  {
    hide Step, PlainStep, Possible, Refines, Unmarked, OwnAddress;
    if ops != [] {
      TameStep(s, l, ops[0], failed);
      TameRun(Step(s, ops[0]).0, PlainStep(l, ops[0]).0, ops[1..], Failed(ops[0], failed));
    }
  }

  lemma FreshKept()
    ensures Kept(FRESH, Ledger(map[], map[]), false)
  {
  }

  lemma TameFromStart(ops: seq<Op>)
    requires PossibleRun(FRESH, ops) && Tame(ops, false)
    ensures Refines(Run(FRESH, ops).0, PlainRun(Ledger(map[], map[]), ops).0)
    ensures Run(FRESH, ops).1 == PlainRun(Ledger(map[], map[]), ops).1 && Crash !in Run(FRESH, ops).1
  {
    FreshKept();
    TameRun(FRESH, Ledger(map[], map[]), ops, false);
  }

  // ----- clean-up -----

  // Cleaning up after any changes to the overlay, crashes and deletions included, gives back
  // exactly what was in memory, as long as no object is shared.
  lemma {:induction false} CleanRestores(s: State, ops: seq<Op>)
    requires s.shared == {} && forall op :: op in ops ==> Pending(op)
    ensures Clean(Run(s, ops).0) == Clean(s) && Effective(Clean(s)) == s.readonly
    decreases |ops|
  {
    hide Step;
    EffectiveCommitted(Clean(s));
    if ops != [] {
      StepSynced(s, ops[0]);
      CleanRestores(Step(s, ops[0]).0, ops[1..]);
    }
  }

  // After a commit that failed half-way, cleaning up gives back the last commit exactly when
  // nothing it had worked off differs from it.
  lemma FailedCommitThenClean(s: State, done: set<Address>)
    requires s.readonly == s.bucket
    ensures Effective(Clean(CommitPart(s, done))) == s.bucket <==>
            forall k :: k in s.dirty && k in done ==> s.dirty[k] == Find(s.bucket, k)
  {
    hide Effective, Merge;
    var t := Clean(CommitPart(s, done));
    EffectiveCommitted(t);
    forall k ensures Find(t.readonly, k) == if k in s.dirty && k in done then s.dirty[k] else Find(s.bucket, k) {
      MergeAt(s.readonly, s.dirty, done, k);
    }
    if forall k :: k in s.dirty && k in done ==> s.dirty[k] == Find(s.bucket, k) {
      SameMap(t.readonly, s.bucket);
    }
  }

  // A balance change reaches the committed accounts in memory exactly through a shared object.
  lemma WritesThroughIff(s: State, k: Address, c: Coin, amount: uint64, up: bool)
    requires SharedOk(s) && amount > 0 && Change(s, k, c, amount, up).1 == NoError
    ensures Change(s, k, c, amount, up).0.readonly != s.readonly <==> k in s.shared
  {
    var (t, err) := Change(s, k, c, amount, up);
    var a := Look(s, k).value;
    SafeAddExact(Balance(a, c), amount);
    if k in s.shared {
      assert Balance(t.readonly[k], c) != Balance(s.readonly[k], c);
    }
  }

  // So after a commit that failed half-way, exactly the changes to accounts it had worked off, or
  // an earlier such commit had, reach the committed accounts at once.
  lemma HalfCommitWritesThrough(s: State, done: set<Address>, k: Address, c: Coin, amount: uint64, up: bool)
    requires SharedOk(s) && amount > 0 && Change(CommitPart(s, done), k, c, amount, up).1 == NoError
    ensures var t := CommitPart(s, done);
            Change(t, k, c, amount, up).0.readonly != t.readonly <==>
            k in s.shared || (k in s.dirty && k in done && s.dirty[k].Some?)
  {
    hide Change, Merge, Effective;
    CommitPartKeeps(s, done);
    WritesThroughIff(CommitPart(s, done), k, c, amount, up);
  }
}
