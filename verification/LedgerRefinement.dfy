// The overlay behaves like a plain ledger: one map of current accounts and the last committed
// one. Deletion marks and commits that fail half-way are where it does not, and exactly when is
// part of the statements.

module LedgerRefinement {
  import opened Common
  import opened LedgerSpec

  datatype Ledger = Ledger(current: map<Address, Account>, committed: map<Address, Account>)

  // ----- the plain ledger -----

  function PlainStore(m: map<Address, Account>, k: Address, v: Account): map<Address, Account> {
    if k in m then m else m[k := v]
  }

  function PlainChange(m: map<Address, Account>, k: Address, c: Coin, amount: uint64, up: bool): (map<Address, Account>, Error) {
    if k !in m then (m, AccountNotFound) else
    var b := Balance(m[k], c);
    if up then
      if b + amount > MAX_UINT64 then (m, BalanceOverflow) else (m[k := WithBalance(m[k], c, b + amount)], NoError)
    else
      if b < amount then (m, InsufficientBalance) else (m[k := WithBalance(m[k], c, b - amount)], NoError)
  }

  // Both accounts come into being, even if the money then does not move.
  function PlainTransfer(m: map<Address, Account>, sender: Address, receiver: Address, amount: uint64): (map<Address, Account>, Error) {
    if sender == receiver then (m, NoError) else
    var n := PlainStore(PlainStore(m, sender, Zero(sender)), receiver, Zero(receiver));
    var sb, rb := n[sender].stable, n[receiver].stable;
    if sb < amount then (n, InsufficientBalance) else
    if rb + amount > MAX_UINT64 then (n, BalanceOverflow) else
    (n[sender := n[sender].(stable := sb - amount)][receiver := n[receiver].(stable := rb + amount)], NoError)
  }

  function PlainBill(m: map<Address, Account>, receivers: seq<Address>, fees: seq<uint64>, rewards: seq<uint64>): (map<Address, Account>, Error)
    requires |receivers| <= |fees| && |receivers| <= |rewards|
    decreases |receivers|
  {
    if receivers == [] then (m, NoError) else
    var (m1, err1) := PlainChange(m, receivers[0], Covenant, fees[0], true);
    if err1 != NoError then (m1, err1) else
    var (m2, err2) := PlainChange(m1, receivers[0], Stable, rewards[0], true);
    if err2 != NoError then (m2, err2) else PlainBill(m2, receivers[1..], fees[1..], rewards[1..])
  }

  // ----- single operations -----

  predicate Marked(s: State, k: Address) {
    k in s.dirty && s.dirty[k].None?
  }

  // Two states that differ only in what one address shows, or not at all.
  lemma EffectiveUpdate(s: State, t: State, k: Address, v: Account)
    requires Look(t, k) == Some(v) && forall x {:trigger Look(t, x)} :: x != k ==> Look(t, x) == Look(s, x)
    ensures Effective(t) == Effective(s)[k := v]
  {
    hide Effective, Look;
    forall x ensures Find(Effective(t), x) == Find(Effective(s)[k := v], x) {
      EffectiveAt(s, x);
      EffectiveAt(t, x);
    }
    SameMap(Effective(t), Effective(s)[k := v]);
  }

  // loadOrStore does what it says exactly when no deletion mark covers a committed account.
  lemma StoreRefines(s: State, k: Address, v: Account)
    ensures !Shadowed(s, k) <==> Effective(LoadOrStore(s, k, v)) == PlainStore(Effective(s), k, v)
    ensures Shadowed(s, k) ==> LoadOrStore(s, k, v) == s
  {
    hide Effective;
    EffectiveAt(s, k);
    var t := LoadOrStore(s, k, v);
    if Shadowed(s, k) {
      assert k !in Effective(s);
    } else if k !in Effective(s) {
      EffectiveUpdate(s, t, k, v);
    }
  }

  lemma DeleteRefines(s: State, k: Address)
    ensures Effective(Delete(s, k)) == Effective(s) - {k}
  {
    hide Effective;
    forall x ensures Find(Effective(Delete(s, k)), x) == Find(Effective(s) - {k}, x) {
      EffectiveAt(s, x);
      EffectiveAt(Delete(s, k), x);
    }
    SameMap(Effective(Delete(s, k)), Effective(s) - {k});
  }

  lemma TouchEffective(s: State, k: Address)
    ensures Effective(Touch(s, k)) == Effective(s)
    ensures k in Effective(s) ==> k in Touch(s, k).dirty && Touch(s, k).dirty[k] == Some(Effective(s)[k])
    ensures forall x :: x in s.dirty ==> x in Touch(s, k).dirty && Touch(s, k).dirty[x] == s.dirty[x]
  {
    EffectiveAt(s, k);
    SameEffective(s, Touch(s, k));
  }

  lemma PutEffective(s: State, k: Address, v: Account)
    requires k in s.dirty && s.dirty[k].Some?
    ensures Effective(Put(s, k, v)) == Effective(s)[k := v]
    ensures forall x :: x in s.dirty && x != k ==> x in Put(s, k, v).dirty && Put(s, k, v).dirty[x] == s.dirty[x]
  {
    EffectiveUpdate(s, Put(s, k, v), k, v);
  }

  // A balance change crashes exactly on a deletion mark, and is otherwise the plain one.
  lemma ChangeRefines(s: State, k: Address, c: Coin, amount: uint64, up: bool)
    ensures var (t, err) := Change(s, k, c, amount, up);
            && (err == Crash <==> Marked(s, k))
            && (err != Crash ==> (Effective(t), err) == PlainChange(Effective(s), k, c, amount, up))
            && (forall x :: Marked(t, x) <==> Marked(s, x))
  {
    hide Effective, SafeAdd;
    EffectiveAt(s, k);
    TouchEffective(s, k);
    if k in Effective(s) {
      var a := Effective(s)[k];
      SafeAddExact(Balance(a, c), amount);
      var (t, err) := Change(s, k, c, amount, up);
      if err == NoError {
        PutEffective(Touch(s, k), k, t.dirty[k].value);
      }
    }
  }

  lemma MoveRefines(s: State, sender: Address, receiver: Address, amount: uint64)
    requires sender != receiver && sender in Effective(s) && receiver in Effective(s)
    ensures var (t, err) := Move(s, sender, receiver, amount);
            var m := Effective(s);
            var sb, rb := m[sender].stable, m[receiver].stable;
            && (sb < amount ==> t == s && err == InsufficientBalance)
            && (sb >= amount && rb + amount > MAX_UINT64 ==> t == s && err == BalanceOverflow)
            && (sb >= amount && rb + amount <= MAX_UINT64 ==>
                  && err == NoError
                  && Effective(t) == m[sender := m[sender].(stable := sb - amount)][receiver := m[receiver].(stable := rb + amount)])
  {
    hide Effective, Touch, Put, Look, SafeAdd;
    EffectiveAt(s, sender);
    EffectiveAt(s, receiver);
    var so, ro := Look(s, sender).value, Look(s, receiver).value;
    SafeAddExact(ro.stable, amount);
    if so.stable >= amount && ro.stable + amount <= MAX_UINT64 {
      var t1 := Touch(Touch(s, sender), receiver);
      TouchEffective(s, sender);
      TouchEffective(Touch(s, sender), receiver);
      var a, b := so.(stable := so.stable - amount), ro.(stable := ro.stable + amount);
      PutEffective(t1, sender, a);
      PutEffective(Put(t1, sender, a), receiver, b);
    }
  }

  // With both accounts in place, the move crashes exactly on a deletion mark.
  lemma MoveCrashes(s: State, sender: Address, receiver: Address, amount: uint64)
    requires (sender in s.dirty || sender in s.readonly) && (receiver in s.dirty || receiver in s.readonly)
    ensures Move(s, sender, receiver, amount).1 == Crash <==> Look(s, sender).None? || Look(s, receiver).None?
  {
    hide SafeAdd, SafeSub, Touch, Put;
    if Look(s, sender).Some? && Look(s, receiver).Some? {
      NoSumCrashes(Look(s, sender).value.stable, Look(s, receiver).value.stable, amount);
    }
  }

  lemma NoSumCrashes(x: uint64, y: uint64, amount: uint64)
    ensures SafeSub(x, amount).1 != Crash && SafeAdd(y, amount).1 != Crash
  {
  }

  // After both look-ups each party has an account, or still the mark over its committed one.
  lemma PartiesStored(s: State, sender: Address, receiver: Address)
    requires sender != receiver
    ensures var t := LoadOrStore(LoadOrStore(s, sender, Zero(sender)), receiver, Zero(receiver));
            && (sender in t.dirty || sender in t.readonly) && (receiver in t.dirty || receiver in t.readonly)
            && (Look(t, sender).None? <==> Shadowed(s, sender)) && (Look(t, receiver).None? <==> Shadowed(s, receiver))
            && (Shadowed(LoadOrStore(s, sender, Zero(sender)), receiver) <==> Shadowed(s, receiver))
  {
  }

  // A transfer crashes exactly when a deletion mark covers a committed account of either party,
  // and is otherwise the plain one.
  lemma TransferRefines(s: State, sender: Address, receiver: Address, amount: uint64)
    ensures var (t, err) := Transfer(s, sender, receiver, amount);
            && (err == Crash <==> sender != receiver && (Shadowed(s, sender) || Shadowed(s, receiver)))
            && (err != Crash ==> (Effective(t), err) == PlainTransfer(Effective(s), sender, receiver, amount))
  {
    hide Effective, LoadOrStore, Move, Shadowed, Look;
    if sender != receiver {
      var s1 := LoadOrStore(s, sender, Zero(sender));
      var s2 := LoadOrStore(s1, receiver, Zero(receiver));
      StoreRefines(s, sender, Zero(sender));
      StoreRefines(s1, receiver, Zero(receiver));
      PartiesStored(s, sender, receiver);
      MoveCrashes(s2, sender, receiver, amount);
      EffectiveAt(s2, sender);
      EffectiveAt(s2, receiver);
      if !Shadowed(s, sender) && !Shadowed(s, receiver) {
        MoveRefines(s2, sender, receiver, amount);
      }
    }
  }

  // A billing that does not crash is the plain one, and none crashes without deletion marks.
  lemma {:induction false} BillRefines(s: State, receivers: seq<Address>, fees: seq<uint64>, rewards: seq<uint64>)
    requires |receivers| <= |fees| && |receivers| <= |rewards|
    ensures var (t, err) := Bill(s, receivers, fees, rewards);
            && (err != Crash ==> (Effective(t), err) == PlainBill(Effective(s), receivers, fees, rewards))
            && ((forall k :: k in receivers ==> !Marked(s, k)) ==> err != Crash)
    decreases |receivers|
  {
    hide Effective, Change, PlainChange, Marked;
    if receivers != [] {
      var (s1, err1) := Change(s, receivers[0], Covenant, fees[0], true);
      ChangeRefines(s, receivers[0], Covenant, fees[0], true);
      if err1 == NoError {
        var (s2, err2) := Change(s1, receivers[0], Stable, rewards[0], true);
        ChangeRefines(s1, receivers[0], Stable, rewards[0], true);
        if err2 == NoError {
          BillRefines(s2, receivers[1..], fees[1..], rewards[1..]);
        }
      }
    }
  }

  // The billing gets as far as receiver i and cannot go on there: a list has run out, or the
  // account carries a deletion mark.
  ghost predicate StopsAt(s: State, receivers: seq<Address>, fees: seq<uint64>, rewards: seq<uint64>, i: nat) {
    && i < |receivers| && i <= |fees| && i <= |rewards|
    && var (m, err) := PlainBill(Effective(s), receivers[..i], fees[..i], rewards[..i]);
    && err == NoError
    && (|| i == |fees| || Marked(s, receivers[i])
        || (i == |rewards| && PlainChange(m, receivers[i], Covenant, fees[i], true).1 == NoError))
  }

  // The first receiver is served.
  ghost predicate FirstServed(s: State, t: State, r: Address, fee: uint64, reward: uint64) {
    && Change(s, r, Covenant, fee, true).1 == NoError
    && Change(Change(s, r, Covenant, fee, true).0, r, Stable, reward, true) == (t, NoError)
  }

  lemma ServedPlainly(s: State, t: State, r: Address, fee: uint64, reward: uint64)
    requires FirstServed(s, t, r, fee, reward)
    ensures var (m1, err1) := PlainChange(Effective(s), r, Covenant, fee, true);
            err1 == NoError && PlainChange(m1, r, Stable, reward, true) == (Effective(t), NoError)
    ensures forall k :: Marked(t, k) <==> Marked(s, k)
  {
    hide Effective, Change, PlainChange, Marked;
    ChangeRefines(s, r, Covenant, fee, true);
    ChangeRefines(Change(s, r, Covenant, fee, true).0, r, Stable, reward, true);
  }

  // Once the first receiver is served, the rest stops one place earlier.
  lemma StopsLater(s: State, t: State, receivers: seq<Address>, fees: seq<uint64>, rewards: seq<uint64>, i: nat)
    requires receivers != [] && fees != [] && rewards != [] && FirstServed(s, t, receivers[0], fees[0], rewards[0])
    ensures StopsAt(t, receivers[1..], fees[1..], rewards[1..], i) <==> StopsAt(s, receivers, fees, rewards, i + 1)
  {
    hide Effective, PlainChange, Marked, FirstServed;
    ServedPlainly(s, t, receivers[0], fees[0], rewards[0]);
    if i + 1 <= |receivers| && i + 1 <= |fees| && i + 1 <= |rewards| {
      assert receivers[..i + 1][1..] == receivers[1..][..i];
      assert fees[..i + 1][1..] == fees[1..][..i];
      assert rewards[..i + 1][1..] == rewards[1..][..i];
      assert PlainBill(Effective(s), receivers[..i + 1], fees[..i + 1], rewards[..i + 1]) ==
             PlainBill(Effective(t), receivers[1..][..i], fees[1..][..i], rewards[1..][..i]);
    }
  }

  lemma StopsFirst(s: State, receivers: seq<Address>, fees: seq<uint64>, rewards: seq<uint64>)
    requires receivers != []
    ensures StopsAt(s, receivers, fees, rewards, 0) <==>
            || fees == [] || Marked(s, receivers[0])
            || (rewards == [] && PlainChange(Effective(s), receivers[0], Covenant, fees[0], true).1 == NoError)
  {
    hide Effective, PlainChange, Marked;
    assert receivers[..0] == [] && fees[..0] == [] && rewards[..0] == [];
  }

  // If the first receiver cannot be served, no later one is reached.
  lemma NotReached(s: State, receivers: seq<Address>, fees: seq<uint64>, rewards: seq<uint64>, i: nat)
    requires i > 0 && StopsAt(s, receivers, fees, rewards, i)
    ensures fees != [] && rewards != []
    ensures var (m1, err1) := PlainChange(Effective(s), receivers[0], Covenant, fees[0], true);
            err1 == NoError && PlainChange(m1, receivers[0], Stable, rewards[0], true).1 == NoError
  {
    hide Effective, PlainChange, Marked;
    assert receivers[..i][0] == receivers[0] && fees[..i][0] == fees[0] && rewards[..i][0] == rewards[0];
  }

  // A billing crashes exactly where it stops in this way.
  lemma {:induction false} BillCrashIff(s: State, receivers: seq<Address>, fees: seq<uint64>, rewards: seq<uint64>)
    ensures Bill(s, receivers, fees, rewards).1 == Crash <==> exists i: nat :: StopsAt(s, receivers, fees, rewards, i)
    decreases |receivers|
  {
    hide Effective, Change, PlainChange, Marked;
    if receivers != [] {
      CrashSplit(s, receivers, fees, rewards);
      if fees != [] && rewards != [] {
        var r := receivers[0];
        var s1 := Change(s, r, Covenant, fees[0], true).0;
        var s2 := Change(s1, r, Stable, rewards[0], true).0;
        if FirstServed(s, s2, r, fees[0], rewards[0]) {
          BillCrashIff(s2, receivers[1..], fees[1..], rewards[1..]);
        }
      }
    }
  }

  // Either the first receiver decides, or the rest does.
  lemma CrashSplit(s: State, receivers: seq<Address>, fees: seq<uint64>, rewards: seq<uint64>)
    requires receivers != []
    ensures fees == [] || rewards == [] || !FirstServed(s, AfterFirst(s, receivers[0], fees[0], rewards[0]), receivers[0], fees[0], rewards[0]) ==>
              (Bill(s, receivers, fees, rewards).1 == Crash <==> exists i: nat :: StopsAt(s, receivers, fees, rewards, i))
    ensures fees != [] && rewards != [] ==>
              var t := AfterFirst(s, receivers[0], fees[0], rewards[0]);
              FirstServed(s, t, receivers[0], fees[0], rewards[0]) ==>
                && Bill(s, receivers, fees, rewards) == Bill(t, receivers[1..], fees[1..], rewards[1..])
                && ((exists i: nat :: StopsAt(s, receivers, fees, rewards, i)) <==>
                    (exists i: nat :: StopsAt(t, receivers[1..], fees[1..], rewards[1..], i)))
  {
    hide Effective, Change, PlainChange, Marked, StopsAt;
    var r := receivers[0];
    StopsFirst(s, receivers, fees, rewards);
    forall i: nat | i > 0 && StopsAt(s, receivers, fees, rewards, i)
      ensures fees != [] && rewards != []
      ensures var (m1, err1) := PlainChange(Effective(s), r, Covenant, fees[0], true);
              err1 == NoError && PlainChange(m1, r, Stable, rewards[0], true).1 == NoError
    {
      NotReached(s, receivers, fees, rewards, i);
    }
    if fees != [] {
      ChangeRefines(s, r, Covenant, fees[0], true);
      if rewards != [] {
        var s1 := Change(s, r, Covenant, fees[0], true).0;
        ChangeRefines(s1, r, Stable, rewards[0], true);
        var t := AfterFirst(s, r, fees[0], rewards[0]);
        if FirstServed(s, t, r, fees[0], rewards[0]) {
          StopsShift(s, t, receivers, fees, rewards);
        }
      }
    }
  }

  ghost function AfterFirst(s: State, r: Address, fee: uint64, reward: uint64): State {
    Change(Change(s, r, Covenant, fee, true).0, r, Stable, reward, true).0
  }

  lemma StopsShift(s: State, t: State, receivers: seq<Address>, fees: seq<uint64>, rewards: seq<uint64>)
    requires receivers != [] && fees != [] && rewards != [] && FirstServed(s, t, receivers[0], fees[0], rewards[0])
    ensures (exists i: nat :: StopsAt(s, receivers, fees, rewards, i)) <==>
            (exists i: nat :: StopsAt(t, receivers[1..], fees[1..], rewards[1..], i))
  {
    hide Effective, Change, PlainChange, Marked, StopsAt, FirstServed;
    StopsFirst(s, receivers, fees, rewards);
    assert !StopsAt(s, receivers, fees, rewards, 0) by { ServedUnmarked(s, t, receivers[0], fees[0], rewards[0]); }
    if i: nat :| StopsAt(s, receivers, fees, rewards, i) {
      StopsLater(s, t, receivers, fees, rewards, i - 1);
      assert StopsAt(t, receivers[1..], fees[1..], rewards[1..], i - 1);
    }
    if i: nat :| StopsAt(t, receivers[1..], fees[1..], rewards[1..], i) {
      StopsLater(s, t, receivers, fees, rewards, i);
      assert StopsAt(s, receivers, fees, rewards, i + 1);
    }
  }

  lemma ServedUnmarked(s: State, t: State, r: Address, fee: uint64, reward: uint64)
    requires FirstServed(s, t, r, fee, reward)
    ensures !Marked(s, r)
  {
    hide Effective, Change, PlainChange, Marked;
    ChangeRefines(s, r, Covenant, fee, true);
  }

  // ----- what a change of the overlay leaves alone -----

  // The bucket stays, and so do the committed accounts in memory except behind shared objects.
  ghost predicate Within(s: State, t: State) {
    && t.bucket == s.bucket && t.shared <= s.shared && s.dirty.Keys <= t.dirty.Keys
    && (SharedOk(s) ==> SharedOk(t))
    && (forall k {:trigger Find(t.readonly, k)} :: k !in s.shared ==> Find(t.readonly, k) == Find(s.readonly, k))
  }

  lemma StoreWithin(s: State, k: Address, v: Account)
    ensures Within(s, LoadOrStore(s, k, v)) && Within(s, Touch(s, k))
  {
  }

  lemma DeleteWithin(s: State, k: Address)
    ensures Within(s, Delete(s, k))
  {
  }

  lemma PutWithin(s: State, k: Address, v: Account)
    ensures Within(s, Put(s, k, v))
  {
    var t := Put(s, k, v);
    assert forall x {:trigger Find(t.readonly, x)} :: x != k ==> Find(t.readonly, x) == Find(s.readonly, x);
  }

  lemma WithinTrans(s: State, t: State, u: State)
    requires Within(s, t) && Within(t, u)
    ensures Within(s, u)
  {
  }

  lemma ChangeWithin(s: State, k: Address, c: Coin, amount: uint64, up: bool)
    ensures Within(s, Change(s, k, c, amount, up).0)
  {
    hide Within;
    var (u, err) := Change(s, k, c, amount, up);
    var t := Touch(s, k);
    StoreWithin(s, k, Zero(k));
    if err == NoError {
      var v := WithBalance(t.dirty[k].value, c,
        if up then SafeAdd(Balance(t.dirty[k].value, c), amount).0 else SafeSub(Balance(t.dirty[k].value, c), amount).0);
      assert u == Put(t, k, v);
      PutWithin(t, k, v);
      WithinTrans(s, t, u);
    }
  }
}
