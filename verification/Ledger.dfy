// The account state as the block producer keeps it: two maps over mutable account objects that
// are copied on write (blockproducer/metastate.go). Every method is tied to LedgerSpec.

module Ledger {
  import opened Common
  import opened LedgerSpec

  class AccountObject {
    var account: Account

    constructor (account: Account)
      ensures this.account == account
    {
      this.account := account;
    }
  }

  class MetaState {
    var dirty: map<Address, AccountObject?>
    var readonly: map<Address, AccountObject>
    var bucket: map<Address, Account>
    ghost var model: State
    ghost var objects: set<AccountObject>

    // The maps carry what the model says. An object serves one address, and one of the two maps
    // unless the model says it is shared.
    ghost predicate Valid()
      reads this, objects
    {
      && dirty.Keys == model.dirty.Keys && readonly.Keys == model.readonly.Keys && bucket == model.bucket
      && model.shared <= dirty.Keys && model.shared <= readonly.Keys
      && (forall k {:trigger dirty[k]} :: k in dirty ==>
            && (dirty[k] == null <==> model.dirty[k].None?)
            && (dirty[k] != null ==> dirty[k] in objects && model.dirty[k].value == dirty[k].account))
      && (forall k {:trigger readonly[k]} :: k in readonly ==>
            readonly[k] in objects && model.readonly[k] == readonly[k].account)
      && (forall k, l {:trigger dirty[k], dirty[l]} ::
            k in dirty && l in dirty && k != l && dirty[k] != null ==> dirty[k] != dirty[l])
      && (forall k, l {:trigger readonly[k], readonly[l]} ::
            k in readonly && l in readonly && k != l ==> readonly[k] != readonly[l])
      && (forall k, l {:trigger dirty[k], readonly[l]} ::
            k in dirty && l in readonly ==> (dirty[k] == readonly[l] <==> k == l && k in model.shared))
    }

    constructor ()
      ensures Valid() && model == FRESH && objects == {}
    {
      dirty, readonly, bucket, model, objects := map[], map[], map[], FRESH, {};
    }

    // What a look-up meets.
    lemma Stored(k: Address)
      requires Valid()
      ensures k in dirty <==> k in model.dirty
      ensures k in dirty ==>
                && (dirty[k] == null <==> model.dirty[k].None?)
                && (dirty[k] != null ==> dirty[k] in objects && model.dirty[k] == Some(dirty[k].account))
      ensures k in readonly <==> k in model.readonly
      ensures k in readonly ==> readonly[k] in objects && model.readonly[k] == readonly[k].account
    {
    }

    lemma Books()
      requires Valid()
      ensures dirty.Keys == model.dirty.Keys && bucket == model.bucket && SharedOk(model)
    {
    }

    // Puts an unused object into the overlay where it has none.
    method Insert(k: Address, o: AccountObject)
      requires Valid() && o !in objects && (k in dirty ==> dirty[k] == null)
      modifies this`dirty, this`model, this`objects
      ensures Valid() && model == old(model).(dirty := old(model).dirty[k := Some(o.account)])
      ensures objects == old(objects) + {o}
      ensures dirty == old(dirty)[k := o]
    {
      dirty := dirty[k := o];
      model := model.(dirty := model.dirty[k := Some(o.account)]);
      objects := objects + {o};
    }

    // Assigns to an account object of the overlay.
    method Assign(ghost k: Address, o: AccountObject, v: Account)
      requires Valid() && k in dirty && dirty[k] == o
      modifies this`model, o
      ensures Valid() && model == Put(old(model), k, v)
    {
      o.account := v;
      model := Put(model, k, v);
    }

    method DeleteAccountObject(k: Address)
      requires Valid()
      modifies this`dirty, this`model
      ensures Valid() && model == Delete(old(model), k)
    {
      dirty := dirty[k := null];
      model := Delete(model, k);
    }

    method LoadAccountObject(k: Address) returns (o: AccountObject?, loaded: bool)
      requires Valid()
      ensures loaded <==> k in Effective(model)
      ensures loaded ==> o != null && o.account == Effective(model)[k]
    {
      EffectiveAt(model, k);
      if k in dirty {
        return dirty[k], dirty[k] != null;
      }
      if k in readonly {
        return readonly[k], true;
      }
      return null, false;
    }

    method LoadOrStoreAccountObject(k: Address, v: AccountObject) returns (o: AccountObject?, loaded: bool)
      requires Valid() && v !in objects
      modifies this`dirty, this`model, this`objects
      ensures Valid() && model == LoadOrStore(old(model), k, v.account) && objects <= old(objects) + {v}
      ensures loaded <==> model == old(model)
    {
      hide Valid;
      Stored(k);
      if k in dirty && dirty[k] != null {
        return dirty[k], true;
      }
      if k in readonly {
        return readonly[k], true;
      }
      Insert(k, v);
      return null, false;
    }

    // Copy on write.
    method CopyUp(k: Address) returns (o: AccountObject?)
      requires Valid() && (k in dirty || k in readonly)
      modifies this`dirty, this`model, this`objects
      ensures Valid() && model == Touch(old(model), k)
      ensures k in dirty && dirty == if k in old(dirty) then old(dirty) else old(dirty)[k := o]
      ensures dirty[k] == o
      ensures old(objects) <= objects && fresh(objects - old(objects))
    {
      hide Valid;
      Stored(k);
      if k in dirty {
        o := dirty[k];
      } else {
        o := new AccountObject(readonly[k].account);
        Insert(k, o);
      }
    }

    // The increase and decrease functions for either coin.
    method ChangeBalance(k: Address, c: Coin, amount: uint64, up: bool) returns (err: Error)
      requires Valid()
      modifies this`dirty, this`model, this`objects, objects
      ensures Valid() && fresh(objects - old(objects))
      ensures model == Change(old(model), k, c, amount, up).0 && err == Change(old(model), k, c, amount, up).1
    {
      hide Valid, SafeAdd;
      Stored(k);
      if k !in dirty && k !in readonly {
        return AccountNotFound;
      }
      var dst := CopyUp(k);
      Stored(k);
      if dst == null {
        return Crash;
      }
      var b;
      if up {
        b, err := AddSafely(Balance(dst.account, c), amount);
      } else {
        b, err := SubSafely(Balance(dst.account, c), amount);
      }
      if err == NoError {
        Assign(k, dst, WithBalance(dst.account, c, b));
      }
    }

    method TransferAccountStableBalance(sender: Address, receiver: Address, amount: uint64) returns (err: Error)
      requires Valid()
      modifies this`dirty, this`model, this`objects, objects
      ensures Valid() && fresh(objects - old(objects))
      ensures model == Transfer(old(model), sender, receiver, amount).0 && err == Transfer(old(model), sender, receiver, amount).1
    {
      hide Valid, SafeAdd, LoadOrStore;
      if sender == receiver {
        return NoError;
      }
      var v := new AccountObject(Zero(sender));
      var _, _ := LoadOrStoreAccountObject(sender, v);
      var w := new AccountObject(Zero(receiver));
      var _, _ := LoadOrStoreAccountObject(receiver, w);
      err := MoveBalance(sender, receiver, amount);
    }

    // The rest of a transfer: both balances are worked out before either account is written.
    method MoveBalance(sender: Address, receiver: Address, amount: uint64) returns (err: Error)
      requires Valid() && sender != receiver
      modifies this`dirty, this`model, this`objects, objects
      ensures Valid() && fresh(objects - old(objects))
      ensures model == Move(old(model), sender, receiver, amount).0 && err == Move(old(model), sender, receiver, amount).1
    {
      hide Valid, SafeAdd, SafeSub, Touch, Put;
      Stored(sender);
      Stored(receiver);
      if (sender !in dirty && sender !in readonly) || (receiver !in dirty && receiver !in readonly) {
        return AccountNotFound;
      }
      var so := if sender in dirty then dirty[sender] else readonly[sender];
      var ro := if receiver in dirty then dirty[receiver] else readonly[receiver];
      if so == null || ro == null {
        return Crash;
      }
      var sb, rb;
      sb, err := SubSafely(so.account.stable, amount);
      if err != NoError {
        return;
      }
      rb, err := AddSafely(ro.account.stable, amount);
      if err != NoError {
        return;
      }
      WriteBoth(sender, so.account.(stable := sb), receiver, ro.account.(stable := rb));
    }

    method WriteBoth(sender: Address, a: Account, receiver: Address, b: Account)
      requires Valid() && sender != receiver && Look(model, sender).Some? && Look(model, receiver).Some?
      modifies this`dirty, this`model, this`objects, objects
      ensures Valid() && fresh(objects - old(objects))
      ensures model == Put(Put(Touch(Touch(old(model), sender), receiver), sender, a), receiver, b)
    {
      hide Valid, Put;
      Stored(sender);
      Stored(receiver);
      var so := CopyUp(sender);
      var ro := CopyUp(receiver);
      Stored(sender);
      Stored(receiver);
      Assign(sender, so, a);
      Assign(receiver, ro, b);
    }

    method ApplyBilling(receivers: seq<Address>, fees: seq<uint64>, rewards: seq<uint64>) returns (err: Error)
      requires Valid()
      modifies this`dirty, this`model, this`objects, objects
      ensures Valid() && fresh(objects - old(objects))
      ensures model == Bill(old(model), receivers, fees, rewards).0 && err == Bill(old(model), receivers, fees, rewards).1
    {
      hide Valid, Change;
      var i := 0;
      while i < |receivers|
        invariant i <= |receivers| && i <= |fees| && i <= |rewards| && Valid() && fresh(objects - old(objects))
        invariant Bill(old(model), receivers, fees, rewards) == Bill(model, receivers[i..], fees[i..], rewards[i..])
      {
        if i == |fees| {
          return Crash;
        }
        assert receivers[i..][1..] == receivers[i + 1..] && fees[i..][1..] == fees[i + 1..];
        err := ChangeBalance(receivers[i], Covenant, fees[i], true);
        if err != NoError {
          return;
        }
        if i == |rewards| {
          return Crash;
        }
        assert rewards[i..][1..] == rewards[i + 1..];
        err := ChangeBalance(receivers[i], Stable, rewards[i], true);
        if err != NoError {
          return;
        }
        i := i + 1;
      }
      err := NoError;
    }

    // One entry of the overlay goes into the committed accounts, which then refer to its object.
    method Publish(k: Address)
      requires Valid() && k in dirty && dirty[k] != null
      modifies this`readonly, this`model
      ensures Valid()
      ensures model == old(model).(readonly := old(model).readonly[k := old(model).dirty[k].value], shared := old(model).shared + {k})
    {
      readonly := readonly[k := dirty[k]];
      model := model.(readonly := model.readonly[k := model.dirty[k].value], shared := model.shared + {k});
    }

    method Unpublish(k: Address)
      requires Valid() && k in dirty && dirty[k] == null
      modifies this`readonly, this`model
      ensures Valid() && model == old(model).(readonly := old(model).readonly - {k})
    {
      readonly := readonly - {k};
      model := model.(readonly := model.readonly - {k});
    }

    method CommitOne(k: Address)
      requires Valid() && k in dirty
      modifies this`readonly, this`model
      ensures Valid() && model == CommitPart(old(model), {k})
    {
      hide Valid, Merge;
      Stored(k);
      MergeOne(model.readonly, model.dirty, k);
      if dirty[k] != null {
        Publish(k);
      } else {
        Unpublish(k);
      }
      assert model.shared == CommitPart(old(model), {k}).shared;
    }

    // Works the overlay off in any order. A write that fails ends the commit and takes the bolt
    // transaction back, but not what memory has been told.
    method Commit(writes: Address -> bool) returns (err: Error, ghost done: set<Address>)
      requires Valid()
      modifies this`dirty, this`readonly, this`bucket, this`model
      ensures Valid() && done <= old(model).dirty.Keys
      ensures err == NoError ==> model == CommitAll(old(model)) && forall k :: k in old(model).dirty ==> writes(k)
      ensures err != NoError ==> model == CommitPart(old(model), done) && exists k :: k in done && !writes(k)
    {
      hide Valid, Merge;
      Books();
      var tx := bucket;
      var rest := dirty.Keys;
      done := {};
      CommitNone(model);
      while rest != {}
        invariant Valid() && dirty == old(dirty) && bucket == old(bucket)
        invariant rest <= dirty.Keys && done == dirty.Keys - rest
        invariant model == CommitPart(old(model), done)
        invariant tx == Merge(old(model).bucket, old(model).dirty, done)
        invariant forall k :: k in done ==> writes(k)
        decreases rest
      {
        var k :| k in rest;
        Stored(k);
        CommitMore(old(model), done, k);
        var v := dirty[k];
        CommitOne(k);
        done, rest := done + {k}, rest - {k};
        if !writes(k) {
          return WriteFailed, done;
        }
        if v != null {
          tx := tx[k := v.account];
        } else {
          tx := tx - {k};
        }
      }
      assert done == old(model).dirty.Keys;
      Settle(tx);
      return NoError, done;
    }

    // The end of a commit: the transaction is through and the overlay starts anew.
    method Settle(tx: map<Address, Account>)
      requires Valid()
      modifies this`dirty, this`bucket, this`model
      ensures Valid() && model == State(map[], old(model).readonly, {}, tx)
    {
      dirty, bucket := map[], tx;
      model := State(map[], model.readonly, {}, tx);
    }

    // Starts from the bucket: every account in it, in key order, under its own address.
    method Reload()
      requires Valid()
      modifies this`dirty, this`readonly, this`model, this`objects
      ensures Valid() && fresh(objects - old(objects))
      ensures Rekeyed(bucket, model.readonly) && model == LedgerSpec.Reload(old(model), model.readonly)
    {
      hide Valid, Rekeyed, Only;
      Books();
      OnlyEnds(bucket);
      Forget();
      var rest := bucket.Keys;
      ghost var done: set<Address> := {};
      while rest != {}
        invariant Valid() && fresh(objects - old(objects)) && bucket == old(bucket)
        invariant rest !! done && rest + done == bucket.Keys
        invariant forall j, k :: j in done && k in rest ==> j.id < k.id
        invariant Rekeyed(Only(bucket, done), model.readonly) && model == LedgerSpec.Reload(old(model), model.readonly)
        decreases rest
      {
        var k := Least(rest);
        var o := new AccountObject(bucket[k]);
        RekeyedMore(bucket, done, k, model.readonly);
        Receive(o);
        rest, done := rest - {k}, done + {k};
      }
      assert done == bucket.Keys;
    }

    method Forget()
      requires Valid()
      modifies this`dirty, this`readonly, this`model
      ensures Valid() && model == State(map[], map[], {}, old(model).bucket)
    {
      dirty, readonly, model := map[], map[], State(map[], map[], {}, model.bucket);
    }

    method Receive(o: AccountObject)
      requires Valid() && o !in objects && model.dirty == map[]
      modifies this`readonly, this`model, this`objects
      ensures Valid() && objects == old(objects) + {o}
      ensures model == old(model).(readonly := old(model).readonly[o.account.address := o.account])
    {
      readonly := readonly[o.account.address := o];
      model := model.(readonly := model.readonly[o.account.address := o.account]);
      objects := objects + {o};
    }

    method Clean()
      requires Valid()
      modifies this`dirty, this`model
      ensures Valid() && model == LedgerSpec.Clean(old(model))
    {
      dirty := map[];
      model := LedgerSpec.Clean(model);
    }
  }

  // The part of a bucket under these keys.
  ghost function Only(bucket: map<Address, Account>, done: set<Address>): map<Address, Account> {
    map k | k in bucket && k in done :: bucket[k]
  }

  lemma OnlyEnds(bucket: map<Address, Account>)
    ensures Rekeyed(Only(bucket, {}), map[]) && Only(bucket, bucket.Keys) == bucket
  {
  }

  // A larger key overrules what was filed under the same address before.
  lemma RekeyedMore(bucket: map<Address, Account>, done: set<Address>, k: Address, r: map<Address, Account>)
    requires k in bucket && k !in done && (forall j :: j in done ==> j.id < k.id) && Rekeyed(Only(bucket, done), r)
    ensures Rekeyed(Only(bucket, done + {k}), r[bucket[k].address := bucket[k]])
  {
    var b, c := Only(bucket, done), Only(bucket, done + {k});
    var n := r[bucket[k].address := bucket[k]];
    forall a | a in n ensures exists j :: LastOf(c, a, j) && n[a] == c[j] {
      if a == bucket[k].address {
        assert LastOf(c, a, k);
      } else {
        var j :| LastOf(b, a, j) && r[a] == b[j];
        assert LastOf(c, a, j);
      }
    }
  }

  method Least(ks: set<Address>) returns (k: Address)
    requires ks != {}
    ensures k in ks && forall j :: j in ks && j != k ==> k.id < j.id
  {
    k :| k in ks;
    var rest := ks - {k};
    while rest != {}
      invariant k in ks && k !in rest && rest <= ks
      invariant forall j :: j in ks && j !in rest && j != k ==> k.id < j.id
      decreases rest
    {
      var j :| j in rest;
      rest := rest - {j};
      if j.id < k.id {
        k := j;
      }
    }
  }

  lemma CommitNone(s: State)
    ensures CommitPart(s, {}) == s && Merge(s.bucket, s.dirty, {}) == s.bucket
  {
    SameMap(Merge(s.bucket, s.dirty, {}), s.bucket);
    SameMap(Merge(s.readonly, s.dirty, {}), s.readonly);
  }

  lemma MergeOne(m: map<Address, Account>, dirty: map<Address, Option<Account>>, k: Address)
    requires k in dirty
    ensures Merge(m, dirty, {k}) == if dirty[k].Some? then m[k := dirty[k].value] else m - {k}
  {
    hide Merge;
    var n := if dirty[k].Some? then m[k := dirty[k].value] else m - {k};
    forall l ensures Find(Merge(m, dirty, {k}), l) == Find(n, l) { MergeAt(m, dirty, {k}, l); }
    SameMap(Merge(m, dirty, {k}), n);
  }

  lemma MergeMore(m: map<Address, Account>, dirty: map<Address, Option<Account>>, done: set<Address>, k: Address)
    requires k in dirty
    ensures Merge(Merge(m, dirty, done), dirty, {k}) == Merge(m, dirty, done + {k})
    ensures Merge(m, dirty, done + {k}) ==
            if dirty[k].Some? then Merge(m, dirty, done)[k := dirty[k].value] else Merge(m, dirty, done) - {k}
  {
    hide Merge;
    var n, n1, n2 := Merge(m, dirty, done), Merge(m, dirty, done + {k}), Merge(Merge(m, dirty, done), dirty, {k});
    var n3 := if dirty[k].Some? then n[k := dirty[k].value] else n - {k};
    forall l ensures Find(n1, l) == Find(n2, l) == Find(n3, l) {
      MergeAt(m, dirty, done, l);
      MergeAt(m, dirty, done + {k}, l);
      MergeAt(n, dirty, {k}, l);
    }
    SameMap(n1, n2);
    SameMap(n1, n3);
  }

  lemma CommitMore(s: State, done: set<Address>, k: Address)
    requires k in s.dirty
    ensures CommitPart(CommitPart(s, done), {k}) == CommitPart(s, done + {k})
    ensures Merge(s.bucket, s.dirty, done + {k}) ==
            if s.dirty[k].Some? then Merge(s.bucket, s.dirty, done)[k := s.dirty[k].value] else Merge(s.bucket, s.dirty, done) - {k}
  {
    hide Merge;
    MergeMore(s.readonly, s.dirty, done, k);
    MergeMore(s.bucket, s.dirty, done, k);
    assert CommitPart(CommitPart(s, done), {k}).shared == CommitPart(s, done + {k}).shared;
  }

  // Balances through a pointer, with a range check.

  method AddSafely(x: uint64, y: uint64) returns (z: uint64, err: Error)
    ensures (z, err) == SafeAdd(x, y)
    ensures err == NoError <==> x + y <= MAX_UINT64
    ensures z == if err == NoError then x + y else x
  {
    SafeAddExact(x, y);
    var sum: uint64 := (x + y) % (MAX_UINT64 + 1);
    if sum < x {
      return x, BalanceOverflow;
    }
    return sum, NoError;
  }

  method SubSafely(x: uint64, y: uint64) returns (z: uint64, err: Error)
    ensures (z, err) == SafeSub(x, y)
    ensures err == NoError <==> y <= x
    ensures z == if err == NoError then x - y else x
  {
    if x < y {
      return x, InsufficientBalance;
    }
    return x - y, NoError;
  }
}
