// The account state of the main chain (blockproducer/metastate.go, blockproducer/metaindex.go)
// as a value: an overlay of uncommitted changes, the committed accounts in memory, and the
// bucket they are persisted to. Which objects both maps refer to is part of the value.

module LedgerSpec {
  import opened Common

  datatype Address = Address(id: nat)

  datatype Account = Account(address: Address, stable: uint64, covenant: uint64, rating: real, nextNonce: nat)

  datatype Coin = Stable | Covenant

  // Crash stands for a nil pointer dereference or an index out of range.
  datatype Error = NoError | AccountNotFound | BalanceOverflow | InsufficientBalance | WriteFailed | Crash

  // A None in dirty marks a deletion. A shared address has one account object in both maps.
  datatype State = State(dirty: map<Address, Option<Account>>, readonly: map<Address, Account>,
                         shared: set<Address>, bucket: map<Address, Account>)

  const FRESH := State(map[], map[], {}, map[])

  function Find(m: map<Address, Account>, k: Address): Option<Account> {
    if k in m then Some(m[k]) else None
  }

  // loadAccountObject
  function Look(s: State, k: Address): Option<Account> {
    if k in s.dirty then s.dirty[k] else Find(s.readonly, k)
  }

  // The accounts as a caller sees them.
  function Effective(s: State): map<Address, Account> {
    map k | k in s.dirty.Keys + s.readonly.Keys && Look(s, k).Some? :: Look(s, k).value
  }

  // A deletion mark over a committed account.
  predicate Shadowed(s: State, k: Address) {
    k in s.dirty && s.dirty[k].None? && k in s.readonly
  }

  // ----- balances -----

  // uint64 addition wraps around; the check notices.
  function SafeAdd(x: uint64, y: uint64): (uint64, Error) {
    var sum: uint64 := (x + y) % (MAX_UINT64 + 1);
    if sum < x then (x, BalanceOverflow) else (sum, NoError)
  }

  function SafeSub(x: uint64, y: uint64): (uint64, Error) {
    if x < y then (x, InsufficientBalance) else (x - y, NoError)
  }

  lemma SafeAddExact(x: uint64, y: uint64)
    ensures SafeAdd(x, y) == if x + y <= MAX_UINT64 then (x + y, NoError) else (x, BalanceOverflow)
  {
    if x + y > MAX_UINT64 {
      assert (x + y) % (MAX_UINT64 + 1) == x + y - (MAX_UINT64 + 1);
    }
  }

  function Balance(a: Account, c: Coin): uint64 {
    if c.Stable? then a.stable else a.covenant
  }

  function WithBalance(a: Account, c: Coin, x: uint64): Account {
    if c.Stable? then a.(stable := x) else a.(covenant := x)
  }

  function Zero(k: Address): Account {
    Account(k, 0, 0, 0.0, 0)
  }

  // ----- the overlay -----

  // loadOrStoreAccountObject: a deletion mark over a committed account stays.
  function LoadOrStore(s: State, k: Address, v: Account): State {
    if (k in s.dirty && s.dirty[k].Some?) || k in s.readonly then s else s.(dirty := s.dirty[k := Some(v)])
  }

  function Delete(s: State, k: Address): State {
    s.(dirty := s.dirty[k := None], shared := s.shared - {k})
  }

  // Copy on write: a committed account gets a copy in the overlay.
  function Touch(s: State, k: Address): State {
    if k !in s.dirty && k in s.readonly then s.(dirty := s.dirty[k := Some(s.readonly[k])]) else s
  }

  // Assigns to the object the overlay refers to.
  function Write(s: State, k: Address, v: Account): State
    requires k in s.dirty && s.dirty[k].Some?
  {
    var s1 := s.(dirty := s.dirty[k := Some(v)]);
    if k in s.shared then s1.(readonly := s1.readonly[k := v]) else s1
  }

  // The four functions that increase or decrease one balance of one account.
  function Change(s: State, k: Address, c: Coin, amount: uint64, up: bool): (State, Error) {
    if k !in s.dirty && k !in s.readonly then (s, AccountNotFound) else
    var t := Touch(s, k);
    if t.dirty[k].None? then (t, Crash) else
    var a := t.dirty[k].value;
    var (b, err) := if up then SafeAdd(Balance(a, c), amount) else SafeSub(Balance(a, c), amount);
    if err != NoError then (t, err) else (Write(t, k, WithBalance(a, c, b)), NoError)
  }

  // The part of a transfer after both accounts exist.
  function Move(t: State, sender: Address, receiver: Address, amount: uint64): (State, Error) {
    var so, ro := Look(t, sender), Look(t, receiver);
    if (sender !in t.dirty && so.None?) || (receiver !in t.dirty && ro.None?) then (t, AccountNotFound) else
    if so.None? || ro.None? then (t, Crash) else
    var (sb, subErr) := SafeSub(so.value.stable, amount);
    if subErr != NoError then (t, subErr) else
    var (rb, addErr) := SafeAdd(ro.value.stable, amount);
    if addErr != NoError then (t, addErr) else
    var t1 := Touch(Touch(t, sender), receiver);
    (Put(Put(t1, sender, so.value.(stable := sb)), receiver, ro.value.(stable := rb)), NoError)
  }

  // Write, as a total function.
  function Put(s: State, k: Address, v: Account): State {
    if k in s.dirty && s.dirty[k].Some? then Write(s, k, v) else s
  }

  function Transfer(s: State, sender: Address, receiver: Address, amount: uint64): (State, Error) {
    if sender == receiver then (s, NoError) else
    Move(LoadOrStore(LoadOrStore(s, sender, Zero(sender)), receiver, Zero(receiver)), sender, receiver, amount)
  }

  // Receivers are served one after the other; what was applied before a failure stays.
  function Bill(s: State, receivers: seq<Address>, fees: seq<uint64>, rewards: seq<uint64>): (State, Error)
    decreases |receivers|
  {
    if receivers == [] then (s, NoError) else
    if fees == [] then (s, Crash) else
    var (s1, err1) := Change(s, receivers[0], Covenant, fees[0], true);
    if err1 != NoError then (s1, err1) else
    if rewards == [] then (s1, Crash) else
    var (s2, err2) := Change(s1, receivers[0], Stable, rewards[0], true);
    if err2 != NoError then (s2, err2) else Bill(s2, receivers[1..], fees[1..], rewards[1..])
  }

  // ----- commit, reload, clean -----

  // The changes marked for these addresses, applied to a map.
  function Merge(m: map<Address, Account>, dirty: map<Address, Option<Account>>, done: set<Address>): map<Address, Account> {
    map k | k in m.Keys + dirty.Keys && (if k in dirty && k in done then dirty[k].Some? else k in m)
      :: if k in dirty && k in done then dirty[k].value else m[k]
  }

  // A commit that has worked off these addresses. The bolt transaction takes effect only as a whole.
  function CommitPart(s: State, done: set<Address>): State {
    s.(readonly := Merge(s.readonly, s.dirty, done),
       shared := s.shared + (set k | k in s.dirty && k in done && s.dirty[k].Some?))
  }

  function CommitAll(s: State): State {
    State(map[], Merge(s.readonly, s.dirty, s.dirty.Keys), {}, Merge(s.bucket, s.dirty, s.dirty.Keys))
  }

  // Scanning a bucket in key order files every account under its own address; the last one stays.
  ghost predicate Rekeyed(bucket: map<Address, Account>, r: map<Address, Account>) {
    && (forall k :: k in bucket ==> bucket[k].address in r)
    && (forall a :: a in r ==> exists k :: LastOf(bucket, a, k) && r[a] == bucket[k])
  }

  ghost predicate LastOf(bucket: map<Address, Account>, a: Address, k: Address) {
    k in bucket && bucket[k].address == a && forall l :: l in bucket && bucket[l].address == a ==> l.id <= k.id
  }

  function Reload(s: State, r: map<Address, Account>): State {
    State(map[], r, {}, s.bucket)
  }

  function Clean(s: State): State {
    s.(dirty := map[], shared := {})
  }

  // ----- invariants of the overlay -----

  // A shared object shows the same account from both maps.
  ghost predicate SharedOk(s: State) {
    forall k :: k in s.shared ==> k in s.dirty && s.dirty[k].Some? && Find(s.readonly, k) == s.dirty[k]
  }

  // Memory is ahead of the bucket at most where the overlay holds a change.
  ghost predicate Behind(s: State) {
    forall k :: k in s.readonly.Keys + s.bucket.Keys && k !in s.dirty ==> Find(s.readonly, k) == Find(s.bucket, k)
  }

  ghost predicate OwnAddress(m: map<Address, Account>) {
    forall k :: k in m ==> m[k].address == k
  }

  lemma EffectiveAt(s: State, k: Address)
    ensures Find(Effective(s), k) == Look(s, k)
  {
  }

  lemma MergeAt(m: map<Address, Account>, dirty: map<Address, Option<Account>>, done: set<Address>, k: Address)
    ensures Find(Merge(m, dirty, done), k) == if k in dirty && k in done then dirty[k] else Find(m, k)
  {
  }

  // Maps are compared entry by entry.
  lemma SameMap(m: map<Address, Account>, n: map<Address, Account>)
    requires forall k {:trigger Find(m, k)} :: Find(m, k) == Find(n, k)
    ensures m == n
  {
    forall k ensures (k in m <==> k in n) && (k in m ==> m[k] == n[k]) { assert Find(m, k) == Find(n, k); }
  }

  lemma SameEffective(s: State, t: State)
    requires forall k {:trigger Look(s, k)} :: Look(s, k) == Look(t, k)
    ensures Effective(s) == Effective(t)
  {
    hide Effective, Look, Find;
    forall k ensures Find(Effective(s), k) == Find(Effective(t), k) {
      EffectiveAt(s, k);
      EffectiveAt(t, k);
    }
    SameMap(Effective(s), Effective(t));
  }

  // A commit cut short anywhere changes nothing a caller sees.
  lemma CommitPartKeeps(s: State, done: set<Address>)
    requires SharedOk(s)
    ensures SharedOk(CommitPart(s, done)) && Effective(CommitPart(s, done)) == Effective(s)
    ensures Behind(s) ==> Behind(CommitPart(s, done))
  {
    hide Effective, Merge;
    var t := CommitPart(s, done);
    forall k ensures Find(t.readonly, k) == if k in s.dirty && k in done then s.dirty[k] else Find(s.readonly, k) {
      MergeAt(s.readonly, s.dirty, done, k);
    }
    SameEffective(s, t);
  }

  // After a whole commit there is nothing left to clean up, memory holds exactly what a caller saw
  // before, and so does the bucket unless it had fallen behind elsewhere.
  lemma CommitAllKeeps(s: State)
    ensures CommitAll(s).readonly == Effective(s) == Effective(CommitAll(s)) && Clean(CommitAll(s)) == CommitAll(s)
    ensures Behind(s) ==> CommitAll(s).bucket == Effective(s)
  {
    hide Effective, Merge;
    var t := CommitAll(s);
    forall k
      ensures Find(t.readonly, k) == Find(Effective(s), k)
      ensures Look(t, k) == Look(s, k)
      ensures Behind(s) ==> Find(t.bucket, k) == Find(Effective(s), k)
    {
      MergeAt(s.readonly, s.dirty, s.dirty.Keys, k);
      MergeAt(s.bucket, s.dirty, s.dirty.Keys, k);
      EffectiveAt(s, k);
    }
    SameMap(t.readonly, Effective(s));
    SameEffective(s, t);
    if Behind(s) {
      SameMap(t.bucket, Effective(s));
    }
  }

  // Reloading brings back the bucket exactly when every account in it sits under its own address.
  lemma ReloadIff(bucket: map<Address, Account>, r: map<Address, Account>)
    requires Rekeyed(bucket, r)
    ensures r == bucket <==> OwnAddress(bucket)
    ensures OwnAddress(r)
  {
    forall a | a in r ensures r[a].address == a {
      var k :| LastOf(bucket, a, k) && r[a] == bucket[k];
    }
    if OwnAddress(bucket) {
      forall a | a in r ensures a in bucket && r[a] == bucket[a] {
        var k :| LastOf(bucket, a, k) && r[a] == bucket[k];
      }
      forall k | k in bucket ensures k in r { assert bucket[k].address == k; }
    }
  }
}
