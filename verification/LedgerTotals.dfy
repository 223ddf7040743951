// How much money there is: transfers and commits keep it, billings add what they grant.

module LedgerTotals {
  import opened Common
  import opened LedgerSpec
  import opened LedgerRefinement
  import opened LedgerRuns

  ghost function Total(m: map<Address, Account>, c: Coin): nat {
    if m == map[] then 0 else
    var k :| k in m;
    Balance(m[k], c) + Total(m - {k}, c)
  }

  // The order in which accounts are added up does not matter.
  lemma {:induction false} TotalWithout(m: map<Address, Account>, c: Coin, k: Address)
    requires k in m
    ensures Total(m, c) == Balance(m[k], c) + Total(m - {k}, c)
    decreases |m|
  {
    var j :| j in m && Total(m, c) == Balance(m[j], c) + Total(m - {j}, c);
    if j != k {
      TotalWithout(m - {j}, c, k);
      TotalWithout(m - {k}, c, j);
      assert m - {j} - {k} == m - {k} - {j};
    }
  }

  lemma TotalUpdate(m: map<Address, Account>, c: Coin, k: Address, v: Account)
    ensures Total(m[k := v], c) == Total(m, c) + Balance(v, c) - (if k in m then Balance(m[k], c) else 0)
  {
    TotalWithout(m[k := v], c, k);
    if k in m {
      TotalWithout(m, c, k);
      assert m[k := v] - {k} == m - {k};
    } else {
      assert m[k := v] - {k} == m;
    }
  }

  lemma StoreTotal(m: map<Address, Account>, c: Coin, k: Address)
    ensures Total(PlainStore(m, k, Zero(k)), c) == Total(m, c)
  {
    if k !in m { TotalUpdate(m, c, k, Zero(k)); }
  }

  lemma ChangeTotal(m: map<Address, Account>, k: Address, coin: Coin, amount: uint64, up: bool, c: Coin)
    ensures var (n, err) := PlainChange(m, k, coin, amount, up);
            Total(n, c) == Total(m, c) + (if err == NoError && c == coin then (if up then amount as int else 0 - amount as int) else 0)
  {
    var (n, err) := PlainChange(m, k, coin, amount, up);
    if err == NoError {
      TotalUpdate(m, c, k, n[k]);
    }
  }

  // A transfer moves money.
  lemma TransferTotal(m: map<Address, Account>, sender: Address, receiver: Address, amount: uint64, c: Coin)
    ensures Total(PlainTransfer(m, sender, receiver, amount).0, c) == Total(m, c)
  {
    hide Total, PlainStore;
    if sender != receiver {
      var n1 := PlainStore(m, sender, Zero(sender));
      var n2 := PlainStore(n1, receiver, Zero(receiver));
      StoreTotal(m, c, sender);
      StoreTotal(n1, c, receiver);
      BothStored(m, sender, receiver);
      if PlainTransfer(m, sender, receiver, amount).1 == NoError {
        var a := n2[sender].(stable := n2[sender].stable - amount);
        var b := n2[receiver].(stable := n2[receiver].stable + amount);
        TotalUpdate(n2, c, sender, a);
        TotalUpdate(n2[sender := a], c, receiver, b);
      }
    }
  }

  lemma BothStored(m: map<Address, Account>, sender: Address, receiver: Address)
    ensures var n := PlainStore(PlainStore(m, sender, Zero(sender)), receiver, Zero(receiver));
            sender in n && receiver in n
  {
  }

  // A refused transfer changes no account; at most it opens empty ones.
  lemma RefusedTransfer(m: map<Address, Account>, sender: Address, receiver: Address, amount: uint64)
    requires PlainTransfer(m, sender, receiver, amount).1 != NoError
    ensures var n := PlainTransfer(m, sender, receiver, amount).0;
            && n.Keys == m.Keys + {sender, receiver}
            && forall k :: k in n ==> n[k] == if k in m then m[k] else Zero(k)
  {
  }

  // What an address has, open account or not.
  function Holdings(m: map<Address, Account>, k: Address, c: Coin): uint64 {
    if k in m then Balance(m[k], c) else 0
  }

  // A transfer to somebody else goes through exactly when the sender has the amount and the receiver
  // has room for it. Then it changes hands, and nobody else's money does.
  lemma TransferIff(m: map<Address, Account>, sender: Address, receiver: Address, amount: uint64, k: Address, c: Coin)
    ensures var (n, err) := PlainTransfer(m, sender, receiver, amount);
            var moved := if sender == receiver || c.Covenant? || err != NoError then 0
                         else if k == sender then 0 - amount as int else if k == receiver then amount as int else 0;
            && (err == NoError <==> || sender == receiver
                                    || (amount <= Holdings(m, sender, Stable) && Holdings(m, receiver, Stable) + amount <= MAX_UINT64))
            && Holdings(n, k, c) == Holdings(m, k, c) + moved
  {
  }

  // What falls to one address.
  function Share(receivers: seq<Address>, amounts: seq<uint64>, k: Address): nat
    requires |receivers| <= |amounts|
  {
    if receivers == [] then 0 else (if receivers[0] == k then amounts[0] as nat else 0) + Share(receivers[1..], amounts[1..], k)
  }

  // A billing that goes through gives every address its own fees and rewards.
  lemma {:induction false} BillShares(m: map<Address, Account>, receivers: seq<Address>, fees: seq<uint64>, rewards: seq<uint64>, k: Address)
    requires |receivers| <= |fees| && |receivers| <= |rewards| && PlainBill(m, receivers, fees, rewards).1 == NoError
    ensures var n := PlainBill(m, receivers, fees, rewards).0;
            && n.Keys == m.Keys
            && Holdings(n, k, Covenant) == Holdings(m, k, Covenant) + Share(receivers, fees, k)
            && Holdings(n, k, Stable) == Holdings(m, k, Stable) + Share(receivers, rewards, k)
    decreases |receivers|
  {
    hide PlainChange, Holdings;
    if receivers != [] {
      var m1 := PlainChange(m, receivers[0], Covenant, fees[0], true).0;
      var m2 := PlainChange(m1, receivers[0], Stable, rewards[0], true).0;
      RaisesOne(m, receivers[0], Covenant, fees[0], k, Covenant);
      RaisesOne(m, receivers[0], Covenant, fees[0], k, Stable);
      RaisesOne(m1, receivers[0], Stable, rewards[0], k, Covenant);
      RaisesOne(m1, receivers[0], Stable, rewards[0], k, Stable);
      BillShares(m2, receivers[1..], fees[1..], rewards[1..], k);
    }
  }

  lemma RaisesOne(m: map<Address, Account>, r: Address, coin: Coin, amount: uint64, k: Address, c: Coin)
    requires PlainChange(m, r, coin, amount, true).1 == NoError
    ensures var n := PlainChange(m, r, coin, amount, true).0;
            n.Keys == m.Keys && Holdings(n, k, c) == Holdings(m, k, c) + if k == r && c == coin then amount else 0
  {
  }

  function Sum(xs: seq<uint64>): nat {
    if xs == [] then 0 else xs[0] + Sum(xs[1..])
  }

  // The first i fees and the first j rewards have been added; at most one fee is ahead.
  ghost predicate Served(m: map<Address, Account>, n: map<Address, Account>, fees: seq<uint64>, rewards: seq<uint64>, i: nat, j: nat) {
    && j <= i <= j + 1 && i <= |fees| && j <= |rewards|
    && Total(n, Covenant) == Total(m, Covenant) + Sum(fees[..i])
    && Total(n, Stable) == Total(m, Stable) + Sum(rewards[..j])
  }

  // A billing that goes through adds exactly its fees and rewards, repeated receivers included.
  // One that fails has added a prefix of them.
  lemma {:induction false} BillTotal(m: map<Address, Account>, receivers: seq<Address>, fees: seq<uint64>, rewards: seq<uint64>)
    requires |receivers| == |fees| == |rewards|
    ensures var (n, err) := PlainBill(m, receivers, fees, rewards);
            && (err == NoError ==> Total(n, Covenant) == Total(m, Covenant) + Sum(fees)
                                   && Total(n, Stable) == Total(m, Stable) + Sum(rewards))
            && (err != NoError ==> exists i: nat, j: nat :: Served(m, n, fees, rewards, i, j))
    decreases |receivers|
  {
    hide PlainChange, Total;
    if receivers != [] {
      var (m1, err1) := PlainChange(m, receivers[0], Covenant, fees[0], true);
      ChangeTotal(m, receivers[0], Covenant, fees[0], true, Covenant);
      ChangeTotal(m, receivers[0], Covenant, fees[0], true, Stable);
      if err1 != NoError {
        assert Served(m, m1, fees, rewards, 0, 0);
      } else {
        var (m2, err2) := PlainChange(m1, receivers[0], Stable, rewards[0], true);
        ChangeTotal(m1, receivers[0], Stable, rewards[0], true, Covenant);
        ChangeTotal(m1, receivers[0], Stable, rewards[0], true, Stable);
        if err2 != NoError {
          assert fees[..1][1..] == [];
          assert Served(m, m2, fees, rewards, 1, 0);
        } else {
          BillTotal(m2, receivers[1..], fees[1..], rewards[1..]);
          var (n, err) := PlainBill(m2, receivers[1..], fees[1..], rewards[1..]);
          if err != NoError {
            var i: nat, j: nat :| Served(m2, n, fees[1..], rewards[1..], i, j);
            assert fees[..i + 1][1..] == fees[1..][..i] && rewards[..j + 1][1..] == rewards[1..][..j];
            assert Served(m, n, fees, rewards, i + 1, j + 1);
          }
        }
      }
    }
  }

  // ----- runs -----

  // What a run is entitled to add: the fees in covenant coins and the rewards in stable coins of
  // the billings that went through.
  function Granted(ops: seq<Op>, errs: seq<Error>, c: Coin): nat
    requires |ops| == |errs|
    decreases |ops|
  {
    if ops == [] then 0 else
    (if ops[0].Settle? && errs[0] == NoError then Sum(if c.Stable? then ops[0].rewards else ops[0].fees) else 0)
    + Granted(ops[1..], errs[1..], c)
  }

  // Transfers, commits that work or fail, and billings that go through.
  predicate Conserving(ops: seq<Op>, errs: seq<Error>)
    requires |ops| == |errs|
  {
    forall i :: 0 <= i < |ops| ==>
      ops[i].Send? || ops[i].Commit?
      || (ops[i].Settle? && errs[i] == NoError && |ops[i].receivers| == |ops[i].fees| == |ops[i].rewards|)
  }

  lemma {:induction false} PlainConserves(l: Ledger, ops: seq<Op>, c: Coin)
    requires Conserving(ops, PlainRun(l, ops).1)
    ensures Total(PlainRun(l, ops).0.current, c) == Total(l.current, c) + Granted(ops, PlainRun(l, ops).1, c)
    decreases |ops|
  {
    hide PlainTransfer, PlainBill, Total;
    if ops != [] {
      var l1 := PlainStep(l, ops[0]).0;
      var errs := PlainRun(l, ops).1;
      match ops[0] {
        case Send(x, y, amount) => TransferTotal(l.current, x, y, amount, c);
        case Settle(rs, fees, rewards) => BillTotal(l.current, rs, fees, rewards);
        case _ =>
      }
      assert errs[1..] == PlainRun(l1, ops[1..]).1;
      assert Conserving(ops[1..], errs[1..]) by {
        forall i | 0 <= i < |ops[1..]|
          ensures ops[1..][i] == ops[i + 1] && errs[1..][i] == errs[i + 1] { }
      }
      PlainConserves(l1, ops[1..], c);
    }
  }

  // No run of transfers, commits and billings creates or destroys coins of either kind beyond what
  // the billings grant, as seen through the overlay.
  lemma RunConserves(s: State, l: Ledger, ops: seq<Op>, failed: bool, c: Coin)
    requires Kept(s, l, failed) && PossibleRun(s, ops) && Tame(ops, failed)
    requires Conserving(ops, Run(s, ops).1)
    ensures Total(Effective(Run(s, ops).0), c) == Total(Effective(s), c) + Granted(ops, Run(s, ops).1, c)
  {
    hide Run, PlainRun, PossibleRun, Tame, Conserving, Total, Effective;
    TameRun(s, l, ops, failed);
    PlainConserves(l, ops, c);
  }
}
