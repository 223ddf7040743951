// Picking several neighbours on the ring (consistent/consistent.go): the walk around the circle
// against "the first n distinct wanted nodes clockwise".

module RingNeighbors {
  import opened Common
  import opened ByteOrder
  import opened RingOrder
  import opened Ring

  // No roles means no filter.
  predicate Wanted(roles: seq<nat>, e: Node) {
    roles == [] || e.role in roles
  }

  predicate Contains(res: seq<Node>, e: Node) {
    exists i :: 0 <= i < |res| && res[i].id == e.id
  }

  // ----- what is meant -----

  function Others(nodes: seq<Node>, id: string): (r: seq<Node>)
    ensures |r| <= |nodes|
  {
    if nodes == [] then [] else
    if nodes[0].id == id then Others(nodes[1..], id) else [nodes[0]] + Others(nodes[1..], id)
  }

  // The wanted nodes in order, each id once.
  function Distinct(nodes: seq<Node>, roles: seq<nat>): seq<Node>
    decreases |nodes|
  {
    if nodes == [] then [] else
    if !Wanted(roles, nodes[0]) then Distinct(nodes[1..], roles) else
    [nodes[0]] + Distinct(Others(nodes[1..], nodes[0].id), roles)
  }

  lemma {:induction false} OthersSnoc(nodes: seq<Node>, e: Node, id: string)
    ensures Others(nodes + [e], id) == if e.id == id then Others(nodes, id) else Others(nodes, id) + [e]
    decreases |nodes|
  {
    if nodes != [] {
      assert (nodes + [e])[1..] == nodes[1..] + [e];
      OthersSnoc(nodes[1..], e, id);
    }
  }

  lemma ContainsCons(x: Node, res: seq<Node>, e: Node)
    ensures Contains([x] + res, e) <==> x.id == e.id || Contains(res, e)
  {
    var s := [x] + res;
    if Contains(res, e) {
      var i :| 0 <= i < |res| && res[i].id == e.id;
      assert s[i + 1].id == e.id;
    }
    if x.id == e.id {
      assert s[0].id == e.id;
    }
    if Contains(s, e) {
      var i :| 0 <= i < |s| && s[i].id == e.id;
      assert i > 0 ==> res[i - 1].id == e.id;
    }
  }

  // One more node at the end counts if it is wanted and new.
  lemma {:induction false} DistinctSnoc(nodes: seq<Node>, e: Node, roles: seq<nat>)
    ensures Distinct(nodes + [e], roles) ==
            if Wanted(roles, e) && !Contains(Distinct(nodes, roles), e) then Distinct(nodes, roles) + [e] else Distinct(nodes, roles)
    decreases |nodes|
  {
    hide Wanted, Contains;
    var s := nodes + [e];
    if nodes == [] {
      ContainsNone(e);
      assert s[1..] == [];
    } else {
      assert s[1..] == nodes[1..] + [e];
      if !Wanted(roles, nodes[0]) {
        DistinctSnoc(nodes[1..], e, roles);
      } else {
        var rest := Others(nodes[1..], nodes[0].id);
        OthersSnoc(nodes[1..], e, nodes[0].id);
        DistinctSnoc(rest, e, roles);
        ContainsCons(nodes[0], Distinct(rest, roles), e);
      }
    }
  }

  lemma ContainsNone(e: Node)
    ensures !Contains([], e)
  {
  }

  // ----- the walk -----

  function At(nodes: seq<Node>, j: nat): Node
    requires nodes != []
  {
    nodes[j % |nodes|]
  }

  lemma AtWithin(nodes: seq<Node>, j: nat) returns (i: nat)
    requires nodes != []
    ensures i < |nodes| && At(nodes, j) == nodes[i] == At(nodes, i)
    ensures j < |nodes| ==> i == j
    ensures j == |nodes| ==> i == 0
  {
    i := j % |nodes|;
    ModSmall(i, |nodes|);
    if j < |nodes| { ModSmall(j, |nodes|); }
    if j == |nodes| { ModSmall(0, |nodes|); assert j == 1 * |nodes| + 0; }
  }

  lemma ModSmall(j: nat, n: nat)
    requires j < n
    ensures j % n == j
  {
  }

  // What has been collected after looking at m positions, going round as often as it takes.
  function Seen(nodes: seq<Node>, roles: seq<nat>, m: nat): seq<Node>
    requires nodes != []
  {
    if m == 0 then [] else
    var res, e := Seen(nodes, roles, m - 1), At(nodes, m - 1);
    if Wanted(roles, e) && !Contains(res, e) then res + [e] else res
  }

  lemma {:induction false} SeenIsDistinct(nodes: seq<Node>, roles: seq<nat>, m: nat)
    requires nodes != [] && m <= |nodes|
    ensures Seen(nodes, roles, m) == Distinct(nodes[..m], roles)
    decreases m
  {
    hide At, Wanted, Contains, Distinct;
    if m == 0 {
      DistinctNone(roles);
      assert nodes[..0] == [];
    } else {
      SeenIsDistinct(nodes, roles, m - 1);
      var i := AtWithin(nodes, m - 1);
      assert nodes[..m] == nodes[..m - 1] + [nodes[m - 1]];
      DistinctSnoc(nodes[..m - 1], nodes[m - 1], roles);
    }
  }

  lemma DistinctNone(roles: seq<nat>)
    ensures Distinct([], roles) == []
  {
  }

  lemma FirstSeen(nodes: seq<Node>, roles: seq<nat>)
    requires nodes != []
    ensures Seen(nodes, roles, 1) == if Wanted(roles, nodes[0]) then [nodes[0]] else []
  {
    var i := AtWithin(nodes, 0);
    assert Seen(nodes, roles, 0) == [];
    assert !Contains([], nodes[0]);
  }

  // Collected nodes stay, one position adds at most one, and what is wanted is collected.
  lemma {:induction false} SeenGrows(nodes: seq<Node>, roles: seq<nat>, l: nat, m: nat)
    requires nodes != [] && l <= m
    ensures Seen(nodes, roles, l) <= Seen(nodes, roles, m) && |Seen(nodes, roles, m)| <= |Seen(nodes, roles, l)| + (m - l)
    decreases m
  {
    hide Contains, Wanted, At;
    if l < m { SeenGrows(nodes, roles, l, m - 1); }
  }

  lemma {:induction false} AllCollected(nodes: seq<Node>, roles: seq<nat>, j: nat, m: nat)
    requires nodes != [] && j < m && Wanted(roles, At(nodes, j))
    ensures Contains(Seen(nodes, roles, m), At(nodes, j))
    decreases m
  {
    hide Wanted, At;
    var e := At(nodes, j);
    SeenGrows(nodes, roles, j + 1, m);
    var s := Seen(nodes, roles, j + 1);
    assert Contains(s, e) by {
      if !Contains(Seen(nodes, roles, j), e) { assert s[|s| - 1].id == e.id; }
    }
    var i :| 0 <= i < |s| && s[i].id == e.id;
    assert Seen(nodes, roles, m)[i].id == e.id;
  }

  // No id is collected twice.
  lemma {:induction false} SeenOnce(nodes: seq<Node>, roles: seq<nat>, m: nat, i: nat, j: nat)
    requires nodes != [] && i < j < |Seen(nodes, roles, m)|
    ensures Seen(nodes, roles, m)[i].id != Seen(nodes, roles, m)[j].id
    decreases m
  {
    hide At;
    var res := Seen(nodes, roles, m - 1);
    if j < |res| { SeenOnce(nodes, roles, m - 1, i, j); }
  }

  // Beyond one full round nothing new comes up.
  lemma {:induction false} RoundIsAll(nodes: seq<Node>, roles: seq<nat>, m: nat)
    requires nodes != [] && m >= |nodes|
    ensures Seen(nodes, roles, m) == Seen(nodes, roles, |nodes|)
    decreases m
  {
    hide Contains, Wanted, At;
    if m > |nodes| {
      RoundIsAll(nodes, roles, m - 1);
      var j := AtWithin(nodes, m - 1);
      if Wanted(roles, At(nodes, j)) {
        AllCollected(nodes, roles, j, m - 1);
      }
    }
  }

  // The loop starts with the second position and stops behind the one that makes it n nodes. It
  // also stops after a full round, but only if it did not start at position 0 of the sorted keys.
  ghost predicate Halts(nodes: seq<Node>, roles: seq<nat>, n: int, start: nat)
    requires nodes != []
  {
    start > 0 || Early(roles, n) || exists k :: 1 <= k <= |nodes| && Hit(nodes, roles, n, k)
  }

  predicate Early(roles: seq<nat>, n: int) {
    roles == [] && n == 1
  }

  predicate Hit(nodes: seq<Node>, roles: seq<nat>, n: int, k: nat)
    requires nodes != []
  {
    |Seen(nodes, roles, k + 1)| == n
  }

  // Otherwise it never stops.
  lemma SpinsForever(nodes: seq<Node>, roles: seq<nat>, n: int, start: nat, k: nat)
    requires nodes != [] && !Halts(nodes, roles, n, start) && k >= 1
    ensures start == 0 && !Hit(nodes, roles, n, k)
  {
    hide Seen;
    if k > |nodes| {
      RoundIsAll(nodes, roles, k + 1);
      RoundIsAll(nodes, roles, |nodes| + 1);
      assert !Hit(nodes, roles, n, |nodes|);
    }
  }

  // For two or more nodes, or for one without a filter, the walk returns exactly the first n
  // distinct wanted nodes, provided there are that many.
  lemma FirstHit(nodes: seq<Node>, roles: seq<nat>, n: int, k: nat)
    requires nodes != [] && 1 <= k <= |nodes| && n >= 2 && Hit(nodes, roles, n, k)
    ensures n <= |Distinct(nodes, roles)| && Seen(nodes, roles, k + 1) == Distinct(nodes, roles)[..n]
  {
    hide Seen, Distinct;
    var len := |nodes|;
    assert nodes[..len] == nodes;
    SeenIsDistinct(nodes, roles, len);
    if k + 1 <= len {
      SeenGrows(nodes, roles, k + 1, len);
    } else {
      RoundIsAll(nodes, roles, k + 1);
    }
  }

  lemma {:induction false} HitExists(nodes: seq<Node>, roles: seq<nat>, n: int, m: nat) returns (k: nat)
    requires nodes != [] && 1 <= m <= |nodes| && 2 <= n <= |Seen(nodes, roles, m)|
    ensures 1 <= k < m && Hit(nodes, roles, n, k)
    decreases m
  {
    hide Wanted, Contains, At;
    SeenGrows(nodes, roles, 0, m);
    SeenGrows(nodes, roles, m - 1, m);
    if |Seen(nodes, roles, m)| == n {
      k := m - 1;
    } else {
      k := HitExists(nodes, roles, n, m - 1);
    }
  }

  // The one node asked for with a filter is not checked for before the loop: if the first two
  // positions hold different wanted nodes, the walk has one too many and never has exactly one.
  lemma OneFilteredIff(nodes: seq<Node>, roles: seq<nat>)
    requires nodes != [] && Distinct(nodes, roles) != []
    ensures (exists k :: 1 <= k <= |nodes| && Hit(nodes, roles, 1, k)) <==>
            !(|nodes| > 1 && Wanted(roles, nodes[0]) && Wanted(roles, nodes[1]) && nodes[0].id != nodes[1].id)
  {
    hide Distinct, At, Wanted;
    FirstSeen(nodes, roles);
    SecondSeen(nodes, roles);
    if |Seen(nodes, roles, 2)| == 2 {
      forall k | 1 <= k <= |nodes| ensures !Hit(nodes, roles, 1, k) { SeenGrows(nodes, roles, 2, k + 1); }
    } else if |Seen(nodes, roles, 2)| == 1 {
      assert Hit(nodes, roles, 1, 1);
    } else {
      assert nodes[..|nodes|] == nodes;
      SeenIsDistinct(nodes, roles, |nodes|);
      SeenGrows(nodes, roles, 1, 2);
      var k := OneExists(nodes, roles, |nodes|);
    }
  }

  lemma {:induction false} OneExists(nodes: seq<Node>, roles: seq<nat>, m: nat) returns (k: nat)
    requires nodes != [] && 1 <= m <= |nodes| && Seen(nodes, roles, 1) == [] && Seen(nodes, roles, m) != []
    ensures 1 <= k < m && Hit(nodes, roles, 1, k)
    decreases m
  {
    hide Wanted, Contains, At;
    if Seen(nodes, roles, m - 1) == [] {
      k := m - 1;
    } else {
      k := OneExists(nodes, roles, m - 1);
    }
  }

  lemma SecondSeen(nodes: seq<Node>, roles: seq<nat>)
    requires nodes != []
    ensures var first := Seen(nodes, roles, 1);
            Seen(nodes, roles, 2) ==
              if |nodes| > 1 && Wanted(roles, nodes[1]) && (first == [] || nodes[1].id != nodes[0].id) then first + [nodes[1]] else first
  {
    FirstSeen(nodes, roles);
    var i := AtWithin(nodes, 1);
    assert Seen(nodes, roles, 2) ==
      if Wanted(roles, nodes[i]) && !Contains(Seen(nodes, roles, 1), nodes[i]) then Seen(nodes, roles, 1) + [nodes[i]] else Seen(nodes, roles, 1);
  }

  // With nobody collected yet, asking for nobody is met exactly as long as the first two positions
  // hold nothing that is wanted.
  lemma NoneIff(nodes: seq<Node>, roles: seq<nat>)
    requires nodes != []
    ensures (exists k :: 1 <= k <= |nodes| && Hit(nodes, roles, 0, k)) <==>
            !Wanted(roles, nodes[0]) && (|nodes| > 1 ==> !Wanted(roles, nodes[1]))
  {
    hide At, Wanted;
    FirstSeen(nodes, roles);
    SecondSeen(nodes, roles);
    if Seen(nodes, roles, 2) == [] {
      assert Hit(nodes, roles, 0, 1);
    } else {
      forall k | 1 <= k <= |nodes| ensures !Hit(nodes, roles, 0, k) { SeenGrows(nodes, roles, 2, k + 1); }
    }
  }

  // When nothing is wanted nothing is ever collected.
  lemma NothingWanted(nodes: seq<Node>, roles: seq<nat>, n: int, k: nat)
    requires nodes != [] && Distinct(nodes, roles) == [] && 1 <= k <= |nodes| && Hit(nodes, roles, n, k)
    ensures n == 0
  {
    hide Distinct, Seen;
    assert nodes[..|nodes|] == nodes;
    SeenIsDistinct(nodes, roles, |nodes|);
    if k + 1 <= |nodes| { SeenGrows(nodes, roles, k + 1, |nodes|); } else { RoundIsAll(nodes, roles, k + 1); }
  }

  // On which rings the walk ends, said without walking. Away from position 0 it always does. From
  // there, two or more nodes have to exist; of one node under a filter the next position must not
  // bring a second one; and nobody can be asked for only if nobody turns up at once.
  predicate Terminates(nodes: seq<Node>, roles: seq<nat>, n: int, start: nat)
    requires nodes != []
  {
    || start > 0
    || (n >= 2 && n <= |Distinct(nodes, roles)|)
    || (n == 1 && (|| roles == []
                   || (Distinct(nodes, roles) != []
                       && !(|nodes| > 1 && Wanted(roles, nodes[0]) && Wanted(roles, nodes[1]) && nodes[0].id != nodes[1].id))))
    || (n == 0 && !Wanted(roles, nodes[0]) && (|nodes| > 1 ==> !Wanted(roles, nodes[1])))
  }

  lemma HaltsIff(nodes: seq<Node>, roles: seq<nat>, n: int, start: nat)
    requires nodes != []
    ensures Halts(nodes, roles, n, start) <==> Terminates(nodes, roles, n, start)
  {
    hide Distinct, Seen, Wanted;
    if start == 0 && !Early(roles, n) {
      if n >= 2 {
        if k :| 1 <= k <= |nodes| && Hit(nodes, roles, n, k) { FirstHit(nodes, roles, n, k); }
        if n <= |Distinct(nodes, roles)| {
          assert nodes[..|nodes|] == nodes;
          SeenIsDistinct(nodes, roles, |nodes|);
          var k := HitExists(nodes, roles, n, |nodes|);
        }
      } else if n == 1 {
        if Distinct(nodes, roles) != [] {
          OneFilteredIff(nodes, roles);
        } else if k :| 1 <= k <= |nodes| && Hit(nodes, roles, n, k) {
          NothingWanted(nodes, roles, n, k);
        }
      } else if n == 0 {
        NoneIff(nodes, roles);
      }
    }
  }

  // Asking for more nodes than match is enough to spin, whenever the search starts at position 0.
  lemma TooManySpin(nodes: seq<Node>, roles: seq<nat>, n: int, k: nat)
    requires nodes != [] && n >= 2 && n > |Distinct(nodes, roles)| && k >= 1
    ensures !Hit(nodes, roles, n, k)
  {
    HaltsIff(nodes, roles, n, 0);
    SpinsForever(nodes, roles, n, 0, k);
  }

  // Two nodes of different roles, two asked for in one of the roles: the walk never ends.
  lemma SpinningRing(k: nat)
    requires k >= 1
    ensures !Hit([Node("a", 0, ""), Node("b", 1, "")], [0], 2, k)
  {
    var nodes := [Node("a", 0, ""), Node("b", 1, "")];
    assert nodes[1..] == [Node("b", 1, "")] && nodes[1..][1..] == [];
    assert Others(nodes[1..], "a") == [Node("b", 1, "")];
    assert Distinct(nodes, [0]) == [Node("a", 0, "")];
    TooManySpin(nodes, [0], 2, k);
  }

  // ----- the outcome -----

  // With m positions looked at, where the loop is left. From position 0 a round that did not
  // bring it to n nodes is followed by the same round again.
  function Stop(nodes: seq<Node>, roles: seq<nat>, n: int, start: nat, m: nat): (t: nat)
    requires nodes != []
    ensures m <= |nodes| + 1 ==> m <= t <= |nodes| + 1
    decreases |nodes| + 1 - m
  {
    if m > |nodes| || (start > 0 && m == |nodes|) then m else
    if Hit(nodes, roles, n, m) then m + 1 else Stop(nodes, roles, n, start, m + 1)
  }

  // None when the walk never ends.
  function Walked(nodes: seq<Node>, roles: seq<nat>, n: int, start: nat): Option<seq<Node>>
    requires nodes != []
  {
    if Early(roles, n) then Some(Seen(nodes, roles, 1)) else
    var t := Stop(nodes, roles, n, start, 1);
    if start == 0 && |Seen(nodes, roles, t)| != n then None else Some(Seen(nodes, roles, t))
  }

  lemma {:induction false} StopFacts(nodes: seq<Node>, roles: seq<nat>, n: int, start: nat, m: nat)
    requires nodes != [] && 1 <= m <= |nodes| + 1 && (start > 0 ==> m <= |nodes|)
    ensures var t := Stop(nodes, roles, n, start, m);
            && (forall k :: m <= k < t - 1 ==> !Hit(nodes, roles, n, k))
            && (start > 0 ==> t <= |nodes|)
            && (t == m || Hit(nodes, roles, n, t - 1) || t == if start > 0 then |nodes| else |nodes| + 1)
    decreases |nodes| + 1 - m
  {
    hide Seen, Hit;
    if !(m > |nodes| || (start > 0 && m == |nodes|)) && !Hit(nodes, roles, n, m) {
      StopFacts(nodes, roles, n, start, m + 1);
    }
  }

  // The walk has an outcome exactly when it ends.
  lemma WalkedIff(nodes: seq<Node>, roles: seq<nat>, n: int, start: nat)
    requires nodes != [] && start < |nodes|
    ensures Walked(nodes, roles, n, start).Some? <==> Terminates(nodes, roles, n, start)
  {
    hide Seen, Terminates, Stop;
    HaltsIff(nodes, roles, n, start);
    if start == 0 && !Early(roles, n) {
      var t := Stop(nodes, roles, n, start, 1);
      StopFacts(nodes, roles, n, start, 1);
      StopAbove(nodes, roles, n, start);
      assert |Seen(nodes, roles, t)| == n <==> Hit(nodes, roles, n, t - 1);
    }
  }

  lemma StopAbove(nodes: seq<Node>, roles: seq<nat>, n: int, start: nat)
    requires nodes != [] && start < |nodes|
    ensures Stop(nodes, roles, n, start, 1) >= 2
  {
    hide Seen;
  }

  // For two or more nodes, or for one without a filter, and if there are that many: exactly the
  // first n distinct wanted nodes.
  lemma WalkedIsFirst(nodes: seq<Node>, roles: seq<nat>, n: int, start: nat)
    requires nodes != [] && start < |nodes| && n <= |Distinct(nodes, roles)| && (n >= 2 || Early(roles, n))
    ensures Walked(nodes, roles, n, start) == Some(Distinct(nodes, roles)[..n])
  {
    hide Distinct, Seen, Stop;
    if Early(roles, n) {
      EarlyIsFirst(nodes);
    } else {
      var t := Stop(nodes, roles, n, start, 1);
      StopFacts(nodes, roles, n, start, 1);
      assert nodes[..|nodes|] == nodes;
      SeenIsDistinct(nodes, roles, |nodes|);
      var k := HitExists(nodes, roles, n, |nodes|);
      StopAbove(nodes, roles, n, start);
      assert Hit(nodes, roles, n, t - 1);
      FirstHit(nodes, roles, n, t - 1);
    }
  }

  // One node under a filter: usually the nearest wanted one. But if the first two positions hold
  // different wanted nodes, the call returns every wanted node there is, or does not return.
  lemma OneFilteredOutcome(nodes: seq<Node>, roles: seq<nat>, start: nat)
    requires nodes != [] && start < |nodes| && roles != [] && Distinct(nodes, roles) != []
    ensures Walked(nodes, roles, 1, start) ==
            if |nodes| > 1 && Wanted(roles, nodes[0]) && Wanted(roles, nodes[1]) && nodes[0].id != nodes[1].id
            then (if start == 0 then None else Some(Distinct(nodes, roles)))
            else Some(Distinct(nodes, roles)[..1])
  {
    hide Distinct, Seen, Wanted, Stop;
    var t := Stop(nodes, roles, 1, start, 1);
    OneFilteredIff(nodes, roles);
    StopFacts(nodes, roles, 1, start, 1);
    StopAbove(nodes, roles, 1, start);
    assert nodes[..|nodes|] == nodes;
    SeenIsDistinct(nodes, roles, |nodes|);
    RoundIsAll(nodes, roles, |nodes| + 1);
    assert Hit(nodes, roles, 1, |nodes|) <==> |Seen(nodes, roles, |nodes|)| == 1;
    assert |Distinct(nodes, roles)| == 1 ==> Distinct(nodes, roles)[..1] == Distinct(nodes, roles);
    if Hit(nodes, roles, 1, t - 1) {
      if t <= |nodes| { SeenGrows(nodes, roles, t, |nodes|); } else { RoundIsAll(nodes, roles, t); }
      assert Seen(nodes, roles, t) == Distinct(nodes, roles)[..1];
    }
  }

  lemma EarlyIsFirst(nodes: seq<Node>)
    requires nodes != []
    ensures Distinct(nodes, []) != [] && Seen(nodes, [], 1) == Distinct(nodes, [])[..1]
  {
    FirstSeen(nodes, []);
  }

  // Too few wanted nodes: away from position 0 the call returns all there are.
  lemma TooFewOutcome(nodes: seq<Node>, roles: seq<nat>, n: int, start: nat)
    requires nodes != [] && start < |nodes| && !Early(roles, n) && n > |Distinct(nodes, roles)|
    ensures Walked(nodes, roles, n, start) == if start == 0 then None else Some(Distinct(nodes, roles))
  {
    hide Distinct, Seen, Stop;
    assert nodes[..|nodes|] == nodes;
    SeenIsDistinct(nodes, roles, |nodes|);
    RoundIsAll(nodes, roles, |nodes| + 1);
    var t := Stop(nodes, roles, n, start, 1);
    StopFacts(nodes, roles, n, start, 1);
    StopAbove(nodes, roles, n, start);
    forall k | 1 <= k <= |nodes| ensures !Hit(nodes, roles, n, k) {
      if k + 1 <= |nodes| { SeenGrows(nodes, roles, k + 1, |nodes|); }
    }
  }

  // Nobody asked for.
  lemma NoneOutcome(nodes: seq<Node>, roles: seq<nat>, start: nat)
    requires nodes != [] && start < |nodes|
    ensures Walked(nodes, roles, 0, start) ==
            if !Wanted(roles, nodes[0]) && (|nodes| > 1 ==> !Wanted(roles, nodes[1])) then Some([])
            else if start == 0 then None else Some(Distinct(nodes, roles))
  {
    hide Distinct, Seen, Stop, Wanted;
    assert nodes[..|nodes|] == nodes;
    SeenIsDistinct(nodes, roles, |nodes|);
    RoundIsAll(nodes, roles, |nodes| + 1);
    NoneIff(nodes, roles);
    StopFacts(nodes, roles, 0, start, 1);
    StopAbove(nodes, roles, 0, start);
  }

  // What the call comes to, said without walking, for every number asked for.
  function Outcome(nodes: seq<Node>, roles: seq<nat>, n: nat, start: nat): Option<seq<Node>>
    requires nodes != []
  {
    var all := Distinct(nodes, roles);
    var round := if start == 0 then None else Some(all);
    var second := |nodes| > 1 && Wanted(roles, nodes[1]);
    if n == 0 then if Wanted(roles, nodes[0]) || second then round else Some([]) else
    if n == 1 && roles != [] && Wanted(roles, nodes[0]) && second && nodes[0].id != nodes[1].id then round else
    if n <= |all| then Some(all[..n]) else round
  }

  lemma WalkedIs(nodes: seq<Node>, roles: seq<nat>, n: nat, start: nat)
    requires nodes != [] && start < |nodes|
    ensures Walked(nodes, roles, n, start) == Outcome(nodes, roles, n, start)
  {
    hide Distinct, Walked, Wanted;
    if n == 0 {
      NoneOutcome(nodes, roles, start);
    } else if Early(roles, n) {
      EarlyIsFirst(nodes);
      WalkedIsFirst(nodes, roles, n, start);
    } else if n > |Distinct(nodes, roles)| {
      TooFewOutcome(nodes, roles, n, start);
    } else if n >= 2 {
      WalkedIsFirst(nodes, roles, n, start);
    } else {
      OneFilteredOutcome(nodes, roles, start);
    }
  }

  // ----- the method -----

  // Forever stands for a call that does not return.
  datatype Answer = EmptyCircle | Crash | Forever | Nodes(nodes: seq<Node>)

  // Position j behind the start, for one round.
  function Position(start: nat, j: nat, len: nat): (p: nat)
    requires start < len && j <= len
    ensures p < len
  {
    if start + j < len then start + j else start + j - len
  }

  function Clockwise(circle: Circle, s: seq<NodeKey>, start: nat): (nodes: seq<Node>)
    requires start < |s| && forall k :: k in s ==> k in circle
    ensures |nodes| == |s|
  {
    seq(|s|, j requires 0 <= j < |s| => circle[s[Position(start, j, |s|)]])
  }

  // From one position to the next it is the successor's turn.
  lemma ClockwiseOrder(ks: set<NodeKey>, s: seq<NodeKey>, start: nat, j: nat)
    requires Lists(s, ks) && start < |s| && j < |s|
    ensures Successor(ks, s[Position(start, j, |s|)], s[Position(start, j + 1, |s|)])
  {
    hide Less;
    var p := Position(start, j, |s|);
    var lo := p + 1;
    Order(s[p], s[p], s[p]);
    forall i | 0 <= i < lo ensures !Less(s[p], s[i]) { Order(s[i], s[p], s[i]); }
    FoundSuccessor(s, ks, s[p], lo);
  }

  // How many nodes are asked for: no more than the ring says it has.
  function Capped(count: int, n: int): (m: int)
    ensures m <= count && m <= n && (m == count || m == n)
  {
    if count < n then count else n
  }

  // What the call comes to from this start; a negative number of nodes cannot be allocated.
  ghost predicate Answers(c: Consistent, count: int, roles: seq<nat>, start: nat, r: Answer)
    requires c.Valid() && start < |c.sortedHashes|
    reads c
  {
    var nodes, n := Clockwise(c.circle, c.sortedHashes, start), Capped(c.count, count);
    match r
    case EmptyCircle => false
    case Crash => n < 0
    case Forever => n >= 0 && Outcome(nodes, roles, n, start) == None
    case Nodes(res) => n >= 0 && Outcome(nodes, roles, n, start) == Some(res)
  }

  method GetNeighborsEx(c: Consistent, name: string, count: int, roles: seq<nat>) returns (r: Answer)
    requires c.Valid()
    ensures r.EmptyCircle? <==> c.circle == map[]
    ensures c.circle != map[] ==>
              exists start :: 0 <= start < |c.sortedHashes| && Successor(c.circle.Keys, c.hash(name), c.sortedHashes[start])
                              && Answers(c, count, roles, start, r)
  {
    hide Distinct, Walked;
    if c.circle == map[] {
      return EmptyCircle;
    }
    var n := if c.count < count then c.count else count;
    var start := c.Search(c.hash(name));
    ghost var nodes := Clockwise(c.circle, c.sortedHashes, start);
    if n < 0 {
      assert Answers(c, count, roles, start, Crash);
      return Crash;
    }
    var res := Walk(c.circle, c.sortedHashes, start, n, roles);
    WalkedIs(nodes, roles, n, start);
    r := if res.None? then Forever else Nodes(res.value);
    assert Answers(c, count, roles, start, r);
  }

  lemma NextSeen(nodes: seq<Node>, roles: seq<nat>, n: int, start: nat, m: nat)
    requires 1 <= m <= |nodes| && (start > 0 ==> m < |nodes|)
    ensures var j, res := if m < |nodes| then m else 0, Seen(nodes, roles, m);
            && Seen(nodes, roles, m + 1) ==
               (if Wanted(roles, nodes[j]) && !Contains(res, nodes[j]) then res + [nodes[j]] else res)
            && Stop(nodes, roles, n, start, m) ==
               if |Seen(nodes, roles, m + 1)| == n then m + 1 else Stop(nodes, roles, n, start, m + 1)
  {
    hide Wanted, Contains, At;
    var j := AtWithin(nodes, m);
  }

  lemma WalkEnds(nodes: seq<Node>, roles: seq<nat>, n: int, start: nat, m: nat)
    requires nodes != [] && start < |nodes| && 1 <= m <= |nodes| + 1 && !Early(roles, n)
    requires Stop(nodes, roles, n, start, 1) == m
    ensures Walked(nodes, roles, n, start) ==
            if start == 0 && |Seen(nodes, roles, m)| != n then None else Some(Seen(nodes, roles, m))
  {
  }

  lemma StopAtEnd(nodes: seq<Node>, roles: seq<nat>, n: int, start: nat)
    requires nodes != []
    ensures Stop(nodes, roles, n, start, |nodes| + 1) == |nodes| + 1
    ensures start > 0 ==> Stop(nodes, roles, n, start, |nodes|) == |nodes|
  {
  }

  // The loop of GetNeighborsEx: i runs past the end before it is set back to 0. Back at its
  // beginning after a whole round, it has the same nodes as before and would go on for good.
  method Walk(circle: Circle, s: seq<NodeKey>, start: nat, n: int, roles: seq<nat>) returns (r: Option<seq<Node>>)
    requires start < |s| && forall k :: k in s ==> k in circle
    ensures r == Walked(Clockwise(circle, s, start), roles, n, start)
  {
    hide At, Contains, Seen, Stop, Walked, Wanted;
    ghost var nodes := Clockwise(circle, s, start);
    var elem := circle[s[start]];
    assert elem == nodes[0];
    FirstSeen(nodes, roles);
    StopAtEnd(nodes, roles, n, start);
    var res := [];
    ghost var m := 1;
    if Wanted(roles, elem) {
      res := res + [elem];
    }
    if roles == [] && |res| == n {
      EarlyWalked(nodes, roles, start);
      assert res == [nodes[0]];
      return Some(res);
    }
    assert !Early(roles, n) by { if roles == [] { EarlyWalked(nodes, roles, start); } }
    var i, again := start + 1, false;
    while i != start
      invariant 1 <= m <= |s| + 1 && res == Seen(nodes, roles, m)
      invariant m <= |s| ==> i == Position(start, m - 1, |s|) + 1
      invariant Stop(nodes, roles, n, start, 1) == Stop(nodes, roles, n, start, m)
      invariant (again <==> m == |s| + 1) && (start > 0 ==> m <= |s|)
      invariant m == |s| + 1 ==> |res| != n
      decreases |s| + 1 - m
    {
      if again {
        WalkEnds(nodes, roles, n, start, m);
        return None;
      }
      if i >= |s| {
        i := 0;
      }
      NextSeen(nodes, roles, n, start, m);
      elem := circle[s[i]];
      assert elem == nodes[if m < |s| then m else 0];
      if Wanted(roles, elem) {
        var member := SliceContainsMember(res, elem);
        if !member {
          res := res + [elem];
        }
      }
      again := i == start;
      m := m + 1;
      if |res| == n {
        WalkEnds(nodes, roles, n, start, m);
        return Some(res);
      }
      i := i + 1;
    }
    WalkEnds(nodes, roles, n, start, m);
    return Some(res);
  }

  lemma EarlyWalked(nodes: seq<Node>, roles: seq<nat>, start: nat)
    requires nodes != [] && roles == []
    ensures Wanted(roles, nodes[0]) && Walked(nodes, roles, 1, start) == Some([nodes[0]])
  {
    FirstSeen(nodes, roles);
  }

  method SliceContainsMember(res: seq<Node>, e: Node) returns (found: bool)
    ensures found == Contains(res, e)
  {
    var i := 0;
    while i < |res|
      invariant i <= |res| && forall j :: 0 <= j < i ==> res[j].id != e.id
    {
      if res[i].id == e.id {
        return true;
      }
      i := i + 1;
    }
    return false;
  }
}
