// Choosing the servers of a new database (blockproducer/db_service.go).

module Allocator {
  import opened Common

  type NodeID = string

  // What is known of a node's free memory.
  datatype Metric = Missing | Unreadable | Free(memory: uint64)

  datatype Server = Server(id: NodeID, isLeader: bool)

  datatype Peers = Peers(term: nat, servers: seq<Server>, leader: NodeID)

  // The ring around the database id for a given number of nodes, the metrics of each round, and
  // what is asked for.
  datatype Task = Task(near: int -> seq<NodeID>, metric: (nat, NodeID) -> Metric, count: nat, memory: uint64)

  // How far the search reaches and who is out of it.
  datatype Search = Search(range: int, excluded: set<NodeID>)

  ghost predicate Distinct(s: seq<NodeID>) {
    forall i, j :: 0 <= i < j < |s| ==> s[i] != s[j]
  }

  // The ring lists every neighbour once.
  ghost predicate Proper(task: Task) {
    forall k :: Distinct(task.near(k))
  }

  function Keep(s: seq<NodeID>, ok: NodeID -> bool): seq<NodeID> {
    if s == [] then [] else
    var n := |s| - 1;
    if ok(s[n]) then Keep(s[..n], ok) + [s[n]] else Keep(s[..n], ok)
  }

  lemma {:induction false} KeepMembers(s: seq<NodeID>, ok: NodeID -> bool)
    ensures forall x :: x in Keep(s, ok) <==> x in s && ok(x)
    ensures Distinct(s) ==> Distinct(Keep(s, ok))
    decreases |s|
  {
    if s != [] {
      var n := |s| - 1;
      KeepMembers(s[..n], ok);
      assert s == s[..n] + [s[n]];
      if Distinct(s) {
        assert s[n] !in s[..n];
      }
    }
  }

  ghost function Ids(s: seq<NodeID>): set<NodeID> {
    set x | x in s
  }

  lemma {:induction false} DistinctCount(s: seq<NodeID>)
    requires Distinct(s)
    ensures |Ids(s)| == |s|
    decreases |s|
  {
    if s != [] {
      var n := |s| - 1;
      DistinctCount(s[..n]);
      assert s == s[..n] + [s[n]] && s[n] !in s[..n];
      assert Ids(s) == Ids(s[..n]) + {s[n]};
    }
  }

  // ----- one round -----

  function Candidates(task: Task, st: Search): seq<NodeID> {
    Keep(task.near(st.range), x => x !in st.excluded)
  }

  predicate Qualifies(task: Task, round: nat, x: NodeID) {
    var m := task.metric(round, x);
    m.Free? && task.memory < m.memory
  }

  // A node whose memory is unreadable or too small is not asked again; one without a record is.
  predicate Fails(task: Task, round: nat, x: NodeID) {
    var m := task.metric(round, x);
    m.Unreadable? || (m.Free? && m.memory <= task.memory)
  }

  function Qualified(task: Task, st: Search, round: nat): seq<NodeID> {
    Keep(Candidates(task, st), x => Qualifies(task, round, x))
  }

  predicate Enough(task: Task, st: Search) {
    |Candidates(task, st)| >= task.count
  }

  predicate Succeeds(task: Task, st: Search, round: nat) {
    Enough(task, st) && |Qualified(task, st, round)| >= task.count
  }

  // The reach grows only after a round that had enough candidates to look at.
  ghost function Next(task: Task, st: Search, round: nat): Search {
    if !Enough(task, st) then st else
    Search(st.range + task.count, st.excluded + (set x | x in Candidates(task, st) && Fails(task, round, x)))
  }

  ghost function StateAt(task: Task, excluded: set<NodeID>, round: nat): Search {
    if round == 0 then Search(task.count, excluded) else
    var st := StateAt(task, excluded, round - 1);
    Next(task, st, round - 1)
  }

  // A round with too few candidates is repeated unchanged until the rounds run out.
  lemma {:induction false} Stuck(task: Task, excluded: set<NodeID>, i: nat, j: nat)
    requires i <= j && !Enough(task, StateAt(task, excluded, i))
    ensures StateAt(task, excluded, j) == StateAt(task, excluded, i) && !Succeeds(task, StateAt(task, excluded, j), j)
    decreases j
  {
    hide Enough;
    if i < j { Stuck(task, excluded, i, j - 1); }
  }

  // Who is excluded stays excluded.
  lemma {:induction false} ExcludedGrows(task: Task, excluded: set<NodeID>, i: nat, j: nat)
    requires i <= j
    ensures StateAt(task, excluded, i).excluded <= StateAt(task, excluded, j).excluded
    decreases j
  {
    if i < j { ExcludedGrows(task, excluded, i, j - 1); }
  }

  // ----- the choice -----

  function Memory(task: Task, round: nat, x: NodeID): nat {
    var m := task.metric(round, x);
    if m.Free? then m.memory else 0
  }

  // The servers of a round: as many as asked for, each once, all of them qualified, and nobody
  // with more memory is left out. They stand in ring order and the first one leads.
  ghost predicate Chosen(task: Task, st: Search, round: nat, p: Peers) {
    && |p.servers| == task.count > 0
    && (forall i, j :: 0 <= i < j < |p.servers| ==> p.servers[i].id != p.servers[j].id)
    && (forall i :: 0 <= i < |p.servers| ==> p.servers[i].id in Qualified(task, st, round))
    && (forall x, i :: x in Qualified(task, st, round) && 0 <= i < |p.servers| && x !in IdsOf(p) ==>
          Memory(task, round, x) <= Memory(task, round, p.servers[i].id))
    && IdsOf(p) == Keep(task.near(st.range), x => x in IdsOf(p))
    && p.leader == p.servers[0].id
    && (forall i :: 0 <= i < |p.servers| ==> (p.servers[i].isLeader <==> i == 0))
  }

  function IdsOf(p: Peers): seq<NodeID> {
    seq(|p.servers|, i requires 0 <= i < |p.servers| => p.servers[i].id)
  }

  datatype Allocated = Allocated(id: NodeID, memory: uint64)

  ghost predicate Descending(s: seq<Allocated>) {
    forall i, j :: 0 <= i < j < |s| ==> s[i].memory >= s[j].memory
  }

  function AllocatedIds(s: seq<Allocated>): (ids: seq<NodeID>)
    ensures |ids| == |s|
  {
    seq(|s|, i requires 0 <= i < |s| => s[i].id)
  }

  function Insert(s: seq<Allocated>, x: Allocated): (r: seq<Allocated>)
    ensures |r| == |s| + 1
  {
    if s == [] || s[0].memory <= x.memory then [x] + s else [s[0]] + Insert(s[1..], x)
  }

  // sort.Slice by falling memory; which of several equal ones comes first is left open by it.
  function SortDesc(s: seq<Allocated>): (r: seq<Allocated>)
    ensures |r| == |s|
  {
    if s == [] then [] else Insert(SortDesc(s[1..]), s[0])
  }

  lemma {:induction false} InsertKeeps(s: seq<Allocated>, x: Allocated)
    ensures multiset(Insert(s, x)) == multiset(s) + multiset{x}
    decreases |s|
  {
    if s != [] && s[0].memory > x.memory {
      InsertKeeps(s[1..], x);
      assert s == [s[0]] + s[1..];
    }
  }

  lemma {:induction false} InsertSorted(s: seq<Allocated>, x: Allocated)
    requires Descending(s)
    ensures Descending(Insert(s, x))
    decreases |s|
  {
    if s != [] && s[0].memory > x.memory {
      var r := Insert(s[1..], x);
      InsertSorted(s[1..], x);
      InsertKeeps(s[1..], x);
      forall i | 0 <= i < |r| ensures r[i].memory <= s[0].memory {
        assert r[i] in multiset(r);
        assert r[i] == x || r[i] in s[1..];
      }
      Prepended(s[0], r);
    }
  }

  lemma Prepended(x: Allocated, r: seq<Allocated>)
    requires Descending(r) && forall i :: 0 <= i < |r| ==> r[i].memory <= x.memory
    ensures Descending([x] + r)
  {
  }

  lemma {:induction false} SortSorts(s: seq<Allocated>)
    ensures Descending(SortDesc(s)) && multiset(SortDesc(s)) == multiset(s)
    decreases |s|
  {
    if s != [] {
      SortSorts(s[1..]);
      InsertSorted(SortDesc(s[1..]), s[0]);
      InsertKeeps(SortDesc(s[1..]), s[0]);
      assert s == [s[0]] + s[1..];
    }
  }

  // Entries that differ in their ids stay so in any order.
  lemma PermutedDistinct(s: seq<Allocated>, t: seq<Allocated>)
    requires multiset(s) == multiset(t) && Distinct(AllocatedIds(s))
    ensures Distinct(AllocatedIds(t))
  {
    forall i, j | 0 <= i < j < |t| ensures t[i].id != t[j].id {
      if t[i].id == t[j].id {
        assert t[i] in multiset(t) && t[j] in multiset(t);
        var k :| 0 <= k < |s| && s[k] == t[i];
        var l :| 0 <= l < |s| && s[l] == t[j];
        assert AllocatedIds(s)[k] == AllocatedIds(s)[l];
        assert k == l && t[i] == t[j];
        TwiceCounts(t, i, j);
        OnceCounts(s, k);
      }
    }
  }

  lemma TwiceCounts<T>(t: seq<T>, i: nat, j: nat)
    requires i < j < |t| && t[i] == t[j]
    ensures multiset(t)[t[i]] >= 2
  {
    assert t == t[..j] + [t[j]] + t[j + 1..];
    assert t[..j][i] == t[i];
    assert t[i] in multiset(t[..j]);
  }

  lemma OnceCounts(s: seq<Allocated>, k: nat)
    requires k < |s| && Distinct(AllocatedIds(s))
    ensures multiset(s)[s[k]] == 1
  {
    assert s == s[..k] + [s[k]] + s[k + 1..];
    forall i | 0 <= i < |s| && i != k ensures s[i] != s[k] {
      assert AllocatedIds(s)[i] != AllocatedIds(s)[k];
    }
    assert s[k] !in s[..k] && s[k] !in s[k + 1..];
  }

  // ----- the method -----

  // Leaves out who is excluded.
  method Suitable(nodes: seq<NodeID>, excluded: set<NodeID>) returns (ids: seq<NodeID>)
    ensures ids == Keep(nodes, x => x !in excluded)
  {
    ids := [];
    var i := 0;
    while i < |nodes|
      invariant i <= |nodes| && ids == Keep(nodes[..i], x => x !in excluded)
    {
      assert nodes[..i + 1][..i] == nodes[..i];
      if nodes[i] !in excluded {
        ids := ids + [nodes[i]];
      }
      i := i + 1;
    }
    assert nodes[..i] == nodes;
  }

  // Reads the metrics in any order.
  method Review(task: Task, round: nat, ids: seq<NodeID>) returns (found: seq<Allocated>, failed: set<NodeID>)
    ensures failed == set x | x in ids && Fails(task, round, x)
    ensures Distinct(AllocatedIds(found))
    ensures forall x :: x in AllocatedIds(found) <==> x in ids && Qualifies(task, round, x)
    ensures forall a :: a in found ==> a.memory == Memory(task, round, a.id)
  {
    found, failed := [], {};
    var rest := set x | x in ids;
    while rest != {}
      invariant forall x :: x in rest ==> x in ids
      invariant failed == set x | x in ids && x !in rest && Fails(task, round, x)
      invariant Distinct(AllocatedIds(found))
      invariant forall x :: x in AllocatedIds(found) <==> x in ids && x !in rest && Qualifies(task, round, x)
      invariant forall a :: a in found ==> a.memory == Memory(task, round, a.id)
      decreases rest
    {
      var x :| x in rest;
      rest := rest - {x};
      var m := task.metric(round, x);
      if m.Free? && task.memory < m.memory {
        assert AllocatedIds(found + [Allocated(x, m.memory)]) == AllocatedIds(found) + [x];
        found := found + [Allocated(x, m.memory)];
      } else if !m.Missing? {
        failed := failed + {x};
      }
    }
  }

  // The servers come in ring order, so the first of them leads, whatever the order of the choice.
  method BuildPeers(term: nat, nodes: seq<NodeID>, ids: seq<NodeID>) returns (p: Peers)
    requires Distinct(nodes) && Distinct(ids) && ids != [] && forall x :: x in ids ==> x in nodes
    ensures p.term == term && |p.servers| == |ids| && IdsOf(p) == Keep(nodes, x => x in ids)
    ensures p.leader == p.servers[0].id && forall i :: 0 <= i < |p.servers| ==> (p.servers[i].isLeader <==> i == 0)
  {
    var chosen: seq<NodeID>, i := [], 0;
    while i < |nodes|
      invariant i <= |nodes| && chosen == Keep(nodes[..i], x => x in ids)
    {
      assert nodes[..i + 1][..i] == nodes[..i];
      if nodes[i] in ids {
        chosen := chosen + [nodes[i]];
      }
      i := i + 1;
    }
    assert nodes[..i] == nodes;
    KeepAll(nodes, ids);
    var servers := seq(|chosen|, i requires 0 <= i < |chosen| => Server(chosen[i], i == 0));
    p := Peers(term, servers, chosen[0]);
    assert IdsOf(p) == chosen;
  }

  lemma KeepAll(nodes: seq<NodeID>, ids: seq<NodeID>)
    requires Distinct(nodes) && Distinct(ids) && forall x :: x in ids ==> x in nodes
    ensures |Keep(nodes, x => x in ids)| == |ids|
  {
    var kept := Keep(nodes, x => x in ids);
    KeepMembers(nodes, x => x in ids);
    DistinctCount(kept);
    DistinctCount(ids);
    assert Ids(kept) == Ids(ids);
  }

  lemma SameMembers(s: seq<Allocated>, t: seq<Allocated>)
    requires multiset(s) == multiset(t)
    ensures forall a :: a in s <==> a in t
  {
    forall a ensures a in s <==> a in t {
      assert a in multiset(s) <==> a in multiset(t);
    }
  }

  lemma TopOfSorted(s: seq<Allocated>, n: nat, a: Allocated, b: Allocated)
    requires Descending(s) && n <= |s| && a in s && a !in s[..n] && b in s[..n]
    ensures a.memory <= b.memory
  {
    assert forall k :: 0 <= k < n ==> s[k] == s[..n][k];
    var i :| 0 <= i < |s| && s[i] == a;
    var j :| 0 <= j < n && s[..n][j] == b;
  }

  lemma SortFacts(found: seq<Allocated>)
    requires Distinct(AllocatedIds(found))
    ensures Descending(SortDesc(found)) && Distinct(AllocatedIds(SortDesc(found)))
    ensures forall a :: a in SortDesc(found) <==> a in found
  {
    hide SortDesc, Descending;
    SortSorts(found);
    PermutedDistinct(found, SortDesc(found));
    SameMembers(SortDesc(found), found);
  }

  lemma PrefixFacts(s: seq<Allocated>, n: nat)
    requires n <= |s| && Distinct(AllocatedIds(s))
    ensures Distinct(AllocatedIds(s[..n])) && forall a :: a in s[..n] ==> a in s
  {
    assert AllocatedIds(s[..n]) == AllocatedIds(s)[..n];
  }

  // The first n after sorting: some of the entries, and none of the others has more memory.
  lemma BestIsBest(found: seq<Allocated>, n: nat, best: seq<Allocated>)
    requires Distinct(AllocatedIds(found)) && n <= |found| && best == SortDesc(found)[..n]
    ensures Distinct(AllocatedIds(best)) && forall a :: a in best ==> a in found
    ensures forall a, b :: a in found && a !in best && b in best ==> a.memory <= b.memory
  {
    hide SortDesc, Descending, Distinct, AllocatedIds;
    var sorted := SortDesc(found);
    SortFacts(found);
    PrefixFacts(sorted, n);
    forall a, b | a in found && a !in best && b in best ensures a.memory <= b.memory {
      TopOfSorted(sorted, n, a, b);
    }
  }

  // The entries stand for exactly the qualified candidates.
  ghost predicate Reviewed(task: Task, st: Search, round: nat, found: seq<Allocated>) {
    && Distinct(AllocatedIds(found))
    && (forall x :: x in AllocatedIds(found) <==> x in Qualified(task, st, round))
    && (forall a :: a in found ==> a.memory == Memory(task, round, a.id))
  }

  lemma ReviewedAll(task: Task, st: Search, round: nat, found: seq<Allocated>)
    requires Proper(task) && Distinct(AllocatedIds(found))
    requires forall x :: x in AllocatedIds(found) <==> x in Candidates(task, st) && Qualifies(task, round, x)
    requires forall a :: a in found ==> a.memory == Memory(task, round, a.id)
    ensures Reviewed(task, st, round, found) && |found| == |Qualified(task, st, round)|
  {
    var q, ids := Qualified(task, st, round), AllocatedIds(found);
    KeepMembers(task.near(st.range), x => x !in st.excluded);
    KeepMembers(Candidates(task, st), x => Qualifies(task, round, x));
    DistinctCount(q);
    DistinctCount(ids);
    assert Ids(q) == Ids(ids);
  }

  lemma BestIsQualified(task: Task, st: Search, round: nat, found: seq<Allocated>, best: seq<Allocated>)
    requires Reviewed(task, st, round, found) && forall a :: a in best ==> a in found
    ensures forall x :: x in AllocatedIds(best) ==> x in Qualified(task, st, round) && x in task.near(st.range)
  {
    KeepMembers(task.near(st.range), x => x !in st.excluded);
    KeepMembers(Candidates(task, st), x => Qualifies(task, round, x));
    forall x | x in AllocatedIds(best) ensures x in AllocatedIds(found) {
      var i :| 0 <= i < |best| && best[i].id == x;
      assert best[i] in found;
      var j :| 0 <= j < |found| && found[j] == best[i];
      assert AllocatedIds(found)[j] == x;
    }
  }

  lemma BestIsChosen(task: Task, st: Search, round: nat, found: seq<Allocated>, best: seq<Allocated>, p: Peers)
    requires Proper(task) && Reviewed(task, st, round, found) && |best| == task.count > 0
    requires Distinct(AllocatedIds(best)) && forall a :: a in best ==> a in found
    requires forall a, b :: a in found && a !in best && b in best ==> a.memory <= b.memory
    requires forall x :: x in AllocatedIds(best) ==> x in Qualified(task, st, round)
    requires |p.servers| == |best| && IdsOf(p) == Keep(task.near(st.range), x => x in AllocatedIds(best))
    requires p.leader == p.servers[0].id && forall i :: 0 <= i < |p.servers| ==> (p.servers[i].isLeader <==> i == 0)
    ensures Chosen(task, st, round, p)
  {
    hide Qualified;
    var near, ids := task.near(st.range), AllocatedIds(best);
    KeepMembers(near, x => x in ids);
    BestInRing(task, st, round, ids);
    forall x ensures x in IdsOf(p) <==> x in ids { }
    KeepSame(near, x => x in ids, x => x in IdsOf(p));
    forall i, j | 0 <= i < j < |p.servers| ensures p.servers[i].id != p.servers[j].id {
      assert IdsOf(p)[i] != IdsOf(p)[j];
    }
    forall i | 0 <= i < |p.servers| ensures p.servers[i].id in ids {
      assert IdsOf(p)[i] in IdsOf(p);
    }
    forall x, i | x in Qualified(task, st, round) && 0 <= i < |p.servers| && x !in IdsOf(p)
      ensures Memory(task, round, x) <= Memory(task, round, p.servers[i].id)
    {
      var a := EntryOf(found, x);
      assert a !in best by { if a in best { IdIn(best, a); } }
      var b := EntryOf(best, p.servers[i].id);
    }
  }

  lemma BestInRing(task: Task, st: Search, round: nat, ids: seq<NodeID>)
    requires forall x :: x in ids ==> x in Qualified(task, st, round)
    ensures forall x :: x in ids ==> x in task.near(st.range)
  {
    KeepMembers(task.near(st.range), x => x !in st.excluded);
    KeepMembers(Candidates(task, st), x => Qualifies(task, round, x));
  }

  lemma {:induction false} KeepSame(s: seq<NodeID>, f: NodeID -> bool, g: NodeID -> bool)
    requires forall x :: f(x) == g(x)
    ensures Keep(s, f) == Keep(s, g)
    decreases |s|
  {
    if s != [] { KeepSame(s[..|s| - 1], f, g); }
  }

  lemma EntryOf(s: seq<Allocated>, x: NodeID) returns (a: Allocated)
    requires x in AllocatedIds(s)
    ensures a in s && a.id == x
  {
    var i :| 0 <= i < |s| && s[i].id == x;
    a := s[i];
  }

  lemma IdIn(s: seq<Allocated>, a: Allocated)
    requires a in s
    ensures a.id in AllocatedIds(s)
  {
    var i :| 0 <= i < |s| && s[i] == a;
    assert AllocatedIds(s)[i] == a.id;
  }

  method AllocateNodes(task: Task, excluded: set<NodeID>, rounds: nat, lastTerm: nat) returns (r: Option<Peers>, ghost round: nat)
    requires Proper(task)
    ensures r.Some? ==> task.count > 0 && round < rounds && Succeeds(task, StateAt(task, excluded, round), round)
    ensures r.Some? ==> forall i :: 0 <= i < round ==> !Succeeds(task, StateAt(task, excluded, i), i)
    ensures r.Some? ==> r.value.term == lastTerm + 1 && Chosen(task, StateAt(task, excluded, round), round, r.value)
    ensures r.None? ==> task.count == 0 || forall i :: 0 <= i < rounds ==> !Succeeds(task, StateAt(task, excluded, i), i)
  {
    hide Chosen, Keep;
    round := 0;
    if task.count == 0 {
      return None, 0;
    }
    var curRange, out, i := task.count as int, excluded, 0;
    while i != rounds
      invariant i <= rounds && Search(curRange, out) == StateAt(task, excluded, i)
      invariant forall j :: 0 <= j < i ==> !Succeeds(task, StateAt(task, excluded, j), j)
    {
      ghost var st := Search(curRange, out);
      var nodes := task.near(curRange);
      var ids := Suitable(nodes, out);
      assert ids == Candidates(task, st);
      if |ids| >= task.count {
        var found, failed := Review(task, i, ids);
        ReviewedAll(task, st, i, found);
        out := out + failed;
        if |found| >= task.count {
          var best := SortDesc(found)[..task.count];
          BestIsBest(found, task.count, best);
          BestIsQualified(task, st, i, found, best);
          var p := BuildPeers(lastTerm + 1, nodes, AllocatedIds(best));
          BestIsChosen(task, st, i, found, best, p);
          return Some(p), i;
        }
        curRange := curRange + task.count;
      }
      i := i + 1;
    }
    return None, 0;
  }

  // ----- never excluded -----

  // A chosen server is a neighbour with more free memory than asked for, and has not been excluded
  // in any round up to its own.
  lemma ChosenNeverExcluded(task: Task, excluded: set<NodeID>, round: nat, p: Peers, i: nat, j: nat)
    requires Chosen(task, StateAt(task, excluded, round), round, p) && i < |p.servers| && j <= round
    ensures var x := p.servers[i].id;
            && x in task.near(StateAt(task, excluded, round).range) && x !in StateAt(task, excluded, j).excluded
            && task.metric(round, x).Free? && task.metric(round, x).memory > task.memory
  {
    var st := StateAt(task, excluded, round);
    ExcludedGrows(task, excluded, j, round);
    KeepMembers(task.near(st.range), x => x !in st.excluded);
    KeepMembers(Candidates(task, st), x => Qualifies(task, round, x));
  }

  // ----- the search told without its state -----

  // In this round the node was looked at and its record did not do.
  ghost predicate Dismissed(task: Task, excluded: set<NodeID>, i: nat, x: NodeID) {
    var st, m := StateAt(task, excluded, i), task.metric(i, x);
    Enough(task, st) && x in task.near(st.range) && x !in st.excluded && !m.Missing? && (m.Free? ==> m.memory <= task.memory)
  }

  // As long as there are enough candidates the reach grows by the number asked for, and who is out
  // was out from the beginning or was dismissed in an earlier round.
  lemma {:induction false} SearchIs(task: Task, excluded: set<NodeID>, round: nat, x: NodeID)
    ensures (forall i :: 0 <= i < round ==> Enough(task, StateAt(task, excluded, i))) ==>
              StateAt(task, excluded, round).range == task.count * (round + 1)
    ensures x in StateAt(task, excluded, round).excluded <==>
            x in excluded || exists i :: 0 <= i < round && Dismissed(task, excluded, i, x)
    decreases round
  {
    hide Enough;
    if round > 0 {
      SearchIs(task, excluded, round - 1, x);
      var st := StateAt(task, excluded, round - 1);
      KeepMembers(task.near(st.range), y => y !in st.excluded);
      assert task.count * (round + 1) == task.count * round + task.count;
      assert x in StateAt(task, excluded, round).excluded <==> x in st.excluded || Dismissed(task, excluded, round - 1, x);
    }
  }

  // The neighbours that could be chosen.
  ghost function RoomOn(task: Task, st: Search, round: nat): set<NodeID> {
    set x | x in task.near(st.range) && x !in st.excluded && task.metric(round, x).Free? && task.metric(round, x).memory > task.memory
  }

  // A round succeeds exactly when enough of them could.
  lemma SucceedsIff(task: Task, st: Search, round: nat)
    requires Proper(task)
    ensures Succeeds(task, st, round) <==> |RoomOn(task, st, round)| >= task.count
  {
    var c, q := Candidates(task, st), Qualified(task, st, round);
    KeepMembers(task.near(st.range), x => x !in st.excluded);
    KeepMembers(c, x => Qualifies(task, round, x));
    DistinctCount(q);
    DistinctCount(c);
    assert Ids(q) == RoomOn(task, st, round);
    SubsetSize(Ids(q), Ids(c));
  }

  // ----- who leads -----

  // The qualified nodes with more memory.
  ghost function Beaters(task: Task, st: Search, round: nat, x: NodeID): set<NodeID> {
    set y | y in Qualified(task, st, round) && Memory(task, round, y) > Memory(task, round, x)
  }

  ghost predicate DistinctMemory(task: Task, st: Search, round: nat) {
    forall x, y :: x in Qualified(task, st, round) && y in Qualified(task, st, round) && x != y ==>
      Memory(task, round, x) != Memory(task, round, y)
  }

  lemma {:induction false} SubsetSize(a: set<NodeID>, b: set<NodeID>)
    requires a <= b
    ensures |a| <= |b|
    decreases a
  {
    if a != {} {
      var x :| x in a;
      SubsetSize(a - {x}, b - {x});
    }
  }

  lemma IdsAreDistinct(task: Task, st: Search, round: nat, p: Peers)
    requires Chosen(task, st, round, p)
    ensures Distinct(IdsOf(p)) && |Ids(IdsOf(p))| == task.count
    ensures forall x :: x in IdsOf(p) ==> x in Qualified(task, st, round)
  {
    hide Qualified, Keep;
    forall i, j | 0 <= i < j < |IdsOf(p)| ensures IdsOf(p)[i] != IdsOf(p)[j] {
      assert p.servers[i].id != p.servers[j].id;
    }
    DistinctCount(IdsOf(p));
    forall x | x in IdsOf(p) ensures x in Qualified(task, st, round) {
      var i :| 0 <= i < |IdsOf(p)| && IdsOf(p)[i] == x;
      assert p.servers[i].id in Qualified(task, st, round);
    }
  }

  // A node left out is beaten by every chosen one, and a chosen one is beaten by chosen ones only.
  lemma OutsideIsSmaller(task: Task, st: Search, round: nat, p: Peers, x: NodeID, y: NodeID)
    requires Chosen(task, st, round, p) && x in Qualified(task, st, round) && x !in IdsOf(p) && y in IdsOf(p)
    ensures Memory(task, round, x) <= Memory(task, round, y)
  {
    hide Qualified, Keep;
    var i :| 0 <= i < |IdsOf(p)| && IdsOf(p)[i] == y;
    assert p.servers[i].id == y;
  }

  // With distinct memories the choice is determined: those beaten by fewer than count others.
  lemma ChosenIff(task: Task, st: Search, round: nat, p: Peers, x: NodeID)
    requires Chosen(task, st, round, p) && DistinctMemory(task, st, round) && x in Qualified(task, st, round)
    ensures x in IdsOf(p) <==> |Beaters(task, st, round, x)| < task.count
  {
    hide Qualified, Chosen, Keep;
    IdsAreDistinct(task, st, round, p);
    var ids, more := Ids(IdsOf(p)), Beaters(task, st, round, x);
    if x in IdsOf(p) {
      forall y | y in more ensures y in ids - {x} {
        if y !in IdsOf(p) { OutsideIsSmaller(task, st, round, p, y, x); }
      }
      SubsetSize(more, ids - {x});
    } else {
      forall y | y in ids ensures y in more { OutsideIsSmaller(task, st, round, p, x, y); }
      SubsetSize(ids, more);
    }
  }

  ghost predicate Ahead(s: seq<NodeID>, x: NodeID, y: NodeID) {
    exists i, j :: 0 <= i < j < |s| && s[i] == x && s[j] == y
  }

  lemma {:induction false} FirstKept(s: seq<NodeID>, ok: NodeID -> bool) returns (i: nat)
    requires Keep(s, ok) != []
    ensures i < |s| && s[i] == Keep(s, ok)[0] && ok(s[i]) && forall j :: 0 <= j < i ==> !ok(s[j])
    decreases |s|
  {
    var n := |s| - 1;
    if Keep(s[..n], ok) == [] {
      i := n;
      KeepMembers(s[..n], ok);
      forall j | 0 <= j < n ensures !ok(s[j]) { assert s[..n][j] in s[..n]; }
    } else {
      i := FirstKept(s[..n], ok);
      assert forall j :: 0 <= j < n ==> s[..n][j] == s[j];
    }
  }

  // Servers stand in ring order and the first one leads. With distinct memories the leader is the
  // one with the most memory exactly when every qualified node ahead of that one on the ring is
  // beaten by at least count others, and so not chosen.
  lemma LeaderIsLargestIff(task: Task, st: Search, round: nat, p: Peers, big: NodeID)
    requires Proper(task) && Chosen(task, st, round, p) && DistinctMemory(task, st, round)
    requires big in Qualified(task, st, round)
    requires forall y :: y in Qualified(task, st, round) ==> Memory(task, round, y) <= Memory(task, round, big)
    ensures p.leader == big <==>
            forall x :: x in Qualified(task, st, round) && Ahead(task.near(st.range), x, big) ==>
              |Beaters(task, st, round, x)| >= task.count
  {
    hide Qualified, Keep;
    var near := task.near(st.range);
    var ok := x => x in IdsOf(p);
    assert IdsOf(p)[0] == p.leader;
    assert Beaters(task, st, round, big) == {};
    ChosenIff(task, st, round, p, big);
    KeepMembers(near, ok);
    IdsAreDistinct(task, st, round, p);
    var i := FirstKept(near, ok);
    if p.leader == big {
      forall x | x in Qualified(task, st, round) && Ahead(near, x, big) ensures |Beaters(task, st, round, x)| >= task.count {
        var a, b :| 0 <= a < b < |near| && near[a] == x && near[b] == big;
        assert Distinct(near);
        assert b == i;
        ChosenIff(task, st, round, p, x);
      }
    } else {
      var b :| 0 <= b < |near| && near[b] == big;
      assert i < b;
      assert Ahead(near, p.leader, big);
      ChosenIff(task, st, round, p, p.leader);
    }
  }

  // Two nodes, both asked for, the larger one second on the ring: the allocation succeeds in its
  // first round, and whatever it returns is led by the smaller node.
  lemma LeaderNeedNotBeLargest(p: Peers)
    ensures Succeeds(TwoNodes(), StateAt(TwoNodes(), {}, 0), 0)
    ensures Chosen(TwoNodes(), StateAt(TwoNodes(), {}, 0), 0, p) ==>
              p.leader != "b" && "b" in IdsOf(p) && Memory(TwoNodes(), 0, p.leader) < Memory(TwoNodes(), 0, "b")
  {
    var task := TwoNodes();
    var st := StateAt(task, {}, 0);
    TwoQualify();
    if Chosen(task, st, 0, p) {
      TwoProper();
      assert Ahead(["a", "b"], "a", "b") by { assert ["a", "b"][0] == "a" && ["a", "b"][1] == "b"; }
      assert Beaters(task, st, 0, "a") == {"b"} && Beaters(task, st, 0, "b") == {};
      LeaderIsLargestIff(task, st, 0, p, "b");
      ChosenIff(task, st, 0, p, "b");
      IdsAreDistinct(task, st, 0, p);
      assert IdsOf(p)[0] == p.leader;
    }
  }

  lemma TwoQualify()
    ensures Candidates(TwoNodes(), Search(2, {})) == ["a", "b"] && Qualified(TwoNodes(), Search(2, {}), 0) == ["a", "b"]
  {
    var task, st := TwoNodes(), Search(2, {});
    KeepBoth(x => x !in st.excluded);
    KeepBoth(x => Qualifies(task, 0, x));
  }

  lemma KeepBoth(ok: NodeID -> bool)
    ensures ok("a") && ok("b") ==> Keep(["a", "b"], ok) == ["a", "b"]
  {
    assert ["a", "b"][..1] == ["a"] && ["a"][..0] == [];
    assert Keep(["a"], ok) == if ok("a") then ["a"] else [];
  }

  lemma TwoProper()
    ensures Proper(TwoNodes()) && DistinctMemory(TwoNodes(), Search(2, {}), 0)
  {
    TwoQualify();
  }

  function TwoNodes(): Task {
    Task(_ => ["a", "b"], (_, x) => if x == "a" then Free(1) else Free(2), 2, 0)
  }
}
