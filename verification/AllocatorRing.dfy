// The allocator on the ring it searches (blockproducer/db_service.go over consistent/consistent.go).

module AllocatorRing {
  import opened Common
  import opened Ring
  import opened RingNeighbors
  import A = Allocator

  function NodeIds(nodes: seq<Node>): (ids: seq<string>)
    ensures |ids| == |nodes|
  {
    seq(|nodes|, i requires 0 <= i < |nodes| => nodes[i].id)
  }

  // What GetNeighborsEx gives for this many nodes; nothing, if it does not return.
  function Near(nodes: seq<Node>, roles: seq<nat>, count: int, start: nat, k: int): seq<string> {
    if nodes == [] || Capped(count, k) < 0 then [] else
    var r := Walked(nodes, roles, Capped(count, k), start);
    if r.None? then [] else NodeIds(r.value)
  }

  function RingTask(nodes: seq<Node>, roles: seq<nat>, count: int, start: nat,
                    metric: (nat, string) -> A.Metric, servers: nat, memory: uint64): A.Task
  {
    A.Task(k => Near(nodes, roles, count, start, k), metric, servers, memory)
  }

  // The ring never lists a node twice.
  lemma RingIsProper(nodes: seq<Node>, roles: seq<nat>, count: int, start: nat,
                     metric: (nat, string) -> A.Metric, servers: nat, memory: uint64)
    ensures A.Proper(RingTask(nodes, roles, count, start, metric, servers, memory))
  {
    var task := RingTask(nodes, roles, count, start, metric, servers, memory);
    forall k ensures A.Distinct(task.near(k)) {
      NearDistinct(nodes, roles, count, start, k);
    }
  }

  lemma NearDistinct(nodes: seq<Node>, roles: seq<nat>, count: int, start: nat, k: int)
    ensures A.Distinct(Near(nodes, roles, count, start, k))
  {
    hide Seen, Stop;
    var s := Near(nodes, roles, count, start, k);
    if s != [] {
      var n := Capped(count, k);
      var m := if Early(roles, n) then 1 else Stop(nodes, roles, n, start, 1);
      var seen := Seen(nodes, roles, m);
      assert s == NodeIds(seen);
      forall i, j | 0 <= i < j < |s| ensures s[i] != s[j] { SeenOnce(nodes, roles, m, i, j); }
    }
  }

  // A search that does not return is one that finds nothing, here: no later round succeeds.
  lemma HangFails(nodes: seq<Node>, roles: seq<nat>, count: int, start: nat, metric: (nat, string) -> A.Metric,
                  servers: nat, memory: uint64, excluded: set<string>, i: nat, j: nat)
    requires servers > 0 && i <= j
    requires var task := RingTask(nodes, roles, count, start, metric, servers, memory);
             task.near(A.StateAt(task, excluded, i).range) == []
    ensures var task := RingTask(nodes, roles, count, start, metric, servers, memory);
            !A.Succeeds(task, A.StateAt(task, excluded, j), j)
  {
    var task := RingTask(nodes, roles, count, start, metric, servers, memory);
    assert A.Candidates(task, A.StateAt(task, excluded, i)) == [];
    A.Stuck(task, excluded, i, j);
  }

  // Allocation for a database name. On success every search of the ring up to that round has
  // returned, and the servers are the best of what the ring gave.
  method AllocateNodes(c: Consistent, name: string, roles: seq<nat>, metric: (nat, string) -> A.Metric,
                       servers: nat, memory: uint64, excluded: set<string>, rounds: nat, lastTerm: nat)
    returns (r: Option<A.Peers>, ghost start: nat, ghost round: nat)
    requires c.Valid()
    ensures c.circle == map[] ==> r.None?
    ensures c.circle != map[] ==> start < |c.sortedHashes| && Successor(c.circle.Keys, c.hash(name), c.sortedHashes[start])
    ensures r.Some? ==>
              var nodes := Clockwise(c.circle, c.sortedHashes, start);
              var task := RingTask(nodes, roles, c.count, start, metric, servers, memory);
              && servers > 0 && round < rounds && A.Chosen(task, A.StateAt(task, excluded, round), round, r.value)
              && forall i :: 0 <= i <= round ==> Returns(task, nodes, roles, c.count, start, excluded, i)
    ensures r.None? && c.circle != map[] ==>
              var nodes := Clockwise(c.circle, c.sortedHashes, start);
              var task := RingTask(nodes, roles, c.count, start, metric, servers, memory);
              servers == 0 || forall i :: 0 <= i < rounds ==> !A.Succeeds(task, A.StateAt(task, excluded, i), i)
  {
    hide A.Chosen, A.Succeeds, A.StateAt, Walked, Clockwise;
    if c.circle == map[] {
      return None, 0, 0;
    }
    var at := c.Search(c.hash(name));
    start := at;
    var nodes := Clockwise(c.circle, c.sortedHashes, at);
    var task := RingTask(nodes, roles, c.count, at, metric, servers, memory);
    RingIsProper(nodes, roles, c.count, at, metric, servers, memory);
    r, round := A.AllocateNodes(task, excluded, rounds, lastTerm);
    if r.Some? {
      forall i | 0 <= i <= round ensures Returns(task, nodes, roles, c.count, at, excluded, i) {
        if !Returns(task, nodes, roles, c.count, at, excluded, i) {
          HangFails(nodes, roles, c.count, at, metric, servers, memory, excluded, i, round);
        }
      }
    }
  }

  // The search of the ring in this round comes back.
  ghost predicate Returns(task: A.Task, nodes: seq<Node>, roles: seq<nat>, count: int, start: nat, excluded: set<string>, i: nat)
    requires nodes != []
  {
    var n := Capped(count, A.StateAt(task, excluded, i).range);
    n >= 0 && Walked(nodes, roles, n, start).Some?
  }

  // A request for one server starts with a search for one node under a filter. Where the first two
  // positions hold different wanted nodes it is given every wanted node instead of the nearest,
  // or, from position 0, never comes back.
  lemma OneServerRequest(nodes: seq<Node>, roles: seq<nat>, count: int, start: nat)
    requires start < |nodes| && count >= 1 && roles != []
    requires |nodes| > 1 && Wanted(roles, nodes[0]) && Wanted(roles, nodes[1]) && nodes[0].id != nodes[1].id
    ensures Walked(nodes, roles, Capped(count, 1), start).None? <==> start == 0
    ensures start > 0 ==> Near(nodes, roles, count, start, 1) == NodeIds(Distinct(nodes, roles)) && |Distinct(nodes, roles)| >= 2
  {
    hide Walked;
    SecondSeen(nodes, roles);
    FirstSeen(nodes, roles);
    assert nodes[..|nodes|] == nodes;
    SeenIsDistinct(nodes, roles, |nodes|);
    SeenGrows(nodes, roles, 2, |nodes|);
    OneFilteredOutcome(nodes, roles, start);
  }
}
