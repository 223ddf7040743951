// The consistent-hash ring (consistent/consistent.go): who owns a name, and how little moves when
// a node joins or leaves.

module Ring {
  import opened Common
  import opened ByteOrder
  import opened RingOrder

  datatype Node = Node(id: string, role: nat, addr: string)

  type Circle = map<NodeKey, Node>

  type HashKey = string -> NodeKey

  // ----- successors -----

  ghost predicate Least(ks: set<NodeKey>, k: NodeKey) {
    k in ks && forall j :: j in ks && j != k ==> Less(k, j)
  }

  // The first key strictly behind the given one, or the least key of all when there is none.
  ghost predicate Successor(ks: set<NodeKey>, key: NodeKey, k: NodeKey) {
    && k in ks
    && if Less(key, k) then forall j :: j in ks && Less(key, j) ==> j == k || Less(k, j)
       else Least(ks, k) && forall j :: j in ks ==> !Less(key, j)
  }

  lemma SuccessorUnique(ks: set<NodeKey>, key: NodeKey, k: NodeKey, l: NodeKey)
    requires Successor(ks, key, k) && Successor(ks, key, l)
    ensures k == l
  {
    hide Less;
    Order(k, l, k);
  }

  // ----- joining and leaving -----

  // Where the first n replicas of a node sit.
  function Points(hash: HashKey, id: string, n: nat): set<NodeKey> {
    if n == 0 then {} else Points(hash, id, n - 1) + {hash(KeyString(id, n - 1))}
  }

  lemma {:induction false} PointsIff(hash: HashKey, id: string, n: nat, k: NodeKey)
    ensures k in Points(hash, id, n) <==> exists i :: 0 <= i < n && k == hash(KeyString(id, i))
    decreases n
  {
    if n > 0 { PointsIff(hash, id, n - 1, k); }
  }

  function Joined(circle: Circle, points: set<NodeKey>, node: Node): Circle {
    map k | k in circle.Keys + points :: if k in points then node else circle[k]
  }

  // A joining node takes names over, and no name changes hands otherwise.
  lemma JoinMovesOnlyToNew(circle: Circle, points: set<NodeKey>, node: Node, key: NodeKey, k: NodeKey, l: NodeKey)
    requires Successor(circle.Keys, key, k) && Successor(Joined(circle, points, node).Keys, key, l)
    ensures l in points ==> Joined(circle, points, node)[l] == node
    ensures l !in points ==> l == k && Joined(circle, points, node)[l] == circle[k]
  {
    hide Less;
    var ks := Joined(circle, points, node).Keys;
    assert ks == circle.Keys + points;
    if l !in points {
      assert Successor(circle.Keys, key, l);
      SuccessorUnique(circle.Keys, key, k, l);
    }
  }

  // A leaving node's points are dropped, whoever they belong to. The point that decides about a
  // name changes exactly when it is one of them.
  lemma LeaveMovesIff(circle: Circle, points: set<NodeKey>, key: NodeKey, k: NodeKey, l: NodeKey)
    requires Successor(circle.Keys, key, k) && Successor((circle - points).Keys, key, l)
    ensures l != k <==> k in points
    ensures (circle - points)[l] == circle[l]
  {
    hide Less;
    assert (circle - points).Keys == circle.Keys - points;
    if k !in points {
      assert Successor((circle - points).Keys, key, k);
      SuccessorUnique((circle - points).Keys, key, k, l);
    }
  }

  // Leaving undoes joining where no point was taken from another node, and the other way round.
  lemma JoinAndLeave(circle: Circle, points: set<NodeKey>, node: Node)
    ensures points !! circle.Keys <==> Joined(circle, points, node) - points == circle
    ensures (points <= circle.Keys && forall k :: k in points ==> circle[k] == node) <==> Joined(circle - points, points, node) == circle
  {
    var back := Joined(circle - points, points, node);
    if back == circle {
      forall k | k in points ensures k in circle && circle[k] == node { assert back[k] == node; }
    }
  }

  // No point of this node has been taken over by another one.
  ghost predicate Undisturbed(circle: Circle, points: set<NodeKey>, id: string) {
    forall k :: k in circle && k in points ==> circle[k].id == id
  }

  // Then only names it owned change hands.
  lemma LeaveMovesOnlyOwn(circle: Circle, points: set<NodeKey>, id: string, key: NodeKey, k: NodeKey, l: NodeKey)
    requires Undisturbed(circle, points, id)
    requires Successor(circle.Keys, key, k) && Successor((circle - points).Keys, key, l)
    ensures circle[k].id != id ==> (circle - points)[l] == circle[k]
  {
    LeaveMovesIff(circle, points, key, k, l);
  }

  // Points of other nodes are not disturbed by a join as long as no key is shared.
  lemma JoinUndisturbed(circle: Circle, points: set<NodeKey>, id: string, others: set<NodeKey>, node: Node)
    requires Undisturbed(circle, points, id) && (node.id == id || points !! others)
    ensures Undisturbed(Joined(circle, others, node), points, id)
  {
  }

  // ----- any number of joins and leaves -----

  datatype Event = Join(node: Node) | Leave(id: string)

  function EventId(e: Event): string {
    if e.Join? then e.node.id else e.id
  }

  function After(hash: HashKey, replicas: nat, circle: Circle, es: seq<Event>): Circle
    decreases |es|
  {
    if es == [] then circle else
    var c := After(hash, replicas, circle, es[..|es| - 1]);
    match es[|es| - 1]
    case Join(node) => Joined(c, Points(hash, node.id, replicas), node)
    case Leave(id) => c - Points(hash, id, replicas)
  }

  // No two of these nodes are placed on a common key.
  ghost predicate NoCollision(hash: HashKey, replicas: nat, ids: set<string>) {
    forall a, b :: a in ids && b in ids && a != b ==> Points(hash, a, replicas) !! Points(hash, b, replicas)
  }

  lemma {:induction false} AlwaysUndisturbed(hash: HashKey, replicas: nat, ids: set<string>, es: seq<Event>, id: string)
    requires NoCollision(hash, replicas, ids) && id in ids && forall e :: e in es ==> EventId(e) in ids
    ensures Undisturbed(After(hash, replicas, map[], es), Points(hash, id, replicas), id)
    decreases |es|
  {
    hide Points;
    if es != [] {
      var e := es[|es| - 1];
      AlwaysUndisturbed(hash, replicas, ids, es[..|es| - 1], id);
      assert e in es;
      if e.Join? {
        JoinUndisturbed(After(hash, replicas, map[], es[..|es| - 1]), Points(hash, id, replicas), id,
                        Points(hash, e.node.id, replicas), e.node);
      }
    }
  }

  // After any joins and leaves without collisions, one more leave moves only what that node owned.
  lemma LeaveIsMinimal(hash: HashKey, replicas: nat, ids: set<string>, es: seq<Event>, id: string,
                       key: NodeKey, k: NodeKey, l: NodeKey)
    requires NoCollision(hash, replicas, ids) && id in ids && forall e :: e in es ==> EventId(e) in ids
    requires var c := After(hash, replicas, map[], es);
             Successor(c.Keys, key, k) && Successor((c - Points(hash, id, replicas)).Keys, key, l)
    ensures var c := After(hash, replicas, map[], es);
            c[k].id != id ==> (c - Points(hash, id, replicas))[l] == c[k]
  {
    hide Points, After;
    AlwaysUndisturbed(hash, replicas, ids, es, id);
    LeaveMovesOnlyOwn(After(hash, replicas, map[], es), Points(hash, id, replicas), id, key, k, l);
  }

  // Nodes with ids of one length share a key only where the hash itself collides.
  lemma SharedPointIsHashCollision(hash: HashKey, a: string, b: string, n: nat, k: NodeKey)
    requires |a| == |b| && a != b && k in Points(hash, a, n) && k in Points(hash, b, n)
    ensures exists i, j :: 0 <= i < n && 0 <= j < n && KeyString(a, i) != KeyString(b, j)
                           && hash(KeyString(a, i)) == k == hash(KeyString(b, j))
  {
    PointsIff(hash, a, n, k);
    PointsIff(hash, b, n, k);
    var i :| 0 <= i < n && k == hash(KeyString(a, i));
    var j :| 0 <= j < n && k == hash(KeyString(b, j));
    KeyStringInjective(a, i, b, j);
  }

  // ----- the sorted keys -----

  method LeastOf(ks: set<NodeKey>) returns (k: NodeKey)
    requires ks != {}
    ensures Least(ks, k)
  {
    hide Less;
    k :| k in ks;
    var rest := ks - {k};
    while rest != {}
      invariant k in ks && k !in rest && rest <= ks
      invariant forall j :: j in ks && j !in rest && j != k ==> Less(k, j)
      decreases rest
    {
      var j :| j in rest;
      rest := rest - {j};
      var less := NodeKeyLess(j, k);
      forall x | x in ks && x !in rest && x != k && x != j && less ensures Less(j, x) { Order(j, k, x); }
      Order(j, k, j);
      if less {
        k := j;
      }
    }
  }

  // The keys of a circle in order, as sorting any listing of them would give.
  method SortKeys(ks: set<NodeKey>) returns (s: seq<NodeKey>)
    ensures Lists(s, ks)
  {
    hide Less;
    s := [];
    var rest := ks;
    while rest != {}
      invariant rest <= ks && Sorted(s) && forall k :: k in s <==> k in ks && k !in rest
      invariant forall i, k :: 0 <= i < |s| && k in rest ==> Less(s[i], k)
      decreases rest
    {
      var k := LeastOf(rest);
      s := s + [k];
      rest := rest - {k};
    }
  }

  class Consistent {
    const hash: HashKey
    const replicas: nat
    var circle: Circle
    var sortedHashes: seq<NodeKey>
    var count: int

    ghost predicate Valid()
      reads this
    {
      Lists(sortedHashes, circle.Keys)
    }

    constructor (hash: HashKey, replicas: nat)
      ensures Valid() && this.hash == hash && this.replicas == replicas && circle == map[] && count == 0
    {
      this.hash, this.replicas, circle, sortedHashes, count := hash, replicas, map[], [], 0;
    }

    method AddCache(node: Node)
      modifies this
      ensures Valid() && circle == Joined(old(circle), Points(hash, node.id, replicas), node) && count == old(count) + 1
    {
      var i := 0;
      while i < replicas
        invariant i <= replicas && count == old(count)
        invariant circle == Joined(old(circle), Points(hash, node.id, i), node)
      {
        circle := circle[hash(KeyString(node.id, i)) := node];
        i := i + 1;
      }
      sortedHashes := SortKeys(circle.Keys);
      count := count + 1;
    }

    // The node leaves the store first; if that fails it stays on the ring.
    method Remove(id: string, deletes: bool) returns (ok: bool)
      requires Valid()
      modifies this
      ensures Valid() && ok == deletes
      ensures circle == (if deletes then old(circle) - Points(hash, id, replicas) else old(circle))
      ensures count == if deletes then old(count) - 1 else old(count)
    {
      if !deletes {
        return false;
      }
      var i := 0;
      while i < replicas
        invariant i <= replicas && count == old(count)
        invariant circle == old(circle) - Points(hash, id, i)
      {
        circle := circle - {hash(KeyString(id, i))};
        i := i + 1;
      }
      sortedHashes := SortKeys(circle.Keys);
      count := count - 1;
      return true;
    }

    // Binary search for the first key strictly behind the given one, wrapping around.
    method Search(key: NodeKey) returns (i: nat)
      requires Valid()
      ensures circle == map[] ==> i == 0
      ensures circle != map[] ==> i < |sortedHashes| && Successor(circle.Keys, key, sortedHashes[i])
    {
      hide Less;
      assert sortedHashes != [] ==> sortedHashes[0] in circle;
      var lo, hi := 0, |sortedHashes|;
      while lo < hi
        invariant 0 <= lo <= hi <= |sortedHashes|
        invariant forall j :: 0 <= j < lo ==> !Less(key, sortedHashes[j])
        invariant forall j :: hi <= j < |sortedHashes| ==> Less(key, sortedHashes[j])
      {
        var mid := (lo + hi) / 2;
        var behind := NodeKeyLess(key, sortedHashes[mid]);
        Split(sortedHashes, key, mid);
        if behind {
          hi := mid;
        } else {
          lo := mid + 1;
        }
      }
      i := if lo >= |sortedHashes| then 0 else lo;
      if circle != map[] {
        assert sortedHashes != [] by { var k :| k in circle; assert k in sortedHashes; }
        FoundSuccessor(sortedHashes, circle.Keys, key, lo);
      }
    }

    method GetNeighbor(name: string) returns (node: Option<Node>)
      requires Valid()
      ensures node.None? <==> circle == map[]
      ensures node.Some? ==> exists k :: Successor(circle.Keys, hash(name), k) && node.value == circle[k]
    {
      if circle == map[] {
        return None;
      }
      var i := Search(hash(name));
      return Some(circle[sortedHashes[i]]);
    }
  }

  // What one comparison says about all keys on either side.
  lemma Split(s: seq<NodeKey>, key: NodeKey, mid: nat)
    requires Sorted(s) && mid < |s|
    ensures Less(key, s[mid]) ==> forall j :: mid <= j < |s| ==> Less(key, s[j])
    ensures !Less(key, s[mid]) ==> forall j :: 0 <= j <= mid ==> !Less(key, s[j])
  {
    hide Less;
    forall j | mid < j < |s| && Less(key, s[mid]) ensures Less(key, s[j]) { Order(key, s[mid], s[j]); }
    forall j | 0 <= j < mid && Less(key, s[j]) ensures Less(key, s[mid]) { Order(key, s[j], s[mid]); }
  }

  lemma FoundSuccessor(s: seq<NodeKey>, ks: set<NodeKey>, key: NodeKey, lo: nat)
    requires Lists(s, ks) && s != [] && lo <= |s|
    requires forall j :: 0 <= j < lo ==> !Less(key, s[j])
    requires forall j :: lo <= j < |s| ==> Less(key, s[j])
    ensures Successor(ks, key, s[if lo == |s| then 0 else lo])
  {
    hide Less;
    var i := if lo == |s| then 0 else lo;
    assert s[i] in s;
    forall j | j in ks && j != s[i] && (lo == |s| || Less(key, j)) ensures Less(s[i], j) {
      var n :| 0 <= n < |s| && s[n] == j;
    }
    forall j | j in ks && lo == |s| ensures !Less(key, j) {
      var n :| 0 <= n < |s| && s[n] == j;
    }
  }
}
