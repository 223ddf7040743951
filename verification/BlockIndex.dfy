// The index of blocks of a SQL chain (sqlchain/blockindex.go) and its reload from the ordered
// keys of the store (sqlchain/chain.go).

module BlockIndex {
  import opened Common
  import opened KayakLog
  import opened ByteOrder

  type int32 = x: int | -0x8000_0000 <= x < 0x8000_0000

  // Of a block: its hash, its parent's, the height its timestamp falls into, and whether its
  // signatures hold up, as a block and as a genesis block.
  datatype Block = Block(hash: Hash, parentHash: Hash, height: int32, verifies: bool, verifiesAsGenesis: bool)

  datatype Error = NoError | BadBlock | ParentNotFound | InvalidBlock | UnknownProducer | InvalidProducer | QueryRefused

  // ----- keys -----

  function BigEndian(x: nat): (bytes: Bytes)
    requires x < 0x1_0000_0000
    ensures |bytes| == 4
  {
    [x / 0x100_0000, x / 0x1_0000 % 0x100, x / 0x100 % 0x100, x % 0x100]
  }

  // The conversion of a height to uint32.
  function Unsigned(h: int32): (u: nat)
    ensures u < 0x1_0000_0000
  {
    if h < 0 then h + 0x1_0000_0000 else h
  }

  // The height in front, so that keys are ordered by height.
  function IndexKey(b: Block): (key: Bytes)
    ensures |key| == 4 + HASH_SIZE
  {
    BigEndian(Unsigned(b.height)) + b.hash
  }

  lemma BigEndianOrder(x: nat, y: nat)
    requires x < y < 0x1_0000_0000
    ensures exists i :: 0 <= i < 4 && BigEndian(x)[i] < BigEndian(y)[i] && forall j :: 0 <= j < i ==> BigEndian(x)[j] == BigEndian(y)[j]
  {
    var x3, x2, x1, x0 := x / 0x100_0000, x / 0x1_0000 % 0x100, x / 0x100 % 0x100, x % 0x100;
    var y3, y2, y1, y0 := y / 0x100_0000, y / 0x1_0000 % 0x100, y / 0x100 % 0x100, y % 0x100;
    Recompose(x);
    Recompose(y);
    var a, b := BigEndian(x), BigEndian(y);
    if x3 != y3 {
      assert a[0] < b[0];
    } else if x2 != y2 {
      assert a[1] < b[1];
    } else if x1 != y1 {
      assert a[2] < b[2];
    } else {
      assert a[3] < b[3];
    }
  }

  lemma Recompose(x: nat)
    requires x < 0x1_0000_0000
    ensures x == ((x / 0x100_0000 * 0x100 + x / 0x1_0000 % 0x100) * 0x100 + x / 0x100 % 0x100) * 0x100 + x % 0x100
  {
  }

  lemma {:induction false} LessAt(a: Bytes, b: Bytes, i: nat, n: nat)
    requires i <= n < |a| == |b| && a[n] < b[n] && forall j :: i <= j < n ==> a[j] == b[j]
    ensures LessFrom(a, b, i)
    decreases n - i
  {
    if i < n { LessAt(a, b, i + 1, n); }
  }

  lemma KeysInOrder(a: Block, b: Block)
    requires Unsigned(a.height) < Unsigned(b.height)
    ensures Less(IndexKey(a), IndexKey(b))
  {
    var x, y := Unsigned(a.height), Unsigned(b.height);
    BigEndianOrder(x, y);
    var i :| 0 <= i < 4 && BigEndian(x)[i] < BigEndian(y)[i] && forall j :: 0 <= j < i ==> BigEndian(x)[j] == BigEndian(y)[j];
    LessAt(IndexKey(a), IndexKey(b), 0, i);
  }

  // Keys of different heights are ordered by height, whatever the hashes, except that negative
  // heights come behind all others. Within one height the hash decides.
  lemma KeyOrderIff(a: Block, b: Block)
    ensures Less(IndexKey(a), IndexKey(b)) <==>
            if a.height == b.height then Less(a.hash, b.hash)
            else if (a.height < 0) == (b.height < 0) then a.height < b.height else b.height < 0
  {
    if a.height == b.height {
      SkipCommon(IndexKey(a), IndexKey(b), 4);
      assert IndexKey(a)[4..] == a.hash && IndexKey(b)[4..] == b.hash;
    } else {
      hide IndexKey, Less;
      if Unsigned(a.height) < Unsigned(b.height) {
        KeysInOrder(a, b);
      } else {
        KeysInOrder(b, a);
        Order(IndexKey(a), IndexKey(b), IndexKey(a));
      }
    }
  }

  // A common beginning does not matter.
  lemma {:induction false} SkipCommon(a: Bytes, b: Bytes, n: nat)
    requires n <= |a| == |b| && a[..n] == b[..n]
    ensures Less(a, b) <==> Less(a[n..], b[n..])
  {
    FromSlice(a, b, n, n);
    ToCommon(a, b, 0, n);
  }

  lemma {:induction false} ToCommon(a: Bytes, b: Bytes, i: nat, n: nat)
    requires i <= n <= |a| == |b| && a[..n] == b[..n]
    ensures LessFrom(a, b, i) <==> LessFrom(a, b, n)
    decreases n - i
  {
    if i < n {
      assert a[..n][i] == b[..n][i];
      ToCommon(a, b, i + 1, n);
    }
  }

  lemma {:induction false} FromSlice(a: Bytes, b: Bytes, n: nat, i: nat)
    requires n <= i <= |a| == |b|
    ensures LessFrom(a, b, i) <==> LessFrom(a[n..], b[n..], i - n)
    decreases |a| - i
  {
    if i < |a| { FromSlice(a, b, n, i + 1); }
  }

  // ----- chains -----

  // Blocks as they are pushed: each names the one before it, and no two have the same hash.
  ghost predicate IsChain(bs: seq<Block>) {
    && bs != [] && bs[0].verifiesAsGenesis
    && (forall i :: 0 < i < |bs| ==> bs[i].parentHash == bs[i - 1].hash && bs[i].verifies)
    && (forall i :: 0 <= i < |bs| ==> bs[i].hash != bs[0].parentHash)
    && DistinctHashes(bs)
  }

  ghost predicate DistinctHashes(bs: seq<Block>) {
    forall i, j :: 0 <= i < |bs| && 0 <= j < |bs| && i != j ==> bs[i].hash != bs[j].hash
  }

  // What a scan finds wrong with a block, given the ones before it. A block that does not follow
  // its predecessor is looked up under its own hash.
  ghost function Verdict(bs: seq<Block>, i: nat): Error
    requires i < |bs|
  {
    if i == 0 then if bs[0].verifiesAsGenesis then NoError else BadBlock else
    if bs[i].parentHash == bs[i - 1].hash then if bs[i].verifies then NoError else BadBlock else
    if exists j :: 0 <= j < i && bs[j].hash == bs[i].hash then NoError else ParentNotFound
  }

  // The blocks in the order of their keys.
  ghost predicate InKeyOrder(scan: seq<Block>) {
    forall i, j :: 0 <= i < j < |scan| ==> Less(IndexKey(scan[i]), IndexKey(scan[j]))
  }

  ghost predicate SameBlocks(bs: seq<Block>, cs: seq<Block>) {
    |bs| == |cs| && (forall b :: b in bs <==> b in cs)
  }

  // A chain is read back exactly when its keys rise along it; what comes back is then the chain.
  lemma ReloadIff(bs: seq<Block>, scan: seq<Block>)
    requires IsChain(bs) && SameBlocks(bs, scan) && DistinctHashes(scan) && InKeyOrder(scan)
    ensures (forall i :: 0 <= i < |scan| ==> Verdict(scan, i) == NoError) <==> InKeyOrder(bs)
    ensures InKeyOrder(bs) ==> scan == bs
  {
    hide Less, IndexKey;
    if InKeyOrder(bs) {
      SameOrder(bs, scan);
    }
    if forall i :: 0 <= i < |scan| ==> Verdict(scan, i) == NoError {
      FollowsChain(bs, scan);
    }
  }

  function KeysOf(bs: seq<Block>): (ks: seq<Bytes>)
    ensures |ks| == |bs|
  {
    seq(|bs|, i requires 0 <= i < |bs| => IndexKey(bs[i]))
  }

  lemma SameOrder(bs: seq<Block>, scan: seq<Block>)
    requires SameBlocks(bs, scan) && InKeyOrder(bs) && InKeyOrder(scan)
    ensures scan == bs
  {
    hide Less, IndexKey;
    var s, t := KeysOf(bs), KeysOf(scan);
    forall k ensures k in s <==> k in t {
      if k in s {
        var i :| 0 <= i < |s| && s[i] == k;
        assert bs[i] in scan;
        var j :| 0 <= j < |scan| && scan[j] == bs[i];
        assert t[j] == k;
      }
      if k in t {
        var i :| 0 <= i < |t| && t[i] == k;
        assert scan[i] in bs;
        var j :| 0 <= j < |bs| && bs[j] == scan[i];
        assert s[j] == k;
      }
    }
    SortedUnique(s, t);
    forall i | 0 <= i < |bs| ensures scan[i] == bs[i] {
      assert bs[i] in scan;
      var j :| 0 <= j < |scan| && scan[j] == bs[i];
      assert t[j] == s[i] == t[i];
      Order(t[j], t[j], t[j]);
    }
  }

  lemma PositionOf(bs: seq<Block>, b: Block) returns (i: nat)
    requires b in bs
    ensures i < |bs| && bs[i] == b
  {
    i :| 0 <= i < |bs| && bs[i] == b;
  }

  // Each scanned block follows its predecessor, so the scan is a stretch of the chain.
  lemma {:induction false} Stretch(bs: seq<Block>, scan: seq<Block>, q: nat, n: nat)
    requires IsChain(bs) && SameBlocks(bs, scan) && DistinctHashes(scan)
    requires forall i :: 0 <= i < |scan| ==> Verdict(scan, i) == NoError
    requires n < |scan| && q < |bs| && scan[0] == bs[q]
    ensures q + n < |bs| && scan[n] == bs[q + n]
    decreases n
  {
    if n > 0 {
      Stretch(bs, scan, q, n - 1);
      assert Verdict(scan, n) == NoError;
      assert scan[n].parentHash == scan[n - 1].hash;
      var p := PositionOf(bs, scan[n]);
      assert p > 0 by { assert bs[q + n - 1].hash != bs[0].parentHash; }
      assert bs[p].parentHash == bs[p - 1].hash == bs[q + n - 1].hash;
    }
  }

  lemma FollowsChain(bs: seq<Block>, scan: seq<Block>)
    requires IsChain(bs) && SameBlocks(bs, scan) && DistinctHashes(scan)
    requires forall i :: 0 <= i < |scan| ==> Verdict(scan, i) == NoError
    ensures scan == bs
  {
    assert scan[0] in bs;
    var q := PositionOf(bs, scan[0]);
    Stretch(bs, scan, q, |scan| - 1);
    forall n | 0 <= n < |scan| ensures scan[n] == bs[n] { Stretch(bs, scan, q, n); }
  }

  // A chain of rising non-negative heights comes back as it was.
  lemma RisingHeightsReload(bs: seq<Block>, scan: seq<Block>)
    requires IsChain(bs) && SameBlocks(bs, scan) && DistinctHashes(scan) && InKeyOrder(scan)
    requires Rising(bs)
    ensures scan == bs && forall i :: 0 <= i < |scan| ==> Verdict(scan, i) == NoError
  {
    forall i, j | 0 <= i < j < |bs| ensures Less(IndexKey(bs[i]), IndexKey(bs[j])) { KeyOrderIff(bs[i], bs[j]); }
    ReloadIff(bs, scan);
  }

  // ----- nodes -----

  class BlockNode {
    var parent: BlockNode?
    var block: Block
    var hash: Hash
    var height: int32
    var count: nat

    constructor (height: int32, block: Block, parent: BlockNode?)
      ensures this.parent == parent && this.block == block && hash == block.hash && this.height == height
      ensures count == if parent == null then 0 else parent.count + 1
    {
      this.parent, this.block, hash, this.height := parent, block, block.hash, height;
      count := if parent == null then 0 else parent.count + 1;
    }
  }

  function Before(nodes: seq<BlockNode>, i: nat): BlockNode?
    requires i <= |nodes|
  {
    if i == 0 then null else nodes[i - 1]
  }

  ghost predicate Holds(node: BlockNode, b: Block, count: nat, parent: BlockNode?)
    reads node
  {
    node.block == b && node.hash == b.hash && node.height == b.height && node.count == count && node.parent == parent
  }

  // Nodes that hold these blocks one after the other, each with the one before it as its parent.
  ghost predicate Linked(nodes: seq<BlockNode>, bs: seq<Block>)
    reads nodes
  {
    |nodes| == |bs| && forall i {:trigger nodes[i]} :: 0 <= i < |nodes| ==> Holds(nodes[i], bs[i], i, Before(nodes, i))
  }

  lemma LinkedSnoc(nodes: seq<BlockNode>, bs: seq<Block>, node: BlockNode, b: Block)
    requires Linked(nodes, bs) && Holds(node, b, |nodes|, Before(nodes, |nodes|))
    ensures Linked(nodes + [node], bs + [b])
  {
    var ns := nodes + [node];
    forall i {:trigger ns[i]} | 0 <= i < |ns| ensures Holds(ns[i], (bs + [b])[i], i, Before(ns, i)) {
      if i < |nodes| { assert Holds(nodes[i], bs[i], i, Before(nodes, i)); }
    }
  }

  // The nodes found under the hashes of their blocks, and nothing else.
  ghost predicate Indexed(index: map<Hash, BlockNode>, nodes: seq<BlockNode>, bs: seq<Block>)
    requires |nodes| == |bs|
  {
    && (forall h :: h in index ==> exists j :: 0 <= j < |bs| && bs[j].hash == h)
    && (forall j :: 0 <= j < |bs| ==> bs[j].hash in index && index[bs[j].hash] == nodes[j])
  }

  lemma IndexedSnoc(index: map<Hash, BlockNode>, nodes: seq<BlockNode>, bs: seq<Block>, node: BlockNode, b: Block)
    requires |nodes| == |bs| && Indexed(index, nodes, bs) && DistinctHashes(bs + [b])
    ensures b.hash !in index && Indexed(index[b.hash := node], nodes + [node], bs + [b])
  {
    var cs := bs + [b];
    assert cs[|bs|].hash == b.hash;
    assert forall j :: 0 <= j < |bs| ==> bs[j] == cs[j] && cs[j].hash != cs[|bs|].hash;
    var m := index[b.hash := node];
    forall h | h in m ensures exists j :: 0 <= j < |cs| && cs[j].hash == h {
      if h in index {
        var j :| 0 <= j < |bs| && bs[j].hash == h;
        assert cs[j].hash == h;
      }
    }
  }

  // The blocks under their keys.
  ghost predicate Persisted(store: map<Bytes, Block>, bs: seq<Block>) {
    && (forall i :: 0 <= i < |bs| ==> IndexKey(bs[i]) in store && store[IndexKey(bs[i])] == bs[i])
    && (forall k :: k in store ==> store[k] in bs && k == IndexKey(store[k]))
  }

  lemma PersistMore(store: map<Bytes, Block>, bs: seq<Block>, b: Block)
    requires Persisted(store, bs) && DistinctHashes(bs + [b])
    ensures Persisted(store[IndexKey(b) := b], bs + [b])
  {
    var cs := bs + [b];
    assert cs[|bs|] == b;
    forall i | 0 <= i < |bs| ensures IndexKey(bs[i]) != IndexKey(b) {
      assert cs[i].hash != cs[|bs|].hash;
      assert IndexKey(bs[i])[4..] == bs[i].hash && IndexKey(b)[4..] == b.hash;
    }
  }

  lemma NewHash(bs: seq<Block>, b: Block, i: nat)
    requires IsChain(bs) && b.parentHash == bs[|bs| - 1].hash && b != bs[|bs| - 1] && i < |bs|
    requires bs[i].hash == b.hash ==> bs[i] == b
    ensures bs[i].hash != b.hash
  {
    assert i > 0 ==> bs[i].parentHash == bs[i - 1].hash;
    assert bs[|bs| - 1].hash != bs[0].parentHash;
  }

  lemma ExtendsChain(bs: seq<Block>, b: Block)
    requires IsChain(bs) && b.parentHash == bs[|bs| - 1].hash && b.verifies && b.hash != bs[0].parentHash
    requires forall i :: 0 <= i < |bs| && bs[i].hash == b.hash ==> bs[i] == b
    requires b != bs[|bs| - 1]
    ensures IsChain(bs + [b])
  {
    var cs := bs + [b];
    forall i: nat | i < |bs| ensures cs[i] == bs[i] && bs[i].hash != b.hash { NewHash(bs, b, i); }
    forall i, j | 0 <= i < |cs| && 0 <= j < |cs| && i != j ensures cs[i].hash != cs[j].hash {
      if i < |bs| && j < |bs| { assert bs[i].hash != bs[j].hash; }
    }
    forall i | 0 < i < |cs| ensures cs[i].parentHash == cs[i - 1].hash && cs[i].verifies {
      if i < |bs| { assert bs[i].parentHash == bs[i - 1].hash; }
    }
  }

  // ----- whose turn it is -----

  datatype Producer = Own | Stranger | Peer(index: int32)

  // int32 addition wraps around and the remainder takes the sign of the dividend.
  function Turn(height: int32, total: int32): int {
    if total <= 0 then -1 else
    if height == 0x7FFF_FFFF then 0 - 0x8000_0000 % total else
    if height + 1 >= 0 then (height + 1) % total else 0 - (0 - height - 1) % total
  }

  // The peers produce in turn, beginning with the first one behind a block of height -1.
  lemma PeersTakeTurns(height: int32, total: int32)
    requires -1 <= height < 0x7FFF_FFFE && total > 0
    ensures Turn(-1, total) == 0
    ensures Turn(height + 1, total) == if Turn(height, total) == total - 1 then 0 else Turn(height, total) + 1
  {
    NextRemainder(height + 1, total);
  }

  lemma NextRemainder(x: nat, n: nat)
    requires n > 0
    ensures (x + 1) % n == if x % n == n - 1 then 0 else x % n + 1
  {
    var q, r := x / n, x % n;
    var q', r' := (x + 1) / n, (x + 1) % n;
    var d := q' - q;
    assert d * n == q' * n - q * n;
    assert x == q * n + r && x + 1 == q' * n + r';
    assert d * n == r + 1 - r';
    AtLeastOnce(d, n);
    AtLeastOnce(0 - d, n);
  }

  lemma AtLeastOnce(d: int, n: nat)
    ensures d == 0 ==> d * n == 0
    ensures d == 1 ==> d * n == n
    ensures d >= 2 ==> d * n >= 2 * n
    ensures (0 - d) * n == 0 - d * n
    ensures d >= 1 ==> d * n >= n
  {
  }

  // The block may go on top of this head.
  predicate Acceptable(head: Block, b: Block, producer: Producer, total: int32, queriesPass: bool) {
    && b.parentHash == head.hash && b.verifies
    && (producer.Own? || (producer.Peer? && producer.index == Turn(head.height, total) && queriesPass))
  }

  class Chain {
    var head: BlockNode?
    var index: map<Hash, BlockNode>
    var store: map<Bytes, Block>
    ghost var nodes: seq<BlockNode>
    ghost var blocks: seq<Block>

    ghost predicate Valid()
      reads this, nodes
    {
      && Linked(nodes, blocks) && head == Before(nodes, |nodes|)
      && Indexed(index, nodes, blocks) && DistinctHashes(blocks)
    }

    constructor (store: map<Bytes, Block>)
      ensures Valid() && this.store == store && blocks == [] && fresh(nodes)
    {
      head, index, this.store, nodes, blocks := null, map[], store, [], [];
    }

    // A node on top of the head, known by its hash.
    method Extend(b: Block)
      requires Valid() && DistinctHashes(blocks + [b])
      modifies this`head, this`index, this`nodes, this`blocks
      ensures Valid() && blocks == old(blocks) + [b] && fresh(nodes[|old(nodes)|..]) && |nodes| == |old(nodes)| + 1
      ensures nodes[..|old(nodes)|] == old(nodes)
    {
      hide Indexed, DistinctHashes;
      var node := new BlockNode(b.height, b, head);
      assert head != null ==> Holds(nodes[|nodes| - 1], blocks[|nodes| - 1], |nodes| - 1, Before(nodes, |nodes| - 1));
      LinkedSnoc(nodes, blocks, node, b);
      IndexedSnoc(index, nodes, blocks, node, b);
      head, index := node, index[b.hash := node];
      nodes, blocks := nodes + [node], blocks + [b];
    }

    // Puts a block on top of the head: the store, the head and the index follow together.
    method PushBlock(b: Block)
      requires Valid() && DistinctHashes(blocks + [b]) && Persisted(store, blocks)
      modifies this
      ensures Valid() && blocks == old(blocks) + [b] && Persisted(store, blocks)
      ensures fresh(nodes[|old(nodes)|..]) && nodes[..|old(nodes)|] == old(nodes)
    {
      hide Linked, Indexed, Persisted, DistinctHashes;
      PersistMore(store, blocks, b);
      Extend(b);
      store := store[IndexKey(b) := b];
    }

    // The checks a block goes through first are what keeps the blocks a chain: one that is the head
    // already is let pass; any other has to name the head, verify, and come from this node or from
    // the peer whose turn it is, with queries that pass. A hash stands for one block, and none has
    // the hash the genesis block names.
    method CheckAndPushNewBlock(b: Block, producer: Producer, total: int32, queriesPass: bool) returns (err: Error)
      requires Valid() && IsChain(blocks) && Persisted(store, blocks)
      requires b.hash != blocks[0].parentHash && forall i :: 0 <= i < |blocks| && blocks[i].hash == b.hash ==> blocks[i] == b
      modifies this
      ensures Valid() && IsChain(blocks) && Persisted(store, blocks)
      ensures var top := old(blocks)[|old(blocks)| - 1];
              && (err == NoError <==> top == b || Acceptable(top, b, producer, total, queriesPass))
              && blocks == if err == NoError && top != b then old(blocks) + [b] else old(blocks)
    {
      hide Linked, Indexed, Persisted;
      HeadIs();
      if head.height == b.height && head.hash == b.hash {
        return NoError;
      } else if b.parentHash != head.hash {
        return InvalidBlock;
      }
      if !b.verifies {
        return BadBlock;
      }
      if !producer.Own? {
        if producer.Stranger? {
          return UnknownProducer;
        }
        if producer.index != Turn(head.height, total) {
          return InvalidProducer;
        }
        if !queriesPass {
          return QueryRefused;
        }
      }
      ExtendsChain(blocks, b);
      PushBlock(b);
      return NoError;
    }

    // Reads the blocks in key order and rebuilds nodes, index and head, or stops at the first
    // block that cannot be placed.
    method Load(keys: seq<Bytes>, ghost scan: seq<Block>) returns (err: Error)
      requires Valid() && blocks == [] && Lists(keys, store.Keys)
      requires |scan| == |keys| && DistinctHashes(scan) && forall i :: 0 <= i < |keys| ==> keys[i] in store && store[keys[i]] == scan[i]
      modifies this`head, this`index, this`nodes, this`blocks
      ensures Valid()
      ensures err == NoError ==> blocks == scan && forall i :: 0 <= i < |scan| ==> Verdict(scan, i) == NoError
      ensures err != NoError ==> |blocks| < |scan| && blocks == scan[..|blocks|] && Verdict(scan, |blocks|) == err
    {
      hide Valid, Verdict, DistinctHashes, Lists;
      var n := 0;
      while n < |keys|
        invariant n <= |keys| && Valid() && blocks == scan[..n]
        invariant forall i :: 0 <= i < n ==> Verdict(scan, i) == NoError
      {
        var block := store[keys[n]];
        HeadIs();
        VerdictAt(scan, n);
        if head == null {
          if !block.verifiesAsGenesis {
            return BadBlock;
          }
        } else if block.parentHash == head.hash {
          if !block.verifies {
            return BadBlock;
          }
        } else {
          NotIndexed(scan, n);
          if block.hash !in index {
            return ParentNotFound;
          }
        }
        assert scan[..n + 1] == scan[..n] + [scan[n]];
        PrefixDistinct(scan, n + 1);
        Extend(block);
        n := n + 1;
      }
      assert scan[..n] == scan;
      err := NoError;
    }

    lemma HeadIs()
      requires Valid()
      ensures head == null <==> blocks == []
      ensures head != null ==> head.hash == blocks[|blocks| - 1].hash && head.height == blocks[|blocks| - 1].height
    {
      if blocks != [] {
        assert Holds(nodes[|nodes| - 1], blocks[|nodes| - 1], |nodes| - 1, Before(nodes, |nodes| - 1));
      }
    }

    // A block is not known by its own hash before it is read.
    lemma NotIndexed(scan: seq<Block>, n: nat)
      requires Valid() && n < |scan| && blocks == scan[..n] && DistinctHashes(scan)
      ensures scan[n].hash !in index
    {
      assert forall j :: 0 <= j < n ==> blocks[j] == scan[j] && scan[j].hash != scan[n].hash;
    }

    // The block at a height, as the store has it.
    method FetchBlock(height: int32) returns (b: Option<Block>)
      requires Valid() && head != null && Persisted(store, blocks)
      ensures b == match AncestorAt(blocks, |blocks| - 1, height) { case Some(j) => Some(blocks[j]) case None => None }
    {
      hide Indexed, DistinctHashes, BigEndian, Unsigned, AncestorAt, Persisted;
      HeadIs();
      var n := Ancestor(head, height, nodes, blocks);
      if n == null {
        return None;
      }
      ghost var j := AncestorAt(blocks, |blocks| - 1, height).value;
      assert Holds(nodes[j], blocks[j], j, Before(nodes, j));
      var k := BigEndian(Unsigned(n.height)) + n.hash;
      Found(store, blocks, j, k);
      return if k in store then Some(store[k]) else None;
    }
  }

  lemma Found(store: map<Bytes, Block>, bs: seq<Block>, j: nat, k: Bytes)
    requires Persisted(store, bs) && j < |bs| && k == BigEndian(Unsigned(bs[j].height)) + bs[j].hash
    ensures k in store && store[k] == bs[j]
  {
    assert k == IndexKey(bs[j]);
  }

  // Walking down from a block to the first one that is not higher.
  function Down(bs: seq<Block>, i: nat, h: int32): (r: Option<nat>)
    requires i < |bs|
    ensures r.Some? ==> r.value <= i
  {
    if bs[i].height == h then Some(i) else
    if bs[i].height < h || i == 0 then None else Down(bs, i - 1, h)
  }

  function AncestorAt(bs: seq<Block>, i: nat, h: int32): (r: Option<nat>)
    requires i < |bs|
    ensures r.Some? ==> r.value <= i
  {
    if h < 0 || h > bs[i].height then None else Down(bs, i, h)
  }

  method Ancestor(n: BlockNode, height: int32, ghost nodes: seq<BlockNode>, ghost bs: seq<Block>) returns (a: BlockNode?)
    requires nodes != [] && Linked(nodes, bs) && n == nodes[|nodes| - 1]
    ensures a == match AncestorAt(bs, |bs| - 1, height) { case Some(j) => nodes[j] case None => null }
  {
    ghost var i := |nodes| - 1;
    assert Holds(nodes[i], bs[i], i, Before(nodes, i));
    if height < 0 || height > n.height {
      return null;
    }
    a := n;
    while a != null && a.height > height
      invariant a != null ==> 0 <= i < |nodes| && a == nodes[i]
      invariant AncestorAt(bs, |bs| - 1, height) == if a == null then None else Down(bs, i, height)
      decreases if a == null then 0 else i + 1
    {
      assert Holds(nodes[i], bs[i], i, Before(nodes, i));
      a := a.parent;
      i := i - 1;
    }
    if a != null {
      assert Holds(nodes[i], bs[i], i, Before(nodes, i));
      if a.height < height {
        a := null;
      }
    }
  }

  ghost predicate Rising(bs: seq<Block>) {
    (bs != [] ==> bs[0].height >= 0) && forall i, j :: 0 <= i < j < |bs| ==> bs[i].height < bs[j].height
  }

  // Along rising heights the ancestor at a height is found exactly when there is one.
  lemma AncestorIff(bs: seq<Block>, i: nat, h: int32, j: nat)
    requires Rising(bs) && i < |bs|
    ensures AncestorAt(bs, i, h) == Some(j) <==> j <= i && bs[j].height == h
  {
    DownIff(bs, i, h, j);
  }

  lemma {:induction false} DownIff(bs: seq<Block>, i: nat, h: int32, j: nat)
    requires Rising(bs) && i < |bs|
    ensures Down(bs, i, h) == Some(j) <==> j <= i && bs[j].height == h
    decreases i
  {
    if i > 0 { DownIff(bs, i - 1, h, j); }
  }

  // ----- what a scan of the store sees -----

  ghost function BlockSet(bs: seq<Block>): set<Block> {
    set b | b in bs
  }

  lemma {:induction false} CountBlocks(bs: seq<Block>)
    requires DistinctHashes(bs)
    ensures |BlockSet(bs)| == |bs|
    decreases |bs|
  {
    if bs != [] {
      var n := |bs| - 1;
      CountBlocks(bs[..n]);
      assert BlockSet(bs) == BlockSet(bs[..n]) + {bs[n]};
      assert bs[n] !in bs[..n];
    }
  }

  lemma ScanSeesAll(store: map<Bytes, Block>, bs: seq<Block>, keys: seq<Bytes>, scan: seq<Block>)
    requires Persisted(store, bs) && DistinctHashes(bs) && Lists(keys, store.Keys)
    requires |scan| == |keys| && forall i :: 0 <= i < |keys| ==> keys[i] in store && store[keys[i]] == scan[i]
    ensures SameBlocks(bs, scan) && DistinctHashes(scan) && InKeyOrder(scan)
  {
    hide Less, IndexKey;
    forall i | 0 <= i < |keys| ensures IndexKey(scan[i]) == keys[i] && scan[i] in bs { }
    forall i, j | 0 <= i < |scan| && 0 <= j < |scan| && i != j ensures scan[i].hash != scan[j].hash {
      Order(keys[i], keys[j], keys[i]);
      var m := PositionOf(bs, scan[i]);
      var n := PositionOf(bs, scan[j]);
    }
    forall b | b in bs ensures b in scan {
      var i := PositionOf(bs, b);
      assert IndexKey(b) in keys;
      var n :| 0 <= n < |keys| && keys[n] == IndexKey(b);
      assert scan[n] == b;
    }
    CountBlocks(bs);
    CountBlocks(scan);
    assert BlockSet(bs) == BlockSet(scan);
  }

  // Pushing a chain of rising heights and reading the store back gives the same chain.
  lemma RoundTrip(store: map<Bytes, Block>, bs: seq<Block>, keys: seq<Bytes>, scan: seq<Block>)
    requires IsChain(bs) && Rising(bs) && Persisted(store, bs) && Lists(keys, store.Keys)
    requires |scan| == |keys| && forall i :: 0 <= i < |keys| ==> keys[i] in store && store[keys[i]] == scan[i]
    ensures scan == bs && forall i :: 0 <= i < |scan| ==> Verdict(scan, i) == NoError
  {
    ScanSeesAll(store, bs, keys, scan);
    RisingHeightsReload(bs, scan);
  }

  lemma VerdictAt(scan: seq<Block>, n: nat)
    requires n < |scan| && DistinctHashes(scan)
    ensures Verdict(scan, n) ==
            if n == 0 then if scan[0].verifiesAsGenesis then NoError else BadBlock
            else if scan[n].parentHash != scan[n - 1].hash then ParentNotFound
            else if scan[n].verifies then NoError else BadBlock
  {
  }

  lemma PrefixDistinct(scan: seq<Block>, n: nat)
    requires n <= |scan| && DistinctHashes(scan)
    ensures DistinctHashes(scan[..n])
  {
  }
}
