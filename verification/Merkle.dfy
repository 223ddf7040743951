// The flat-array Merkle tree (merkle/merkletrie.go) against the level-by-level one.

module Merkle {
  import opened Common
  import opened KayakLog
  import opened PowerOfTwo

  function MergeTwoHash(digest: Digest, l: Hash, r: Hash): Hash {
    digest(l + r)
  }

  // ----- level by level -----

  // The neighbours that are merged; an odd last hash is its own neighbour.
  function Pairs(s: seq<Hash>): (ps: seq<(Hash, Hash)>)
    ensures |ps| == (|s| + 1) / 2
    ensures forall i :: 0 <= i < |ps| ==> ps[i] == (s[2 * i], s[if 2 * i + 1 < |s| then 2 * i + 1 else 2 * i])
  {
    if s == [] then [] else if |s| == 1 then [(s[0], s[0])] else
    var rest := Pairs(s[2..]);
    assert forall i :: 1 <= i < |rest| + 1 ==> ([(s[0], s[1])] + rest)[i] == rest[i - 1];
    [(s[0], s[1])] + rest
  }

  function Up(digest: Digest, s: seq<Hash>): (u: seq<Hash>)
    ensures |u| == (|s| + 1) / 2
  {
    var ps := Pairs(s);
    seq(|ps|, i requires 0 <= i < |ps| => MergeTwoHash(digest, ps[i].0, ps[i].1))
  }

  function Root(digest: Digest, s: seq<Hash>): Hash
    requires s != []
    decreases |s|
  {
    if |s| == 1 then s[0] else Root(digest, Up(digest, s))
  }

  // ----- the flat array -----

  function Cell(digest: Digest, l: Option<Hash>, r: Option<Hash>): Option<Hash> {
    if l.Some? && r.Some? then Some(MergeTwoHash(digest, l.value, r.value)) else
    if l.Some? then Some(MergeTwoHash(digest, l.value, l.value)) else None
  }

  function Padded(s: seq<Hash>, width: nat): (p: seq<Option<Hash>>)
    ensures |p| == width
  {
    seq(width, i requires 0 <= i < width => if i < |s| then Some(s[i]) else None)
  }

  // All levels one after the other, each padded to half the width of the one before.
  function Flat(digest: Digest, s: seq<Hash>, k: nat): (f: seq<Option<Hash>>)
    ensures |f| == 2 * Pow2(k) - 1
    decreases k
  {
    Padded(s, Pow2(k)) + if k == 0 then [] else Flat(digest, Up(digest, s), k - 1)
  }

  lemma PaddedUp(digest: Digest, s: seq<Hash>, k: nat, j: nat)
    requires k > 0 && |s| <= Pow2(k) && j < Pow2(k - 1)
    ensures Padded(Up(digest, s), Pow2(k - 1))[j] ==
            Cell(digest, Padded(s, Pow2(k))[2 * j], Padded(s, Pow2(k))[2 * j + 1])
  {
    if j < |Up(digest, s)| {
      assert Pairs(s)[j] == (s[2 * j], s[if 2 * j + 1 < |s| then 2 * j + 1 else 2 * j]);
    }
  }

  // Behind the first level, every cell is the merge of the two cells its position points to.
  lemma {:induction false} FlatCell(digest: Digest, s: seq<Hash>, k: nat, c: nat)
    requires |s| <= Pow2(k) && Pow2(k) <= c < 2 * Pow2(k) - 1
    ensures Flat(digest, s, k)[c] ==
            Cell(digest, Flat(digest, s, k)[2 * (c - Pow2(k))], Flat(digest, s, k)[2 * (c - Pow2(k)) + 1])
    decreases k
  {
    hide Padded, Up, Cell;
    var f := Flat(digest, s, k);
    var w := Pow2(k);
    if k > 0 {
      var u := Up(digest, s);
      var g := Flat(digest, u, k - 1);
      assert f == Padded(s, w) + g;
      if c < w + w / 2 {
        PaddedUp(digest, s, k, c - w);
        assert g[c - w] == Padded(u, Pow2(k - 1))[c - w];
      } else {
        FlatCell(digest, u, k - 1, c - w);
      }
    }
  }

  // The last cell is the root, when the width is the least one that holds the list.
  lemma {:induction false} FlatRoot(digest: Digest, s: seq<Hash>, k: nat)
    requires 1 <= |s| <= Pow2(k) && (k > 0 ==> Pow2(k - 1) < |s|)
    ensures Flat(digest, s, k)[2 * Pow2(k) - 2] == Some(Root(digest, s))
    decreases k
  {
    hide Up;
    if k > 0 {
      FlatRoot(digest, Up(digest, s), k - 1);
    }
  }

  class Merkle {
    var tree: array<Option<Hash>>

    // The empty list stands for the list of the zero hash.
    constructor (digest: Digest, items: seq<Hash>)
      requires |items| < 0x8000_0000_0000_0000
      ensures fresh(tree)
      ensures exists k: nat ::
                IsLeast(|NonEmpty(items)|, Pow2(k)) && tree.Length == 2 * Pow2(k) - 1 && tree[..] == Flat(digest, NonEmpty(items), k)
      ensures tree.Length > 0 && tree[tree.Length - 1] == Some(Root(digest, NonEmpty(items)))
      ensures items == [] ==> tree[..] == [Some(seq(HASH_SIZE, _ => 0))]
    {
      var s := NonEmpty(items);
      var p := UpperPowOfTwo(|s|);
      ghost var k: nat :| p == Pow2(k);
      var cells := Build(digest, s, p, k);
      LeastWidth(|s|, k);
      FlatRoot(digest, s, k);
      assert cells[cells.Length - 1] == cells[..][cells.Length - 1];
      tree := cells;
    }

    method GetRoot() returns (root: Option<Hash>)
      requires tree.Length > 0
      ensures root == tree[tree.Length - 1]
    {
      return tree[tree.Length - 1];
    }
  }

  function NonEmpty(items: seq<Hash>): (s: seq<Hash>)
    ensures s != []
  {
    if items == [] then [seq(HASH_SIZE, _ => 0)] else items
  }

  lemma LeastWidth(n: nat, k: nat)
    requires IsLeast(n, Pow2(k))
    ensures k > 0 ==> Pow2(k - 1) < n
  {
    if k > 0 {
      assert Pow2(k - 1) < Pow2(k);
    }
  }

  // Fills the array front to back; a cell is never read before it is written.
  method Build(digest: Digest, s: seq<Hash>, p: nat, ghost k: nat) returns (cells: array<Option<Hash>>)
    requires p == Pow2(k) && 1 <= |s| <= p
    ensures fresh(cells) && cells.Length == 2 * p - 1 && cells[..] == Flat(digest, s, k)
  {
    hide Cell, Pow2, Flat;
    cells := new Option<Hash>[2 * p - 1](i => if 0 <= i < |s| then Some(s[i]) else None);
    ghost var f := Flat(digest, s, k);
    FirstLevel(digest, s, k);
    var i, offset := 0, p;
    while i < 2 * p - 2
      invariant 0 <= i <= 2 * p - 2 && i == 2 * (offset - p)
      invariant forall c :: 0 <= c < offset ==> cells[c] == f[c]
    {
      FlatCell(digest, s, k, offset);
      cells[offset] := Join(digest, cells[i], cells[i + 1]);
      i, offset := i + 2, offset + 1;
    }
  }

  method Join(digest: Digest, l: Option<Hash>, r: Option<Hash>) returns (h: Option<Hash>)
    ensures h == Cell(digest, l, r)
    ensures h.None? <==> l.None?
  {
    if l.Some? && r.Some? {
      return Some(MergeTwoHash(digest, l.value, r.value));
    } else if l.Some? {
      return Some(MergeTwoHash(digest, l.value, l.value));
    }
    return None;
  }

  lemma FirstLevel(digest: Digest, s: seq<Hash>, k: nat)
    requires |s| <= Pow2(k)
    ensures forall c :: 0 <= c < Pow2(k) ==> Flat(digest, s, k)[c] == if c < |s| then Some(s[c]) else None
  {
    assert forall c :: 0 <= c < Pow2(k) ==> Flat(digest, s, k)[c] == Padded(s, Pow2(k))[c];
  }

  // ----- binding -----

  // Every merge that goes into the root.
  function Merges(digest: Digest, s: seq<Hash>): seq<(Hash, Hash)>
    decreases |s|
  {
    if |s| <= 1 then [] else Pairs(s) + Merges(digest, Up(digest, s))
  }

  // The digest itself collides on two merges, one from each tree.
  ghost predicate Collide(digest: Digest, a: seq<(Hash, Hash)>, b: seq<(Hash, Hash)>) {
    exists p, q :: p in a && q in b && Collision(digest, p.0 + p.1, q.0 + q.1)
  }

  lemma MergeBinds(digest: Digest, p: (Hash, Hash), q: (Hash, Hash))
    requires p != q && MergeTwoHash(digest, p.0, p.1) == MergeTwoHash(digest, q.0, q.1)
    ensures Collision(digest, p.0 + p.1, q.0 + q.1)
  {
    assert (p.0 + p.1)[..HASH_SIZE] == p.0 && (p.0 + p.1)[HASH_SIZE..] == p.1;
    assert (q.0 + q.1)[..HASH_SIZE] == q.0 && (q.0 + q.1)[HASH_SIZE..] == q.1;
  }

  lemma PairsInjective(s: seq<Hash>, t: seq<Hash>)
    requires |s| == |t| && Pairs(s) == Pairs(t)
    ensures s == t
  {
    forall i | 0 <= i < |s| ensures s[i] == t[i] {
      assert Pairs(s)[i / 2] == Pairs(t)[i / 2];
      assert i == 2 * (i / 2) || i == 2 * (i / 2) + 1;
    }
  }

  lemma UpInjective(digest: Digest, s: seq<Hash>, t: seq<Hash>)
    requires |s| == |t| && Up(digest, s) == Up(digest, t)
    ensures s == t || Collide(digest, Pairs(s), Pairs(t))
  {
    if Pairs(s) == Pairs(t) {
      PairsInjective(s, t);
    } else {
      var i :| 0 <= i < |Pairs(s)| && Pairs(s)[i] != Pairs(t)[i];
      assert Up(digest, s)[i] == Up(digest, t)[i];
      MergeBinds(digest, Pairs(s)[i], Pairs(t)[i]);
      assert Pairs(s)[i] in Pairs(s) && Pairs(t)[i] in Pairs(t);
    }
  }

  // Lists of one length with the same root are equal, or their trees show two byte strings with
  // one digest.
  lemma {:induction false} RootBinds(digest: Digest, s: seq<Hash>, t: seq<Hash>)
    requires |s| == |t| > 0 && Root(digest, s) == Root(digest, t)
    ensures s == t || Collide(digest, Merges(digest, s), Merges(digest, t))
    decreases |s|
  {
    hide Up, Pairs;
    if |s| > 1 {
      var u, v := Up(digest, s), Up(digest, t);
      RootBinds(digest, u, v);
      if u == v {
        UpInjective(digest, s, t);
        if s != t {
          var p, q :| p in Pairs(s) && q in Pairs(t) && Collision(digest, p.0 + p.1, q.0 + q.1);
          assert p in Merges(digest, s) && q in Merges(digest, t);
        }
      } else {
        var p, q :| p in Merges(digest, u) && q in Merges(digest, v) && Collision(digest, p.0 + p.1, q.0 + q.1);
        assert p in Merges(digest, s) && q in Merges(digest, t);
      }
    }
  }

  lemma {:induction false} OddPairs(s: seq<Hash>)
    requires |s| % 2 == 1
    ensures Pairs(s + [s[|s| - 1]]) == Pairs(s)
    decreases |s|
  {
    var t := s + [s[|s| - 1]];
    if |s| == 1 {
      assert t[2..] == [];
    } else {
      OddPairs(s[2..]);
      assert t[2..] == s[2..] + [s[2..][|s[2..]| - 1]];
    }
  }

  // The lengths have to agree: repeating the last hash of an odd list does not change the root.
  lemma OddRepeat(digest: Digest, s: seq<Hash>)
    requires |s| >= 3 && |s| % 2 == 1
    ensures Root(digest, s + [s[|s| - 1]]) == Root(digest, s)
  {
    OddPairs(s);
    SameUp(digest, s, s + [s[|s| - 1]]);
  }

  lemma SameUp(digest: Digest, s: seq<Hash>, t: seq<Hash>)
    requires |s| > 1 && |t| > 1 && Pairs(s) == Pairs(t)
    ensures Root(digest, s) == Root(digest, t)
  {
    hide Pairs;
    assert Up(digest, s) == Up(digest, t);
  }
}
