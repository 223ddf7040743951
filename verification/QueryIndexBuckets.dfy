// The query index over heights as the chain keeps it: a map of mutable buckets and a barrier
// (sqlchain/queryindex.go). Every method is tied to the value model of QueryIndexHeights.

module QueryIndexBuckets {
  import opened Common
  import opened QueryIndexSpec
  import opened QueryIndex
  import H = QueryIndexHeights

  // Two buckets share no object.
  ghost predicate Apart(b: MultiIndex, c: MultiIndex)
    reads b, c
  {
    b != c && b.trackers !! c.trackers && b.queues !! c.queues
  }

  // The loops over heights, one height at a time.

  function SetFrom(heights: map<int, Index>, x: int, h: int, ack: Hash, mark: Option<Hash>): map<int, Index>
    decreases h - x
  {
    if x > h then heights else
    SetFrom(if x in heights then heights[x := SetMark(heights[x], ack, mark)] else heights, x + 1, h, ack, mark)
  }

  lemma {:induction false} SetFromIsRange(heights: map<int, Index>, x: int, h: int, ack: Hash, mark: Option<Hash>)
    ensures SetFrom(heights, x, h, ack, mark) == H.SetRange(heights, x, h, ack, mark)
    decreases h - x
  {
    if x <= h {
      SetFromIsRange(if x in heights then heights[x := SetMark(heights[x], ack, mark)] else heights, x + 1, h, ack, mark);
    }
  }

  function DropFrom(heights: map<int, Index>, x: int, height: int): map<int, Index>
    decreases height - x
  {
    if x >= height then heights else DropFrom(heights - {x}, x + 1, height)
  }

  lemma {:induction false} DropFromIsAdvance(heights: map<int, Index>, x: int, height: int)
    ensures DropFrom(heights, x, height) == H.AdvanceBarrier(H.Range(heights, x), height).heights
    decreases height - x
  {
    if x < height {
      DropFromIsAdvance(heights - {x}, x + 1, height);
    }
  }

  ghost function MarkFrom(heights: map<int, Index>, x: int, height: int): map<int, Index>
    decreases height - x
  {
    if x >= height then heights else
    MarkFrom(if x in heights then heights[x := MarkAll(heights[x])] else heights, x + 1, height)
  }

  lemma {:induction false} MarkFromIsRange(heights: map<int, Index>, x: int, height: int)
    ensures MarkFrom(heights, x, height) == H.MarkRange(H.Range(heights, x), height).heights
    decreases height - x
  {
    if x < height {
      MarkFromIsRange(if x in heights then heights[x := MarkAll(heights[x])] else heights, x + 1, height);
    }
  }

  class Buckets {
    var index: map<int, MultiIndex>
    var barrier: int
    ghost var heights: map<int, Index>
    ghost var repr: set<object>

    ghost predicate Valid()
      reads this, repr
    {
      && this !in repr && index.Keys == heights.Keys
      && (forall x {:trigger index[x]} :: x in index ==>
            && index[x] in repr && index[x].trackers <= repr && index[x].queues <= repr
            && index[x].Valid() && index[x].model == heights[x])
      && (forall x, y {:trigger Apart(index[x], index[y])} ::
            x in index && y in index && x != y ==> Apart(index[x], index[y]))
    }

    ghost function State(): H.Range
      reads this
    {
      H.Range(heights, barrier)
    }

    constructor ()
      ensures Valid() && State() == H.START && repr == {}
    {
      index, barrier, heights, repr := map[], 0, map[], {};
    }

    method Attach(h: int, b: MultiIndex)
      requires Valid() && h !in index && b !in repr && b.Valid() && b.trackers == {} && b.queues == {}
      modifies this
      ensures Valid() && index == old(index)[h := b] && barrier == old(barrier)
      ensures heights == old(heights)[h := b.model] && repr == old(repr) + {b}
    {
      hide MultiIndex.Valid;
      index, heights, repr := index[h := b], heights[h := b.model], repr + {b};
      forall x, y | x in index && y in index && x != y ensures Apart(index[x], index[y]) {
        if x != h && y != h { assert Apart(old(index)[x], old(index)[y]); }
      }
    }

    method EnsureHeight(h: int)
      requires Valid()
      modifies this
      ensures Valid() && h in index && barrier == old(barrier)
      ensures heights == old(heights)[h := H.At(old(heights), h)]
      ensures old(repr) <= repr && fresh(repr - old(repr))
    {
      hide MultiIndex.Valid;
      if h !in index {
        var b := new MultiIndex();
        Attach(h, b);
      }
    }

    // A bucket stands apart from another one and as the model says.
    ghost predicate Stands(x: int, h: int)
      requires x in index && h in index
      reads this, index[x], index[x].trackers, index[x].queues, index[h]
    {
      && index[x] in repr && index[x].trackers <= repr && index[x].queues <= repr
      && index[x].Valid() && x in heights && index[x].model == heights[x] && Apart(index[x], index[h])
    }

    lemma Bookkeeping()
      requires Valid()
      ensures index.Keys == heights.Keys && this !in repr
    {
    }

    // After one bucket changed within its own objects, the rest stands as before.
    ghost method Absorb(h: int)
      requires h in index && this !in repr && index[h] in repr && index.Keys == heights.Keys && index[h].Valid()
      requires forall x {:trigger Stands(x, h)} :: x in index && x != h ==> Stands(x, h)
      requires forall x, y {:trigger Apart(index[x], index[y])} ::
                 x in index && y in index && x != y && x != h && y != h ==> Apart(index[x], index[y])
      modifies this`heights, this`repr
      ensures Valid() && heights == old(heights)[h := index[h].model]
      ensures repr == old(repr) + index[h].trackers + index[h].queues
    {
      hide MultiIndex.Valid;
      heights := heights[h := index[h].model];
      repr := repr + index[h].trackers + index[h].queues;
      forall x | x in index
        ensures index[x] in repr && index[x].trackers <= repr && index[x].queues <= repr
        ensures index[x].Valid() && index[x].model == heights[x]
      {
        assert x != h ==> old(Stands(x, h));
      }
      forall x, y | x in index && y in index && x != y ensures Apart(index[x], index[y]) {
        if x == h { assert old(Stands(y, h)); }
        if y == h { assert old(Stands(x, h)); }
        if x != h && y != h { assert old(Apart(index[x], index[y])); }
      }
    }

    // The objects of one bucket.
    ghost function Own(h: int): set<object>
      requires h in index
      reads this, index[h]
    {
      {index[h]} + index[h].trackers + index[h].queues
    }

    // What one bucket does to its own objects leaves every other bucket alone.
    twostate lemma RestStands(h: int)
      requires old(Valid()) && unchanged(this) && h in index
      requires forall o {:trigger o in repr} :: o in repr && o !in old(Own(h)) ==> unchanged(o)
      requires forall t :: t in index[h].trackers && t !in old(index[h].trackers) ==> fresh(t)
      requires forall q :: q in index[h].queues && q !in old(index[h].queues) ==> fresh(q)
      ensures forall x {:trigger Stands(x, h)} :: x in index && x != h ==> Stands(x, h)
      ensures forall x, y {:trigger Apart(index[x], index[y])} ::
                x in index && y in index && x != y && x != h && y != h ==> Apart(index[x], index[y])
    {
      hide MultiIndex.Valid;
      forall x {:trigger index[x]} | x in index && x != h
        ensures Stands(x, h) && index[x].trackers == old(index[x].trackers) && index[x].queues == old(index[x].queues)
      {
        var b, c := index[x], index[h];
        assert old(Apart(index[x], index[h]));
        assert b in repr && b !in old(Own(h));
        assert b.trackers == old(index[x].trackers) && b.queues == old(index[x].queues);
        forall t | t in b.trackers ensures unchanged(t) && t !in c.trackers {
          assert (t as object) in repr && (t as object) !in old(Own(h));
        }
        forall q | q in b.queues ensures unchanged(q) && q !in c.queues {
          assert (q as object) in repr && (q as object) !in old(Own(h));
        }
        assert b.Valid();
      }
      forall x, y | x in index && y in index && x != y && x != h && y != h ensures Apart(index[x], index[y]) {
        assert old(Apart(index[x], index[y]));
        assert index[x].trackers == old(index[x].trackers) && index[y].trackers == old(index[y].trackers);
      }
    }

    method FileResponse(h: int, resp: Response) returns (err: Error)
      requires Valid() && h in index
      modifies this`heights, this`repr, repr
      ensures Valid() && err == NoError && heights == old(heights)[h := QueryIndexSpec.AddResponse(old(heights)[h], resp)]
      ensures old(repr) <= repr && fresh(repr - old(repr))
    {
      hide MultiIndex.Valid;
      err := index[h].AddResponse(resp);
      RestStands(h);
      Absorb(h);
    }

    method FileAck(ghost hd: Headers, h: int, ack: Ack) returns (err: Error)
      requires Valid() && h in index && Sound(hd, heights[h]) && AuthenticAck(hd, ack)
      modifies this`heights, this`repr, repr
      ensures Valid() && err != CorruptedIndex && err == QueryIndexSpec.AddAck(old(heights)[h], ack).1
      ensures heights == old(heights)[h := QueryIndexSpec.AddAck(old(heights)[h], ack).0]
      ensures old(repr) <= repr && fresh(repr - old(repr))
    {
      hide MultiIndex.Valid;
      err := index[h].AddAck(hd, ack);
      RestStands(h);
      Absorb(h);
    }

    method CheckBucket(ghost hd: Headers, h: int, block: Hash, ack: Hash) returns (isKnown: bool, err: Error)
      requires Valid() && h in index && Sound(hd, heights[h])
      modifies this`heights, this`repr, repr
      ensures Valid() && repr == old(repr)
      ensures var (j, k, e) := CheckAck(old(heights)[h], block, ack);
              heights == old(heights)[h := j] && isKnown == k && err == e != CorruptedIndex
    {
      hide MultiIndex.Valid;
      isKnown, err := index[h].CheckAckFromBlock(hd, block, ack);
      RestStands(h);
      Absorb(h);
    }

    method MarkBucket(h: int, mark: Option<Hash>, ack: Hash)
      requires Valid() && h in index
      modifies this`heights, this`repr, repr
      ensures Valid() && repr == old(repr) && heights == old(heights)[h := SetMark(old(heights)[h], ack, mark)]
    {
      hide MultiIndex.Valid;
      index[h].SetSignedBlock(mark, ack);
      RestStands(h);
      Absorb(h);
    }

    method CollectBucket(ghost hd: Headers, h: int) returns (qs: seq<Hash>)
      requires Valid() && h in index && Sound(hd, heights[h])
      modifies this`heights, this`repr, repr
      ensures Valid() && repr == old(repr) && heights == old(heights)[h := MarkAll(old(heights)[h])]
      ensures Lists(hd, old(heights)[h], old(heights)[h].firsts.Keys, qs)
    {
      hide MultiIndex.Valid;
      qs := index[h].MarkAndCollectUnsignedAcks(hd);
      RestStands(h);
      Absorb(h);
    }

    // ----- the operations of the chain -----

    method AddResponse(h: int, resp: Response) returns (err: Error)
      requires Valid()
      modifies this, repr
      ensures Valid() && err == NoError && State() == H.AddResponseAt(old(State()), h, resp)
      ensures fresh(repr - old(repr))
    {
      hide Valid;
      EnsureHeight(h);
      Bookkeeping();
      err := FileResponse(h, resp);
      assert heights == H.AddResponseAt(old(State()), h, resp).heights;
    }

    method AddAck(ghost hd: Headers, h: int, ack: Ack) returns (err: Error)
      requires Valid() && Sound(hd, H.At(heights, h)) && AuthenticAck(hd, ack)
      modifies this, repr
      ensures Valid() && err != CorruptedIndex && fresh(repr - old(repr))
      ensures State() == H.AddAckAt(old(State()), h, ack).0 && err == H.AddAckAt(old(State()), h, ack).1
    {
      hide Valid;
      EnsureHeight(h);
      Bookkeeping();
      err := FileAck(hd, h, ack);
      assert heights == H.AddAckAt(old(State()), h, ack).0.heights;
    }

    // The first bucket from the barrier up to the height that knows the ack decides.
    method CheckAckFromBlock(ghost hd: Headers, h: int, block: Hash, ack: Hash) returns (isKnown: bool, err: Error)
      requires Valid() && H.AllGood(hd, heights)
      modifies this`heights, this`repr, repr
      ensures Valid() && repr == old(repr) && err != CorruptedIndex
      ensures var (rg, k, e) := H.CheckAt(old(State()), h, block, ack);
              State() == rg && isKnown == k && err == e
    {
      hide Valid;
      Bookkeeping();
      isKnown, err := false, NoError;
      if h < barrier {
        return false, QueryExpired;
      }
      ghost var before := heights;
      var x := barrier;
      while x <= h
        invariant barrier <= x && Valid() && repr == old(repr) && heights == before && index.Keys == before.Keys
        invariant H.Scan(before, barrier, h, block, ack) == H.Scan(before, x, h, block, ack)
        invariant !isKnown && err == NoError
      {
        if x in index {
          assert H.Good(hd, before[x], x);
          isKnown, err := CheckBucket(hd, x, block, ack);
          if err != NoError || isKnown {
            return;
          }
          assert heights == before;
        }
        x := x + 1;
      }
    }

    method MarkEverywhere(h: int, mark: Option<Hash>, ack: Hash)
      requires Valid()
      modifies this`heights, this`repr, repr
      ensures Valid() && repr == old(repr) && heights == H.SetRange(old(heights), barrier, h, ack, mark)
    {
      hide Valid;
      Bookkeeping();
      SetFromIsRange(heights, barrier, h, ack, mark);
      var x := barrier;
      while x <= h
        invariant barrier <= x && Valid() && repr == old(repr)
        invariant SetFrom(heights, x, h, ack, mark) == SetFrom(old(heights), barrier, h, ack, mark)
      {
        Bookkeeping();
        if x in index {
          MarkBucket(x, mark, ack);
        }
        x := x + 1;
      }
    }

    // Leaves the mark on every listed ack, at every height from the barrier on that knows it.
    method SetMarks(h: int, mark: Option<Hash>, acks: seq<Hash>)
      requires Valid()
      modifies this`heights, this`repr, repr
      ensures Valid() && repr == old(repr)
      ensures State() == H.Range(H.SetBlock(old(heights), barrier, h, acks, mark), barrier)
    {
      hide Valid;
      Bookkeeping();
      var n := 0;
      while n < |acks|
        invariant n <= |acks| && Valid() && repr == old(repr)
        invariant H.SetBlock(heights, barrier, h, acks[n..], mark) == H.SetBlock(old(heights), barrier, h, acks, mark)
      {
        assert acks[n..][1..] == acks[n + 1..] && acks[n..][0] == acks[n];
        MarkEverywhere(h, mark, acks[n]);
        n := n + 1;
      }
    }

    method Drop(x: int)
      requires Valid()
      modifies this`index, this`heights
      ensures Valid() && index == old(index) - {x} && heights == old(heights) - {x}
    {
      hide MultiIndex.Valid;
      index, heights := index - {x}, heights - {x};
    }

    method SetBarrier(b: int)
      requires Valid()
      modifies this`barrier
      ensures Valid() && barrier == b
    {
      hide MultiIndex.Valid;
      barrier := b;
    }

    // Drops the buckets between the old barrier and the new one.
    method AdvanceBarrier(height: int)
      requires Valid()
      modifies this`index, this`heights, this`barrier
      ensures Valid() && State() == H.AdvanceBarrier(old(State()), height)
    {
      hide Valid;
      DropFromIsAdvance(heights, barrier, height);
      var x := barrier;
      SetBarrier(height);
      while x < height
        invariant Valid() && barrier == height
        invariant DropFrom(heights, x, height) == DropFrom(old(heights), old(barrier), height)
        decreases height - x
      {
        Bookkeeping();
        assert x !in heights ==> heights - {x} == heights;
        if x in index {
          Drop(x);
        }
        x := x + 1;
      }
    }

    // Which acks a block producer gets to sign: at every height below the given one, the
    // unsigned first acks, each once, all of them marked on the way.
    method MarkAndCollectUnsignedAcks(ghost hd: Headers, height: int) returns (qs: seq<Hash>)
      requires Valid() && H.AllGood(hd, heights)
      modifies this`heights, this`repr, repr
      ensures Valid() && repr == old(repr) && State() == H.MarkRange(old(State()), height)
      ensures Collected(hd, old(heights), barrier, height, qs)
      ensures forall a :: a in qs <==> H.Picked(hd, old(State()), height, a)
    {
      hide Valid, Collected, H.Good;
      Bookkeeping();
      MarkFromIsRange(heights, barrier, height);
      qs := [];
      CollectNone(hd, heights, barrier, barrier);
      var x := barrier;
      while x < height
        invariant barrier <= x && (x <= height || x == barrier) && Valid() && repr == old(repr)
        invariant MarkFrom(heights, x, height) == MarkFrom(old(heights), barrier, height)
        invariant forall y :: y >= x ==> H.At(heights, y) == H.At(old(heights), y) && (y in heights <==> y in old(heights))
        invariant Collected(hd, old(heights), barrier, x, qs) && (x == barrier ==> qs == [])
      {
        Bookkeeping();
        if x in index {
          GoodAt(hd, old(heights), x);
          assert heights[x] == H.At(heights, x);
          var more := CollectBucket(hd, x);
          CollectMore(hd, old(heights), barrier, x, qs, more);
          qs := qs + more;
        } else {
          CollectSkip(hd, old(heights), barrier, x, qs);
        }
        x := x + 1;
      }
      if height < barrier {
        CollectNone(hd, old(heights), barrier, height);
      }
      CollectedIsPicked(hd, old(State()), height, qs);
    }

    // The query checks on a block of another producer, and its signing.
    method CheckAndPush(ghost hd: Headers, h: int, block: Hash, acks: seq<Hash>, fetch: Hash -> Option<Ack>) returns (err: Error)
      requires Valid() && H.AllGood(hd, heights) && H.AuthenticFetch(hd, fetch)
      modifies this, repr
      ensures Valid() && fresh(repr - old(repr)) && err != CorruptedIndex
      ensures State() == H.PushBlock(old(State()), h, block, acks, fetch).0
      ensures err == H.PushBlock(old(State()), h, block, acks, fetch).1
    {
      var n := 0;
      while n < |acks|
        invariant n <= |acks| && Valid() && H.AllGood(hd, heights) && fresh(repr - old(repr))
        invariant H.CheckBlock(State(), h, block, acks[n..], fetch) == H.CheckBlock(old(State()), h, block, acks, fetch)
      {
        assert acks[n..][1..] == acks[n + 1..] && acks[n..][0] == acks[n];
        var known;
        H.CheckAtErrors(hd, State(), h, block, acks[n]);
        known, err := CheckAckFromBlock(hd, h, block, acks[n]);
        if err != NoError {
          return;
        }
        if !known {
          var ack := fetch(acks[n]);
          if ack.None? {
            return FetchFailed;
          }
          H.AtGood(hd, heights, ack.value.response.height);
          H.AddAckGood(hd, State(), ack.value);
          err := AddAck(hd, ack.value.response.height, ack.value);
          if err != NoError {
            return;
          }
          H.CheckAtErrors(hd, State(), h, block, acks[n]);
          known, err := CheckAckFromBlock(hd, h, block, acks[n]);
          if err != NoError {
            return;
          }
        }
        n := n + 1;
      }
      SetMarks(h, Some(block), acks);
      err := NoError;
    }
  }

  // The unsigned first acks of the heights in [lo, hi), one per height and query.
  ghost predicate Collected(hd: Headers, heights: map<int, Index>, lo: int, hi: int, qs: seq<Hash>) {
    && (forall n :: 0 <= n < |qs| ==>
          var x, r := H.HeightOf(hd, qs[n]), hd.responseOf(qs[n]);
          lo <= x < hi && x in heights && Unsigned(heights[x], r) && AckHash(heights[x], r) == Some(qs[n]))
    && (forall x, r :: lo <= x < hi && x in heights && Unsigned(heights[x], r) ==>
          AckHash(heights[x], r).Some? && AckHash(heights[x], r).value in qs)
    && (forall m, n :: 0 <= m < n < |qs| && H.HeightOf(hd, qs[m]) == H.HeightOf(hd, qs[n]) ==>
          hd.queryOf(hd.responseOf(qs[m])) != hd.queryOf(hd.responseOf(qs[n])))
  }

  lemma CollectNone(hd: Headers, heights: map<int, Index>, lo: int, hi: int)
    requires hi <= lo
    ensures Collected(hd, heights, lo, hi, [])
  {
  }

  lemma CollectSkip(hd: Headers, heights: map<int, Index>, lo: int, x: int, qs: seq<Hash>)
    requires Collected(hd, heights, lo, x, qs) && x !in heights
    ensures Collected(hd, heights, lo, x + 1, qs)
  {
  }

  lemma GoodAt(hd: Headers, heights: map<int, Index>, x: int)
    requires H.AllGood(hd, heights) && x in heights
    ensures H.Good(hd, heights[x], x) && Sound(hd, heights[x])
  {
    assert H.Good(hd, heights[x], x);
  }

  lemma CollectedIsPicked(hd: Headers, rg: H.Range, height: int, qs: seq<Hash>)
    requires Collected(hd, rg.heights, rg.barrier, height, qs)
    ensures forall a :: a in qs <==> H.Picked(hd, rg, height, a)
  {
    forall a ensures a in qs <==> H.Picked(hd, rg, height, a) {
      if a in qs {
        var n :| 0 <= n < |qs| && qs[n] == a;
      }
    }
  }

  lemma CollectMore(hd: Headers, heights: map<int, Index>, lo: int, x: int, qs: seq<Hash>, more: seq<Hash>)
    requires lo <= x && Collected(hd, heights, lo, x, qs) && x in heights && H.Good(hd, heights[x], x)
    requires Lists(hd, heights[x], heights[x].firsts.Keys, more)
    ensures Collected(hd, heights, lo, x + 1, qs + more)
  {
    forall n | 0 <= n < |more|
      ensures H.HeightOf(hd, more[n]) == x && Unsigned(heights[x], hd.responseOf(more[n]))
    {
      assert TrackerOk(hd, heights[x], hd.responseOf(more[n]));
    }
    forall r | Unsigned(heights[x], r)
      ensures UnsignedIn(heights[x], heights[x].firsts.Keys, r)
    {
    }
  }
}
