// The query index as the chain keeps it: three maps over shared, mutable trackers
// (sqlchain/queryindex.go). Every method is tied to the value model of QueryIndexSpec.

module QueryIndex {
  import opened Common
  import opened QueryIndexSpec

  class RequestTracker {
    var response: Option<Response>
    var ack: Option<Ack>
    var signedBlock: Option<Hash>

    constructor (response: Response, ack: Option<Ack>)
      ensures this.response == Some(response) && this.ack == ack && signedBlock.None?
    {
      this.response, this.ack, signedBlock := Some(response), ack, None;
    }

    ghost function View(): Tracker
      reads this
      requires response.Some?
    {
      Tracker(response.value, ack, signedBlock)
    }
  }

  class QueryTracker {
    var firstAck: RequestTracker?

    constructor ()
      ensures firstAck == null
    {
      firstAck := null;
    }
  }

  class MultiIndex {
    var respIndex: map<Hash, RequestTracker?>
    var ackIndex: map<Hash, RequestTracker?>
    var seqIndex: map<QueryKey, QueryTracker?>
    ghost var model: Index
    ghost var trackers: set<RequestTracker>
    ghost var queues: set<QueryTracker>

    // Each response hash leads to a tracker that carries what the model says.
    ghost predicate Carried()
      reads this, trackers
    {
      && respIndex.Keys == model.resp.Keys
      && (forall h {:trigger respIndex[h]} :: h in respIndex ==>
            && respIndex[h] != null && respIndex[h] in trackers
            && respIndex[h].response == Some(model.resp[h].response) && model.resp[h].response.headerHash == h
            && respIndex[h].ack == model.resp[h].ack && respIndex[h].signedBlock == model.resp[h].signedBlock)
    }

    // References from the other two maps go to those very trackers; queries do not share their
    // query tracker.
    ghost predicate Wired()
      reads this, queues
    {
      && ackIndex.Keys == model.acks.Keys
      && (forall a {:trigger ackIndex[a]} :: a in ackIndex ==>
            ackIndex[a] != null && model.acks[a] in respIndex && ackIndex[a] == respIndex[model.acks[a]])
      && seqIndex.Keys == model.firsts.Keys
      && (forall k {:trigger seqIndex[k]} :: k in seqIndex ==>
            && seqIndex[k] != null && seqIndex[k] in queues
            && (model.firsts[k].None? ==> seqIndex[k].firstAck == null)
            && (model.firsts[k].Some? ==>
                  && seqIndex[k].firstAck != null && model.firsts[k].value in respIndex
                  && seqIndex[k].firstAck == respIndex[model.firsts[k].value]))
      && (forall k, l {:trigger seqIndex[k], seqIndex[l]} ::
            k in seqIndex && l in seqIndex && k != l ==> seqIndex[k] != seqIndex[l])
    }

    ghost predicate Valid()
      reads this, trackers, queues
    {
      Carried() && Wired()
    }

    twostate lemma WiredStays()
      requires old(Wired()) && queues == old(queues) && forall q :: q in queues ==> unchanged(q)
      requires respIndex == old(respIndex) && ackIndex == old(ackIndex) && seqIndex == old(seqIndex)
      requires model.acks == old(model).acks && model.firsts == old(model).firsts
      ensures Wired()
    {
    }

    twostate lemma CarriedStays()
      requires old(Carried()) && trackers == old(trackers) && forall t :: t in trackers ==> unchanged(t)
      requires respIndex == old(respIndex) && model.resp == old(model).resp
      ensures Carried()
    {
    }

    constructor ()
      ensures Valid() && model == EMPTY && trackers == {} && queues == {}
    {
      respIndex, ackIndex, seqIndex, model := map[], map[], map[], EMPTY;
      trackers, queues := {}, {};
    }

    // Stores an unused query tracker for a query that has none yet.
    method OpenSlot(k: QueryKey, q: QueryTracker)
      requires Valid() && k !in seqIndex && q !in queues && q.firstAck == null
      modifies this`seqIndex, this`queues, this`model
      ensures Valid() && seqIndex == old(seqIndex)[k := q] && queues == old(queues) + {q}
      ensures model == old(model).(firsts := old(model).firsts[k := None])
    {
      hide Carried;
      seqIndex := seqIndex[k := q];
      queues := queues + {q};
      model := model.(firsts := model.firsts[k := None]);
      CarriedStays();
    }

    method EnsureSlot(k: QueryKey) returns (q: QueryTracker)
      requires Valid()
      modifies this`seqIndex, this`queues, this`model
      ensures Valid() && k in seqIndex && seqIndex[k] == q
      ensures model == old(model).(firsts := Ensure(old(model).firsts, k))
      ensures old(queues) <= queues && fresh(queues - old(queues))
    {
      hide Valid;
      Slots(k);
      if k in seqIndex {
        q := seqIndex[k];
      } else {
        q := new QueryTracker();
        OpenSlot(k, q);
      }
    }

    lemma Keys()
      requires Valid()
      ensures seqIndex.Keys == model.firsts.Keys
    {
    }

    // What a look-up by query meets.
    lemma Slots(k: QueryKey)
      requires Valid()
      ensures k in seqIndex <==> k in model.firsts
      ensures k in seqIndex ==> seqIndex[k] != null && seqIndex[k] in queues
    {
    }

    // Stores a new tracker under a response hash that has none yet.
    method Insert(t: RequestTracker)
      requires Valid() && t !in trackers && t.response.Some? && t.response.value.headerHash !in respIndex
      modifies this`respIndex, this`trackers, this`model
      ensures Valid() && respIndex == old(respIndex)[t.response.value.headerHash := t]
      ensures model == old(model).(resp := old(model).resp[t.response.value.headerHash := t.View()])
      ensures trackers == old(trackers) + {t}
    {
      respIndex := respIndex[t.response.value.headerHash := t];
      trackers := trackers + {t};
      model := model.(resp := model.resp[t.response.value.headerHash := t.View()]);
    }

    method InsertNew(response: Response, ack: Option<Ack>) returns (t: RequestTracker)
      requires Valid() && response.headerHash !in respIndex
      modifies this`respIndex, this`trackers, this`model
      ensures Valid() && respIndex == old(respIndex)[response.headerHash := t]
      ensures model == old(model).(resp := old(model).resp[response.headerHash := Tracker(response, ack, None)])
      ensures fresh(t) && trackers == old(trackers) + {t}
    {
      t := new RequestTracker(response, ack);
      Insert(t);
    }

    // Overwrites what one tracker carries, wherever it is referred to from.
    method Overwrite(ghost h: Hash, t: RequestTracker, response: Response, ack: Option<Ack>, mark: Option<Hash>)
      requires Valid() && h in respIndex && respIndex[h] == t && response.headerHash == h
      modifies this`model, t
      ensures Valid()
      ensures model == old(model).(resp := old(model).resp[h := Tracker(response, ack, mark)])
    {
      hide Wired;
      forall x | x in respIndex && x != h ensures respIndex[x] != t {
        assert respIndex[x].response == Some(model.resp[x].response);
      }
      t.response, t.ack, t.signedBlock := Some(response), ack, mark;
      model := model.(resp := model.resp[h := Tracker(response, ack, mark)]);
      WiredStays();
    }

    // What a look-up by response hash meets.
    lemma Stored(h: Hash)
      requires Valid()
      ensures h in respIndex <==> h in model.resp
      ensures h in respIndex ==>
                && respIndex[h] != null && respIndex[h] in trackers
                && respIndex[h].response == Some(model.resp[h].response) && model.resp[h].response.headerHash == h
                && respIndex[h].ack == model.resp[h].ack && respIndex[h].signedBlock == model.resp[h].signedBlock
    {
    }

    method AddResponse(resp: Response) returns (err: Error)
      requires Valid()
      modifies this, trackers
      ensures Valid() && err == NoError
      ensures model == QueryIndexSpec.AddResponse(old(model), resp)
      ensures fresh(trackers - old(trackers)) && fresh(queues - old(queues))
    {
      hide Valid;
      Stored(resp.headerHash);
      if resp.headerHash in respIndex {
        var v := respIndex[resp.headerHash];
        if v == null || v.response.None? {
          return CorruptedIndex;
        }
        Overwrite(resp.headerHash, v, resp, v.ack, v.signedBlock);
        return NoError;
      }
      var s := InsertNew(resp, None);
      var q := EnsureSlot(resp.key);
      return NoError;
    }

    // Lets an ack hash lead to a stored tracker.
    method Link(ack: Hash, ghost h: Hash, t: RequestTracker)
      requires Valid() && h in respIndex && respIndex[h] == t
      modifies this`ackIndex, this`model
      ensures Valid() && ackIndex == old(ackIndex)[ack := t]
      ensures model == old(model).(acks := old(model).acks[ack := h])
    {
      ackIndex := ackIndex[ack := t];
      model := model.(acks := model.acks[ack := h]);
    }

    // Makes a stored tracker the first ack of a query.
    method SetFirst(ghost k: QueryKey, q: QueryTracker, ghost h: Hash, t: RequestTracker)
      requires Valid() && k in seqIndex && seqIndex[k] == q && h in respIndex && respIndex[h] == t
      modifies this`model, q
      ensures Valid() && model == Promote(old(model), k, h)
    {
      q.firstAck := t;
      model := Promote(model, k, h);
    }

    // The first acknowledgement wins; a different one for the same query is reported.
    method Settle(k: QueryKey, q: QueryTracker, ack: Ack, v: RequestTracker) returns (err: Error)
      requires Valid() && k in seqIndex && seqIndex[k] == q && ack.response.key == k
      requires ack.response.headerHash in respIndex && respIndex[ack.response.headerHash] == v
      requires model.firsts[k].Some? ==> AckHash(model, model.firsts[k].value).Some?
      modifies this`model, q
      ensures Valid() && (model, err) == SettleFirst(old(model), ack)
    {
      err := NoError;
      if q.firstAck == null {
        SetFirst(k, q, ack.response.headerHash, v);
      } else if q.firstAck.ack.value.headerHash != ack.headerHash {
        err := MultipleAckOfSeqNo;
      }
    }

    // Files the ack and its tracker. A tracker without ack takes this one over, dropping whatever
    // else it carried; one with a different ack stays as it is and that is an error.
    method FileOne(ack: Ack) returns (q: QueryTracker, v: RequestTracker?, err: Error)
      requires Valid()
      modifies this, trackers
      ensures Valid() && model == FileAck(old(model), ack)
      ensures ack.response.key in seqIndex && seqIndex[ack.response.key] == q
      ensures v != null && ack.response.headerHash in respIndex && respIndex[ack.response.headerHash] == v
      ensures var earlier := AckHash(old(model), ack.response.headerHash);
              err == if earlier.Some? && earlier.value != ack.headerHash then MultipleAckOfResponse else NoError
      ensures old(queues) <= queues
      ensures fresh(trackers - old(trackers)) && fresh(queues - old(queues))
    {
      hide Valid;
      err := NoError;
      q := EnsureSlot(ack.response.key);
      Stored(ack.response.headerHash);
      if ack.response.headerHash in respIndex {
        v := respIndex[ack.response.headerHash];
        if v == null || v.response.None? {
          return q, v, CorruptedIndex;
        }
        Link(ack.headerHash, ack.response.headerHash, v);
        if v.ack.None? {
          Overwrite(ack.response.headerHash, v, ack.response, Some(ack), None);
        } else if v.ack.value.headerHash != ack.headerHash {
          err := MultipleAckOfResponse;
        }
      } else {
        v := InsertNew(ack.response, Some(ack));
        Link(ack.headerHash, ack.response.headerHash, v);
      }
    }

    method AddAck(ghost hd: Headers, ack: Ack) returns (err: Error)
      requires Valid() && Sound(hd, model) && AuthenticAck(hd, ack)
      modifies this, trackers, queues
      ensures Valid() && (model, err) == QueryIndexSpec.AddAck(old(model), ack)
      ensures err != CorruptedIndex
      ensures fresh(trackers - old(trackers)) && fresh(queues - old(queues))
    {
      hide Valid;
      FirstHasAck(hd, model, ack);
      var q, v;
      q, v, err := FileOne(ack);
      Slots(ack.response.key);
      if err == NoError {
        err := Settle(ack.response.key, q, ack, v);
      }
    }

    method GetAck(ack: Hash) returns (a: Option<Ack>)
      requires Valid()
      ensures a == if ack in model.acks then model.resp[model.acks[ack]].ack else None
    {
      if ack in ackIndex {
        return ackIndex[ack].ack;
      }
      return None;
    }

    // setSignedBlock and resetSignedBlock, which differ in the mark they leave.
    method SetSignedBlock(mark: Option<Hash>, ack: Hash)
      requires Valid()
      modifies this`model, trackers
      ensures Valid() && model == SetMark(old(model), ack, mark)
    {
      if ack in ackIndex {
        var v := ackIndex[ack];
        Overwrite(model.acks[ack], v, v.response.value, v.ack, mark);
      }
    }

    // Whether a block may contain the ack: it promotes the ack over an unsigned earlier one.
    method CheckAckFromBlock(ghost hd: Headers, block: Hash, ack: Hash) returns (isKnown: bool, err: Error)
      requires Valid() && Sound(hd, model)
      modifies this`model, queues
      ensures Valid() && (model, isKnown, err) == CheckAck(old(model), block, ack)
      ensures err != CorruptedIndex
    {
      if ack !in ackIndex {
        return false, NoError;
      }
      CheckAckSound(hd, model, block, ack);
      ghost var r := model.acks[ack];
      var q := ackIndex[ack];
      if q.signedBlock.Some? && q.signedBlock.value != block {
        return true, QuerySignedByAnotherBlock;
      }
      assert AckOk(hd, model, ack) && TrackerOk(hd, model, r) && Settled(hd, model, r);
      var k := q.ack.value.response.key;
      if respIndex[q.response.value.headerHash] != q || k !in seqIndex
         || seqIndex[k] == null || seqIndex[k].firstAck == null {
        return true, CorruptedIndex;
      }
      var qs := seqIndex[k];
      if qs.firstAck != q {
        if qs.firstAck.signedBlock.Some? {
          return true, QuerySignedByAnotherBlock;
        }
        SetFirst(k, qs, r, q);
      }
      return true, NoError;
    }

    // Marks the first ack of one query with the placeholder unless it carries a block.
    method MarkFirst(k: QueryKey) returns (ack: Option<Hash>)
      requires Valid() && k in seqIndex
      requires model.firsts[k].Some? ==> AckHash(model, model.firsts[k].value).Some?
      modifies this`model, trackers
      ensures Valid() && model == MarkSlot(old(model), k)
      ensures ack == if Pickable(old(model), k) then AckHash(old(model), old(model).firsts[k].value) else None
    {
      var q := seqIndex[k].firstAck;
      if q == null || q.signedBlock.Some? {
        return None;
      }
      ack := Some(q.ack.value.headerHash);
      Overwrite(model.firsts[k].value, q, q.response.value, q.ack, Some(PLACEHOLDER));
    }

    // Marks every unsigned first ack with the placeholder and lists them: all of them, each
    // under the hash of its ack, and never two of one query.
    method MarkAndCollectUnsignedAcks(ghost hd: Headers) returns (qs: seq<Hash>)
      requires Valid() && Sound(hd, model)
      modifies this`model, trackers
      ensures Valid() && model == MarkAll(old(model)) && Lists(hd, old(model), old(model).firsts.Keys, qs)
    {
      hide Valid, Lists;
      ghost var before, done := model, {};
      MarkOverEnds(before);
      Keys();
      ListsNone(hd, before);
      qs := [];
      var keys := seqIndex.Keys;
      while keys != {}
        invariant Valid() && keys !! done && keys + done == seqIndex.Keys == before.firsts.Keys
        invariant model == MarkOver(before, done) && Lists(hd, before, done, qs)
        decreases keys
      {
        var k :| k in keys;
        Keys();
        MarkOverStep(hd, before, done, k);
        ListsStep(hd, before, done, k, qs);
        var ack := MarkFirst(k);
        if ack.Some? {
          qs := qs + [ack.value];
        }
        keys, done := keys - {k}, done + {k};
      }
      assert done == before.firsts.Keys;
    }
  }

  // The first ack of the query carries neither a block nor the placeholder.
  ghost predicate Pickable(i: Index, k: QueryKey) {
    k in i.firsts && i.firsts[k].Some? && i.firsts[k].value in i.resp && i.resp[i.firsts[k].value].signedBlock.None?
  }

  ghost function MarkSlot(i: Index, k: QueryKey): Index {
    if Pickable(i, k) then
      var r := i.firsts[k].value;
      i.(resp := i.resp[r := MarkIf(i.resp[r], true)])
    else i
  }

  // A tracker that is picked while the given queries are visited.
  ghost predicate UnsignedIn(i: Index, ks: set<QueryKey>, r: Hash) {
    r in i.resp && i.resp[r].signedBlock.None? && exists k :: k in ks && k in i.firsts && i.firsts[k] == Some(r)
  }

  ghost function MarkOver(i: Index, ks: set<QueryKey>): Index {
    Index(map r | r in i.resp :: MarkIf(i.resp[r], UnsignedIn(i, ks, r)), i.acks, i.firsts)
  }

  // The acks of exactly the trackers picked for these queries, one per query.
  ghost predicate Lists(hd: Headers, i: Index, ks: set<QueryKey>, qs: seq<Hash>) {
    && (forall n :: 0 <= n < |qs| ==> UnsignedIn(i, ks, hd.responseOf(qs[n])) && AckHash(i, hd.responseOf(qs[n])) == Some(qs[n]))
    && (forall r :: UnsignedIn(i, ks, r) ==> AckHash(i, r).Some? && AckHash(i, r).value in qs)
    && (forall m, n :: 0 <= m < n < |qs| ==> hd.queryOf(hd.responseOf(qs[m])) != hd.queryOf(hd.responseOf(qs[n])))
  }

  // Under an intact index a tracker is picked for its own query only.
  lemma PickedForOwn(hd: Headers, i: Index, ks: set<QueryKey>, r: Hash)
    requires Sound(hd, i) && UnsignedIn(i, ks, r)
    ensures hd.queryOf(r) in ks && hd.queryOf(r) in i.firsts && i.firsts[hd.queryOf(r)] == Some(r)
  {
    var k :| k in ks && k in i.firsts && i.firsts[k] == Some(r);
    assert SlotOk(hd, i, k);
  }

  lemma PickedStep(hd: Headers, i: Index, ks: set<QueryKey>, k: QueryKey, r: Hash)
    requires Sound(hd, i) && k !in ks
    ensures UnsignedIn(i, ks + {k}, r) <==> UnsignedIn(i, ks, r) || (Pickable(i, k) && i.firsts[k] == Some(r))
    ensures UnsignedIn(i, ks, r) ==> hd.queryOf(r) != k
    ensures Pickable(i, k) && i.firsts[k] == Some(r) ==> hd.queryOf(r) == k && AckHash(i, r).Some? && hd.responseOf(AckHash(i, r).value) == r
  {
    if UnsignedIn(i, ks, r) { PickedForOwn(hd, i, ks, r); }
    if Pickable(i, k) && i.firsts[k] == Some(r) {
      assert SlotOk(hd, i, k) && TrackerOk(hd, i, r);
    }
  }

  lemma MarkOverEnds(i: Index)
    ensures MarkOver(i, {}) == i && MarkOver(i, i.firsts.Keys) == MarkAll(i)
  {
    assert MarkOver(i, {}).resp == i.resp;
    assert MarkOver(i, i.firsts.Keys).resp == MarkAll(i).resp;
  }

  lemma MarkOverStep(hd: Headers, i: Index, ks: set<QueryKey>, k: QueryKey)
    requires Sound(hd, i) && k in i.firsts && k !in ks
    ensures MarkSlot(MarkOver(i, ks), k) == MarkOver(i, ks + {k})
    ensures Pickable(MarkOver(i, ks), k) == Pickable(i, k)
    ensures i.firsts[k].Some? ==> var r := i.firsts[k].value;
              AckHash(i, r).Some? && AckHash(MarkOver(i, ks), r) == AckHash(i, r)
  {
    assert SlotOk(hd, i, k);
    forall r | r in i.resp
      ensures UnsignedIn(i, ks + {k}, r) <==> UnsignedIn(i, ks, r) || (Pickable(i, k) && i.firsts[k] == Some(r))
      ensures UnsignedIn(i, ks, r) ==> hd.queryOf(r) != k
    {
      PickedStep(hd, i, ks, k, r);
    }
    assert MarkSlot(MarkOver(i, ks), k).resp == MarkOver(i, ks + {k}).resp;
  }

  lemma ListsNone(hd: Headers, i: Index)
    ensures Lists(hd, i, {}, [])
  {
  }

  lemma ListsStep(hd: Headers, i: Index, ks: set<QueryKey>, k: QueryKey, qs: seq<Hash>)
    requires Sound(hd, i) && k in i.firsts && k !in ks && Lists(hd, i, ks, qs)
    ensures Pickable(i, k) ==> AckHash(i, i.firsts[k].value).Some?
                               && Lists(hd, i, ks + {k}, qs + [AckHash(i, i.firsts[k].value).value])
    ensures !Pickable(i, k) ==> Lists(hd, i, ks + {k}, qs)
  {
    forall r
      ensures UnsignedIn(i, ks + {k}, r) <==> UnsignedIn(i, ks, r) || (Pickable(i, k) && i.firsts[k] == Some(r))
      ensures UnsignedIn(i, ks, r) ==> hd.queryOf(r) != k
    {
      PickedStep(hd, i, ks, k, r);
    }
    if Pickable(i, k) {
      PickedStep(hd, i, ks, k, i.firsts[k].value);
    }
  }

  lemma FirstHasAck(hd: Headers, i: Index, a: Ack)
    requires Sound(hd, i) && AuthenticAck(hd, a)
    ensures var j := FileAck(i, a);
            j.firsts[a.response.key].Some? ==> AckHash(j, j.firsts[a.response.key].value).Some?
  {
    if a.response.key in i.firsts {
      assert SlotOk(hd, i, a.response.key);
    }
  }
}
