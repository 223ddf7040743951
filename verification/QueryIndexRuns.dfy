// Whole runs of the query index: filing, collecting, and blocks from here and elsewhere
// (sqlchain/queryindex.go, sqlchain/chain.go).

module QueryIndexRuns {
  import opened Common
  import opened QueryIndexSpec
  import opened QueryIndexHeights
  import opened QueryIndexBlocks

  // What the producer has collected so far and neither packed nor taken back, and the last height
  // the barrier was moved to.
  datatype History = History(collected: iset<Hash>, floor: Option<int>)

  const BLANK := History(iset{}, None)

  // Acks of other responses than the listed ones.
  ghost function Others(hd: Headers, collected: iset<Hash>, acks: seq<Hash>): iset<Hash> {
    iset a | a in collected && forall x :: x in acks ==> hd.responseOf(x) != hd.responseOf(a)
  }

  ghost function Recall(hd: Headers, rg: Range, past: History, op: Op): History {
    match op
    case Collect(height) => past.(collected := iset a | a in past.collected || Picked(hd, rg, height, a))
    case Unsign(_, acks) => past.(collected := Others(hd, past.collected, acks))
    case PushOwn(_, _, acks) => past.(collected := Others(hd, past.collected, acks))
    case Advance(height) => past.(floor := Some(height))
    case _ => past
  }

  // What the chain guarantees about a call: verified headers, at most one response per query in a
  // block from elsewhere, own blocks packed from what was collected here and not packed before, and
  // a barrier that is never moved back.
  ghost predicate Allowed(hd: Headers, past: History, op: Op) {
    match op
    case Respond(_, r) => AuthenticResponse(hd, r)
    case Acknowledge(a) => AuthenticAck(hd, a)
    case Push(_, _, acks, fetch) => AuthenticFetch(hd, fetch) && OneListed(hd, acks)
    case PushOwn(_, _, acks) => forall a :: a in acks ==> a in past.collected
    case Unsign(_, _) => true
    case Collect(_) => true
    case Advance(height) => past.floor.Some? ==> past.floor.value <= height
  }

  ghost predicate Unexpired(hd: Headers, past: History, a: Hash) {
    past.floor.Some? ==> past.floor.value <= HeightOf(hd, a)
  }

  // Whatever was collected is still first and marked for nobody else, as long as its height has
  // not expired.
  ghost predicate Kept(hd: Headers, rg: Range, past: History) {
    && AllGood(hd, rg.heights)
    && (past.floor.Some? ==> rg.barrier == past.floor.value)
    && forall a :: a in past.collected && Unexpired(hd, past, a) ==>
         && PinnedAt(hd, rg.heights, HeightOf(hd, a), hd.responseOf(a))
         && MarkAt(rg.heights, HeightOf(hd, a), hd.responseOf(a)) == Some(PLACEHOLDER)
  }

  // So an own block lists first acks.
  lemma OwnBlockFits(hd: Headers, rg: Range, past: History, op: Op)
    requires Kept(hd, rg, past) && Allowed(hd, past, op)
    ensures Fits(hd, rg, op)
  {
    if op.PushOwn? {
      forall a | a in op.acks ensures FirstInRange(hd, rg, op.h, a) {
        if rg.barrier <= HeightOf(hd, a) <= op.h {
          assert PinnedAt(hd, rg.heights, HeightOf(hd, a), hd.responseOf(a));
        }
      }
    }
  }

  lemma StepBarrier(hd: Headers, rg: Range, op: Op)
    requires AllGood(hd, rg.heights) && Fits(hd, rg, op)
    ensures Step(rg, op).0.barrier == if op.Advance? then op.height else rg.barrier
  {
    if op.Push? {
      PushBlockGood(hd, rg, op.h, op.block, op.acks, op.fetch);
    }
  }

  lemma StepKept(hd: Headers, rg: Range, past: History, op: Op)
    requires Kept(hd, rg, past) && Allowed(hd, past, op)
    ensures Kept(hd, Step(rg, op).0, Recall(hd, rg, past, op)) && Step(rg, op).1 != CorruptedIndex
  {
    hide Step, AllGood, PinnedAt, MarkAt;
    OwnBlockFits(hd, rg, past, op);
    StepGood(hd, rg, op);
    StepBarrier(hd, rg, op);
    var rg1, now := Step(rg, op).0, Recall(hd, rg, past, op);
    forall a | a in now.collected && Unexpired(hd, now, a)
      ensures PinnedAt(hd, rg1.heights, HeightOf(hd, a), hd.responseOf(a))
      ensures MarkAt(rg1.heights, HeightOf(hd, a), hd.responseOf(a)) == Some(PLACEHOLDER)
    {
      if a in past.collected {
        PinnedStep(hd, rg, op, HeightOf(hd, a), hd.responseOf(a));
        MarkStays(hd, rg, op, HeightOf(hd, a), hd.responseOf(a));
      } else {
        CollectPins(hd, rg, op.height, HeightOf(hd, a), hd.responseOf(a));
        CollectHolds(rg, op.height, HeightOf(hd, a), hd.responseOf(a));
        StepCollect(rg, op);
      }
    }
  }

  lemma CollectHolds(rg: Range, height: int, x: int, r: Hash)
    requires x in rg.heights && rg.barrier <= x < height && Unsigned(rg.heights[x], r)
    ensures MarkAt(MarkRange(rg, height).heights, x, r) == Some(PLACEHOLDER)
  {
  }

  lemma StepCollect(rg: Range, op: Op)
    requires op.Collect?
    ensures Step(rg, op).0 == MarkRange(rg, op.height)
  {
  }

  ghost predicate AllowedRun(hd: Headers, rg: Range, past: History, ops: seq<Op>)
    decreases |ops|
  {
    ops == [] || (Allowed(hd, past, ops[0]) && AllowedRun(hd, Step(rg, ops[0]).0, Recall(hd, rg, past, ops[0]), ops[1..]))
  }

  // The answers of a run.
  ghost function Answers(rg: Range, ops: seq<Op>): seq<Error>
    decreases |ops|
  {
    if ops == [] then [] else [Step(rg, ops[0]).1] + Answers(Step(rg, ops[0]).0, ops[1..])
  }

  ghost function EndOf(rg: Range, ops: seq<Op>): Range
    decreases |ops|
  {
    if ops == [] then rg else EndOf(Step(rg, ops[0]).0, ops[1..])
  }

  lemma {:induction false} RunKept(hd: Headers, rg: Range, past: History, ops: seq<Op>)
    requires Kept(hd, rg, past) && AllowedRun(hd, rg, past, ops)
    ensures CorruptedIndex !in Answers(rg, ops) && AllGood(hd, EndOf(rg, ops).heights)
    decreases |ops|
  {
    hide Step, Allowed, Recall, AllGood;
    if ops != [] {
      StepKept(hd, rg, past, ops[0]);
      RunKept(hd, Step(rg, ops[0]).0, Recall(hd, rg, past, ops[0]), ops[1..]);
    }
  }

  // From the empty index, no run is ever told that the index is corrupted, and at every height
  // only first acks carry a block or the placeholder. Blocks of one's own are not checked when
  // they are pushed; that their acks were collected here is enough.
  lemma RunGood(hd: Headers, ops: seq<Op>)
    requires AllowedRun(hd, START, BLANK, ops)
    ensures CorruptedIndex !in Answers(START, ops) && AllGood(hd, EndOf(START, ops).heights)
  {
    RunKept(hd, START, BLANK, ops);
  }

  // So no height ever has two signed responses of one query.
  lemma RunSignsOnce(hd: Headers, ops: seq<Op>, x: int, r: Hash, q: Hash)
    requires AllowedRun(hd, START, BLANK, ops)
    requires x in EndOf(START, ops).heights
    requires Mark(EndOf(START, ops).heights[x], r).Some? && Mark(EndOf(START, ops).heights[x], q).Some?
    requires hd.queryOf(r) == hd.queryOf(q)
    ensures r == q
  {
    RunGood(hd, ops);
    assert Good(hd, EndOf(START, ops).heights[x], x);
    OneSignedPerQuery(hd, EndOf(START, ops).heights[x], r, q);
  }

  // ----- one block per ack -----

  // The call leaves this response alone, as far as its height and resets are concerned.
  ghost predicate Spares(hd: Headers, op: Op, x: int, r: Hash) {
    && (op.Unsign? ==> forall a :: a in op.acks ==> hd.responseOf(a) != r)
    && (op.Advance? ==> op.height <= x)
  }

  // A block from elsewhere lists an ack of this response that is known here, in its range.
  ghost predicate Claims(hd: Headers, rg: Range, op: Op, x: int, r: Hash) {
    op.Push? && rg.barrier <= x <= op.h && exists a :: a in op.acks && hd.responseOf(a) == r && a in At(rg.heights, x).acks
  }

  // What an own block lists is not marked by any other block.
  lemma OwnBlockSpares(hd: Headers, rg: Range, past: History, op: Op, x: int, r: Hash, b: Hash)
    requires Kept(hd, rg, past) && Allowed(hd, past, op) && op.PushOwn? && rg.barrier <= x <= op.h
    requires MarkAt(rg.heights, x, r) == Some(b) && b != PLACEHOLDER
    ensures forall a :: a in op.acks ==> hd.responseOf(a) != r
  {
    MarkedHeight(hd, rg, x, r);
    forall a | a in op.acks ensures hd.responseOf(a) != r {
      if Unexpired(hd, past, a) { CollectedIsHeld(hd, rg, past, a); }
    }
  }

  lemma CollectedIsHeld(hd: Headers, rg: Range, past: History, a: Hash)
    requires Kept(hd, rg, past) && a in past.collected && Unexpired(hd, past, a)
    ensures MarkAt(rg.heights, HeightOf(hd, a), hd.responseOf(a)) == Some(PLACEHOLDER)
  {
  }

  // A marked response sits at its own height.
  lemma MarkedHeight(hd: Headers, rg: Range, x: int, r: Hash)
    requires AllGood(hd, rg.heights) && MarkAt(rg.heights, x, r).Some?
    ensures hd.heightOf(r) == x
  {
    var i := At(rg.heights, x);
    AtGood(hd, rg.heights, x);
    assert TrackerOk(hd, i, r);
    assert HeightOf(hd, i.resp[r].ack.value.headerHash) == x;
  }

  // A block that lists an ack which another block has is refused.
  lemma ClaimRefused(hd: Headers, rg: Range, op: Op, x: int, r: Hash, b: Hash)
    requires AllGood(hd, rg.heights) && Fits(hd, rg, op) && MarkAt(rg.heights, x, r) == Some(b) && Claims(hd, rg, op, x, r) && op.block != b
    ensures Step(rg, op).1 != NoError
  {
    hide CheckBlock, SetBlock, Mark;
    var rg1 := CheckBlock(rg, op.h, op.block, op.acks, op.fetch).0;
    var a :| a in op.acks && hd.responseOf(a) == r && a in At(rg.heights, x).acks;
    CheckBlockMarks(hd, rg, op.h, op.block, op.acks, op.fetch, {});
    MarkedHeight(hd, rg, x, r);
    assert KnownAt(hd, rg.heights, a) && KnownAt(hd, rg1.heights, a);
    assert MarkAt(rg1.heights, x, r) == Some(b);
    if Step(rg, op).1 == NoError {
      PassedIsClear(hd, rg, op.h, op.block, op.acks, op.fetch, a);
    }
  }

  // Whoever claims the response for another block, anywhere in the run, is refused.
  ghost predicate OthersRefused(hd: Headers, rg: Range, ops: seq<Op>, x: int, r: Hash, b: Hash)
    decreases |ops|
  {
    ops == [] ||
    (&& (Claims(hd, rg, ops[0], x, r) && ops[0].block != b ==> Step(rg, ops[0]).1 != NoError)
     && OthersRefused(hd, Step(rg, ops[0]).0, ops[1..], x, r, b))
  }

  // Once a block has an ack it keeps it: whatever is filed, collected, checked, or pushed from here
  // or elsewhere, the ack stays with that block, and every other block that lists it is refused,
  // until its height expires or the block is taken back.
  lemma {:induction false} OneBlockPerAck(hd: Headers, rg: Range, past: History, ops: seq<Op>, x: int, r: Hash, b: Hash)
    requires Kept(hd, rg, past) && AllowedRun(hd, rg, past, ops)
    requires MarkAt(rg.heights, x, r) == Some(b) && b != PLACEHOLDER
    requires forall i :: 0 <= i < |ops| ==> Spares(hd, ops[i], x, r)
    ensures MarkAt(EndOf(rg, ops).heights, x, r) == Some(b) && OthersRefused(hd, rg, ops, x, r, b)
    decreases |ops|
  {
    hide Step, Recall, AllGood, MarkAt;
    if ops != [] {
      var op := ops[0];
      assert Spares(hd, op, x, r);
      OwnBlockFits(hd, rg, past, op);
      StepKept(hd, rg, past, op);
      if op.PushOwn? && rg.barrier <= x <= op.h { OwnBlockSpares(hd, rg, past, op, x, r, b); }
      MarkStays(hd, rg, op, x, r);
      if Claims(hd, rg, op, x, r) && op.block != b { ClaimRefused(hd, rg, op, x, r, b); }
      OneBlockPerAck(hd, Step(rg, op).0, Recall(hd, rg, past, op), ops[1..], x, r, b);
    }
  }

  // The same from the empty index, for whatever some run has brought about.
  lemma OneBlockFromStart(hd: Headers, ops: seq<Op>, more: seq<Op>, x: int, r: Hash, b: Hash)
    requires AllowedRun(hd, START, BLANK, ops + more) && MarkAt(EndOf(START, ops).heights, x, r) == Some(b) && b != PLACEHOLDER
    requires forall i :: 0 <= i < |more| ==> Spares(hd, more[i], x, r)
    ensures MarkAt(EndOf(START, ops + more).heights, x, r) == Some(b) && OthersRefused(hd, EndOf(START, ops), more, x, r, b)
  {
    hide Step, Recall, MarkAt, Claims;
    SplitRun(hd, START, BLANK, ops, more);
    OneBlockPerAck(hd, EndOf(START, ops), PastOf(hd, START, BLANK, ops), more, x, r, b);
  }

  ghost function PastOf(hd: Headers, rg: Range, past: History, ops: seq<Op>): History
    decreases |ops|
  {
    if ops == [] then past else PastOf(hd, Step(rg, ops[0]).0, Recall(hd, rg, past, ops[0]), ops[1..])
  }

  lemma {:induction false} SplitRun(hd: Headers, rg: Range, past: History, ops: seq<Op>, more: seq<Op>)
    requires Kept(hd, rg, past) && AllowedRun(hd, rg, past, ops + more)
    ensures var rg1, now := EndOf(rg, ops), PastOf(hd, rg, past, ops);
            Kept(hd, rg1, now) && AllowedRun(hd, rg1, now, more) && EndOf(rg, ops + more) == EndOf(rg1, more)
    decreases |ops|
  {
    hide Step, Recall, Allowed, Kept;
    if ops == [] {
      assert ops + more == more;
    } else {
      assert (ops + more)[1..] == ops[1..] + more;
      StepKept(hd, rg, past, ops[0]);
      SplitRun(hd, Step(rg, ops[0]).0, Recall(hd, rg, past, ops[0]), ops[1..], more);
    }
  }

  // An ack that was collected is not handed out again before it is packed, taken back or expired.
  lemma CollectedOnce(hd: Headers, rg: Range, past: History, height: int, a: Hash)
    requires Kept(hd, rg, past) && a in past.collected && Unexpired(hd, past, a)
    ensures !Picked(hd, rg, height, a)
  {
    assert PinnedAt(hd, rg.heights, HeightOf(hd, a), hd.responseOf(a));
  }
}
