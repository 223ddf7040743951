// The query index over heights, and how the chain uses it to check and sign blocks
// (sqlchain/queryindex.go, sqlchain/chain.go).

module QueryIndexHeights {
  import opened Common
  import opened QueryIndexSpec

  datatype Range = Range(heights: map<int, Index>, barrier: int)

  const START := Range(map[], 0)

  function At(heights: map<int, Index>, x: int): Index {
    if x in heights then heights[x] else EMPTY
  }

  function AddResponseAt(rg: Range, h: int, r: Response): Range {
    rg.(heights := rg.heights[h := AddResponse(At(rg.heights, h), r)])
  }

  function AddAckAt(rg: Range, h: int, a: Ack): (Range, Error) {
    var (j, err) := AddAck(At(rg.heights, h), a);
    (rg.(heights := rg.heights[h := j]), err)
  }

  // The first height from x to h that knows the ack decides.
  function Scan(heights: map<int, Index>, x: int, h: int, block: Hash, ack: Hash): (map<int, Index>, bool, Error)
    decreases h - x
  {
    if x > h then (heights, false, NoError) else
    if x !in heights then Scan(heights, x + 1, h, block, ack) else
    var (j, known, err) := CheckAck(heights[x], block, ack);
    if known || err != NoError then (heights[x := j], known, err) else
    Scan(heights[x := j], x + 1, h, block, ack)
  }

  function CheckAt(rg: Range, h: int, block: Hash, ack: Hash): (Range, bool, Error) {
    if h < rg.barrier then (rg, false, QueryExpired) else
    var (heights, known, err) := Scan(rg.heights, rg.barrier, h, block, ack);
    (rg.(heights := heights), known, err)
  }

  // One ack is marked at every height in range that knows it.
  function SetRange(heights: map<int, Index>, lo: int, hi: int, ack: Hash, mark: Option<Hash>): map<int, Index> {
    map x | x in heights :: if lo <= x <= hi then SetMark(heights[x], ack, mark) else heights[x]
  }

  function SetBlock(heights: map<int, Index>, lo: int, hi: int, acks: seq<Hash>, mark: Option<Hash>): map<int, Index>
    decreases |acks|
  {
    if acks == [] then heights else SetBlock(SetRange(heights, lo, hi, acks[0], mark), lo, hi, acks[1..], mark)
  }

  function SetSignedBlock(rg: Range, h: int, block: Hash, acks: seq<Hash>): Range {
    rg.(heights := SetBlock(rg.heights, rg.barrier, h, acks, Some(block)))
  }

  function AdvanceBarrier(rg: Range, height: int): Range {
    Range(map x | x in rg.heights && !(rg.barrier <= x < height) :: rg.heights[x], height)
  }

  ghost function MarkIndex(i: Index, inRange: bool): Index {
    if inRange then MarkAll(i) else i
  }

  ghost function MarkRange(rg: Range, height: int): Range {
    Range(map x | x in rg.heights :: MarkIndex(rg.heights[x], rg.barrier <= x < height), rg.barrier)
  }

  // The checks on a block from another producer. An ack nobody knows here is fetched from the
  // producer; what arrives is filed as it is and the ack looked up again.
  function CheckBlock(rg: Range, h: int, block: Hash, acks: seq<Hash>, fetch: Hash -> Option<Ack>): (Range, Error)
    decreases |acks|
  {
    if acks == [] then (rg, NoError) else
    var (rg1, known, err) := CheckAt(rg, h, block, acks[0]);
    if err != NoError then (rg1, err) else
    if known then CheckBlock(rg1, h, block, acks[1..], fetch) else
    if fetch(acks[0]).None? then (rg1, FetchFailed) else
    var (rg2, err2) := AddAckAt(rg1, fetch(acks[0]).value.response.height, fetch(acks[0]).value);
    if err2 != NoError then (rg2, err2) else
    var (rg3, _, err3) := CheckAt(rg2, h, block, acks[0]);
    if err3 != NoError then (rg3, err3) else CheckBlock(rg3, h, block, acks[1..], fetch)
  }

  // CheckAndPushNewBlock as far as the index is concerned.
  function PushBlock(rg: Range, h: int, block: Hash, acks: seq<Hash>, fetch: Hash -> Option<Ack>): (Range, Error) {
    var (rg1, err) := CheckBlock(rg, h, block, acks, fetch);
    if err != NoError then (rg1, err) else (SetSignedBlock(rg1, h, block, acks), NoError)
  }

  // ----- invariant -----

  // The height an ack hash belongs to.
  function HeightOf(hd: Headers, ack: Hash): int {
    hd.heightOf(hd.responseOf(ack))
  }

  ghost predicate Good(hd: Headers, i: Index, x: int) {
    Sound(hd, i) && SignedFirst(hd, i) && forall a :: a in i.acks ==> HeightOf(hd, a) == x
  }

  ghost predicate AllGood(hd: Headers, heights: map<int, Index>) {
    forall x {:trigger Good(hd, heights[x], x)} :: x in heights ==> Good(hd, heights[x], x)
  }

  // If the index knows the ack at its height, it is the first of its query there.
  ghost predicate FirstAt(hd: Headers, heights: map<int, Index>, ack: Hash) {
    var x := HeightOf(hd, ack);
    x in heights && ack in heights[x].acks ==> IsFirst(hd, heights[x], ack)
  }

  lemma AtGood(hd: Headers, heights: map<int, Index>, x: int)
    requires AllGood(hd, heights)
    ensures Good(hd, At(heights, x), x)
  {
    EmptySound(hd);
    assert x in heights ==> Good(hd, heights[x], x);
  }

  lemma UpdateGood(hd: Headers, heights: map<int, Index>, x: int, j: Index)
    requires AllGood(hd, heights) && Good(hd, j, x)
    ensures AllGood(hd, heights[x := j])
  {
    var m := heights[x := j];
    forall y | y in m ensures Good(hd, m[y], y) { assert y != x ==> Good(hd, heights[y], y); }
  }

  lemma AddResponseGood(hd: Headers, rg: Range, h: int, r: Response)
    requires AllGood(hd, rg.heights) && AuthenticResponse(hd, r)
    ensures AllGood(hd, AddResponseAt(rg, h, r).heights)
  {
    AtGood(hd, rg.heights, h);
    AddResponseSound(hd, At(rg.heights, h), r);
    UpdateGood(hd, rg.heights, h, AddResponse(At(rg.heights, h), r));
  }

  lemma AddAckGood(hd: Headers, rg: Range, a: Ack)
    requires AllGood(hd, rg.heights) && AuthenticAck(hd, a)
    ensures AllGood(hd, AddAckAt(rg, a.response.height, a).0.heights)
    ensures AddAckAt(rg, a.response.height, a).1 != CorruptedIndex
  {
    var h := a.response.height;
    AtGood(hd, rg.heights, h);
    AddAckSound(hd, At(rg.heights, h), a);
    UpdateGood(hd, rg.heights, h, AddAck(At(rg.heights, h), a).0);
  }

  // An ack keeps being first through the filing of another one; one filed without complaint is first.
  lemma AddAckFirstAt(hd: Headers, rg: Range, a: Ack, other: Hash)
    requires AllGood(hd, rg.heights) && AuthenticAck(hd, a) && AddAckAt(rg, a.response.height, a).1 == NoError
    requires FirstAt(hd, rg.heights, other) || other == a.headerHash
    ensures FirstAt(hd, AddAckAt(rg, a.response.height, a).0.heights, other)
  {
    var h := a.response.height;
    var i := At(rg.heights, h);
    AtGood(hd, rg.heights, h);
    AddAckIff(hd, i, a);
    if HeightOf(hd, other) == h && IsFirst(hd, i, other) {
      AddAckKeepsFirst(hd, i, a, other);
    }
  }

  lemma {:induction false} ScanGood(hd: Headers, heights: map<int, Index>, x: int, h: int, block: Hash, ack: Hash)
    requires AllGood(hd, heights)
    ensures var (m, known, err) := Scan(heights, x, h, block, ack);
            && AllGood(hd, m) && err != CorruptedIndex
            && m.Keys == heights.Keys
            && (forall y :: y in heights ==> m[y].acks == heights[y].acks)
            && (known <==> x <= HeightOf(hd, ack) <= h && HeightOf(hd, ack) in heights
                           && ack in heights[HeightOf(hd, ack)].acks)
            && (known && err == NoError ==> FirstAt(hd, m, ack))
    decreases h - x
  {
    if x <= h {
      if x in heights {
        assert Good(hd, heights[x], x);
        var (j, known, err) := CheckAck(heights[x], block, ack);
        CheckAckSound(hd, heights[x], block, ack);
        assert Good(hd, j, x);
        UpdateGood(hd, heights, x, j);
        if !known && err == NoError {
          ScanGood(hd, heights[x := j], x + 1, h, block, ack);
        }
      } else {
        ScanGood(hd, heights, x + 1, h, block, ack);
      }
    }
  }

  // ----- blocks -----

  // Two acks of one query at one height that stand for the same response, or do not collide.
  predicate Compatible(hd: Headers, x: Hash, y: Hash) {
    HeightOf(hd, x) == HeightOf(hd, y) && hd.queryOf(hd.responseOf(x)) == hd.queryOf(hd.responseOf(y)) ==>
      hd.responseOf(x) == hd.responseOf(y)
  }

  ghost predicate OneListed(hd: Headers, acks: seq<Hash>) {
    forall x, y :: x in acks && y in acks ==> Compatible(hd, x, y)
  }

  ghost predicate FirstInRange(hd: Headers, rg: Range, h: int, ack: Hash) {
    rg.barrier <= HeightOf(hd, ack) <= h ==> FirstAt(hd, rg.heights, ack)
  }

  lemma {:induction false} ScanKeepsFirst(hd: Headers, heights: map<int, Index>, x: int, h: int, block: Hash, ack: Hash, other: Hash)
    requires AllGood(hd, heights) && FirstAt(hd, heights, other) && Compatible(hd, ack, other)
    ensures FirstAt(hd, Scan(heights, x, h, block, ack).0, other)
    decreases h - x
  {
    if x <= h {
      if x in heights {
        assert Good(hd, heights[x], x);
        var (j, known, err) := CheckAck(heights[x], block, ack);
        CheckAckSound(hd, heights[x], block, ack);
        if x == HeightOf(hd, other) && other in heights[x].acks {
          CheckKeepsFirst(hd, heights[x], block, ack, other);
        }
        UpdateGood(hd, heights, x, j);
        if !known && err == NoError {
          ScanKeepsFirst(hd, heights[x := j], x + 1, h, block, ack, other);
        }
      } else {
        ScanKeepsFirst(hd, heights, x + 1, h, block, ack, other);
      }
    }
  }

  ghost predicate AuthenticFetch(hd: Headers, fetch: Hash -> Option<Ack>) {
    forall x :: fetch(x).Some? ==> AuthenticAck(hd, fetch(x).value)
  }

  // One look-up: afterwards the ack is first if it is known in range, and so is every other
  // ack that was, provided the block does not play them against each other.
  lemma CheckAtGood(hd: Headers, rg: Range, h: int, block: Hash, ack: Hash, done: set<Hash>)
    requires AllGood(hd, rg.heights) && CheckAt(rg, h, block, ack).2 == NoError
    requires forall x :: x in done ==> FirstInRange(hd, rg, h, x) && Compatible(hd, ack, x)
    ensures var rg1 := CheckAt(rg, h, block, ack).0;
            && AllGood(hd, rg1.heights) && rg1.barrier == rg.barrier
            && forall x :: x in done + {ack} ==> FirstInRange(hd, rg1, h, x)
  {
    ScanGood(hd, rg.heights, rg.barrier, h, block, ack);
    var rg1 := CheckAt(rg, h, block, ack).0;
    forall x | x in done ensures FirstInRange(hd, rg1, h, x) {
      if rg.barrier <= HeightOf(hd, x) <= h {
        ScanKeepsFirst(hd, rg.heights, rg.barrier, h, block, ack, x);
      }
    }
  }

  lemma FetchGood(hd: Headers, rg: Range, h: int, a: Ack, done: set<Hash>)
    requires AllGood(hd, rg.heights) && AuthenticAck(hd, a) && AddAckAt(rg, a.response.height, a).1 == NoError
    requires forall x :: x in done ==> FirstInRange(hd, rg, h, x)
    ensures var rg1 := AddAckAt(rg, a.response.height, a).0;
            && AllGood(hd, rg1.heights) && rg1.barrier == rg.barrier
            && forall x :: x in done ==> FirstInRange(hd, rg1, h, x)
  {
    AddAckGood(hd, rg, a);
    var rg1 := AddAckAt(rg, a.response.height, a).0;
    forall x | x in done ensures FirstInRange(hd, rg1, h, x) {
      if rg.barrier <= HeightOf(hd, x) <= h {
        AddAckFirstAt(hd, rg, a, x);
      }
    }
  }

  lemma CheckAtErrors(hd: Headers, rg: Range, h: int, block: Hash, ack: Hash)
    requires AllGood(hd, rg.heights)
    ensures AllGood(hd, CheckAt(rg, h, block, ack).0.heights) && CheckAt(rg, h, block, ack).2 != CorruptedIndex
  {
    if h >= rg.barrier {
      ScanGood(hd, rg.heights, rg.barrier, h, block, ack);
    }
  }

  lemma {:induction false} CheckBlockGood(hd: Headers, rg: Range, h: int, block: Hash, acks: seq<Hash>,
                                          fetch: Hash -> Option<Ack>, done: set<Hash>)
    requires AllGood(hd, rg.heights) && AuthenticFetch(hd, fetch)
    requires forall x :: x in done ==> FirstInRange(hd, rg, h, x)
    requires forall x, y :: x in acks && (y in acks || y in done) ==> Compatible(hd, x, y)
    ensures var (rg1, err) := CheckBlock(rg, h, block, acks, fetch);
            && AllGood(hd, rg1.heights) && rg1.barrier == rg.barrier && err != CorruptedIndex
            && (err == NoError ==> forall x :: x in done || x in acks ==> FirstInRange(hd, rg1, h, x))
    decreases |acks|
  {
    if acks != [] {
      var ack := acks[0];
      var (rg1, known, err) := CheckAt(rg, h, block, ack);
      CheckAtErrors(hd, rg, h, block, ack);
      if err == NoError {
        CheckAtGood(hd, rg, h, block, ack, done);
        if known {
          CheckBlockGood(hd, rg1, h, block, acks[1..], fetch, done + {ack});
        } else if fetch(ack).Some? {
          var a := fetch(ack).value;
          var (rg2, err2) := AddAckAt(rg1, a.response.height, a);
          AddAckGood(hd, rg1, a);
          if err2 == NoError {
            FetchGood(hd, rg1, h, a, done + {ack});
            CheckAtErrors(hd, rg2, h, block, ack);
            if CheckAt(rg2, h, block, ack).2 == NoError {
              CheckAtGood(hd, rg2, h, block, ack, done + {ack});
              CheckBlockGood(hd, CheckAt(rg2, h, block, ack).0, h, block, acks[1..], fetch, done + {ack});
            }
          }
        }
      }
    }
  }

  lemma SetRangeGood(hd: Headers, heights: map<int, Index>, lo: int, hi: int, ack: Hash, mark: Option<Hash>)
    requires AllGood(hd, heights)
    requires mark.Some? && lo <= HeightOf(hd, ack) <= hi ==> FirstAt(hd, heights, ack)
    ensures var m := SetRange(heights, lo, hi, ack, mark);
            && AllGood(hd, m)
            && (forall x :: FirstAt(hd, heights, x) ==> FirstAt(hd, m, x))
  {
    var m := SetRange(heights, lo, hi, ack, mark);
    forall y | y in m
      ensures Good(hd, m[y], y) && m[y].firsts == heights[y].firsts && m[y].acks == heights[y].acks
    {
      assert Good(hd, heights[y], y);
      SetMarkSound(hd, heights[y], ack, mark);
    }
  }

  lemma {:induction false} SetBlockGood(hd: Headers, heights: map<int, Index>, lo: int, hi: int, acks: seq<Hash>, mark: Option<Hash>)
    requires AllGood(hd, heights)
    requires mark.Some? ==> forall x :: x in acks && lo <= HeightOf(hd, x) <= hi ==> FirstAt(hd, heights, x)
    ensures AllGood(hd, SetBlock(heights, lo, hi, acks, mark))
    decreases |acks|
  {
    if acks != [] {
      SetRangeGood(hd, heights, lo, hi, acks[0], mark);
      SetBlockGood(hd, SetRange(heights, lo, hi, acks[0], mark), lo, hi, acks[1..], mark);
    }
  }

  // A block from another producer never meets a corrupted index, and if it lists at most one
  // response per query and height, only first acks are signed when it is through.
  lemma PushBlockGood(hd: Headers, rg: Range, h: int, block: Hash, acks: seq<Hash>, fetch: Hash -> Option<Ack>)
    requires AllGood(hd, rg.heights) && AuthenticFetch(hd, fetch) && OneListed(hd, acks)
    ensures var (rg1, err) := PushBlock(rg, h, block, acks, fetch);
            AllGood(hd, rg1.heights) && rg1.barrier == rg.barrier && err != CorruptedIndex
  {
    var (rg1, err) := CheckBlock(rg, h, block, acks, fetch);
    CheckBlockGood(hd, rg, h, block, acks, fetch, {});
    if err == NoError {
      SetBlockGood(hd, rg1.heights, rg1.barrier, h, acks, Some(block));
    }
  }

  // ----- the operations of the chain -----

  datatype Op =
    | Respond(h: int, response: Response)
    | Acknowledge(ack: Ack)
    | Push(h: int, block: Hash, acks: seq<Hash>, fetch: Hash -> Option<Ack>)
    | PushOwn(h: int, block: Hash, acks: seq<Hash>)
    | Unsign(h: int, acks: seq<Hash>)
    | Collect(height: int)
    | Advance(height: int)

  // What keeps only first acks signed, call by call: verified headers, at most one response per
  // query in a block from elsewhere, and own blocks that list first acks.
  ghost predicate Fits(hd: Headers, rg: Range, op: Op) {
    match op
    case Respond(_, r) => AuthenticResponse(hd, r)
    case Acknowledge(a) => AuthenticAck(hd, a)
    case Push(_, _, acks, fetch) => AuthenticFetch(hd, fetch) && OneListed(hd, acks)
    case PushOwn(h, _, acks) => forall x :: x in acks ==> FirstInRange(hd, rg, h, x)
    case Unsign(_, _) => true
    case Collect(_) => true
    case Advance(_) => true
  }

  ghost function Step(rg: Range, op: Op): (Range, Error) {
    match op
    case Respond(h, r) => (AddResponseAt(rg, h, r), NoError)
    case Acknowledge(a) => AddAckAt(rg, a.response.height, a)
    case Push(h, block, acks, fetch) => PushBlock(rg, h, block, acks, fetch)
    case PushOwn(h, block, acks) => (SetSignedBlock(rg, h, block, acks), NoError)
    case Unsign(h, acks) => (rg.(heights := SetBlock(rg.heights, rg.barrier, h, acks, None)), NoError)
    case Collect(height) => (MarkRange(rg, height), NoError)
    case Advance(height) => (AdvanceBarrier(rg, height), NoError)
  }

  lemma StepGood(hd: Headers, rg: Range, op: Op)
    requires AllGood(hd, rg.heights) && Fits(hd, rg, op)
    ensures AllGood(hd, Step(rg, op).0.heights) && Step(rg, op).1 != CorruptedIndex
  {
    match op
    case Respond(h, r) => AddResponseGood(hd, rg, h, r);
    case Acknowledge(a) => AddAckGood(hd, rg, a);
    case Push(h, block, acks, fetch) => PushBlockGood(hd, rg, h, block, acks, fetch);
    case PushOwn(h, block, acks) => SetBlockGood(hd, rg.heights, rg.barrier, h, acks, Some(block));
    case Unsign(h, acks) => SetBlockGood(hd, rg.heights, rg.barrier, h, acks, None);
    case Collect(height) =>
      var m := MarkRange(rg, height).heights;
      forall x | x in m ensures Good(hd, m[x], x) {
        assert Good(hd, rg.heights[x], x);
        MarkAllSound(hd, rg.heights[x]);
      }
    case Advance(height) =>
      var m := AdvanceBarrier(rg, height).heights;
      forall x | x in m ensures Good(hd, m[x], x) { assert Good(hd, rg.heights[x], x); }
  }

  // ----- a signed first ack is never displaced -----

  ghost predicate PinnedAt(hd: Headers, heights: map<int, Index>, x: int, r: Hash) {
    x in heights && Pinned(hd, heights[x], r)
  }

  // Collecting pins every tracker it picks.
  lemma CollectPins(hd: Headers, rg: Range, height: int, x: int, r: Hash)
    requires AllGood(hd, rg.heights) && x in rg.heights && rg.barrier <= x < height
    requires Unsigned(rg.heights[x], r)
    ensures PinnedAt(hd, MarkRange(rg, height).heights, x, r)
  {
    var i := rg.heights[x];
    assert Good(hd, i, x);
    var k :| k in i.firsts && i.firsts[k] == Some(r);
    assert SlotOk(hd, i, k);
  }

  lemma {:induction false} ScanPins(hd: Headers, heights: map<int, Index>, lo: int, h: int, block: Hash, ack: Hash, x: int, r: Hash)
    requires AllGood(hd, heights) && PinnedAt(hd, heights, x, r)
    ensures PinnedAt(hd, Scan(heights, lo, h, block, ack).0, x, r)
    decreases h - lo
  {
    if lo <= h {
      if lo in heights {
        assert Good(hd, heights[lo], lo);
        CheckAckSound(hd, heights[lo], block, ack);
        var j := CheckAck(heights[lo], block, ack).0;
        if lo == x { PinnedThroughBlocks(hd, heights[lo], r, block, ack); }
        UpdateGood(hd, heights, lo, j);
        ScanPins(hd, heights[lo := j], lo + 1, h, block, ack, x, r);
      } else {
        ScanPins(hd, heights, lo + 1, h, block, ack, x, r);
      }
    }
  }

  lemma AddAckPins(hd: Headers, rg: Range, a: Ack, x: int, r: Hash)
    requires AllGood(hd, rg.heights) && AuthenticAck(hd, a) && PinnedAt(hd, rg.heights, x, r)
    ensures PinnedAt(hd, AddAckAt(rg, a.response.height, a).0.heights, x, r)
  {
    assert Good(hd, rg.heights[x], x);
    PinnedThroughAck(hd, rg.heights[x], r, a);
  }

  lemma {:induction false} CheckBlockPins(hd: Headers, rg: Range, h: int, block: Hash, acks: seq<Hash>,
                                          fetch: Hash -> Option<Ack>, x: int, r: Hash)
    requires AllGood(hd, rg.heights) && AuthenticFetch(hd, fetch) && PinnedAt(hd, rg.heights, x, r)
    ensures PinnedAt(hd, CheckBlock(rg, h, block, acks, fetch).0.heights, x, r)
    decreases |acks|
  {
    if acks != [] {
      var ack := acks[0];
      var (rg1, known, err) := CheckAt(rg, h, block, ack);
      CheckAtErrors(hd, rg, h, block, ack);
      ScanPins(hd, rg.heights, rg.barrier, h, block, ack, x, r);
      if err == NoError && known {
        CheckBlockPins(hd, rg1, h, block, acks[1..], fetch, x, r);
      } else if err == NoError && fetch(ack).Some? {
        var a := fetch(ack).value;
        var (rg2, err2) := AddAckAt(rg1, a.response.height, a);
        AddAckGood(hd, rg1, a);
        AddAckPins(hd, rg1, a, x, r);
        CheckAtErrors(hd, rg2, h, block, ack);
        ScanPins(hd, rg2.heights, rg2.barrier, h, block, ack, x, r);
        CheckBlockPins(hd, CheckAt(rg2, h, block, ack).0, h, block, acks[1..], fetch, x, r);
      }
    }
  }

  lemma {:induction false} SetBlockPins(hd: Headers, heights: map<int, Index>, lo: int, hi: int, acks: seq<Hash>, block: Hash, x: int, r: Hash)
    requires (forall y :: y in heights ==> Sound(hd, heights[y])) && PinnedAt(hd, heights, x, r)
    ensures PinnedAt(hd, SetBlock(heights, lo, hi, acks, Some(block)), x, r)
    decreases |acks|
  {
    if acks != [] {
      var m := SetRange(heights, lo, hi, acks[0], Some(block));
      forall y | y in m ensures Sound(hd, m[y]) {
        assert Sound(hd, heights[y]);
        SetMarkSound(hd, heights[y], acks[0], Some(block));
      }
      assert Sound(hd, heights[x]);
      PinnedThroughBlocks(hd, heights[x], r, block, acks[0]);
      SetBlockPins(hd, m, lo, hi, acks[1..], block, x, r);
    }
  }

  // Resetting other responses leaves a pinned one alone.
  lemma {:induction false} UnsignPins(hd: Headers, heights: map<int, Index>, lo: int, hi: int, acks: seq<Hash>, x: int, r: Hash)
    requires (forall y :: y in heights ==> Sound(hd, heights[y])) && PinnedAt(hd, heights, x, r)
    requires forall a :: a in acks ==> hd.responseOf(a) != r
    ensures PinnedAt(hd, SetBlock(heights, lo, hi, acks, None), x, r)
    decreases |acks|
  {
    if acks != [] {
      var m := SetRange(heights, lo, hi, acks[0], None);
      forall y | y in m ensures Sound(hd, m[y]) {
        assert Sound(hd, heights[y]);
        SetMarkSound(hd, heights[y], acks[0], None);
      }
      assert Sound(hd, heights[x]);
      if acks[0] in heights[x].acks { assert AckOk(hd, heights[x], acks[0]); }
      UnsignPins(hd, m, lo, hi, acks[1..], x, r);
    }
  }

  // Once the first ack of a query carries a mark it stays first and marked, until its height
  // expires or its block is taken back.
  lemma PinnedStep(hd: Headers, rg: Range, op: Op, x: int, r: Hash)
    requires AllGood(hd, rg.heights) && Fits(hd, rg, op) && PinnedAt(hd, rg.heights, x, r)
    requires op.Unsign? ==> forall a :: a in op.acks ==> hd.responseOf(a) != r
    requires op.Advance? ==> x < rg.barrier || op.height <= x
    ensures PinnedAt(hd, Step(rg, op).0.heights, x, r)
  {
    assert Good(hd, rg.heights[x], x);
    forall y | y in rg.heights ensures Sound(hd, rg.heights[y]) { assert Good(hd, rg.heights[y], y); }
    match op
    case Respond(h, resp) => PinnedThroughResponse(hd, rg.heights[x], r, resp);
    case Acknowledge(a) => AddAckPins(hd, rg, a, x, r);
    case Push(h, block, acks, fetch) =>
      var (rg1, err) := CheckBlock(rg, h, block, acks, fetch);
      CheckBlockPins(hd, rg, h, block, acks, fetch, x, r);
      CheckBlockGood(hd, rg, h, block, acks, fetch, {});
      forall y | y in rg1.heights ensures Sound(hd, rg1.heights[y]) { assert Good(hd, rg1.heights[y], y); }
      SetBlockPins(hd, rg1.heights, rg1.barrier, h, acks, block, x, r);
    case PushOwn(h, block, acks) => SetBlockPins(hd, rg.heights, rg.barrier, h, acks, block, x, r);
    case Unsign(h, acks) => UnsignPins(hd, rg.heights, rg.barrier, h, acks, x, r);
    case Collect(height) => PinnedThroughBlocks(hd, rg.heights[x], r, PLACEHOLDER, r);
    case Advance(height) =>
  }

  // An ack that a collection below this height picks: the unsigned first ack of its query.
  ghost predicate Picked(hd: Headers, rg: Range, height: int, a: Hash) {
    var x, r := HeightOf(hd, a), hd.responseOf(a);
    rg.barrier <= x < height && x in rg.heights && Unsigned(rg.heights[x], r) && AckHash(rg.heights[x], r) == Some(a)
  }
}
