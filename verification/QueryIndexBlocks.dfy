// Which block has which ack: marks through checks, pushes and everything else that happens to the
// index (sqlchain/queryindex.go, sqlchain/chain.go).

module QueryIndexBlocks {
  import opened Common
  import opened QueryIndexSpec
  import opened QueryIndexHeights

  function MarkAt(heights: map<int, Index>, x: int, r: Hash): Option<Hash> {
    Mark(At(heights, x), r)
  }

  // The index knows the ack, at the only height it can.
  predicate KnownAt(hd: Headers, heights: map<int, Index>, a: Hash) {
    a in At(heights, HeightOf(hd, a)).acks
  }

  predicate InRange(hd: Headers, rg: Range, h: int, a: Hash) {
    rg.barrier <= HeightOf(hd, a) <= h
  }

  // Every tracker and every ack hash is as it was.
  ghost predicate SameTrackers(m: map<int, Index>, n: map<int, Index>) {
    forall x {:trigger At(n, x)} :: At(n, x).resp == At(m, x).resp && At(n, x).acks == At(m, x).acks
  }

  // ----- one check -----

  lemma {:induction false} ScanIff(hd: Headers, heights: map<int, Index>, x: int, h: int, block: Hash, ack: Hash)
    requires AllGood(hd, heights)
    ensures var (m, known, err) := Scan(heights, x, h, block, ack);
            && SameTrackers(heights, m)
            && (known <==> x <= HeightOf(hd, ack) <= h && KnownAt(hd, heights, ack))
            && (err == NoError <==> !known || OnlyBy(hd, At(heights, HeightOf(hd, ack)), hd.responseOf(ack), block))
            && (err != NoError ==> err == QuerySignedByAnotherBlock && m == heights)
    decreases h - x
  {
    hide CheckAck, OnlyBy, Sound, SignedFirst;
    if x <= h {
      if x in heights {
        assert Good(hd, heights[x], x);
        var (j, known, err) := CheckAck(heights[x], block, ack);
        CheckAckSound(hd, heights[x], block, ack);
        CheckAckIff(hd, heights[x], block, ack);
        assert heights[x := heights[x]] == heights;
        if !known {
          CheckUnknown(heights[x], block, ack);
          ScanIff(hd, heights, x + 1, h, block, ack);
        }
      } else {
        ScanIff(hd, heights, x + 1, h, block, ack);
      }
    }
  }

  lemma CheckUnknown(i: Index, block: Hash, ack: Hash)
    requires !CheckAck(i, block, ack).1
    ensures CheckAck(i, block, ack) == (i, false, NoError)
  {
  }

  // A look-up on behalf of a block: refused as expired below the barrier; otherwise it knows what
  // is filed in range, and refuses exactly what another block, or the placeholder, stands against.
  lemma CheckAtIff(hd: Headers, rg: Range, h: int, block: Hash, ack: Hash)
    requires AllGood(hd, rg.heights)
    ensures var (rg1, known, err) := CheckAt(rg, h, block, ack);
            && SameTrackers(rg.heights, rg1.heights) && rg1.barrier == rg.barrier
            && (err == QueryExpired <==> h < rg.barrier)
            && (known <==> InRange(hd, rg, h, ack) && KnownAt(hd, rg.heights, ack))
            && (known ==> (err == NoError <==> OnlyBy(hd, At(rg.heights, HeightOf(hd, ack)), hd.responseOf(ack), block)))
            && (err != NoError ==> rg1 == rg && err in {QueryExpired, QuerySignedByAnotherBlock})
            && (!known && h >= rg.barrier ==> err == NoError)
  {
    hide Scan, OnlyBy;
    if h >= rg.barrier { ScanIff(hd, rg.heights, rg.barrier, h, block, ack); }
  }

  // ----- a whole block -----

  ghost predicate SameMarks(m: map<int, Index>, n: map<int, Index>) {
    forall x, r {:trigger MarkAt(n, x, r)} :: MarkAt(n, x, r) == MarkAt(m, x, r)
  }

  ghost predicate StillKnown(hd: Headers, m: map<int, Index>, n: map<int, Index>) {
    forall a {:trigger KnownAt(hd, n, a)} :: KnownAt(hd, m, a) ==> KnownAt(hd, n, a)
  }

  // Nothing but this block has the ack, as far as it is known in range.
  ghost predicate Clear(hd: Headers, rg: Range, h: int, block: Hash, a: Hash) {
    InRange(hd, rg, h, a) && KnownAt(hd, rg.heights, a) ==>
      MarkAt(rg.heights, HeightOf(hd, a), hd.responseOf(a)) in {None, Some(block)}
  }

  // What arrives on request is what was asked for.
  ghost predicate Faithful(fetch: Hash -> Option<Ack>) {
    forall a :: fetch(a).Some? ==> fetch(a).value.headerHash == a
  }

  // An ack that was not known is not marked once it is accepted.
  lemma NewAckUnmarked(hd: Headers, i: Index, a: Ack)
    requires Sound(hd, i) && AuthenticAck(hd, a) && a.headerHash !in i.acks && AddAck(i, a).1 == NoError
    ensures Mark(AddAck(i, a).0, a.response.headerHash).None?
  {
    var r := a.response.headerHash;
    AddAckIff(hd, i, a);
    AckFiled(hd, i, a, r);
    assert r in i.resp ==> TrackerOk(hd, i, r);
  }

  lemma FetchMarks(hd: Headers, rg: Range, a: Ack)
    requires AllGood(hd, rg.heights) && AuthenticAck(hd, a)
    ensures var rg1 := AddAckAt(rg, a.response.height, a).0;
            && SameMarks(rg.heights, rg1.heights) && StillKnown(hd, rg.heights, rg1.heights)
            && KnownAt(hd, rg1.heights, a.headerHash) && rg1.barrier == rg.barrier
  {
    hide AddAck, Sound, Mark;
    var h := a.response.height;
    var m := AddAckAt(rg, h, a).0.heights;
    AtGood(hd, rg.heights, h);
    forall x, r ensures MarkAt(m, x, r) == MarkAt(rg.heights, x, r) { AckFiled(hd, At(rg.heights, h), a, r); }
    AckFiled(hd, At(rg.heights, h), a, a.headerHash);
  }

  lemma FetchClear(hd: Headers, rg: Range, h: int, block: Hash, a: Ack, d: Hash)
    requires AllGood(hd, rg.heights) && AuthenticAck(hd, a) && AddAckAt(rg, a.response.height, a).1 == NoError
    requires Clear(hd, rg, h, block, d)
    ensures Clear(hd, AddAckAt(rg, a.response.height, a).0, h, block, d)
  {
    hide AddAck, Sound, Mark;
    var i := At(rg.heights, a.response.height);
    AtGood(hd, rg.heights, a.response.height);
    FetchMarks(hd, rg, a);
    AckFiled(hd, i, a, d);
    if d == a.headerHash && d !in i.acks {
      NewAckUnmarked(hd, i, a);
    }
  }

  lemma CheckClear(hd: Headers, rg: Range, h: int, block: Hash, ack: Hash, d: Hash)
    requires AllGood(hd, rg.heights) && CheckAt(rg, h, block, ack).2 == NoError && (Clear(hd, rg, h, block, d) || d == ack)
    ensures Clear(hd, CheckAt(rg, h, block, ack).0, h, block, d)
  {
    hide CheckAt;
    CheckAtIff(hd, rg, h, block, ack);
    var rg1 := CheckAt(rg, h, block, ack).0;
    var x, r := HeightOf(hd, d), hd.responseOf(d);
    assert At(rg1.heights, x).resp == At(rg.heights, x).resp && At(rg1.heights, x).acks == At(rg.heights, x).acks;
    assert Mark(At(rg.heights, x), r).Some? ==> r in At(rg.heights, x).resp;
  }

  lemma SameTrackersMarks(hd: Headers, m: map<int, Index>, n: map<int, Index>)
    requires SameTrackers(m, n)
    ensures SameMarks(m, n) && StillKnown(hd, m, n)
  {
    forall x, r ensures MarkAt(n, x, r) == MarkAt(m, x, r) { assert At(n, x).resp == At(m, x).resp; }
    forall a | KnownAt(hd, m, a) ensures KnownAt(hd, n, a) { assert At(n, HeightOf(hd, a)).acks == At(m, HeightOf(hd, a)).acks; }
  }

  // What the checks of a block leave behind, given the acks done before.
  ghost predicate Checked(hd: Headers, rg: Range, h: int, block: Hash, done: set<Hash>, rg1: Range) {
    && SameMarks(rg.heights, rg1.heights) && StillKnown(hd, rg.heights, rg1.heights) && rg1.barrier == rg.barrier
    && forall d {:trigger Clear(hd, rg1, h, block, d)} :: d in done ==> Clear(hd, rg1, h, block, d)
  }

  lemma CheckedTrans(hd: Headers, rg: Range, h: int, block: Hash, done: set<Hash>, rg1: Range, more: set<Hash>, rg2: Range)
    requires Checked(hd, rg, h, block, done, rg1) && Checked(hd, rg1, h, block, more, rg2)
    ensures Checked(hd, rg, h, block, more, rg2)
  {
    hide MarkAt, KnownAt, Clear;
  }

  lemma CheckedAt(hd: Headers, rg: Range, h: int, block: Hash, ack: Hash, done: set<Hash>)
    requires AllGood(hd, rg.heights) && forall d :: d in done ==> Clear(hd, rg, h, block, d)
    ensures var (rg1, known, err) := CheckAt(rg, h, block, ack);
            Checked(hd, rg, h, block, if err == NoError then done + {ack} else {}, rg1)
  {
    hide CheckAt, Clear;
    CheckAtIff(hd, rg, h, block, ack);
    var (rg1, known, err) := CheckAt(rg, h, block, ack);
    SameTrackersMarks(hd, rg.heights, rg1.heights);
    if err == NoError {
      forall d | d in done + {ack} ensures Clear(hd, rg1, h, block, d) { CheckClear(hd, rg, h, block, ack, d); }
    }
  }

  lemma CheckedFetch(hd: Headers, rg: Range, h: int, block: Hash, a: Ack, done: set<Hash>)
    requires AllGood(hd, rg.heights) && AuthenticAck(hd, a) && forall d :: d in done ==> Clear(hd, rg, h, block, d)
    ensures var (rg1, err) := AddAckAt(rg, a.response.height, a);
            Checked(hd, rg, h, block, if err == NoError then done else {}, rg1)
  {
    hide AddAckAt, Clear;
    FetchMarks(hd, rg, a);
    var (rg1, err) := AddAckAt(rg, a.response.height, a);
    if err == NoError {
      forall d | d in done ensures Clear(hd, rg1, h, block, d) { FetchClear(hd, rg, h, block, a, d); }
    }
  }

  ghost function Set(acks: seq<Hash>): set<Hash> {
    set a | a in acks
  }

  // The checks of a block change no mark. If it passes, nothing else has any of its acks.
  lemma {:induction false} CheckBlockMarks(hd: Headers, rg: Range, h: int, block: Hash, acks: seq<Hash>, fetch: Hash -> Option<Ack>, done: set<Hash>)
    requires AllGood(hd, rg.heights) && AuthenticFetch(hd, fetch) && forall d :: d in done ==> Clear(hd, rg, h, block, d)
    ensures var (rg1, err) := CheckBlock(rg, h, block, acks, fetch);
            Checked(hd, rg, h, block, if err == NoError then done + Set(acks) else {}, rg1)
    decreases |acks|
  {
    hide CheckAt, AddAckAt, Clear, AllGood, SameMarks, StillKnown;
    if acks == [] {
      assert done + Set([]) == done;
      SameTrackersMarks(hd, rg.heights, rg.heights);
    } else {
      var ack, rest := acks[0], acks[1..];
      assert {ack} + Set(rest) == Set(acks);
      var (rg1, known, err) := CheckAt(rg, h, block, ack);
      CheckAtErrors(hd, rg, h, block, ack);
      CheckedAt(hd, rg, h, block, ack, done);
      if err == NoError && known {
        CheckBlockMarks(hd, rg1, h, block, rest, fetch, done + {ack});
        assert done + {ack} + Set(rest) == done + Set(acks);
        var (rg2, err2) := CheckBlock(rg, h, block, acks, fetch);
        CheckedTrans(hd, rg, h, block, done + {ack}, rg1, if err2 == NoError then done + Set(acks) else {}, rg2);
      } else if err == NoError && fetch(ack).Some? {
        FetchedMarks(hd, rg, h, block, acks, fetch, done);
      }
    }
  }

  // The part behind a fetch.
  lemma {:induction false} FetchedMarks(hd: Headers, rg: Range, h: int, block: Hash, acks: seq<Hash>, fetch: Hash -> Option<Ack>, done: set<Hash>)
    requires AllGood(hd, rg.heights) && AuthenticFetch(hd, fetch) && (forall d :: d in done ==> Clear(hd, rg, h, block, d)) && acks != []
    requires var (rg1, known, err) := CheckAt(rg, h, block, acks[0]); !known && err == NoError && fetch(acks[0]).Some?
    ensures var (rg1, err) := CheckBlock(rg, h, block, acks, fetch);
            Checked(hd, rg, h, block, if err == NoError then done + Set(acks) else {}, rg1)
    decreases |acks|, 0
  {
    hide CheckAt, AddAckAt, Clear, AllGood, SameMarks, StillKnown;
    var ack, rest, a := acks[0], acks[1..], fetch(acks[0]).value;
    var all := done + {ack};
    var rg1 := CheckAt(rg, h, block, ack).0;
    CheckAtErrors(hd, rg, h, block, ack);
    CheckedAt(hd, rg, h, block, ack, done);
    var (rg2, err2) := AddAckAt(rg1, a.response.height, a);
    AddAckGood(hd, rg1, a);
    CheckedFetch(hd, rg1, h, block, a, all);
    var done2 := if err2 == NoError then all else {};
    CheckedTrans(hd, rg, h, block, all, rg1, done2, rg2);
    if err2 == NoError {
      var (rg3, _, err3) := CheckAt(rg2, h, block, ack);
      CheckAtErrors(hd, rg2, h, block, ack);
      CheckedAt(hd, rg2, h, block, ack, all);
      assert all + {ack} == all;
      var done3 := if err3 == NoError then all else {};
      CheckedTrans(hd, rg, h, block, done2, rg2, done3, rg3);
      if err3 == NoError {
        CheckBlockMarks(hd, rg3, h, block, rest, fetch, all);
        assert all + Set(rest) == done + Set(acks);
        var (rg4, err4) := CheckBlock(rg3, h, block, rest, fetch);
        CheckedTrans(hd, rg, h, block, done3, rg3, if err4 == NoError then done + Set(acks) else {}, rg4);
      }
    }
  }

  lemma PassedIsClear(hd: Headers, rg: Range, h: int, block: Hash, acks: seq<Hash>, fetch: Hash -> Option<Ack>, a: Hash)
    requires AllGood(hd, rg.heights) && AuthenticFetch(hd, fetch) && a in acks && CheckBlock(rg, h, block, acks, fetch).1 == NoError
    ensures Clear(hd, CheckBlock(rg, h, block, acks, fetch).0, h, block, a)
  {
    hide CheckBlock, Clear;
    CheckBlockMarks(hd, rg, h, block, acks, fetch, {});
    assert a in {} + Set(acks);
  }

  // ----- signing -----

  // One of these acks stands for this response here.
  ghost predicate Listed(hd: Headers, i: Index, acks: seq<Hash>, r: Hash) {
    exists a :: a in acks && a in i.acks && hd.responseOf(a) == r
  }

  // Setting or resetting a block changes exactly the marks of the listed acks at the heights in
  // range, and nothing else about the index.
  lemma {:induction false} SetBlockMarks(hd: Headers, heights: map<int, Index>, lo: int, hi: int, acks: seq<Hash>,
                                         mark: Option<Hash>, x: int, r: Hash)
    requires forall y {:trigger heights[y]} :: y in heights ==> Sound(hd, heights[y])
    ensures var m := SetBlock(heights, lo, hi, acks, mark);
            && m.Keys == heights.Keys && At(m, x).acks == At(heights, x).acks && At(m, x).firsts == At(heights, x).firsts
            && MarkAt(m, x, r) == (if lo <= x <= hi && Listed(hd, At(heights, x), acks, r) then mark else MarkAt(heights, x, r))
            && AckHash(At(m, x), r) == AckHash(At(heights, x), r)
    decreases |acks|
  {
    hide Sound, Mark, AckHash, SetMark;
    if acks != [] {
      var m := SetRange(heights, lo, hi, acks[0], mark);
      forall y | y in m ensures Sound(hd, m[y]) { SetMarkSound(hd, heights[y], acks[0], mark); }
      SetBlockMarks(hd, m, lo, hi, acks[1..], mark, x, r);
      if x in heights {
        SetMarkSound(hd, heights[x], acks[0], mark);
        SetMarkAt(hd, heights[x], acks[0], mark, r);
      }
    }
  }

  lemma SetMarkAt(hd: Headers, i: Index, ack: Hash, mark: Option<Hash>, r: Hash)
    requires Sound(hd, i)
    ensures var j := SetMark(i, ack, mark);
            && Mark(j, r) == (if ack in i.acks && hd.responseOf(ack) == r then mark else Mark(i, r))
            && AckHash(j, r) == AckHash(i, r)
  {
    if ack in i.acks { assert AckOk(hd, i, ack); }
  }

  lemma AllSound(hd: Headers, heights: map<int, Index>)
    requires AllGood(hd, heights)
    ensures forall y {:trigger heights[y]} :: y in heights ==> Sound(hd, heights[y])
  {
    forall y | y in heights ensures Sound(hd, heights[y]) { assert Good(hd, heights[y], y); }
  }

  // Pushing a block of another producer never takes an ack away from the block that has it, or from
  // the one it was collected for.
  lemma PushKeepsMarks(hd: Headers, rg: Range, h: int, block: Hash, acks: seq<Hash>, fetch: Hash -> Option<Ack>, x: int, r: Hash)
    requires AllGood(hd, rg.heights) && AuthenticFetch(hd, fetch) && OneListed(hd, acks) && MarkAt(rg.heights, x, r).Some?
    ensures MarkAt(PushBlock(rg, h, block, acks, fetch).0.heights, x, r) == MarkAt(rg.heights, x, r)
  {
    hide CheckBlock, SetBlock, Mark;
    var (rg1, err) := CheckBlock(rg, h, block, acks, fetch);
    CheckBlockMarks(hd, rg, h, block, acks, fetch, {});
    CheckBlockGood(hd, rg, h, block, acks, fetch, {});
    assert MarkAt(rg1.heights, x, r) == MarkAt(rg.heights, x, r);
    if err == NoError {
      AllSound(hd, rg1.heights);
      SetBlockMarks(hd, rg1.heights, rg1.barrier, h, acks, Some(block), x, r);
      if a :| rg1.barrier <= x <= h && a in acks && a in At(rg1.heights, x).acks && hd.responseOf(a) == r {
        assert Good(hd, rg1.heights[x], x);
        PassedIsClear(hd, rg, h, block, acks, fetch, a);
      }
    }
  }

  // A block that gets through has every ack it lists, in its range, as far as what was fetched is
  // what was asked for: known, first of its query, and marked by this block.
  lemma PushSigns(hd: Headers, rg: Range, h: int, block: Hash, acks: seq<Hash>, fetch: Hash -> Option<Ack>, a: Hash)
    requires AllGood(hd, rg.heights) && AuthenticFetch(hd, fetch) && Faithful(fetch) && OneListed(hd, acks)
    requires PushBlock(rg, h, block, acks, fetch).1 == NoError && a in acks && InRange(hd, rg, h, a)
    ensures var m, x := PushBlock(rg, h, block, acks, fetch).0.heights, HeightOf(hd, a);
            KnownAt(hd, m, a) && IsFirst(hd, At(m, x), a) && MarkAt(m, x, hd.responseOf(a)) == Some(block)
  {
    hide CheckBlock, SetBlock, Mark, IsFirst;
    var rg1 := CheckBlock(rg, h, block, acks, fetch).0;
    var x, r := HeightOf(hd, a), hd.responseOf(a);
    CheckBlockGood(hd, rg, h, block, acks, fetch, {});
    CheckBlockKnows(hd, rg, h, block, acks, fetch, a);
    assert FirstInRange(hd, rg1, h, a);
    AllSound(hd, rg1.heights);
    SetBlockMarks(hd, rg1.heights, rg1.barrier, h, acks, Some(block), x, r);
    assert Listed(hd, At(rg1.heights, x), acks, r);
    SameFirstsFirst(hd, At(rg1.heights, x), At(PushBlock(rg, h, block, acks, fetch).0.heights, x), a);
  }

  lemma SameFirstsFirst(hd: Headers, i: Index, j: Index, a: Hash)
    requires IsFirst(hd, i, a) && j.firsts == i.firsts
    ensures IsFirst(hd, j, a)
  {
  }

  lemma {:induction false} CheckBlockKnows(hd: Headers, rg: Range, h: int, block: Hash, acks: seq<Hash>, fetch: Hash -> Option<Ack>, a: Hash)
    requires AllGood(hd, rg.heights) && AuthenticFetch(hd, fetch) && Faithful(fetch) && CheckBlock(rg, h, block, acks, fetch).1 == NoError
    requires a in acks || KnownAt(hd, rg.heights, a)
    ensures KnownAt(hd, CheckBlock(rg, h, block, acks, fetch).0.heights, a)
    decreases |acks|
  {
    hide CheckAt, AddAckAt, AllGood, KnownAt;
    if acks != [] {
      var ack, rest := acks[0], acks[1..];
      var (rg1, known, err) := CheckAt(rg, h, block, ack);
      CheckAtErrors(hd, rg, h, block, ack);
      CheckAtIff(hd, rg, h, block, ack);
      SameTrackersMarks(hd, rg.heights, rg1.heights);
      if known {
        assert KnownAt(hd, rg1.heights, ack);
        CheckBlockKnows(hd, rg1, h, block, rest, fetch, a);
      } else {
        var f := fetch(ack).value;
        AddAckGood(hd, rg1, f);
        FetchMarks(hd, rg1, f);
        var rg2 := AddAckAt(rg1, f.response.height, f).0;
        CheckAtErrors(hd, rg2, h, block, ack);
        CheckAtIff(hd, rg2, h, block, ack);
        var rg3 := CheckAt(rg2, h, block, ack).0;
        SameTrackersMarks(hd, rg2.heights, rg3.heights);
        assert KnownAt(hd, rg3.heights, ack);
        CheckBlockKnows(hd, rg3, h, block, rest, fetch, a);
      }
    }
  }

  // A block whose acks are all known in range is accepted exactly when of each one's query nothing
  // is marked but the listed response, and that by this very block. Otherwise nothing is marked.
  lemma {:induction false} CheckKnownIff(hd: Headers, rg: Range, h: int, block: Hash, acks: seq<Hash>, fetch: Hash -> Option<Ack>)
    requires AllGood(hd, rg.heights)
    requires forall a :: a in acks ==> InRange(hd, rg, h, a) && KnownAt(hd, rg.heights, a)
    ensures var (rg1, err) := CheckBlock(rg, h, block, acks, fetch);
            && SameTrackers(rg.heights, rg1.heights)
            && (err == NoError <==> forall a :: a in acks ==> OnlyBy(hd, At(rg.heights, HeightOf(hd, a)), hd.responseOf(a), block))
            && (err != NoError ==> err == QuerySignedByAnotherBlock)
    decreases |acks|
  {
    hide CheckAt, AllGood;
    if acks != [] {
      var ack, rest := acks[0], acks[1..];
      var (rg1, known, err) := CheckAt(rg, h, block, ack);
      assert acks == [ack] + rest;
      CheckAtErrors(hd, rg, h, block, ack);
      CheckAtIff(hd, rg, h, block, ack);
      SameTrackersMarks(hd, rg.heights, rg1.heights);
      if err == NoError {
        forall a | a in rest ensures InRange(hd, rg1, h, a) && KnownAt(hd, rg1.heights, a) {
          assert a in acks && KnownAt(hd, rg.heights, a);
        }
        CheckKnownIff(hd, rg1, h, block, rest, fetch);
        forall a | a in rest
          ensures OnlyBy(hd, At(rg1.heights, HeightOf(hd, a)), hd.responseOf(a), block)
                  <==> OnlyBy(hd, At(rg.heights, HeightOf(hd, a)), hd.responseOf(a), block)
        {
          assert At(rg1.heights, HeightOf(hd, a)).resp == At(rg.heights, HeightOf(hd, a)).resp;
        }
      }
    }
  }

  lemma PushKnownIff(hd: Headers, rg: Range, h: int, block: Hash, acks: seq<Hash>, fetch: Hash -> Option<Ack>)
    requires AllGood(hd, rg.heights)
    requires forall a :: a in acks ==> InRange(hd, rg, h, a) && KnownAt(hd, rg.heights, a)
    ensures PushBlock(rg, h, block, acks, fetch).1 == NoError <==>
            forall a :: a in acks ==> OnlyBy(hd, At(rg.heights, HeightOf(hd, a)), hd.responseOf(a), block)
  {
    CheckKnownIff(hd, rg, h, block, acks, fetch);
  }

  // A block below the barrier that lists anything is refused as expired, and changes nothing.
  lemma PushExpired(hd: Headers, rg: Range, h: int, block: Hash, acks: seq<Hash>, fetch: Hash -> Option<Ack>)
    requires h < rg.barrier && acks != []
    ensures PushBlock(rg, h, block, acks, fetch) == (rg, QueryExpired)
  {
  }

  // Taking a block back leaves the acks it lists unmarked, so that the first ones can be collected
  // again.
  lemma ResetFrees(hd: Headers, rg: Range, h: int, acks: seq<Hash>, a: Hash)
    requires AllGood(hd, rg.heights) && a in acks && InRange(hd, rg, h, a) && KnownAt(hd, rg.heights, a)
    ensures var m, x, r := Step(rg, Unsign(h, acks)).0.heights, HeightOf(hd, a), hd.responseOf(a);
            MarkAt(m, x, r).None? && (IsFirst(hd, At(rg.heights, x), a) ==> Unsigned(At(m, x), r))
  {
    hide SetBlock;
    var x, r := HeightOf(hd, a), hd.responseOf(a);
    AllSound(hd, rg.heights);
    SetBlockMarks(hd, rg.heights, rg.barrier, h, acks, None, x, r);
    assert Listed(hd, At(rg.heights, x), acks, r);
    AtGood(hd, rg.heights, x);
    assert AckOk(hd, At(rg.heights, x), a);
  }

  // ----- collecting and expiring -----

  // A collection marks the unsigned first acks from the barrier up to, not including, the height,
  // with the placeholder; every query below the height with a first ack has a mark afterwards.
  lemma CollectMarks(rg: Range, height: int, x: int, r: Hash, k: QueryKey)
    ensures var m, i := MarkRange(rg, height).heights, At(rg.heights, x);
            var j := At(m, x);
            && j.acks == i.acks && j.firsts == i.firsts && AckHash(j, r) == AckHash(i, r)
            && (MarkAt(rg.heights, x, r).Some? || x < rg.barrier || height <= x ==> MarkAt(m, x, r) == MarkAt(rg.heights, x, r))
            && (MarkAt(m, x, r) == MarkAt(rg.heights, x, r) || MarkAt(m, x, r) == Some(PLACEHOLDER))
            && (rg.barrier <= x < height && k in i.firsts && i.firsts[k].Some? && i.firsts[k].value in i.resp ==>
                  MarkAt(m, x, i.firsts[k].value).Some?)
            && (MarkAt(m, x, r).Some? && MarkAt(rg.heights, x, r).None? ==> exists q :: q in i.firsts && i.firsts[q] == Some(r))
  {
  }

  // Raising the barrier forgets the heights it passes and keeps all others.
  lemma Expires(hd: Headers, rg: Range, height: int, a: Hash)
    requires rg.barrier <= height
    ensures var rg1, x := AdvanceBarrier(rg, height), HeightOf(hd, a);
            && (rg.barrier <= x < height ==> !KnownAt(hd, rg1.heights, a) && forall r :: MarkAt(rg1.heights, x, r).None?)
            && (!(rg.barrier <= x < height) ==> At(rg1.heights, x) == At(rg.heights, x))
            && forall h, block :: h < height ==> CheckAt(rg1, h, block, a) == (rg1, false, QueryExpired)
  {
  }

  // ----- every operation -----

  // A mark stays with its block: only resetting it, pushing it in an own block, or the end of its
  // height can change it.
  lemma MarkStays(hd: Headers, rg: Range, op: Op, x: int, r: Hash)
    requires AllGood(hd, rg.heights) && Fits(hd, rg, op) && MarkAt(rg.heights, x, r).Some?
    requires op.Unsign? ==> forall a :: a in op.acks ==> hd.responseOf(a) != r
    requires op.PushOwn? && rg.barrier <= x <= op.h ==> forall a :: a in op.acks ==> hd.responseOf(a) != r
    requires op.Advance? ==> x < rg.barrier || op.height <= x
    ensures MarkAt(Step(rg, op).0.heights, x, r) == MarkAt(rg.heights, x, r)
  {
    hide PushBlock, SetBlock, AddAck, AddResponse, Mark, MarkAll;
    AllSound(hd, rg.heights);
    AtGood(hd, rg.heights, x);
    match op
    case Respond(h, resp) => ResponseFiled(At(rg.heights, h), resp, r);
    case Acknowledge(a) =>
      AtGood(hd, rg.heights, a.response.height);
      AckFiled(hd, At(rg.heights, a.response.height), a, r);
    case Push(h, block, acks, fetch) => PushKeepsMarks(hd, rg, h, block, acks, fetch, x, r);
    case PushOwn(h, block, acks) => SetBlockMarks(hd, rg.heights, rg.barrier, h, acks, Some(block), x, r);
    case Unsign(h, acks) => SetBlockMarks(hd, rg.heights, rg.barrier, h, acks, None, x, r);
    case Collect(height) => CollectMarks(rg, height, x, r, QueryKey("", 0, 0));
    case Advance(height) =>
  }
}
