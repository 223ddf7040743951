// The query index of one height and of a range of heights as values (sqlchain/queryindex.go).
// A request tracker is identified by the response hash it is stored under.

module QueryIndexSpec {
  import opened Common

  // Hashes are only ever compared here.
  datatype Hash = Hash(digest: nat)

  datatype QueryKey = QueryKey(nodeID: string, connectionID: uint64, seqNo: uint64)

  // Of a signed header only its hash, the request it belongs to, the height its timestamp falls
  // into and its signature matter here.
  datatype Response = Response(headerHash: Hash, key: QueryKey, height: int, signature: nat)
  datatype Ack = Ack(headerHash: Hash, response: Response, signature: nat)

  datatype Error = NoError | CorruptedIndex | MultipleAckOfResponse | MultipleAckOfSeqNo
                 | QuerySignedByAnotherBlock | QueryExpired | QueryNotCached | FetchFailed

  // The all-zero hash, kept in place of a block until one is pushed.
  const PLACEHOLDER := Hash(0)

  datatype Tracker = Tracker(response: Response, ack: Option<Ack>, signedBlock: Option<Hash>)

  // The tracker under each response hash, the tracker an ack hash leads to, and the first
  // acknowledged tracker of each query, if any.
  datatype Index = Index(resp: map<Hash, Tracker>, acks: map<Hash, Hash>, firsts: map<QueryKey, Option<Hash>>)

  const EMPTY := Index(map[], map[], map[])

  // Headers are verified before they reach the index, so a header hash stands for one header:
  // which query a response answers at which height, and which response an ack acknowledges.
  datatype Headers = Headers(queryOf: Hash -> QueryKey, heightOf: Hash -> int, responseOf: Hash -> Hash)

  predicate AuthenticResponse(hd: Headers, r: Response) {
    hd.queryOf(r.headerHash) == r.key && hd.heightOf(r.headerHash) == r.height
  }

  predicate AuthenticAck(hd: Headers, a: Ack) {
    AuthenticResponse(hd, a.response) && hd.responseOf(a.headerHash) == a.response.headerHash
  }

  // ----- operations on one height -----

  function Ensure(firsts: map<QueryKey, Option<Hash>>, k: QueryKey): (f: map<QueryKey, Option<Hash>>)
    ensures k in f
  {
    if k in firsts then firsts else firsts[k := None]
  }

  function AddResponse(i: Index, r: Response): Index {
    if r.headerHash in i.resp then
      i.(resp := i.resp[r.headerHash := i.resp[r.headerHash].(response := r)])
    else
      i.(resp := i.resp[r.headerHash := Tracker(r, None, None)],
         firsts := Ensure(i.firsts, r.key))
  }

  // The ack a tracker carries, if any.
  function AckHash(i: Index, r: Hash): Option<Hash> {
    if r in i.resp && i.resp[r].ack.Some? then Some(i.resp[r].ack.value.headerHash) else None
  }

  function Mark(i: Index, r: Hash): Option<Hash> {
    if r in i.resp then i.resp[r].signedBlock else None
  }

  // Promoting a tracker to first ack of a query.
  function Promote(i: Index, k: QueryKey, r: Hash): Index
    requires k in i.firsts
  {
    i.(firsts := i.firsts[k := Some(r)])
  }

  // The first acknowledgement wins; later ones for the same query are reported.
  function SettleFirst(i: Index, a: Ack): (Index, Error)
    requires a.response.key in i.firsts
  {
    var first := i.firsts[a.response.key];
    if first.None? then (Promote(i, a.response.key, a.response.headerHash), NoError) else
    if AckHash(i, first.value) != Some(a.headerHash) then (i, MultipleAckOfSeqNo) else
    (i, NoError)
  }

  // Everything addAck does before it settles the first acknowledgement.
  function FileAck(i: Index, a: Ack): Index {
    var k, r := a.response.key, a.response.headerHash;
    var firsts := Ensure(i.firsts, k);
    var acks := i.acks[a.headerHash := r];
    if r in i.resp && i.resp[r].ack.Some? then
      Index(i.resp, acks, firsts)
    else
      Index(i.resp[r := Tracker(a.response, Some(a), None)], acks, firsts)
  }

  function AddAck(i: Index, a: Ack): (Index, Error) {
    var earlier := AckHash(i, a.response.headerHash);
    var j := FileAck(i, a);
    if earlier.Some? && earlier.value != a.headerHash then (j, MultipleAckOfResponse) else SettleFirst(j, a)
  }

  // Looking a known ack up meets an acknowledged tracker, or the index is corrupted.
  function CheckAck(i: Index, block: Hash, ack: Hash): (Index, bool, Error) {
    if ack !in i.acks then (i, false, NoError) else
    var r := i.acks[ack];
    if Mark(i, r).Some? && Mark(i, r).value != block then (i, true, QuerySignedByAnotherBlock) else
    if r !in i.resp || i.resp[r].ack.None? || i.resp[r].response.headerHash != r then (i, true, CorruptedIndex) else
    var k := i.resp[r].ack.value.response.key;
    if k !in i.firsts || i.firsts[k].None? then (i, true, CorruptedIndex) else
    var first := i.firsts[k].value;
    if first == r then (i, true, NoError) else
    if Mark(i, first).Some? then (i, true, QuerySignedByAnotherBlock) else
    (Promote(i, k, r), true, NoError)
  }

  function SetMark(i: Index, ack: Hash, mark: Option<Hash>): Index {
    if ack in i.acks && i.acks[ack] in i.resp then
      i.(resp := i.resp[i.acks[ack] := i.resp[i.acks[ack]].(signedBlock := mark)])
    else i
  }

  // Which trackers markAndCollectUnsignedAcks picks.
  ghost predicate Unsigned(i: Index, r: Hash) {
    r in i.resp && i.resp[r].signedBlock.None? && exists k :: k in i.firsts && i.firsts[k] == Some(r)
  }

  ghost function MarkIf(v: Tracker, picked: bool): Tracker {
    if picked then v.(signedBlock := Some(PLACEHOLDER)) else v
  }

  ghost function MarkAll(i: Index): Index {
    Index(map r | r in i.resp :: MarkIf(i.resp[r], Unsigned(i, r)), i.acks, i.firsts)
  }

  // ----- integrity -----

  // A tracker sits under the hash of its response, and its ack acknowledges that response.
  ghost predicate TrackerOk(hd: Headers, i: Index, r: Hash)
    requires r in i.resp
  {
    var v := i.resp[r];
    && v.response.headerHash == r && AuthenticResponse(hd, v.response)
    && (v.signedBlock.Some? ==> v.ack.Some?)
    && (v.ack.Some? ==>
          && v.ack.value.response.headerHash == r && AuthenticAck(hd, v.ack.value)
          && v.ack.value.headerHash in i.acks)
  }

  // The query of an acknowledged tracker has a first ack.
  ghost predicate Settled(hd: Headers, i: Index, r: Hash)
    requires r in i.resp
  {
    i.resp[r].ack.Some? ==> hd.queryOf(r) in i.firsts && i.firsts[hd.queryOf(r)].Some?
  }

  // An ack hash leads to the acknowledged tracker of its response.
  ghost predicate AckOk(hd: Headers, i: Index, a: Hash)
    requires a in i.acks
  {
    i.acks[a] == hd.responseOf(a) && i.acks[a] in i.resp && i.resp[i.acks[a]].ack.Some?
  }

  // The first ack of a query is an acknowledged tracker of that query.
  ghost predicate SlotOk(hd: Headers, i: Index, k: QueryKey)
    requires k in i.firsts
  {
    i.firsts[k].Some? ==>
      && i.firsts[k].value in i.resp && i.resp[i.firsts[k].value].ack.Some?
      && hd.queryOf(i.firsts[k].value) == k
  }

  ghost predicate Filed(hd: Headers, i: Index) {
    && (forall r {:trigger TrackerOk(hd, i, r)} :: r in i.resp ==> TrackerOk(hd, i, r))
    && (forall a {:trigger AckOk(hd, i, a)} :: a in i.acks ==> AckOk(hd, i, a))
    && (forall k {:trigger SlotOk(hd, i, k)} :: k in i.firsts ==> SlotOk(hd, i, k))
  }

  ghost predicate Sound(hd: Headers, i: Index) {
    Filed(hd, i) && forall r {:trigger Settled(hd, i, r)} :: r in i.resp ==> Settled(hd, i, r)
  }

  // Only first acknowledgements carry a block or the placeholder.
  ghost predicate SignedFirst(hd: Headers, i: Index) {
    forall r :: r in i.resp && i.resp[r].signedBlock.Some? ==>
      hd.queryOf(r) in i.firsts && i.firsts[hd.queryOf(r)] == Some(r)
  }

  lemma EmptySound(hd: Headers)
    ensures Sound(hd, EMPTY) && SignedFirst(hd, EMPTY)
  {
  }

  // Every query keeps its first ack; a query added meanwhile has none.
  ghost predicate SameFirsts(a: map<QueryKey, Option<Hash>>, b: map<QueryKey, Option<Hash>>) {
    && (forall k :: k in a ==> k in b && b[k] == a[k])
    && (forall k :: k in b && k !in a ==> b[k].None?)
  }

  // Changes that add or rewrite one tracker, add ack hashes for trackers, or add queries without a first ack.
  ghost predicate Grows(hd: Headers, i: Index, j: Index, r: Hash) {
    && SameFirsts(i.firsts, j.firsts)
    && j.resp.Keys == i.resp.Keys + {r}
    && (forall x :: x in i.resp && x != r ==> j.resp[x] == i.resp[x])
    && (r in i.resp && i.resp[r].ack.Some? ==> j.resp[r].ack.Some?)
    && TrackerOk(hd, j, r)
    && i.acks.Keys <= j.acks.Keys && (forall a :: a in i.acks ==> j.acks[a] == i.acks[a])
    && (forall a :: a in j.acks && a !in i.acks ==> AckOk(hd, j, a))
  }

  lemma GrowFiled(hd: Headers, i: Index, j: Index, r: Hash)
    requires Filed(hd, i) && Grows(hd, i, j, r)
    ensures Filed(hd, j)
  {
    forall x | x in j.resp ensures TrackerOk(hd, j, x) { assert x != r ==> TrackerOk(hd, i, x); }
    forall a | a in j.acks ensures AckOk(hd, j, a) { assert a in i.acks ==> AckOk(hd, i, a); }
    forall k | k in j.firsts ensures SlotOk(hd, j, k) { assert k in i.firsts ==> SlotOk(hd, i, k); }
  }

  lemma GrowSettled(hd: Headers, i: Index, j: Index, r: Hash)
    requires Sound(hd, i) && Grows(hd, i, j, r)
    ensures forall x {:trigger Settled(hd, j, x)} :: x in j.resp && x != r ==> Settled(hd, j, x)
    ensures r in i.resp && i.resp[r].ack.Some? ==> Settled(hd, j, r)
  {
    forall x | x in j.resp && (x != r || (r in i.resp && i.resp[r].ack.Some?))
      ensures Settled(hd, j, x)
    {
      assert Settled(hd, i, x);
    }
  }

  lemma AddResponseSound(hd: Headers, i: Index, r: Response)
    requires Sound(hd, i) && AuthenticResponse(hd, r)
    ensures Sound(hd, AddResponse(i, r)) && (SignedFirst(hd, i) ==> SignedFirst(hd, AddResponse(i, r)))
  {
    var h := r.headerHash;
    assert h in i.resp ==> TrackerOk(hd, i, h);
    GrowFiled(hd, i, AddResponse(i, r), h);
    GrowSettled(hd, i, AddResponse(i, r), h);
  }

  // A tracker of query k may become its first ack as long as nothing signed is displaced.
  lemma PromoteSound(hd: Headers, i: Index, k: QueryKey, r: Hash)
    requires Filed(hd, i) && (forall x {:trigger Settled(hd, i, x)} :: x in i.resp && x != r ==> Settled(hd, i, x))
    requires k in i.firsts && r in i.resp && i.resp[r].ack.Some? && hd.queryOf(r) == k
    ensures Sound(hd, Promote(i, k, r))
    ensures SignedFirst(hd, i) && (i.firsts[k].Some? ==> Mark(i, i.firsts[k].value).None?)
            ==> SignedFirst(hd, Promote(i, k, r))
  {
    var j := Promote(i, k, r);
    assert SlotOk(hd, i, k);
    forall x | x in j.resp ensures TrackerOk(hd, j, x) { assert TrackerOk(hd, i, x); }
    forall x | x in j.resp ensures Settled(hd, j, x) { assert x != r ==> Settled(hd, i, x); }
    forall b | b in j.acks ensures AckOk(hd, j, b) { assert AckOk(hd, i, b); }
    forall q | q in j.firsts ensures SlotOk(hd, j, q) { assert SlotOk(hd, i, q); }
  }

  lemma FileAckGrows(hd: Headers, i: Index, a: Ack)
    requires Sound(hd, i) && AuthenticAck(hd, a)
    ensures Grows(hd, i, FileAck(i, a), a.response.headerHash)
  {
    var r := a.response.headerHash;
    assert r in i.resp ==> TrackerOk(hd, i, r);
    assert a.headerHash in i.acks ==> AckOk(hd, i, a.headerHash);
  }

  lemma FileAckSigned(hd: Headers, i: Index, a: Ack)
    requires Sound(hd, i) && SignedFirst(hd, i)
    ensures SignedFirst(hd, FileAck(i, a))
  {
  }

  lemma AddAckSound(hd: Headers, i: Index, a: Ack)
    requires Sound(hd, i) && AuthenticAck(hd, a)
    ensures AddAck(i, a).1 != CorruptedIndex
    ensures Sound(hd, AddAck(i, a).0) && (SignedFirst(hd, i) ==> SignedFirst(hd, AddAck(i, a).0))
  {
    hide Grows, SignedFirst, SameFirsts;
    var r, k := a.response.headerHash, a.response.key;
    var j := FileAck(i, a);
    FileAckGrows(hd, i, a);
    GrowFiled(hd, i, j, r);
    GrowSettled(hd, i, j, r);
    if SignedFirst(hd, i) { FileAckSigned(hd, i, a); }
    if j.firsts[k].None? {
      PromoteSound(hd, j, k, r);
    }
  }

  // A check never finds the index corrupted. When it succeeds on a known ack, that ack is the
  // first of its query, and it only gets there past an unsigned one.
  lemma CheckAckSound(hd: Headers, i: Index, block: Hash, ack: Hash)
    requires Sound(hd, i)
    ensures var (j, known, err) := CheckAck(i, block, ack);
            && Sound(hd, j) && (SignedFirst(hd, i) ==> SignedFirst(hd, j))
            && err != CorruptedIndex
            && (known <==> ack in i.acks)
            && (known && err == NoError ==> IsFirst(hd, j, ack))
  {
    if ack in i.acks {
      var r := i.acks[ack];
      assert AckOk(hd, i, ack) && TrackerOk(hd, i, r) && Settled(hd, i, r);
      PromoteSound(hd, i, hd.queryOf(r), r);
    }
  }

  // The tracker behind an ack hash is the first acknowledgement of its query.
  ghost predicate IsFirst(hd: Headers, i: Index, ack: Hash) {
    var r := hd.responseOf(ack);
    hd.queryOf(r) in i.firsts && i.firsts[hd.queryOf(r)] == Some(r)
  }

  // ----- marks -----

  lemma SetMarkSound(hd: Headers, i: Index, ack: Hash, mark: Option<Hash>)
    requires Sound(hd, i)
    ensures var j := SetMark(i, ack, mark);
            && Sound(hd, j) && j.acks == i.acks && j.firsts == i.firsts
            && (SignedFirst(hd, i) && (mark.Some? && ack in i.acks ==> IsFirst(hd, i, ack)) ==> SignedFirst(hd, j))
  {
    var j := SetMark(i, ack, mark);
    if ack in i.acks {
      assert AckOk(hd, i, ack);
    }
    forall x | x in j.resp ensures TrackerOk(hd, j, x) { assert TrackerOk(hd, i, x); }
    forall x | x in j.resp ensures Settled(hd, j, x) { assert Settled(hd, i, x); }
    forall b | b in j.acks ensures AckOk(hd, j, b) { assert AckOk(hd, i, b); }
    forall q | q in j.firsts ensures SlotOk(hd, j, q) { assert SlotOk(hd, i, q); }
  }

  // A picked tracker is the first ack of its own query.
  lemma UnsignedIsFirst(hd: Headers, i: Index, r: Hash)
    requires Sound(hd, i) && Unsigned(i, r)
    ensures i.resp[r].ack.Some? && hd.queryOf(r) in i.firsts && i.firsts[hd.queryOf(r)] == Some(r)
  {
    var k :| k in i.firsts && i.firsts[k] == Some(r);
    assert SlotOk(hd, i, k);
  }

  lemma MarkAllIntact(hd: Headers, i: Index)
    requires Sound(hd, i)
    ensures Sound(hd, MarkAll(i))
  {
    hide Unsigned;
    var j := MarkAll(i);
    forall x | x in j.resp ensures TrackerOk(hd, j, x) {
      assert TrackerOk(hd, i, x);
      if Unsigned(i, x) { UnsignedIsFirst(hd, i, x); }
    }
    forall x | x in j.resp ensures Settled(hd, j, x) { assert Settled(hd, i, x); }
    forall b | b in j.acks ensures AckOk(hd, j, b) { assert AckOk(hd, i, b); }
    forall q | q in j.firsts ensures SlotOk(hd, j, q) { assert SlotOk(hd, i, q); }
  }

  lemma MarkAllSound(hd: Headers, i: Index)
    requires Sound(hd, i)
    ensures var j := MarkAll(i);
            && Sound(hd, j) && (SignedFirst(hd, i) ==> SignedFirst(hd, j))
            && (forall r :: !Unsigned(j, r))
  {
    var j := MarkAll(i);
    MarkAllIntact(hd, i);
    forall r | SignedFirst(hd, i) && r in j.resp && j.resp[r].signedBlock.Some?
      ensures hd.queryOf(r) in j.firsts && j.firsts[hd.queryOf(r)] == Some(r)
    {
      if Unsigned(i, r) { UnsignedIsFirst(hd, i, r); }
    }
  }

  // ----- a whole block -----

  function CheckAll(i: Index, block: Hash, acks: seq<Hash>): (Index, Error)
    decreases |acks|
  {
    if acks == [] then (i, NoError) else
    var (j, _, err) := CheckAck(i, block, acks[0]);
    if err != NoError then (j, err) else CheckAll(j, block, acks[1..])
  }

  function SetAll(i: Index, acks: seq<Hash>, mark: Option<Hash>): Index
    decreases |acks|
  {
    if acks == [] then i else SetAll(SetMark(i, acks[0], mark), acks[1..], mark)
  }

  // No two listed acks that the index knows belong to one query through different responses.
  ghost predicate OnePerQuery(hd: Headers, i: Index, acks: seq<Hash>) {
    forall x, y :: x in acks && y in acks && x in i.acks && y in i.acks
                   && hd.queryOf(hd.responseOf(x)) == hd.queryOf(hd.responseOf(y)) ==>
      hd.responseOf(x) == hd.responseOf(y)
  }

  lemma CheckKeepsFirst(hd: Headers, i: Index, block: Hash, ack: Hash, other: Hash)
    requires Sound(hd, i) && IsFirst(hd, i, other)
    requires ack in i.acks && hd.queryOf(hd.responseOf(ack)) == hd.queryOf(hd.responseOf(other)) ==>
               hd.responseOf(ack) == hd.responseOf(other)
    ensures IsFirst(hd, CheckAck(i, block, ack).0, other)
  {
    if ack in i.acks {
      assert AckOk(hd, i, ack) && TrackerOk(hd, i, i.acks[ack]);
    }
  }

  lemma {:induction false} CheckAllKeepsFirst(hd: Headers, i: Index, block: Hash, acks: seq<Hash>, other: Hash)
    requires Sound(hd, i) && IsFirst(hd, i, other)
    requires forall x :: x in acks && x in i.acks && hd.queryOf(hd.responseOf(x)) == hd.queryOf(hd.responseOf(other)) ==>
               hd.responseOf(x) == hd.responseOf(other)
    ensures IsFirst(hd, CheckAll(i, block, acks).0, other)
    decreases |acks|
  {
    if acks != [] {
      CheckAckSound(hd, i, block, acks[0]);
      CheckKeepsFirst(hd, i, block, acks[0], other);
      CheckAllKeepsFirst(hd, CheckAck(i, block, acks[0]).0, block, acks[1..], other);
    }
  }

  // A block that passes the check, listing at most one tracker per query: every ack it lists is
  // the first of its query by the end of the check.
  lemma {:induction false} CheckAllSound(hd: Headers, i: Index, block: Hash, acks: seq<Hash>)
    requires Sound(hd, i)
    ensures var (j, err) := CheckAll(i, block, acks);
            && Sound(hd, j) && (SignedFirst(hd, i) ==> SignedFirst(hd, j))
            && err != CorruptedIndex && j.acks == i.acks && j.resp == i.resp
            && (err == NoError && OnePerQuery(hd, i, acks) ==>
                  forall x :: x in acks && x in i.acks ==> IsFirst(hd, j, x))
    decreases |acks|
  {
    if acks != [] {
      var (m, known, err) := CheckAck(i, block, acks[0]);
      CheckAckSound(hd, i, block, acks[0]);
      if err == NoError {
        CheckAllSound(hd, m, block, acks[1..]);
        if OnePerQuery(hd, i, acks) {
          assert OnePerQuery(hd, m, acks[1..]);
          if known { CheckAllKeepsFirst(hd, m, block, acks[1..], acks[0]); }
        }
      }
    }
  }

  lemma {:induction false} SetAllSound(hd: Headers, i: Index, acks: seq<Hash>, mark: Option<Hash>)
    requires Sound(hd, i)
    ensures var j := SetAll(i, acks, mark);
            && Sound(hd, j) && j.acks == i.acks && j.firsts == i.firsts && j.resp.Keys == i.resp.Keys
            && (forall x :: x in acks && x in i.acks ==> Mark(j, hd.responseOf(x)) == mark)
            && (forall r :: r in i.resp ==> Mark(j, r) == Mark(i, r) || Mark(j, r) == mark)
            && (SignedFirst(hd, i) && (mark.Some? ==> forall x :: x in acks && x in i.acks ==> IsFirst(hd, i, x))
                ==> SignedFirst(hd, j))
    decreases |acks|
  {
    if acks != [] {
      var m := SetMark(i, acks[0], mark);
      SetMarkSound(hd, i, acks[0], mark);
      SetAllSound(hd, m, acks[1..], mark);
      if acks[0] in i.acks {
        assert AckOk(hd, i, acks[0]);
        assert Mark(m, hd.responseOf(acks[0])) == mark;
      }
      assert forall x :: x in acks && x in i.acks && mark.Some? && IsFirst(hd, i, x) ==> IsFirst(hd, m, x);
    }
  }

  // Checking and then signing a block keeps "only first acks are signed" exactly when the block
  // lists no two acks of one query that stand for different responses.
  lemma SigningIff(hd: Headers, i: Index, block: Hash, acks: seq<Hash>)
    requires Sound(hd, i) && SignedFirst(hd, i) && CheckAll(i, block, acks).1 == NoError
    ensures SignedFirst(hd, SetAll(CheckAll(i, block, acks).0, acks, Some(block))) <==> OnePerQuery(hd, i, acks)
  {
    var j := CheckAll(i, block, acks).0;
    var m := SetAll(j, acks, Some(block));
    CheckAllSound(hd, i, block, acks);
    SetAllSound(hd, j, acks, Some(block));
    if SignedFirst(hd, m) {
      forall x, y | x in acks && y in acks && x in i.acks && y in i.acks
                    && hd.queryOf(hd.responseOf(x)) == hd.queryOf(hd.responseOf(y))
        ensures hd.responseOf(x) == hd.responseOf(y)
      {
        assert AckOk(hd, j, x) && AckOk(hd, j, y);
        assert Mark(m, hd.responseOf(x)).Some? && Mark(m, hd.responseOf(y)).Some?;
      }
    }
  }

  // In an index whose marks sit on first acks, each query has at most one signed response.
  lemma OneSignedPerQuery(hd: Headers, i: Index, x: Hash, y: Hash)
    requires SignedFirst(hd, i) && Mark(i, x).Some? && Mark(i, y).Some? && hd.queryOf(x) == hd.queryOf(y)
    ensures x == y
  {
    assert x in i.resp && y in i.resp;
  }

  // ----- what stays put -----

  lemma AddAckKeepsFirst(hd: Headers, i: Index, a: Ack, other: Hash)
    requires Sound(hd, i) && AuthenticAck(hd, a) && IsFirst(hd, i, other)
    ensures IsFirst(hd, AddAck(i, a).0, other)
  {
  }

  // A first ack that carries a mark keeps its place and its mark, whatever is filed or checked.
  ghost predicate Pinned(hd: Headers, i: Index, r: Hash) {
    hd.queryOf(r) in i.firsts && i.firsts[hd.queryOf(r)] == Some(r) && Mark(i, r).Some?
  }

  lemma PinnedThroughResponse(hd: Headers, i: Index, r: Hash, resp: Response)
    requires Pinned(hd, i, r)
    ensures Pinned(hd, AddResponse(i, resp), r)
  {
  }

  lemma PinnedThroughAck(hd: Headers, i: Index, r: Hash, a: Ack)
    requires Sound(hd, i) && Pinned(hd, i, r)
    ensures Pinned(hd, AddAck(i, a).0, r)
  {
    assert TrackerOk(hd, i, r);
  }

  lemma PinnedThroughBlocks(hd: Headers, i: Index, r: Hash, block: Hash, ack: Hash)
    requires Sound(hd, i) && Pinned(hd, i, r)
    ensures Pinned(hd, CheckAck(i, block, ack).0, r)
    ensures Pinned(hd, MarkAll(i), r) && Pinned(hd, SetMark(i, ack, Some(block)), r)
  {
    if ack in i.acks {
      assert AckOk(hd, i, ack) && TrackerOk(hd, i, i.acks[ack]);
    }
  }

  // ----- exactly what each operation answers -----

  // A response is there once it is filed, with the ack and the mark it had; nothing else changes.
  lemma ResponseFiled(i: Index, r: Response, x: Hash)
    ensures var j, h := AddResponse(i, r), r.headerHash;
            && (x in j.resp <==> x == h || x in i.resp)
            && (x in i.resp && x != h ==> j.resp[x] == i.resp[x]) && j.resp[h].response == r
            && Mark(j, x) == Mark(i, x) && AckHash(j, x) == AckHash(i, x) && j.acks == i.acks
            && SameFirsts(i.firsts, j.firsts)
  {
  }

  // An ack is known once it is filed, accepted or not. The first ack of a response stays, and so do
  // the first ack of every query and all marks.
  lemma AckFiled(hd: Headers, i: Index, a: Ack, x: Hash)
    requires Sound(hd, i)
    ensures var j, r := AddAck(i, a).0, a.response.headerHash;
            && j.acks == i.acks[a.headerHash := r]
            && AckHash(j, x) == (if x == r && AckHash(i, r).None? then Some(a.headerHash) else AckHash(i, x))
            && (forall q :: q in i.firsts && i.firsts[q].Some? ==> q in j.firsts && j.firsts[q] == i.firsts[q])
            && Mark(j, x) == Mark(i, x)
  {
    hide SettleFirst;
    assert a.response.headerHash in i.resp ==> TrackerOk(hd, i, a.response.headerHash);
    SettleKeeps(FileAck(i, a), a);
  }

  lemma SettleKeeps(i: Index, a: Ack)
    requires a.response.key in i.firsts
    ensures var j := SettleFirst(i, a).0;
            && j.resp == i.resp && j.acks == i.acks
            && forall q :: q in i.firsts && i.firsts[q].Some? ==> q in j.firsts && j.firsts[q] == i.firsts[q]
  {
  }

  // It is accepted exactly when it is both the ack of its response and the first of its query.
  lemma AddAckIff(hd: Headers, i: Index, a: Ack)
    requires Sound(hd, i) && AuthenticAck(hd, a)
    ensures var (j, err) := AddAck(i, a);
            var mine := AckHash(j, a.response.headerHash) == Some(a.headerHash);
            && (err == NoError <==> mine && IsFirst(hd, j, a.headerHash))
            && (err == MultipleAckOfResponse <==> !mine)
  {
    hide SameFirsts, Grows, Sound;
    var r, k := a.response.headerHash, a.response.key;
    var j := FileAck(i, a);
    AckFiled(hd, i, a, r);
    FileAckGrows(hd, i, a);
    assert Filed(hd, j) by { SoundIsFiled(hd, i); GrowFiled(hd, i, j, r); }
    if j.firsts[k].Some? {
      assert SlotOk(hd, j, k) && TrackerOk(hd, j, j.firsts[k].value);
    }
  }

  lemma SoundIsFiled(hd: Headers, i: Index)
    requires Sound(hd, i)
    ensures Filed(hd, i)
  {
  }

  // Of the responses to its query, nothing but this one is marked, and that by nothing but this block.
  ghost predicate OnlyBy(hd: Headers, i: Index, r: Hash, block: Hash) {
    forall x :: x in i.resp && hd.queryOf(x) == hd.queryOf(r) && Mark(i, x).Some? ==> x == r && Mark(i, x) == Some(block)
  }

  // A known ack passes a block's check exactly then; no tracker changes either way.
  lemma CheckAckIff(hd: Headers, i: Index, block: Hash, ack: Hash)
    requires Sound(hd, i) && SignedFirst(hd, i)
    ensures var (j, known, err) := CheckAck(i, block, ack);
            && j.resp == i.resp && j.acks == i.acks
            && (err == NoError <==> ack !in i.acks || OnlyBy(hd, i, hd.responseOf(ack), block))
            && (err != NoError ==> err == QuerySignedByAnotherBlock && j == i)
  {
    if ack in i.acks {
      var r := i.acks[ack];
      assert AckOk(hd, i, ack) && TrackerOk(hd, i, r) && Settled(hd, i, r);
      var first := i.firsts[hd.queryOf(r)].value;
      assert SlotOk(hd, i, hd.queryOf(r));
      if OnlyBy(hd, i, r, block) {
        assert Mark(i, first).Some? ==> first == r && Mark(i, r) == Some(block);
      } else {
        var x :| x in i.resp && hd.queryOf(x) == hd.queryOf(r) && Mark(i, x).Some? && !(x == r && Mark(i, x) == Some(block));
        assert x == first;
      }
    }
  }
}
