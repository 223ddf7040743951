// The log entries that kayak replicates, their byte form and their hash (kayak/types.go).

module KayakLog {
  import opened Common

  const HASH_SIZE: nat := 32

  type Hash = s: seq<byte> | |s| == HASH_SIZE witness seq(HASH_SIZE, _ => 0)

  // Go slices hold at most 2^63-1 elements, so a length always fits a uint64.
  type Payload = s: seq<byte> | |s| <= MAX_UINT64 witness []

  // The double SHA-256 digest. Nothing is assumed about it: results that rest on collision
  // resistance either yield a concrete collision or say which one would break them.
  type Digest = seq<byte> -> Hash

  datatype Log = Log(index: uint64, term: uint64, data: Payload, lastHash: Option<Hash>, hash: Hash)

  // ----- byte form -----

  function LittleEndian(x: nat, width: nat): (bytes: seq<byte>)
    ensures |bytes| == width
  {
    if width == 0 then [] else [x % 256] + LittleEndian(x / 256, width - 1)
  }

  function FromLittleEndian(bytes: seq<byte>): nat {
    if bytes == [] then 0 else bytes[0] + 256 * FromLittleEndian(bytes[1..])
  }

  function Pow256(n: nat): (p: nat)
    ensures p > 0
  {
    if n == 0 then 1 else 256 * Pow256(n - 1)
  }

  lemma {:induction false} LittleEndianRoundTrip(x: nat, width: nat)
    requires x < Pow256(width)
    ensures FromLittleEndian(LittleEndian(x, width)) == x
  {
    if width > 0 {
      assert x / 256 < Pow256(width - 1);
      LittleEndianRoundTrip(x / 256, width - 1);
      assert LittleEndian(x, width)[1..] == LittleEndian(x / 256, width - 1);
    }
  }

  lemma Pow256Of8()
    ensures Pow256(8) == MAX_UINT64 + 1
  {
    assert Pow256(2) == 0x1_0000;
    assert Pow256(4) == 0x1_0000_0000;
    assert Pow256(6) == 0x1_0000_0000_0000;
  }

  lemma Uint64Injective(x: uint64, y: uint64)
    requires LittleEndian(x, 8) == LittleEndian(y, 8)
    ensures x == y
  {
    Pow256Of8();
    LittleEndianRoundTrip(x, 8);
    LittleEndianRoundTrip(y, 8);
  }

  // A missing predecessor hash is written as one zero byte.
  function LastHashBytes(h: Option<Hash>): (bytes: seq<byte>)
    ensures |bytes| == if h.Some? then HASH_SIZE else 1
  {
    match h
    case Some(v) => v
    case None => [0]
  }

  function Serialize(l: Log): seq<byte> {
    LittleEndian(l.index, 8) + LittleEndian(l.term, 8) + LittleEndian(|l.data|, 8)
    + l.data + LastHashBytes(l.lastHash)
  }

  predicate SameContent(a: Log, b: Log) {
    a.index == b.index && a.term == b.term && a.data == b.data && a.lastHash == b.lastHash
  }

  // Where each field sits.
  lemma SerializedParts(l: Log)
    ensures var s, n := Serialize(l), 24 + |l.data|;
            && |s| >= n
            && s[..8] == LittleEndian(l.index, 8) && s[8..16] == LittleEndian(l.term, 8)
            && s[16..24] == LittleEndian(|l.data|, 8) && s[24..n] == l.data && s[n..] == (if l.lastHash.Some? then l.lastHash.value else [0])
  {
    hide LittleEndian;
    var a, b, d, e := LittleEndian(l.index, 8), LittleEndian(l.term, 8), LittleEndian(|l.data|, 8), LastHashBytes(l.lastHash);
    FiveParts(a, b, d, l.data, e);
  }

  lemma FiveParts(a: seq<byte>, b: seq<byte>, c: seq<byte>, d: seq<byte>, e: seq<byte>)
    requires |a| == |b| == |c| == 8
    ensures var s, n := a + b + c + d + e, 24 + |d|;
            s[..8] == a && s[8..16] == b && s[16..24] == c && s[24..n] == d && s[n..] == e
  {
  }

  // The byte form determines index, term, payload and predecessor hash.
  lemma SerializeInjective(a: Log, b: Log)
    ensures Serialize(a) == Serialize(b) <==> SameContent(a, b)
  {
    if Serialize(a) == Serialize(b) {
      SameBytes(a, b);
    }
  }

  lemma SameBytes(a: Log, b: Log)
    requires Serialize(a) == Serialize(b)
    ensures SameContent(a, b)
  {
    hide Serialize, LittleEndian;
    SerializedParts(a);
    SerializedParts(b);
    Uint64Injective(a.index, b.index);
    Uint64Injective(a.term, b.term);
    Uint64Injective(|a.data|, |b.data|);
  }

  // ----- hashing -----

  // Builds an entry the way the leader does: fill in the fields, then ComputeHash.
  function Sealed(digest: Digest, index: uint64, term: uint64, data: Payload, lastHash: Option<Hash>): (l: Log)
    ensures VerifyHash(digest, l)
    ensures l.index == index && l.term == term && l.data == data && l.lastHash == lastHash
  {
    var blank := Log(index, term, data, lastHash, seq(HASH_SIZE, _ => 0));
    var l := blank.(hash := digest(Serialize(blank)));
    assert Serialize(l) == Serialize(blank);
    l
  }

  predicate VerifyHash(digest: Digest, l: Log) {
    digest(Serialize(l)) == l.hash
  }

  // Two different byte strings with one digest.
  ghost predicate Collision(digest: Digest, s: seq<byte>, t: seq<byte>) {
    s != t && digest(s) == digest(t)
  }
}
