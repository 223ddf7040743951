// Keys on the consistent-hash ring: their order (proto/nodeinfo.go) and the strings they are
// hashed from (consistent/consistent.go).

module RingOrder {
  import opened Common
  import opened KayakLog
  import opened ByteOrder

  type NodeKey = Hash

  method NodeKeyLess(a: NodeKey, b: NodeKey) returns (less: bool)
    ensures less == Less(a, b)
    ensures less ==> a != b
  {
    var i := 0;
    while i < HASH_SIZE
      invariant i <= HASH_SIZE && LessFrom(a, b, 0) == LessFrom(a, b, i)
      invariant a[..i] == b[..i]
    {
      if a[i] != b[i] {
        return a[i] < b[i];
      }
      i := i + 1;
    }
    return false;
  }

  // ----- what is hashed -----

  function Digit(d: nat): char
    requires d < 10
  {
    '0' + d as char
  }

  // strconv.Itoa on a replica number.
  function Itoa(n: nat): (s: string)
    ensures s != []
  {
    if n < 10 then [Digit(n)] else Itoa(n / 10) + [Digit(n % 10)]
  }

  lemma {:induction false} ItoaInjective(m: nat, n: nat)
    requires Itoa(m) == Itoa(n)
    ensures m == n
    decreases m
  {
    var s, t := Itoa(m), Itoa(n);
    assert s[|s| - 1] == Digit(m % 10) && t[|t| - 1] == Digit(n % 10);
    DigitInjective(m % 10, n % 10);
    if m >= 10 && n >= 10 {
      assert s[..|s| - 1] == Itoa(m / 10) && t[..|t| - 1] == Itoa(n / 10);
      ItoaInjective(m / 10, n / 10);
    } else {
      assert m < 10 ==> |s| == 1;
      assert n < 10 ==> |t| == 1;
    }
  }

  lemma DigitInjective(a: nat, b: nat)
    requires a < 10 && b < 10 && Digit(a) == Digit(b)
    ensures a == b
  {
    assert Digit(a) as int == '0' as int + a && Digit(b) as int == '0' as int + b;
  }

  // The string a node's replica is placed by: the number first, with nothing in between.
  function KeyString(id: string, idx: nat): string {
    Itoa(idx) + id
  }

  // Exactly when two nodes are placed by the same string: the longer id is the shorter one behind
  // some digits, and those digits close the other replica number.
  lemma KeyStringsMeetIff(a: string, i: nat, b: string, j: nat)
    requires |b| <= |a|
    ensures var d := |a| - |b|;
            KeyString(a, i) == KeyString(b, j) <==> a[d..] == b && Itoa(j) == Itoa(i) + a[..d]
  {
    var d, s, t := |a| - |b|, KeyString(a, i), KeyString(b, j);
    var n := |Itoa(i)|;
    if s == t {
      assert |Itoa(j)| == n + d;
      assert s[..n + d] == Itoa(i) + a[..d] && t[..n + d] == Itoa(j);
      assert s[n + d..] == a[d..] && t[n + d..] == b;
    }
    if a[d..] == b && Itoa(j) == Itoa(i) + a[..d] {
      assert a == a[..d] + b;
      assert s == Itoa(i) + a[..d] + b == t;
    }
  }

  // So among ids of one length the string gives node and replica away.
  lemma KeyStringInjective(a: string, i: nat, b: string, j: nat)
    requires |a| == |b|
    ensures KeyString(a, i) == KeyString(b, j) <==> a == b && i == j
  {
    KeyStringsMeetIff(a, i, b, j);
    assert a[0..] == a && Itoa(i) + a[..0] == Itoa(i);
    if Itoa(j) == Itoa(i) { ItoaInjective(j, i); }
  }

  // Ids of different length do meet.
  lemma KeyStringsMeet()
    ensures KeyString("2x", 1) == KeyString("x", 12)
  {
    assert Itoa(12) == Itoa(1) + [Digit(2)];
    assert KeyString("2x", 1) == ['1', '2', 'x'] == KeyString("x", 12);
  }
}
