// Byte strings of one length in lexicographic order: the order of bolt keys and of ring keys.

module ByteOrder {
  import opened Common

  type Bytes = seq<byte>

  // The first differing byte decides.
  predicate LessFrom(a: Bytes, b: Bytes, i: nat)
    requires i <= |a| == |b|
    decreases |a| - i
  {
    i < |a| && (a[i] < b[i] || (a[i] == b[i] && LessFrom(a, b, i + 1)))
  }

  predicate Less(a: Bytes, b: Bytes) {
    |a| == |b| && LessFrom(a, b, 0)
  }

  lemma {:induction false} OrderFrom(a: Bytes, b: Bytes, c: Bytes, i: nat)
    requires i <= |a| == |b| == |c| && a[..i] == b[..i]
    ensures !(LessFrom(a, b, i) && LessFrom(b, a, i))
    ensures LessFrom(a, b, i) || LessFrom(b, a, i) || a == b
    ensures LessFrom(a, b, i) && LessFrom(b, c, i) ==> LessFrom(a, c, i)
    decreases |a| - i
  {
    if i < |a| {
      if a[i] == b[i] {
        assert a[..i + 1] == a[..i] + [a[i]] && b[..i + 1] == b[..i] + [b[i]];
        OrderFrom(a, b, c, i + 1);
      }
    } else {
      assert a == a[..i] && b == b[..i];
    }
  }

  // A strict order, total on strings of one length.
  lemma Order(a: Bytes, b: Bytes, c: Bytes)
    ensures !Less(a, a) && !(Less(a, b) && Less(b, a))
    ensures |a| == |b| ==> Less(a, b) || Less(b, a) || a == b
    ensures Less(a, b) && Less(b, c) ==> Less(a, c)
  {
    OrderFrom(a, a, a, 0);
    if |a| == |b| {
      OrderFrom(a, b, b, 0);
      if |b| == |c| { OrderFrom(a, b, c, 0); }
    }
  }

  ghost predicate Sorted(s: seq<Bytes>) {
    forall i, j :: 0 <= i < j < |s| ==> Less(s[i], s[j])
  }

  ghost predicate Lists(s: seq<Bytes>, ks: set<Bytes>) {
    Sorted(s) && forall k :: k in s <==> k in ks
  }

  // There is only one way to list a set in order.
  lemma {:induction false} SortedUnique(s: seq<Bytes>, t: seq<Bytes>)
    requires Sorted(s) && Sorted(t) && forall k :: k in s <==> k in t
    ensures s == t
    decreases |s|
  {
    hide Less;
    assert t != [] ==> t[0] in s;
    if s != [] {
      assert s[0] in t;
      FirstIsLeast(s, t[0]);
      FirstIsLeast(t, s[0]);
      Order(s[0], t[0], s[0]);
      forall k ensures k in s[1..] <==> k in t[1..] {
        RestOf(s, k);
        RestOf(t, k);
      }
      SortedUnique(s[1..], t[1..]);
    }
  }

  lemma FirstIsLeast(s: seq<Bytes>, k: Bytes)
    requires Sorted(s) && k in s
    ensures k == s[0] || Less(s[0], k)
  {
  }

  lemma RestOf(s: seq<Bytes>, k: Bytes)
    requires Sorted(s) && s != []
    ensures k in s[1..] <==> k in s && k != s[0]
  {
    hide Less;
    Order(s[0], s[0], s[0]);
    assert s == [s[0]] + s[1..];
    assert forall i :: 0 <= i < |s[1..]| ==> s[1..][i] == s[i + 1] && s[i + 1] != s[0];
  }
}
