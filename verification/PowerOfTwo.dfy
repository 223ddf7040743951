// Rounding up to a power of two by smearing the leading bit (merkle/merkletrie.go).

module PowerOfTwo {
  import opened Common

  function Pow2(k: nat): (p: nat)
    ensures p > 0
  {
    if k == 0 then 1 else 2 * Pow2(k - 1)
  }

  // The bitwise operators of Go on unsigned integers.
  function Or(a: nat, b: nat): nat
    decreases a
  {
    if a == 0 then b else if b == 0 then a else
    2 * Or(a / 2, b / 2) + (if a % 2 == 1 || b % 2 == 1 then 1 else 0)
  }

  function Shr(x: nat, k: nat): nat {
    if k == 0 then x else Shr(x / 2, k - 1)
  }

  lemma {:induction false} ShrShr(x: nat, j: nat, k: nat)
    ensures Shr(Shr(x, j), k) == Shr(x, j + k)
    decreases j
  {
    if j > 0 { ShrShr(x / 2, j - 1, k); }
  }

  lemma {:induction false} ShrOr(a: nat, b: nat, k: nat)
    ensures Shr(Or(a, b), k) == Or(Shr(a, k), Shr(b, k))
    decreases k
  {
    if k > 0 {
      assert Or(a, b) / 2 == Or(a / 2, b / 2);
      ShrOr(a / 2, b / 2, k - 1);
    }
  }

  lemma {:induction false} ShrOnes(j: nat, k: nat)
    requires k <= j
    ensures Shr(Pow2(j) - 1, k) == Pow2(j - k) - 1
    decreases k
  {
    if k > 0 {
      assert (Pow2(j) - 1) / 2 == Pow2(j - 1) - 1;
      ShrOnes(j - 1, k - 1);
    }
  }

  // a with t one-bits behind it.
  function Fill(a: nat, t: nat): nat {
    if t == 0 then a else 2 * Fill(a, t - 1) + 1
  }

  lemma {:induction false} OrOnes(x: nat, t: nat)
    ensures Or(x, Pow2(t) - 1) == Fill(Shr(x, t), t)
    decreases t
  {
    if t > 0 {
      assert (Pow2(t) - 1) / 2 == Pow2(t - 1) - 1 && (Pow2(t) - 1) % 2 == 1;
      OrOnes(x / 2, t - 1);
      assert Or(x, Pow2(t) - 1) == 2 * Or(x / 2, Pow2(t - 1) - 1) + 1;
    }
  }

  lemma {:induction false} FillOnes(j: nat, t: nat)
    ensures Fill(Pow2(j) - 1, t) == Pow2(j + t) - 1
    decreases t
  {
    if t > 0 { FillOnes(j, t - 1); }
  }

  lemma {:induction false} OrBounds(a: nat, b: nat, k: nat)
    requires a < Pow2(k) && b < Pow2(k)
    ensures a <= Or(a, b) < Pow2(k)
    decreases k
  {
    if k > 0 && a > 0 && b > 0 { OrBounds(a / 2, b / 2, k - 1); }
  }

  lemma {:induction false} ShrBelow(x: nat, h: nat, k: nat)
    requires x < Pow2(h) && k <= h
    ensures Shr(x, k) < Pow2(h - k) && Shr(x, k) <= x
    decreases k
  {
    if k > 0 { ShrBelow(x / 2, h - 1, k - 1); }
  }

  // x has h + 1 bits and the first j of them are ones.
  predicate Leading(x: nat, h: nat, j: nat) {
    1 <= j <= h + 1 && Pow2(h) <= x < Pow2(h + 1) && Shr(x, h + 1 - j) == Pow2(j) - 1
  }

  function Min(a: nat, b: nat): nat {
    if a < b then a else b
  }

  lemma FullyLeading(h: nat)
    ensures Leading(Pow2(h + 1) - 1, h, h + 1)
  {
  }

  // Or-ing x with itself shifted by k doubles the number of leading ones when there are k of
  // them, and changes nothing when there are only ones.
  lemma Smear(x: nat, h: nat, j: nat, k: nat)
    requires Leading(x, h, j) && (j == k || (j == h + 1 && j <= k))
    ensures Leading(Or(x, Shr(x, k)), h, Min(2 * k, h + 1))
  {
    hide Or, Fill, Shr, Pow2;
    var t := h + 1 - j;
    if k > h + 1 {
      ShrShr(x, h + 1, k - (h + 1));
      ShrBelow(x, h + 1, h + 1);
      assert Shr(x, h + 1) == 0 by { assert Pow2(0) == 1 by { PowZero(); } }
      ShrZero(k - (h + 1));
      OrZero(x);
    } else if t <= k {
      ShrShr(x, t, k - t);
      ShrOnes(j, k - t);
      OrOnes(x, t);
      FillOnes(j, t);
      FullyLeading(h);
    } else {
      SmearFar(x, h, k);
    }
  }

  lemma SmearFar(x: nat, h: nat, k: nat)
    requires Leading(x, h, k) && 2 * k < h + 1
    ensures Leading(Or(x, Shr(x, k)), h, 2 * k)
  {
    hide Or, Fill, Shr, Pow2;
    var y, m := Shr(x, k), h + 1 - 2 * k;
    ShrBelow(x, h + 1, k);
    PowGrows(h + 1 - k, h + 1);
    OrBounds(x, y, h + 1);
    ShrOr(x, y, m);
    ShrShr(x, k, m);
    ShrShr(x, m, k);
    OrOnes(Shr(x, m), k);
    FillOnes(k, k);
  }

  lemma PowZero()
    ensures Pow2(0) == 1
  {
  }

  lemma OrZero(x: nat)
    ensures Or(x, 0) == x
  {
  }

  lemma {:induction false} ShrZero(k: nat)
    ensures Shr(0, k) == 0
    decreases k
  {
    if k > 0 { ShrZero(k - 1); }
  }

  lemma {:induction false} PowGrows(j: nat, k: nat)
    requires j <= k
    ensures Pow2(j) <= Pow2(k)
    decreases k
  {
    if j < k { PowGrows(j, k - 1); }
  }

  lemma {:induction false} TopBit(x: nat, k: nat) returns (h: nat)
    requires 0 < x < Pow2(k)
    ensures h < k && Leading(x, h, 1)
    decreases k
  {
    if x == 1 {
      h := 0;
    } else {
      h := TopBit(x / 2, k - 1);
      h := h + 1;
    }
  }

  lemma Pow64()
    ensures Pow2(64) == MAX_UINT64 + 1 && Pow2(63) == 0x8000_0000_0000_0000
  {
    assert Pow2(8) == 256;
    assert Pow2(16) == 65536;
    assert Pow2(24) == 0x100_0000;
    assert Pow2(32) == 0x1_0000_0000;
    assert Pow2(40) == 0x100_0000_0000;
    assert Pow2(48) == 0x1_0000_0000_0000;
    assert Pow2(56) == 0x100_0000_0000_0000;
    assert Pow2(63) == 0x8000_0000_0000_0000;
  }

  // The smallest power of two that is not below n.
  ghost predicate IsLeast(n: nat, p: nat) {
    (exists k: nat :: p == Pow2(k)) && n <= p && forall k: nat :: n <= Pow2(k) ==> p <= Pow2(k)
  }

  lemma LeastAbove(x: nat, h: nat)
    requires Pow2(h) <= x < Pow2(h + 1)
    ensures IsLeast(x + 1, Pow2(h + 1))
  {
    forall k: nat | x + 1 <= Pow2(k) ensures Pow2(h + 1) <= Pow2(k) {
      if k <= h { PowGrows(k, h); } else { PowGrows(h + 1, k); }
    }
  }

  // All six shifts leave only ones from the leading bit down.
  lemma SmearAll(x: nat, h: nat)
    requires Leading(x, h, 1) && h < 64
    ensures var x1 := Or(x, Shr(x, 1)); var x2 := Or(x1, Shr(x1, 2)); var x3 := Or(x2, Shr(x2, 4));
            var x4 := Or(x3, Shr(x3, 8)); var x5 := Or(x4, Shr(x4, 16)); var x6 := Or(x5, Shr(x5, 32));
            x6 == Pow2(h + 1) - 1
  {
    hide Or, Shr, Pow2, Leading;
    var x1 := Or(x, Shr(x, 1));
    var x2 := Or(x1, Shr(x1, 2));
    var x3 := Or(x2, Shr(x2, 4));
    var x4 := Or(x3, Shr(x3, 8));
    var x5 := Or(x4, Shr(x4, 16));
    Smear(x, h, 1, 1);
    Smear(x1, h, Min(2, h + 1), 2);
    Smear(x2, h, Min(4, h + 1), 4);
    Smear(x3, h, Min(8, h + 1), 8);
    Smear(x4, h, Min(16, h + 1), 16);
    Smear(x5, h, Min(32, h + 1), 32);
    AllOnes(Or(x5, Shr(x5, 32)), h);
  }

  lemma AllOnes(x: nat, h: nat)
    requires Leading(x, h, h + 1)
    ensures x == Pow2(h + 1) - 1
  {
  }

  lemma ZeroStays()
    ensures forall k: nat {:trigger Shr(0, k)} :: Or(0, Shr(0, k)) == 0
  {
    forall k: nat ensures Or(0, Shr(0, k)) == 0 { ShrZero(k); }
  }

  lemma {:induction false} OrSmall(a: uint64, k: nat)
    ensures Or(a, Shr(a, k)) <= MAX_UINT64
  {
    hide Or, Shr;
    Pow64();
    OrBounds(a, Shr(a, k), 64) by { ShrSmall(a, k); }
  }

  lemma {:induction false} ShrSmall(a: nat, k: nat)
    ensures Shr(a, k) <= a
    decreases k
  {
    if k > 0 { ShrSmall(a / 2, k - 1); }
  }

  // The least power of two not below n, or 0 when none fits 64 bits; 0 comes back as 0.
  method UpperPowOfTwo(n: uint64) returns (p: uint64)
    ensures 1 <= n <= 0x8000_0000_0000_0000 ==> IsLeast(n, p)
    ensures n == 0 || n > 0x8000_0000_0000_0000 ==> p == 0
  {
    hide Or, Shr, Pow2, Leading, IsLeast;
    var x: uint64 := (n - 1) % (MAX_UINT64 + 1);
    ghost var x0, h := x, 0;
    Pow64();
    if x > 0 {
      h := TopBit(x, 64);
      SmearAll(x, h);
    } else {
      ZeroStays();
    }
    OrSmall(x, 1);
    x := Or(x, Shr(x, 1));
    OrSmall(x, 2);
    x := Or(x, Shr(x, 2));
    OrSmall(x, 4);
    x := Or(x, Shr(x, 4));
    OrSmall(x, 8);
    x := Or(x, Shr(x, 8));
    OrSmall(x, 16);
    x := Or(x, Shr(x, 16));
    OrSmall(x, 32);
    x := Or(x, Shr(x, 32));
    p := (x + 1) % (MAX_UINT64 + 1);
    Rounded(x0, h, x, n, p);
  }

  // What the smeared value is worth.
  lemma Rounded(x0: uint64, h: nat, x: uint64, n: uint64, p: uint64)
    requires x0 == (n - 1) % (MAX_UINT64 + 1) && p == (x + 1) % (MAX_UINT64 + 1)
    requires if x0 == 0 then x == 0 else h < 64 && Leading(x0, h, 1) && x == Pow2(h + 1) - 1
    ensures 1 <= n <= 0x8000_0000_0000_0000 ==> IsLeast(n, p)
    ensures n == 0 || n > 0x8000_0000_0000_0000 ==> p == 0
  {
    hide Pow2, IsLeast, Leading;
    Pow64();
    if x0 == 0 {
      LeastOne();
    } else {
      LeadingBounds(x0, h);
      LeastAbove(x0, h);
      if h < 63 { PowGrows(h + 1, 63); }
    }
  }

  lemma LeastOne()
    ensures IsLeast(1, 1)
  {
    assert Pow2(0) == 1;
  }

  lemma LeadingBounds(x: nat, h: nat)
    requires Leading(x, h, 1)
    ensures Pow2(h) <= x < Pow2(h + 1)
  {
  }
}
