/** Binary digits of natural numbers: the arithmetic behind the XOR metric.

    Nothing here mentions machine words.  `Number160` shows that the five-limb
    representation computes these functions, and the routing modules reason
    about identifiers through `Xor`, `BitLen` and `Shr` alone. */
module Bits {

  function Pow2(n: nat): (r: nat)
    ensures r > 0
  {
    if n == 0 then 1 else 2 * Pow2(n - 1)
  }

  /** Bitwise exclusive or, digit by digit. */
  function Xor(a: nat, b: nat): (r: nat) {
    if a == 0 && b == 0 then 0
    else 2 * Xor(a / 2, b / 2) + (a + b) % 2
  }

  /** Number of binary digits, 0 for 0. */
  function BitLen(a: nat): (r: nat) {
    if a == 0 then 0 else 1 + BitLen(a / 2)
  }

  /** The digits of `a` from position `k` upwards: the subtree of height `k` that holds `a`. */
  function Shr(a: nat, k: nat): (r: nat) {
    if k == 0 then a else Shr(a / 2, k - 1)
  }

  lemma Pow2Values()
    ensures Pow2(3) == 8 && Pow2(4) == 16 && Pow2(8) == 0x100
    ensures Pow2(16) == 0x1_0000 && Pow2(32) == 0x1_0000_0000
  {
    assert Pow2(4) == 16;
    assert Pow2(8) == 0x100 by { assert Pow2(6) == 64; }
    assert Pow2(12) == 0x1000 by { assert Pow2(10) == 0x400; }
    assert Pow2(16) == 0x1_0000 by { assert Pow2(14) == 0x4000; }
    assert Pow2(20) == 0x10_0000 by { assert Pow2(18) == 0x4_0000; }
    assert Pow2(24) == 0x100_0000 by { assert Pow2(22) == 0x40_0000; }
    assert Pow2(28) == 0x1000_0000 by { assert Pow2(26) == 0x400_0000; }
    assert Pow2(32) == 0x1_0000_0000 by { assert Pow2(30) == 0x4000_0000; }
  }

  lemma {:induction false} XorZero(a: nat, b: nat)
    ensures Xor(a, b) == 0 <==> a == b
  {
    if a != 0 || b != 0 {
      XorZero(a / 2, b / 2);
    }
  }

  lemma {:induction false} XorCommutes(a: nat, b: nat)
    ensures Xor(a, b) == Xor(b, a)
  {
    if a != 0 || b != 0 {
      XorCommutes(a / 2, b / 2);
    }
  }

  /** The defining equation, without the case split. */
  lemma XorStep(a: nat, b: nat)
    ensures Xor(a, b) == 2 * Xor(a / 2, b / 2) + (a + b) % 2
  {
  }

  /** Distances from one fixed location are all different. */
  lemma {:induction false} XorInjective(t: nat, a: nat, b: nat)
    requires Xor(t, a) == Xor(t, b)
    ensures a == b
  {
    if t != 0 || a != 0 || b != 0 {
      XorInjective(t / 2, a / 2, b / 2);
    }
  }

  /** The link between the metric and the tree: the distance fits in `k` digits
      exactly when both numbers lie in the same subtree of height `k`. */
  lemma {:induction false} XorBitLen(a: nat, b: nat, k: nat)
    ensures BitLen(Xor(a, b)) <= k <==> Shr(a, k) == Shr(b, k)
  {
    if k == 0 {
      XorZero(a, b);
    } else if a == 0 && b == 0 {
    } else {
      XorBitLen(a / 2, b / 2, k - 1);
    }
  }

  lemma {:induction false} BitLenBound(a: nat, k: nat)
    ensures BitLen(a) <= k <==> a < Pow2(k)
  {
    if a != 0 && k != 0 {
      BitLenBound(a / 2, k - 1);
    }
  }

  /** A longer number is a larger number. */
  lemma BitLenOrders(a: nat, b: nat)
    requires BitLen(a) < BitLen(b)
    ensures a < b
  {
    BitLenBound(a, BitLen(a));
    BitLenBound(b, BitLen(a));
  }

  lemma {:induction false} ShrNext(a: nat, k: nat)
    ensures Shr(a, k + 1) == Shr(a, k) / 2
  {
    if k != 0 {
      ShrNext(a / 2, k - 1);
    }
  }

  lemma MulAtLeast(d: int, k: int)
    requires d > 0 && k >= 1
    ensures d * k >= d
  {
  }

  lemma {:induction false} XorBound(a: nat, b: nat, k: nat)
    requires a < Pow2(k) && b < Pow2(k)
    ensures Xor(a, b) < Pow2(k)
  {
    if k != 0 {
      XorBound(a / 2, b / 2, k - 1);
      XorStep(a, b);
    }
  }

  lemma XorEvenPart(h: nat, lo: nat, h': nat, lo': nat)
    ensures Xor(2 * h + lo, 2 * h' + lo') == 2 * Xor(h + lo / 2, h' + lo' / 2) + (lo + lo') % 2
  {
    var a, b := 2 * h + lo, 2 * h' + lo';
    XorStep(a, b);
    assert a / 2 == h + lo / 2 && b / 2 == h' + lo' / 2;
    assert (a + b) % 2 == (lo + lo') % 2;
  }

  /** Prepending digits commutes with exclusive or. */
  lemma {:induction false} XorConcat(hi: nat, lo: nat, hi': nat, lo': nat, k: nat)
    requires lo < Pow2(k) && lo' < Pow2(k)
    ensures Xor(hi * Pow2(k) + lo, hi' * Pow2(k) + lo') == Xor(hi, hi') * Pow2(k) + Xor(lo, lo')
  {
    if k == 0 {
      assert lo == 0 && lo' == 0;
    } else {
      var p, x := Pow2(k - 1), Xor(hi, hi');
      DoubleProduct(hi, p);
      DoubleProduct(hi', p);
      DoubleProduct(x, p);
      XorEvenPart(hi * p, lo, hi' * p, lo');
      XorConcat(hi, lo / 2, hi', lo' / 2, k - 1);
      XorStep(lo, lo');
    }
  }

  lemma DoubleProduct(x: int, p: int)
    ensures x * (2 * p) == 2 * (x * p)
  {
  }

  lemma HalfOfConcat(hi: nat, lo: nat, p: nat)
    ensures (hi * (2 * p) + lo) / 2 == hi * p + lo / 2
    ensures (hi * (2 * p) + lo) % 2 == lo % 2
  {
    DoubleProduct(hi, p);
  }

  lemma {:induction false} BitLenConcat(hi: nat, lo: nat, k: nat)
    requires lo < Pow2(k) && hi > 0
    ensures BitLen(hi * Pow2(k) + lo) == BitLen(hi) + k
  {
    if k != 0 {
      BitLenConcat(hi, lo / 2, k - 1);
      HalfOfConcat(hi, lo, Pow2(k - 1));
      MulAtLeast(Pow2(k), hi);
    }
  }

  // ---------------------------------------------------------------- bit fields

  /** The number whose bits, least significant first, are `bs`. */
  function FromBits(bs: seq<bool>): (n: nat) {
    if bs == [] then 0 else (if bs[0] then 1 else 0) + 2 * FromBits(bs[1..])
  }

  /** The low w bits of n: `n & (2^w - 1)`. */
  function Masked(n: nat, w: nat): (r: nat) {
    if w == 0 then 0 else n % 2 + 2 * Masked(n / 2, w - 1)
  }

  function LowBits(n: nat, w: nat): (bs: seq<bool>)
    ensures |bs| == w
  {
    if w == 0 then [] else [n % 2 == 1] + LowBits(n / 2, w - 1)
  }

  lemma {:induction false} MaskedIsMod(n: nat, w: nat)
    ensures Masked(n, w) < Pow2(w) && (Masked(n, w) == n <==> n < Pow2(w))
  {
    if w > 0 {
      MaskedIsMod(n / 2, w - 1);
    }
  }

  lemma {:induction false} FromLowBits(n: nat, w: nat)
    ensures FromBits(LowBits(n, w)) == Masked(n, w)
  {
    if w > 0 {
      FromLowBits(n / 2, w - 1);
      assert LowBits(n, w)[1..] == LowBits(n / 2, w - 1);
    }
  }

  lemma {:induction false} FromBitsBound(bs: seq<bool>)
    ensures FromBits(bs) < Pow2(|bs|)
  {
    if bs != [] {
      FromBitsBound(bs[1..]);
    }
  }

  lemma {:induction false} ShrFromBits(bs: seq<bool>, k: nat)
    requires k <= |bs|
    ensures Shr(FromBits(bs), k) == FromBits(bs[k..])
  {
    if k == 0 {
      assert bs[0..] == bs;
    } else {
      ShrFromBits(bs[1..], k - 1);
      assert bs[1..][k - 1..] == bs[k..];
      assert FromBits(bs) / 2 == FromBits(bs[1..]);
    }
  }

  lemma {:induction false} MaskFromBits(bs: seq<bool>, w: nat)
    requires w <= |bs|
    ensures Masked(FromBits(bs), w) == FromBits(bs[..w])
  {
    if w > 0 {
      MaskFromBits(bs[1..], w - 1);
      assert bs[..w][1..] == bs[1..][..w - 1];
      assert FromBits(bs) / 2 == FromBits(bs[1..]);
    }
  }

  /** `(n >>> k) & (2^w - 1)`. */
  function Field(n: nat, k: nat, w: nat): (r: nat) {
    Masked(Shr(n, k), w)
  }

  /** A field of a number holds the bits written there. */
  lemma FieldOf(before: seq<bool>, bits: seq<bool>, after: seq<bool>)
    ensures Field(FromBits(before + bits + after), |before|, |bits|) == FromBits(bits)
  {
    var all := before + bits + after;
    ShrFromBits(all, |before|);
    assert all[|before|..] == bits + after;
    MaskFromBits(bits + after, |bits|);
    assert (bits + after)[..|bits|] == bits;
  }
}
