/** Positional notation, most significant digit first. */
module Digits {

  function Pow(b: nat, n: nat): (r: nat) {
    if n == 0 then 1 else Pow(b, n - 1) * b
  }

  ghost predicate AllBelow(b: nat, ds: seq<nat>) {
    forall i :: 0 <= i < |ds| ==> ds[i] < b
  }

  /** The number written as `ds` in base `b`. */
  function Horner(b: nat, ds: seq<nat>): (r: nat) {
    if ds == [] then 0 else Horner(b, ds[..|ds| - 1]) * b + ds[|ds| - 1]
  }

  lemma {:induction false} HornerConcat(b: nat, xs: seq<nat>, ys: seq<nat>)
    ensures Horner(b, xs + ys) == Horner(b, xs) * Pow(b, |ys|) + Horner(b, ys)
  {
    if ys == [] {
      assert xs + ys == xs;
    } else {
      var n := |ys| - 1;
      assert (xs + ys)[..|xs + ys| - 1] == xs + ys[..n];
      HornerConcat(b, xs, ys[..n]);
      Regroup3(Horner(b, xs), Pow(b, n), b, Horner(b, ys[..n]));
    }
  }

  lemma Regroup3(x: int, p: int, b: int, y: int)
    ensures (x * p + y) * b == x * (p * b) + y * b
  {
  }

  lemma {:induction false} HornerZeros(b: nat, ds: seq<nat>)
    requires forall i :: 0 <= i < |ds| ==> ds[i] == 0
    ensures Horner(b, ds) == 0
  {
    if ds != [] {
      HornerZeros(b, ds[..|ds| - 1]);
    }
  }

  /** Leading zeros do not change the number. */
  lemma HornerPadded(b: nat, zeros: seq<nat>, ds: seq<nat>)
    requires forall i :: 0 <= i < |zeros| ==> zeros[i] == 0
    ensures Horner(b, zeros + ds) == Horner(b, ds)
  {
    HornerConcat(b, zeros, ds);
    HornerZeros(b, zeros);
    assert 0 * Pow(b, |ds|) == 0;
  }

  lemma {:induction false} HornerBound(b: nat, ds: seq<nat>)
    requires AllBelow(b, ds)
    ensures Horner(b, ds) < Pow(b, |ds|)
  {
    if ds != [] {
      var h, p := Horner(b, ds[..|ds| - 1]), Pow(b, |ds| - 1);
      HornerBound(b, ds[..|ds| - 1]);
      ProductStep(h, p, b, ds[|ds| - 1]);
    }
  }

  lemma ProductStep(h: nat, p: nat, b: nat, d: nat)
    requires h < p && d < b
    ensures h * b + d < p * b
  {
    assert (h + 1) * b <= p * b;
    assert (h + 1) * b == h * b + b;
  }

  /** Numerals of one length are ordered by their first difference. */
  lemma {:induction false} HornerLess(b: nat, xs: seq<nat>, ys: seq<nat>, i: nat)
    requires |xs| == |ys| && i < |xs| && xs[..i] == ys[..i] && xs[i] < ys[i]
    requires AllBelow(b, xs) && AllBelow(b, ys)
    ensures Horner(b, xs) < Horner(b, ys)
  {
    var n := |xs| - 1;
    if i == n {
    } else {
      assert xs[..n][..i] == xs[..i] && ys[..n][..i] == ys[..i];
      HornerLess(b, xs[..n], ys[..n], i);
      ProductStep(Horner(b, xs[..n]), Horner(b, ys[..n]), b, xs[n]);
    }
  }

  /** Numerals of one length that differ denote different numbers. */
  lemma HornerInjective(b: nat, xs: seq<nat>, ys: seq<nat>)
    requires |xs| == |ys| && AllBelow(b, xs) && AllBelow(b, ys)
    requires Horner(b, xs) == Horner(b, ys)
    ensures xs == ys
  {
    if xs != ys {
      var i := FirstDifference(xs, ys);
      if xs[i] < ys[i] {
        HornerLess(b, xs, ys, i);
      } else {
        HornerLess(b, ys, xs, i);
      }
    }
  }

  lemma FirstDifference(xs: seq<nat>, ys: seq<nat>) returns (i: nat)
    requires |xs| == |ys| && xs != ys
    ensures i < |xs| && xs[..i] == ys[..i] && xs[i] != ys[i]
  {
    i := 0;
    while i < |xs| && xs[i] == ys[i]
      invariant i <= |xs| && xs[..i] == ys[..i]
    {
      i := i + 1;
    }
    assert xs == xs[..|xs|] && ys == ys[..|ys|];
  }

  /** `xs` is `ds` cut into groups of `g` digits, each group read as one number. */
  ghost predicate Grouped(b: nat, g: nat, ds: seq<nat>, xs: seq<nat>) {
    |ds| == g * |xs| &&
    forall m :: 0 <= m < |xs| ==> g * m <= g * m + g <= |ds| && xs[m] == Horner(b, ds[g * m..g * m + g])
  }

  /** Reading group by group in base b^g is reading digit by digit in base b. */
  lemma {:induction false} HornerGrouped(b: nat, g: nat, ds: seq<nat>, xs: seq<nat>)
    requires Grouped(b, g, ds, xs)
    ensures Horner(Pow(b, g), xs) == Horner(b, ds)
  {
    if xs != [] {
      var n := |xs| - 1;
      var cut := g * n;
      assert g * |xs| == cut + g;
      forall m | 0 <= m < n
        ensures g * m <= g * m + g <= cut && xs[..n][m] == Horner(b, ds[..cut][g * m..g * m + g])
      {
        GroupFits(g, m, n);
        assert ds[..cut][g * m..g * m + g] == ds[g * m..g * m + g];
      }
      HornerGrouped(b, g, ds[..cut], xs[..n]);
      HornerConcat(b, ds[..cut], ds[cut..]);
      assert ds == ds[..cut] + ds[cut..];
      assert ds[cut..] == ds[g * n..g * n + g];
    } else {
      assert ds == [];
    }
  }

  lemma GroupFits(g: nat, m: nat, n: nat)
    requires m < n
    ensures 0 <= g * m && g * m + g <= g * n
  {
    assert g * (m + 1) <= g * n;
  }

  function Zeros(n: nat): (z: seq<nat>)
    ensures |z| == n && forall i :: 0 <= i < n ==> z[i] == 0
  {
    seq(n, _ => 0)
  }

  lemma SixteenPowers()
    ensures Pow(16, 8) == 0x1_0000_0000
  {
    assert Pow(16, 2) == 0x100;
    assert Pow(16, 4) == 0x1_0000;
    assert Pow(16, 6) == 0x100_0000;
  }
}
