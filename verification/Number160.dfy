/** The 160-bit identifiers: five 32-bit limbs, most significant first.

    A limb is modelled by its unsigned bit pattern, so the masking with
    `LONG_MASK` in the original is the identity here. */
module Number160 {
  import opened Bits
  import opened Digits

  const BITS: nat := 160
  const INT_ARRAY_SIZE: nat := 5
  const BYTE_ARRAY_SIZE: nat := 20
  const STRING_LENGTH: nat := 42
  const WORD: nat := 0x1_0000_0000

  type Limb = x: nat | x < WORD
  type Byte = x: nat | x < 256

  datatype Number = Number(val: seq<Limb>)

  /** The backing array always has five entries. */
  type Key = n: Number | |n.val| == INT_ARRAY_SIZE witness Number([0, 0, 0, 0, 0])

  datatype Result<+T> = Ok(value: T) | IllegalArgument

  /** The natural number an identifier stands for. */
  function Value(n: Number): (r: nat) {
    Horner(WORD, n.val)
  }

  lemma ValueBound(n: Key)
    ensures Value(n) < Pow2(BITS)
  {
    HornerBound(WORD, n.val);
    WordPowers(5);
    assert Pow(WORD, 5) == Pow2(32 * 5);
  }

  lemma {:induction false} WordPowers(n: nat)
    ensures Pow(WORD, n) == Pow2(32 * n)
  {
    Pow2Values();
    if n != 0 {
      WordPowers(n - 1);
      Pow2Add(32 * (n - 1), 32);
    }
  }

  lemma {:induction false} Pow2Add(a: nat, b: nat)
    ensures Pow2(a + b) == Pow2(a) * Pow2(b)
  {
    if b != 0 {
      Pow2Add(a, b - 1);
      assert Pow2(a + b) == 2 * Pow2(a + (b - 1));
      DoubleProduct(Pow2(a), Pow2(b - 1));
    }
  }

  lemma LimbsBelow(n: Number)
    ensures AllBelow(WORD, n.val)
  {
  }

  lemma ValueInjective(a: Key, b: Key)
    ensures Value(a) == Value(b) <==> a == b
  {
    if Value(a) == Value(b) {
      HornerInjective(WORD, a.val, b.val);
    }
  }

  // ---------------------------------------------------------------- construction

  /** Fewer than five limbs are right-aligned; more are refused. */
  method FromLimbs(val: seq<Limb>) returns (r: Result<Key>)
    ensures r.IllegalArgument? <==> |val| > INT_ARRAY_SIZE
    ensures r.Ok? ==> Value(r.value) == Horner(WORD, val)
  {
    if |val| > INT_ARRAY_SIZE {
      return IllegalArgument;
    }
    var limbs: seq<Limb> := [0, 0, 0, 0, 0];
    var i, j := |val| - 1, INT_ARRAY_SIZE - 1;
    while i >= 0
      invariant -1 <= i < |val| && j == i + (INT_ARRAY_SIZE - |val|)
      invariant |limbs| == INT_ARRAY_SIZE
      invariant forall k :: i < k < |val| ==> limbs[k + (INT_ARRAY_SIZE - |val|)] == val[k]
      invariant forall k :: 0 <= k <= j ==> limbs[k] == 0
    {
      limbs := limbs[j := val[i]];
      i, j := i - 1, j - 1;
    }
    var zeros := limbs[..j + 1];
    assert limbs == zeros + val;
    HornerPadded(WORD, zeros, val);
    return Ok(Number(limbs));
  }

  // ---------------------------------------------------------------- the metric

  /** Limb-wise exclusive or is exclusive or of the 160-bit numbers. */
  method XorKeys(a: Key, b: Key) returns (r: Key)
    ensures Value(r) == Xor(Value(a), Value(b))
  {
    var result: seq<Limb> := [];
    var i := 0;
    while i < INT_ARRAY_SIZE
      invariant i == |result| <= INT_ARRAY_SIZE
      invariant Horner(WORD, result) == Xor(Horner(WORD, a.val[..i]), Horner(WORD, b.val[..i]))
    {
      XorLimb(a.val[i], b.val[i]);
      ghost var ha, hb := Horner(WORD, a.val[..i]), Horner(WORD, b.val[..i]);
      XorWord(ha, a.val[i], hb, b.val[i]);
      HornerSnoc(result, Xor(a.val[i], b.val[i]));
      HornerTake(a.val, i);
      HornerTake(b.val, i);
      result := result + [Xor(a.val[i], b.val[i])];
      i := i + 1;
    }
    assert a.val[..i] == a.val && b.val[..i] == b.val;
    return Number(result);
  }

  lemma XorWord(hi: nat, x: Limb, hi': nat, y: Limb)
    ensures Xor(hi * WORD + x, hi' * WORD + y) == Xor(hi, hi') * WORD + Xor(x, y)
  {
    assert Pow2(32) == WORD by { Pow2Values(); }
    XorConcat(hi, x, hi', y, 32);
  }

  lemma XorLimb(x: Limb, y: Limb)
    ensures Xor(x, y) < WORD
  {
    Pow2Values();
    XorBound(x, y, 32);
  }

  lemma HornerTake(s: seq<Limb>, i: nat)
    requires i < |s|
    ensures Horner(WORD, s[..i + 1]) == Horner(WORD, s[..i]) * WORD + s[i]
  {
    assert s[..i + 1][..i] == s[..i];
  }

  lemma HornerSnoc(ds: seq<nat>, d: nat)
    ensures Horner(WORD, ds + [d]) == Horner(WORD, ds) * WORD + d
  {
    assert (ds + [d])[..|ds|] == ds;
  }

  /** The limb-wise unsigned comparison orders identifiers as numbers. */
  method CompareTo(a: Key, b: Key) returns (c: int)
    ensures c == -1 <==> Value(a) < Value(b)
    ensures c == 0 <==> a == b
    ensures c == 1 <==> Value(a) > Value(b)
  {
    LimbsBelow(a);
    LimbsBelow(b);
    var i := 0;
    while i < INT_ARRAY_SIZE
      invariant i <= INT_ARRAY_SIZE && a.val[..i] == b.val[..i]
    {
      if a.val[i] < b.val[i] {
        HornerLess(WORD, a.val, b.val, i);
        return -1;
      } else if a.val[i] > b.val[i] {
        HornerLess(WORD, b.val, a.val, i);
        return 1;
      }
      i := i + 1;
    }
    assert a.val == a.val[..i] && b.val == b.val[..i];
    return 0;
  }

  method IsZero(a: Key) returns (z: bool)
    ensures z <==> Value(a) == 0
  {
    var i := 0;
    while i < INT_ARRAY_SIZE
      invariant i <= INT_ARRAY_SIZE && forall k :: 0 <= k < i ==> a.val[k] == 0
    {
      if a.val[i] != 0 {
        BitLenLeading(a.val, i);
        return false;
      }
      i := i + 1;
    }
    HornerZeros(WORD, a.val);
    return true;
  }

  /** `Integer.numberOfLeadingZeros` */
  function NumberOfLeadingZeros(x: Limb): (r: nat)
    ensures r <= 32
    ensures r == 32 <==> x == 0
  {
    Pow2Values();
    BitLenBound(x, 32);
    32 - BitLen(x)
  }

  /** The first non-zero limb gives the length of the whole number. */
  method BitLength(a: Key) returns (bits: nat)
    ensures bits == BitLen(Value(a)) <= BITS
  {
    ValueBound(a);
    BitLenBound(Value(a), BITS);
    var i := 0;
    while i < INT_ARRAY_SIZE
      invariant i <= INT_ARRAY_SIZE && forall k :: 0 <= k < i ==> a.val[k] == 0
    {
      if a.val[i] != 0 {
        BitLenLeading(a.val, i);
        return 32 - NumberOfLeadingZeros(a.val[i]) + 32 * (INT_ARRAY_SIZE - (i + 1));
      }
      i := i + 1;
    }
    HornerZeros(WORD, a.val);
    return 0;
  }

  lemma {:induction false} BitLenLeading(s: seq<Limb>, i: nat)
    requires i < |s| && s[i] != 0 && forall k :: 0 <= k < i ==> s[k] == 0
    ensures Horner(WORD, s) > 0
    ensures BitLen(Horner(WORD, s)) == BitLen(s[i]) + 32 * (|s| - 1 - i)
  {
    var n := |s| - 1;
    if i == n {
      HornerZeros(WORD, s[..n]);
    } else {
      BitLenLeading(s[..n], i);
      BitLenWord(Horner(WORD, s[..n]), s[n]);
    }
  }

  lemma BitLenWord(hi: nat, lo: Limb)
    requires hi > 0
    ensures hi * WORD + lo > 0 && BitLen(hi * WORD + lo) == BitLen(hi) + 32
  {
    Pow2Values();
    BitLenConcat(hi, lo, 32);
  }

  // ---------------------------------------------------------------- bytes

  /** Big-endian bytes of one limb, as `writeInt` emits them. */
  function LimbBytes(x: Limb): (bs: seq<Byte>)
    ensures |bs| == 4 && Horner(256, bs) == x
  {
    var bs := [x / 0x100_0000, x / 0x1_0000 % 256, x / 256 % 256, x % 256];
    FourBytes(x);
    bs
  }

  lemma FourBytes(x: Limb)
    ensures Horner(256, [x / 0x100_0000, x / 0x1_0000 % 256, x / 256 % 256, x % 256]) == x
  {
    var y := x / 256;
    var z := y / 256;
    var w := z / 256;
    assert x / 0x1_0000 == z && x / 0x100_0000 == w;
    HornerFour(256, w, z % 256, y % 256, x % 256);
    assert w * 256 + z % 256 == z && z * 256 + y % 256 == y && y * 256 + x % 256 == x;
  }

  lemma HornerFour(b: nat, w: nat, x: nat, y: nat, z: nat)
    ensures Horner(b, [w, x, y, z]) == ((w * b + x) * b + y) * b + z
  {
    assert [w][..0] == [];
    assert Horner(b, [w]) == w;
    assert [w, x][..1] == [w];
    assert Horner(b, [w, x]) == w * b + x;
    assert [w, x, y][..2] == [w, x];
    assert Horner(b, [w, x, y]) == (w * b + x) * b + y;
    assert [w, x, y, z][..3] == [w, x, y];
  }

  /** The twenty big-endian bytes of an identifier. */
  function ToBytes(a: Key): (bs: seq<Byte>)
    ensures |bs| == BYTE_ARRAY_SIZE
  {
    LimbBytes(a.val[0]) + LimbBytes(a.val[1]) + LimbBytes(a.val[2]) + LimbBytes(a.val[3]) + LimbBytes(a.val[4])
  }

  lemma ByteOfLimb(a: Key, i: nat)
    requires i < INT_ARRAY_SIZE
    ensures forall q :: 4 * i <= q < 4 * i + 4 ==> ToBytes(a)[q] == LimbBytes(a.val[i])[q - 4 * i]
  {
  }

  lemma ToBytesGrouped(a: Key)
    ensures Grouped(256, 4, ToBytes(a), a.val)
    ensures Horner(256, ToBytes(a)) == Value(a)
  {
    var bs := ToBytes(a);
    forall m | 0 <= m < 5 ensures a.val[m] == Horner(256, bs[4 * m..4 * m + 4]) {
      assert bs[4 * m..4 * m + 4] == LimbBytes(a.val[m]);
    }
    HornerGrouped(256, 4, bs, a.val);
    assert Pow(256, 4) == WORD;
  }

  /** Writes the identifier into `me` at `offset` and nothing else. */
  method ToByteArray(a: Key, me: array<Byte>, offset: nat) returns (r: Result<nat>)
    modifies me
    ensures r.IllegalArgument? <==> offset + BYTE_ARRAY_SIZE > me.Length
    ensures r.Ok? ==> r.value == offset + BYTE_ARRAY_SIZE
    ensures r.Ok? ==> forall q :: 0 <= q < BYTE_ARRAY_SIZE ==> me[offset + q] == ToBytes(a)[q]
    ensures forall q :: 0 <= q < me.Length && !(r.Ok? && offset <= q < offset + BYTE_ARRAY_SIZE) ==> me[q] == old(me[q])
  {
    if offset + BYTE_ARRAY_SIZE > me.Length {
      return IllegalArgument;
    }
    var i := 0;
    while i < INT_ARRAY_SIZE
      invariant i <= INT_ARRAY_SIZE
      invariant forall q :: 0 <= q < 4 * i ==> me[offset + q] == ToBytes(a)[q]
      invariant forall q :: 0 <= q < me.Length && !(offset <= q < offset + BYTE_ARRAY_SIZE) ==> me[q] == old(me[q])
    {
      ByteOfLimb(a, i);
      PutLimb(me, offset + 4 * i, LimbBytes(a.val[i]));
      i := i + 1;
    }
    return Ok(offset + BYTE_ARRAY_SIZE);
  }

  method PutLimb(me: array<Byte>, idx: nat, bs: seq<Byte>)
    requires |bs| == 4 && idx + 4 <= me.Length
    modifies me
    ensures forall q :: 0 <= q < me.Length ==> me[q] == if idx <= q < idx + 4 then bs[q - idx] else old(me[q])
  {
    me[idx] := bs[0];
    me[idx + 1] := bs[1];
    me[idx + 2] := bs[2];
    me[idx + 3] := bs[3];
  }

  /** Up to twenty bytes, right-aligned, read from the last one backwards. */
  method FromBytes(val: seq<Byte>, offset: nat, length: nat) returns (r: Result<Key>)
    requires offset + length <= |val|
    ensures r.IllegalArgument? <==> length > BYTE_ARRAY_SIZE
    ensures r.Ok? ==> Value(r.value) == Horner(256, val[offset..offset + length])
  {
    if length > BYTE_ARRAY_SIZE {
      return IllegalArgument;
    }
    ghost var bytes := val[offset..offset + length];
    ghost var pad: seq<Byte> := Zeros(BYTE_ARRAY_SIZE - length) + bytes;
    var limbs: seq<Limb> := [0, 0, 0, 0, 0];
    var i, j, k := length + offset - 1, BYTE_ARRAY_SIZE - 1, 0;
    while i >= offset
      invariant offset - 1 <= i && i - offset == j - (BYTE_ARRAY_SIZE - length)
      invariant |limbs| == INT_ARRAY_SIZE
      invariant -1 <= j == BYTE_ARRAY_SIZE - 1 - k
      invariant forall m :: 0 <= m < 5 ==> limbs[m] == Horner(256, Suffix(pad, m, j + 1))
    {
      assert pad[j] == val[i];
      var m := j / 4;
      AddHighByte(pad, m, j);
      limbs := limbs[m := limbs[m] + val[i] * Pow(256, k % 4)];
      OtherSuffixes(pad, j);
      i, j, k := i - 1, j - 1, k + 1;
    }
    ZerosFinish(pad, j, limbs);
    Assembled(BYTE_ARRAY_SIZE - length, bytes, pad, limbs);
    return Ok(Number(limbs));
  }

  lemma Assembled(n: nat, bytes: seq<Byte>, pad: seq<Byte>, limbs: seq<Limb>)
    requires pad == Zeros(n) + bytes && Grouped(256, 4, pad, limbs)
    ensures Horner(WORD, limbs) == Horner(256, bytes)
  {
    HornerGrouped(256, 4, pad, limbs);
    HornerPadded(256, Zeros(n), bytes);
    assert Pow(256, 4) == WORD;
  }

  lemma OtherSuffixes(pad: seq<Byte>, j: nat)
    requires |pad| == BYTE_ARRAY_SIZE && j < BYTE_ARRAY_SIZE
    ensures forall m :: 0 <= m < 5 && m != j / 4 ==> Suffix(pad, m, j) == Suffix(pad, m, j + 1)
  {
  }

  /** The bytes of limb `m` from position `from` on. */
  function Suffix(pad: seq<Byte>, m: nat, from: nat): (s: seq<Byte>)
    requires |pad| == BYTE_ARRAY_SIZE && m < 5
  {
    if from <= 4 * m then pad[4 * m..4 * m + 4]
    else if from >= 4 * m + 4 then [] else pad[from..4 * m + 4]
  }

  lemma AddHighByte(pad: seq<Byte>, m: nat, j: nat)
    requires |pad| == BYTE_ARRAY_SIZE && j < BYTE_ARRAY_SIZE && m == j / 4
    ensures Horner(256, Suffix(pad, m, j)) ==
            Horner(256, Suffix(pad, m, j + 1)) + pad[j] * Pow(256, (BYTE_ARRAY_SIZE - 1 - j) % 4)
    ensures Horner(256, Suffix(pad, m, j)) < WORD
  {
    var s, t := Suffix(pad, m, j), Suffix(pad, m, j + 1);
    assert s == [pad[j]] + t;
    HornerConcat(256, [pad[j]], t);
    assert Horner(256, [pad[j]]) == pad[j] by { assert [pad[j]][..0] == []; }
    assert |t| == (BYTE_ARRAY_SIZE - 1 - j) % 4;
    HornerBound(256, s);
    assert Pow(256, 1) == 256 && Pow(256, 2) == 0x1_0000 && Pow(256, 3) == 0x100_0000 && Pow(256, 4) == WORD;
  }

  lemma ZerosFinish(pad: seq<Byte>, j: int, limbs: seq<Limb>)
    requires |pad| == BYTE_ARRAY_SIZE && |limbs| == 5 && -1 <= j < BYTE_ARRAY_SIZE
    requires forall i :: 0 <= i <= j ==> pad[i] == 0
    requires forall m :: 0 <= m < 5 ==> limbs[m] == Horner(256, Suffix(pad, m, j + 1))
    ensures Grouped(256, 4, pad, limbs)
  {
    forall m | 0 <= m < 5 ensures limbs[m] == Horner(256, pad[4 * m..4 * m + 4]) {
      var s := Suffix(pad, m, j + 1);
      assert pad[4 * m..4 * m + 4] == Zeros(4 - |s|) + s;
      HornerPadded(256, Zeros(4 - |s|), s);
    }
  }

  /** Byte form round trip: the only number with these bytes is the one they came from. */
  lemma BytesRoundTrip(a: Key, b: Key)
    requires Value(b) == Horner(256, ToBytes(a))
    ensures a == b
  {
    ToBytesGrouped(a);
    ValueInjective(a, b);
  }
}
