/** Big-endian numbers and identifiers as the byte buffers hold them. */
module Wire {
  import opened Digits
  import opened Number160

  const BYTE_BYTE_SIZE: nat := 1
  const INTEGER_BYTE_SIZE: nat := 4
  const LONG_BYTE_SIZE: nat := 8

  /** The low n bytes of v, most significant first. */
  function Bytes(n: nat, v: nat): (bs: seq<Byte>)
    ensures |bs| == n
  {
    if n == 0 then [] else Bytes(n - 1, v / 256) + [v % 256]
  }

  function UInt(bs: seq<Byte>): (v: nat) {
    Horner(256, bs)
  }

  lemma {:induction false} BytesRoundTrips(n: nat, v: nat)
    requires v < Pow(256, n)
    ensures UInt(Bytes(n, v)) == v
  {
    if n > 0 {
      var bs := Bytes(n - 1, v / 256);
      assert v < Pow(256, n - 1) * 256;
      BytesRoundTrips(n - 1, v / 256);
      assert (bs + [v % 256])[..n - 1] == bs;
    }
  }

  lemma Powers()
    ensures Pow(256, 0) == 1 && Pow(256, 1) == 0x100 && Pow(256, 2) == 0x1_0000 && Pow(256, 3) == 0x100_0000 && Pow(256, 4) == 0x1_0000_0000
  {
    assert Pow(256, 1) == Pow(256, 0) * 256;
    assert Pow(256, 2) == Pow(256, 1) * 256;
    assert Pow(256, 3) == Pow(256, 2) * 256;
    assert Pow(256, 4) == Pow(256, 3) * 256;
  }

  lemma ByteRoundTrips(v: nat)
    requires v < 256
    ensures UInt(Bytes(BYTE_BYTE_SIZE, v)) == v
  {
    Powers();
    BytesRoundTrips(BYTE_BYTE_SIZE, v);
  }

  lemma WordRoundTrips(v: nat)
    requires v < 0x1_0000_0000
    ensures UInt(Bytes(INTEGER_BYTE_SIZE, v)) == v
  {
    Powers();
    BytesRoundTrips(INTEGER_BYTE_SIZE, v);
  }

  /** A 32-bit pattern as the signed number Java reads from it. */
  function Signed32(v: nat): (i: int)
    requires v < 0x1_0000_0000
  {
    if v < 0x8000_0000 then v else v - 0x1_0000_0000
  }

  /** An identifier from its twenty bytes. */
  function KeyOf(bs: seq<Byte>): (k: Key)
    requires |bs| == BYTE_ARRAY_SIZE
  {
    WordBound(bs[0..4]); WordBound(bs[4..8]); WordBound(bs[8..12]); WordBound(bs[12..16]); WordBound(bs[16..20]);
    Number([UInt(bs[0..4]), UInt(bs[4..8]), UInt(bs[8..12]), UInt(bs[12..16]), UInt(bs[16..20])])
  }

  lemma WordBound(bs: seq<Byte>)
    requires |bs| == 4
    ensures UInt(bs) < WORD
  {
    Powers();
    HornerBound(256, bs);
  }

  lemma KeyRoundTrips(k: Key)
    ensures KeyOf(ToBytes(k)) == k
  {
    ToBytesGrouped(k);
    var bs := ToBytes(k);
    assert bs[4 * 0..4 * 0 + 4] == bs[0..4] && bs[4 * 1..4 * 1 + 4] == bs[4..8] && bs[4 * 2..4 * 2 + 4] == bs[8..12];
    assert bs[4 * 3..4 * 3 + 4] == bs[12..16] && bs[4 * 4..4 * 4 + 4] == bs[16..20];
    var l := k.val;
    assert l == [l[0], l[1], l[2], l[3], l[4]];
  }
}
