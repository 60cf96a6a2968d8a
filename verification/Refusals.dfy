/** What the decoder waits for and what it throws on, whatever the bytes are. */
module Refusals {
  import opened Number160
  import opened Wire
  import opened Wrappers
  import opened MessageCodec
  import opened Decoder
  import opened DecoderRoundTrip
  import PA = PeerAddress

  /** Nothing is looked at before 63 bytes are there; then a type number of 15 throws, an address that is not all there
      waits, and a sender without a socket of the family of the connection throws. */
  lemma HeaderRefusals(f: Fields, bs: seq<Byte>, socket: Inet)
    ensures |bs| < 63 ==> HeaderUnit(f, bs, socket) == Wait
    ensures |bs| >= 63 && UInt(bs[0..4]) % 16 == 15 ==> HeaderUnit(f, bs, socket) == Fail
    ensures |bs| >= 63 && UInt(bs[0..4]) % 16 < 15 && |bs| - 34 < PA.Announced(bs[34..]) ==> HeaderUnit(f, bs, socket) == Wait
    ensures |bs| >= 63 && UInt(bs[0..4]) % 16 < 15 && |bs| - 34 >= PA.Announced(bs[34..]) &&
            !(if socket.v6 then PA.Decode(bs[34..]).ipv6Socket.Some? else PA.Decode(bs[34..]).ipv4Socket.Some?) ==>
              HeaderUnit(f, bs, socket) == Fail
  {
    hide PA.Decode, PA.Announced;
  }

  /** A negative length throws for a list of keys and for a buffer, gives an empty map for a map of sets of keys, and for
      a map of bytes does what twice its value, in 32 bits, says. */
  lemma NegativeLengths(f: Fields, bs: seq<Byte>)
    requires f.headerDone && f.contentTypes != [] && Clean(f) && |bs| >= 4 && UInt(bs[..4]) >= 0x8000_0000
    ensures f.contentTypes[0] == SET_KEY640 || f.contentTypes[0] == BYTE_BUFFER ==> PayloadUnit(f, bs) == Fail
    ensures f.contentTypes[0] == MAP_KEY640_KEYS ==> PayloadUnit(f, bs) == Next(Push(f, KeysMap([])), 4)
    ensures f.contentTypes[0] == MAP_KEY640_BYTE ==>
              PayloadUnit(f, bs) == if UInt(bs[..4]) >= 0xC000_0000 then Fail else Next(Push(f, ByteMap([])), 4)
  {
    Bound32(bs[..4]);
  }

  /** A map of bytes that announces 2^30 entries or more throws at once: twice that is no capacity. */
  lemma HugeByteMap(f: Fields, bs: seq<Byte>)
    requires At(f, MAP_KEY640_BYTE) && Clean(f) && |bs| >= 4 && 0x4000_0000 <= UInt(bs[..4]) < 0x8000_0000
    ensures PayloadUnit(f, bs) == Fail
  {
    Bound32(bs[..4]);
  }
}
