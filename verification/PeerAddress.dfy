/** `PeerAddress` and the two kinds of `PeerSocketAddress` on the wire.

    The three-byte header tells which sockets follow, how many relays there are and of which kind;
    a socket may travel without its IP address. */
module PeerAddress {
  import opened Bits
  import opened Digits
  import opened Number160
  import opened Sequences
  import opened Wire
  import opened Wrappers

  const HEADER_SIZE: nat := 3
  const MIN_SIZE: nat := 23
  const MIN_SIZE_HEADER: nat := 29
  const PORT_SIZE: nat := 6

  /** An IPv4 or IPv6 socket address; the IP is absent after decoding with `skipAddress`. */
  datatype Socket = Socket(v6: bool, ip: Option<nat>, udpPort: nat, tcpPort: nat, udtPort: nat)

  function IpSize(v6: bool): (n: nat) { if v6 then 16 else 4 }

  function SocketSize(v6: bool, skip: bool): (n: nat) { PORT_SIZE + if skip then 0 else IpSize(v6) }

  /** Sixteen-bit ports and an IP of the right width, which is needed when it is not skipped. */
  ghost predicate SocketOk(s: Socket, skip: bool) {
    s.udpPort < 0x1_0000 && s.tcpPort < 0x1_0000 && s.udtPort < 0x1_0000 &&
    (!skip ==> s.ip.Some? && s.ip.value < Pow(256, IpSize(s.v6)))
  }

  function EncodeSocket(s: Socket, skip: bool): (bs: seq<Byte>)
    requires skip || s.ip.Some?
    ensures |bs| == SocketSize(s.v6, skip)
  {
    (if skip then [] else Bytes(IpSize(s.v6), s.ip.value)) +
    (Bytes(2, s.udpPort) + Bytes(2, s.tcpPort) + Bytes(2, s.udtPort))
  }

  function DecodePorts(v6: bool, ip: Option<nat>, bs: seq<Byte>): (s: Socket)
    requires |bs| >= PORT_SIZE
  {
    Socket(v6, ip, UInt(bs[..2]), UInt(bs[2..4]), UInt(bs[4..6]))
  }

  function DecodeSocket(v6: bool, skip: bool, bs: seq<Byte>): (s: Socket)
    requires |bs| >= SocketSize(v6, skip)
  {
    if skip then DecodePorts(v6, None, bs)
    else DecodePorts(v6, Some(UInt(bs[..IpSize(v6)])), bs[IpSize(v6)..])
  }

  function WithoutIp(s: Socket, skip: bool): (r: Socket) {
    if skip then s.(ip := None) else s
  }

  lemma PortsRoundTrip(s: Socket, ip: Option<nat>, ext: seq<Byte>)
    requires s.udpPort < 0x1_0000 && s.tcpPort < 0x1_0000 && s.udtPort < 0x1_0000
    ensures DecodePorts(s.v6, ip, Bytes(2, s.udpPort) + Bytes(2, s.tcpPort) + Bytes(2, s.udtPort) + ext) == s.(ip := ip)
  {
    Powers();
    BytesRoundTrips(2, s.udpPort);
    BytesRoundTrips(2, s.tcpPort);
    BytesRoundTrips(2, s.udtPort);
    var bs := Bytes(2, s.udpPort) + Bytes(2, s.tcpPort) + Bytes(2, s.udtPort) + ext;
    assert bs[..2] == Bytes(2, s.udpPort) && bs[2..4] == Bytes(2, s.tcpPort) && bs[4..6] == Bytes(2, s.udtPort);
  }

  lemma SocketRoundTrip(s: Socket, skip: bool, ext: seq<Byte>)
    requires SocketOk(s, skip)
    ensures DecodeSocket(s.v6, skip, EncodeSocket(s, skip) + ext) == WithoutIp(s, skip)
  {
    var ports := Bytes(2, s.udpPort) + Bytes(2, s.tcpPort) + Bytes(2, s.udtPort);
    if skip {
      assert [] + ports == ports;
      PortsRoundTrip(s, None, ext);
    } else {
      var n := IpSize(s.v6);
      var ip := Bytes(n, s.ip.value);
      Assoc(ip, ports, ext);
      Front(ip, ports + ext);
      BytesRoundTrips(n, s.ip.value);
      PortsRoundTrip(s, s.ip, ext);
    }
  }

  // ---------------------------------------------------------------- the header

  datatype Header = Header(
    ipv4: bool, ipv6: bool,
    reachable4Udp: bool, reachable4Tcp: bool, reachable4Udt: bool,
    reachable6Udp: bool, reachable6Tcp: bool, reachable6Udt: bool,
    relaySize: nat, slow: bool, holePunching: bool,
    unreachable: bool, net4Internal: bool, skipIPv4: bool, skipIPv6: bool,
    relayTypes: nat)

  function HeaderBits(h: Header): (bs: seq<bool>)
    ensures |bs| == 24
  {
    [h.ipv4, h.ipv6, h.reachable4Udp, h.reachable4Tcp, h.reachable4Udt, h.reachable6Udp, h.reachable6Tcp, h.reachable6Udt] +
    LowBits(h.relaySize, 3) +
    [h.slow, h.holePunching, h.unreachable, h.net4Internal, h.skipIPv4, h.skipIPv6] +
    LowBits(h.relayTypes, 7)
  }

  /** Every flag has its bit; the relay count fills bits 8 to 10, the relay kinds bits 17 to 23. */
  function EncodeHeader(h: Header): (n: nat) {
    FromBits(HeaderBits(h))
  }

  /** `(n & mask) == mask` for the mask of bit k. */
  predicate Has(n: nat, k: nat) {
    Shr(n, k) % 2 == 1
  }

  function DecodeHeader(n: nat): (h: Header) {
    Header(Has(n, 0), Has(n, 1), Has(n, 2), Has(n, 3), Has(n, 4), Has(n, 5), Has(n, 6), Has(n, 7),
           Field(n, 8, 3), Has(n, 11) && !Has(n, 12), Has(n, 12) && !Has(n, 11),
           Has(n, 13), Has(n, 14), Has(n, 15), Has(n, 16), Field(n, 17, 7))
  }

  lemma HasBit(bs: seq<bool>, k: nat)
    requires k < |bs|
    ensures Has(FromBits(bs), k) == bs[k]
  {
    ShrFromBits(bs, k);
    FirstBit(bs[k..]);
  }

  lemma FirstBit(bs: seq<bool>)
    requires bs != []
    ensures FromBits(bs) % 2 == 1 <==> bs[0]
  {
    EvenOrOdd(FromBits(bs[1..]));
  }

  lemma EvenOrOdd(n: nat)
    ensures (2 * n) % 2 == 0 && (1 + 2 * n) % 2 == 1
  {
  }

  /** The header survives exactly when it holds at most seven relays and seven kinds and does not claim
      to be both slow and hole punching. */
  lemma HeaderRoundTrip(h: Header)
    ensures DecodeHeader(EncodeHeader(h)) == h <==>
            h.relaySize < 8 && h.relayTypes < 128 && !(h.slow && h.holePunching)
  {
    var bs := HeaderBits(h);
    var n := EncodeHeader(h);
    forall k | 0 <= k < 24 ensures Has(n, k) == bs[k] {
      HasBit(bs, k);
    }
    RelayFields(h);
  }

  lemma RelayFields(h: Header)
    ensures Field(EncodeHeader(h), 8, 3) == h.relaySize <==> h.relaySize < 8
    ensures Field(EncodeHeader(h), 17, 7) == h.relayTypes <==> h.relayTypes < 128
  {
    var bs, sizes, types := HeaderBits(h), LowBits(h.relaySize, 3), LowBits(h.relayTypes, 7);
    assert bs == bs[..8] + sizes + bs[11..];
    FieldOf(bs[..8], sizes, bs[11..]);
    assert bs == bs[..17] + types + [];
    FieldOf(bs[..17], types, []);
    FromLowBits(h.relaySize, 3);
    FromLowBits(h.relayTypes, 7);
    MaskedIsMod(h.relaySize, 3);
    MaskedIsMod(h.relayTypes, 7);
    Pow2Values();
    assert Pow2(7) == 128;
  }

  lemma HeaderFits(h: Header)
    ensures EncodeHeader(h) < Pow(256, 3)
  {
    FromBitsBound(HeaderBits(h));
    Powers();
    Pow2Values();
    assert Pow2(24) == 0x100_0000 by { Pow2Add(16, 8); }
  }

  lemma HeaderRead(h: Header)
    requires h.relaySize < 8 && h.relayTypes < 128 && !(h.slow && h.holePunching)
    ensures DecodeHeader(UInt(Bytes(3, EncodeHeader(h)))) == h
  {
    HeaderFits(h);
    BytesRoundTrips(3, EncodeHeader(h));
    HeaderRoundTrip(h);
  }

  // ---------------------------------------------------------------- the address

  datatype Address = Address(
    header: Header,
    relays: seq<Socket>,
    ipv4Socket: Option<Socket>,
    ipInternalSocket: Option<Socket>,
    ipv6Socket: Option<Socket>,
    peerId: Key)

  /** The bytes that n relays of the given kinds take. */
  function RelaySize(types: nat, n: nat): (size: nat) {
    if n == 0 then 0 else RelaySize(types, n - 1) + SocketSize(Has(types, n - 1), false)
  }

  function OptionalSize(present: bool, v6: bool, skip: bool): (size: nat) {
    if present then SocketSize(v6, skip) else 0
  }

  /** `size`: from header information only. */
  function Size(h: Header): (size: nat)
    ensures size >= MIN_SIZE
    ensures h.ipv4 || h.ipv6 ==> size >= MIN_SIZE_HEADER
  {
    MIN_SIZE + RelaySize(h.relayTypes, h.relaySize) + OptionalSize(h.ipv4, false, h.skipIPv4) +
    OptionalSize(h.net4Internal, false, false) + OptionalSize(h.ipv6, true, h.skipIPv6)
  }

  ghost predicate RelaysOk(types: nat, relays: seq<Socket>) {
    forall i :: 0 <= i < |relays| ==> SocketOk(relays[i], false) && relays[i].v6 == Has(types, i)
  }

  ghost predicate OptionalOk(present: bool, v6: bool, skip: bool, s: Option<Socket>) {
    s.Some? == present && (s.Some? ==> s.value.v6 == v6 && SocketOk(s.value, skip))
  }

  /** Relay count, kinds and list agree, the sockets are those the flags announce, and the address is not
      both slow and hole punching. */
  ghost predicate WellFormed(a: Address) {
    var h := a.header;
    |a.relays| == h.relaySize < 8 && h.relayTypes < 128 && !(h.slow && h.holePunching) &&
    RelaysOk(h.relayTypes, a.relays) &&
    OptionalOk(h.ipv4, false, h.skipIPv4, a.ipv4Socket) &&
    OptionalOk(h.net4Internal, false, false, a.ipInternalSocket) &&
    OptionalOk(h.ipv6, true, h.skipIPv6, a.ipv6Socket)
  }

  function EncodeRelays(relays: seq<Socket>): (bs: seq<Byte>)
    requires forall i :: 0 <= i < |relays| ==> relays[i].ip.Some?
  {
    if relays == [] then [] else EncodeRelays(relays[..|relays| - 1]) + EncodeSocket(relays[|relays| - 1], false)
  }

  function EncodeOptional(s: Option<Socket>, skip: bool): (bs: seq<Byte>)
    requires s.Some? && !skip ==> s.value.ip.Some?
  {
    if s.Some? then EncodeSocket(s.value, skip) else []
  }

  /** What `encode` needs: a flagged socket is there, with its IP unless it is skipped. */
  predicate Encodable(a: Address) {
    (forall i :: 0 <= i < |a.relays| ==> a.relays[i].ip.Some?) &&
    (a.ipv4Socket.Some? && !a.header.skipIPv4 ==> a.ipv4Socket.value.ip.Some?) &&
    (a.ipInternalSocket.Some? ==> a.ipInternalSocket.value.ip.Some?) &&
    (a.ipv6Socket.Some? && !a.header.skipIPv6 ==> a.ipv6Socket.value.ip.Some?) &&
    a.ipv4Socket.Some? == a.header.ipv4 && a.ipInternalSocket.Some? == a.header.net4Internal && a.ipv6Socket.Some? == a.header.ipv6
  }

  function EncodeBody(a: Address): (bs: seq<Byte>)
    requires Encodable(a)
  {
    EncodeRelays(a.relays) + EncodeOptional(a.ipv4Socket, a.header.skipIPv4) + EncodeOptional(a.ipInternalSocket, false) +
    EncodeOptional(a.ipv6Socket, a.header.skipIPv6) + ToBytes(a.peerId)
  }

  function Encode(a: Address): (bs: seq<Byte>)
    requires Encodable(a)
  {
    Bytes(3, EncodeHeader(a.header)) + EncodeBody(a)
  }

  function DecodeRelays(types: nat, n: nat, bs: seq<Byte>): (relays: seq<Socket>)
    requires |bs| >= RelaySize(types, n)
  {
    if n == 0 then []
    else DecodeRelays(types, n - 1, bs) + [DecodeSocket(Has(types, n - 1), false, bs[RelaySize(types, n - 1)..])]
  }

  function DecodeOptional(present: bool, v6: bool, skip: bool, bs: seq<Byte>): (s: Option<Socket>)
    requires |bs| >= OptionalSize(present, v6, skip)
  {
    if present then Some(DecodeSocket(v6, skip, bs)) else None
  }

  /** `decode(header, buf)`: the sockets the header announces, read one after the other. */
  function DecodeBody(h: Header, bs: seq<Byte>): (a: Address)
    requires |bs| >= Size(h) - HEADER_SIZE
  {
    var b1 := bs[RelaySize(h.relayTypes, h.relaySize)..];
    var b2 := b1[OptionalSize(h.ipv4, false, h.skipIPv4)..];
    var b3 := b2[OptionalSize(h.net4Internal, false, false)..];
    var b4 := b3[OptionalSize(h.ipv6, true, h.skipIPv6)..];
    Address(h, DecodeRelays(h.relayTypes, h.relaySize, bs),
            DecodeOptional(h.ipv4, false, h.skipIPv4, b1),
            DecodeOptional(h.net4Internal, false, false, b2),
            DecodeOptional(h.ipv6, true, h.skipIPv6, b3),
            KeyOf(b4[..BYTE_ARRAY_SIZE]))
  }

  /** The size announced by the first three bytes. */
  function Announced(bs: seq<Byte>): (size: nat)
    requires |bs| >= HEADER_SIZE
    ensures size >= MIN_SIZE
  {
    Size(DecodeHeader(UInt(bs[..HEADER_SIZE])))
  }

  function Decode(bs: seq<Byte>): (a: Address)
    requires |bs| >= HEADER_SIZE && |bs| >= Announced(bs)
  {
    DecodeBody(DecodeHeader(UInt(bs[..HEADER_SIZE])), bs[HEADER_SIZE..])
  }

  /** The address as the wire carries it: skipped IPs are gone. */
  function Transmitted(a: Address): (r: Address) {
    a.(ipv4Socket := if a.ipv4Socket.Some? then Some(WithoutIp(a.ipv4Socket.value, a.header.skipIPv4)) else None,
       ipv6Socket := if a.ipv6Socket.Some? then Some(WithoutIp(a.ipv6Socket.value, a.header.skipIPv6)) else None)
  }

  lemma RelayStep(types: nat, n: nat, front: seq<Socket>, a: seq<Byte>, b: seq<Byte>, ext: seq<Byte>)
    requires |a| == RelaySize(types, n) && |b| == SocketSize(Has(types, n), false)
    requires DecodeRelays(types, n, a + (b + ext)) == front
    ensures DecodeRelays(types, n + 1, (a + b) + ext) == front + [DecodeSocket(Has(types, n), false, b + ext)]
  {
    Assoc(a, b, ext);
    Front(a, b + ext);
  }

  lemma {:induction false} RelaysSizes(types: nat, relays: seq<Socket>)
    requires RelaysOk(types, relays)
    ensures |EncodeRelays(relays)| == RelaySize(types, |relays|)
  {
    if relays != [] {
      RelaysSizes(types, relays[..|relays| - 1]);
    }
  }

  lemma {:induction false} RelaysRoundTrip(types: nat, relays: seq<Socket>, ext: seq<Byte>)
    requires RelaysOk(types, relays)
    ensures |EncodeRelays(relays)| == RelaySize(types, |relays|)
    ensures DecodeRelays(types, |relays|, EncodeRelays(relays) + ext) == relays
  {
    RelaysSizes(types, relays);
    if relays != [] {
      var n := |relays| - 1;
      var front, last := relays[..n], relays[n];
      assert relays == front + [last];
      var bs := EncodeSocket(last, false);
      RelaysRoundTrip(types, front, bs + ext);
      RelayStep(types, n, front, EncodeRelays(front), bs, ext);
      SocketRoundTrip(last, false, ext);
    }
  }

  lemma OptionalRoundTrip(present: bool, v6: bool, skip: bool, s: Option<Socket>, ext: seq<Byte>)
    requires OptionalOk(present, v6, skip, s)
    ensures |EncodeOptional(s, skip)| == OptionalSize(present, v6, skip)
    ensures DecodeOptional(present, v6, skip, EncodeOptional(s, skip) + ext) ==
            if s.Some? then Some(WithoutIp(s.value, skip)) else None
  {
    if s.Some? {
      SocketRoundTrip(s.value, skip, ext);
    }
  }

  /** The five parts of an address body, one after the other. */
  lemma BodyParts(h: Header, a: Address, r: seq<Byte>, s4: seq<Byte>, int4: seq<Byte>, s6: seq<Byte>, t: seq<Byte>)
    requires |r| == RelaySize(h.relayTypes, h.relaySize) && DecodeRelays(h.relayTypes, h.relaySize, r + (s4 + (int4 + (s6 + t)))) == a.relays
    requires |s4| == OptionalSize(h.ipv4, false, h.skipIPv4) && DecodeOptional(h.ipv4, false, h.skipIPv4, s4 + (int4 + (s6 + t))) == a.ipv4Socket
    requires |int4| == OptionalSize(h.net4Internal, false, false) && DecodeOptional(h.net4Internal, false, false, int4 + (s6 + t)) == a.ipInternalSocket
    requires |s6| == OptionalSize(h.ipv6, true, h.skipIPv6) && DecodeOptional(h.ipv6, true, h.skipIPv6, s6 + t) == a.ipv6Socket
    requires |t| >= BYTE_ARRAY_SIZE && KeyOf(t[..BYTE_ARRAY_SIZE]) == a.peerId && a.header == h
    ensures DecodeBody(h, r + (s4 + (int4 + (s6 + t)))) == a
  {
    Front(r, s4 + (int4 + (s6 + t)));
    Front(s4, int4 + (s6 + t));
    Front(int4, s6 + t);
    Front(s6, t);
  }

  lemma Assoc5(b: seq<Byte>, c: seq<Byte>, d: seq<Byte>, e: seq<Byte>, f: seq<Byte>, ext: seq<Byte>)
    ensures (b + c + d + e + f) + ext == b + (c + (d + (e + (f + ext))))
  {
    Assoc(b + c + d + e, f, ext);
    Assoc(b + c + d, e, f + ext);
    Assoc(b + c, d, e + (f + ext));
    Assoc(b, c, d + (e + (f + ext)));
  }

  lemma BodySize(a: Address)
    requires WellFormed(a)
    ensures |EncodeBody(a)| == Size(a.header) - HEADER_SIZE
  {
    RelaysRoundTrip(a.header.relayTypes, a.relays, []);
  }

  lemma BodyRoundTrip(a: Address, ext: seq<Byte>)
    requires WellFormed(a)
    ensures |EncodeBody(a)| == Size(a.header) - HEADER_SIZE
    ensures DecodeBody(a.header, EncodeBody(a) + ext) == Transmitted(a)
  {
    var h := a.header;
    var r, s4, int4, s6, key := EncodeRelays(a.relays), EncodeOptional(a.ipv4Socket, h.skipIPv4),
      EncodeOptional(a.ipInternalSocket, false), EncodeOptional(a.ipv6Socket, h.skipIPv6), ToBytes(a.peerId);
    var t := key + ext;
    RelaysRoundTrip(h.relayTypes, a.relays, s4 + (int4 + (s6 + t)));
    OptionalRoundTrip(h.ipv4, false, h.skipIPv4, a.ipv4Socket, int4 + (s6 + t));
    OptionalRoundTrip(h.net4Internal, false, false, a.ipInternalSocket, s6 + t);
    OptionalRoundTrip(h.ipv6, true, h.skipIPv6, a.ipv6Socket, t);
    Front(key, ext);
    KeyRoundTrips(a.peerId);
    BodyParts(h, Transmitted(a), r, s4, int4, s6, t);
    BodySize(a);
    Assoc5(r, s4, int4, s6, key, ext);
  }

  /** For every mix of relays, sockets and skipped IPs: decoding gives back everything transmitted, and
      the bytes written are as many as the size computed from the three header bytes alone. */
  lemma AddressRoundTrip(a: Address, ext: seq<Byte>)
    requires WellFormed(a)
    ensures |Encode(a)| == Size(a.header) == Announced(Encode(a) + ext)
    ensures Decode(Encode(a) + ext) == Transmitted(a)
  {
    var head := Bytes(3, EncodeHeader(a.header));
    HeaderRead(a.header);
    BodyRoundTrip(a, ext);
    Assoc(head, EncodeBody(a), ext);
    Front(head, EncodeBody(a) + ext);
  }

  // ---------------------------------------------------------------- nothing beyond the size is read

  lemma SocketExtend(v6: bool, skip: bool, bs: seq<Byte>, ext: seq<Byte>)
    requires |bs| >= SocketSize(v6, skip)
    ensures DecodeSocket(v6, skip, bs + ext) == DecodeSocket(v6, skip, bs)
  {
    var n := IpSize(v6);
    if !skip {
      Extend(bs, ext, n);
    }
    var ports := if skip then bs else bs[n..];
    assert (ports + ext)[..2] == ports[..2] && (ports + ext)[2..4] == ports[2..4] && (ports + ext)[4..6] == ports[4..6];
  }

  lemma {:induction false} RelaysExtend(types: nat, n: nat, bs: seq<Byte>, ext: seq<Byte>)
    requires |bs| >= RelaySize(types, n)
    ensures DecodeRelays(types, n, bs + ext) == DecodeRelays(types, n, bs)
  {
    if n > 0 {
      var k := RelaySize(types, n - 1);
      RelaysExtend(types, n - 1, bs, ext);
      Extend(bs, ext, k);
      SocketExtend(Has(types, n - 1), false, bs[k..], ext);
    }
  }

  lemma OptionalExtend(present: bool, v6: bool, skip: bool, bs: seq<Byte>, ext: seq<Byte>)
    requires |bs| >= OptionalSize(present, v6, skip)
    ensures DecodeOptional(present, v6, skip, bs + ext) == DecodeOptional(present, v6, skip, bs)
    ensures (bs + ext)[OptionalSize(present, v6, skip)..] == bs[OptionalSize(present, v6, skip)..] + ext
  {
    Extend(bs, ext, OptionalSize(present, v6, skip));
    if present {
      SocketExtend(v6, skip, bs, ext);
    }
  }

  lemma DecodeExtend(bs: seq<Byte>, ext: seq<Byte>)
    requires |bs| >= HEADER_SIZE && |bs| >= Announced(bs)
    ensures Announced(bs + ext) == Announced(bs) && Decode(bs + ext) == Decode(bs)
  {
    Extend(bs, ext, HEADER_SIZE);
    var h, body := DecodeHeader(UInt(bs[..HEADER_SIZE])), bs[HEADER_SIZE..];
    var n := RelaySize(h.relayTypes, h.relaySize);
    RelaysExtend(h.relayTypes, h.relaySize, body, ext);
    Extend(body, ext, n);
    var b1 := body[n..];
    OptionalExtend(h.ipv4, false, h.skipIPv4, b1, ext);
    var b2 := b1[OptionalSize(h.ipv4, false, h.skipIPv4)..];
    OptionalExtend(h.net4Internal, false, false, b2, ext);
    var b3 := b2[OptionalSize(h.net4Internal, false, false)..];
    OptionalExtend(h.ipv6, true, h.skipIPv6, b3, ext);
    Extend(b3[OptionalSize(h.ipv6, true, h.skipIPv6)..], ext, BYTE_ARRAY_SIZE);
  }

  // ---------------------------------------------------------------- the loops

  /** `size()` as the loop computes it. */
  method ComputeSize(h: Header) returns (size: nat)
    ensures size == Size(h)
  {
    size := HEADER_SIZE + BYTE_ARRAY_SIZE;
    for i := 0 to h.relaySize
      invariant size == MIN_SIZE + RelaySize(h.relayTypes, i)
    {
      size := size + SocketSize(Has(h.relayTypes, i), false);
    }
    if h.ipv4 {
      size := size + SocketSize(false, h.skipIPv4);
    }
    if h.net4Internal {
      size := size + SocketSize(false, false);
    }
    if h.ipv6 {
      size := size + SocketSize(true, h.skipIPv6);
    }
  }

  lemma AssocLeft(a: seq<Byte>, b: seq<Byte>, c: seq<Byte>, d: seq<Byte>, e: seq<Byte>, f: seq<Byte>)
    ensures a + b + c + d + e + f == a + (b + c + d + e + f)
  {
    Assoc(a, b, c);
    Assoc(a, b + c, d);
    Assoc(a, b + c + d, e);
    Assoc(a, b + c + d + e, f);
  }

  method WriteRelays(relays: seq<Socket>, buf: seq<Byte>) returns (r: seq<Byte>)
    requires forall i :: 0 <= i < |relays| ==> relays[i].ip.Some?
    ensures r == buf + EncodeRelays(relays)
  {
    r := buf;
    for i := 0 to |relays|
      invariant r == buf + EncodeRelays(relays[..i])
    {
      assert relays[..i + 1][..i] == relays[..i];
      Assoc(buf, EncodeRelays(relays[..i]), EncodeSocket(relays[i], false));
      r := r + EncodeSocket(relays[i], false);
    }
    assert relays[..|relays|] == relays;
  }

  method WriteOptional(present: bool, s: Option<Socket>, skip: bool, buf: seq<Byte>) returns (r: seq<Byte>)
    requires s.Some? == present && (s.Some? && !skip ==> s.value.ip.Some?)
    ensures r == buf + EncodeOptional(s, skip)
  {
    r := if present then buf + EncodeSocket(s.value, skip) else buf;
  }

  /** `encode(buf)`: appends the address to what the buffer holds. */
  method Write(a: Address, buf: seq<Byte>) returns (r: seq<Byte>)
    requires Encodable(a)
    ensures r == buf + Encode(a)
  {
    var start := buf + Bytes(3, EncodeHeader(a.header));
    r := WriteRelays(a.relays, start);
    r := WriteOptional(a.header.ipv4, a.ipv4Socket, a.header.skipIPv4, r);
    r := WriteOptional(a.header.net4Internal, a.ipInternalSocket, false, r);
    r := WriteOptional(a.header.ipv6, a.ipv6Socket, a.header.skipIPv6, r);
    r := r + ToBytes(a.peerId);
    AssocLeft(start, EncodeRelays(a.relays), EncodeOptional(a.ipv4Socket, a.header.skipIPv4),
              EncodeOptional(a.ipInternalSocket, false), EncodeOptional(a.ipv6Socket, a.header.skipIPv6), ToBytes(a.peerId));
    Assoc(buf, Bytes(3, EncodeHeader(a.header)), EncodeBody(a));
  }

  method ReadOptional(bs: seq<Byte>, present: bool, v6: bool, skip: bool) returns (s: Option<Socket>, rest: seq<Byte>)
    requires OptionalSize(present, v6, skip) <= |bs|
    ensures s == DecodeOptional(present, v6, skip, bs) && rest == bs[OptionalSize(present, v6, skip)..]
  {
    s, rest := None, bs;
    if present {
      s := Some(DecodeSocket(v6, skip, bs));
      rest := bs[SocketSize(v6, skip)..];
    }
  }

  method ReadRelays(bs: seq<Byte>, types: nat, n: nat) returns (relays: seq<Socket>, rest: seq<Byte>)
    requires RelaySize(types, n) <= |bs|
    ensures relays == DecodeRelays(types, n, bs) && rest == bs[RelaySize(types, n)..]
  {
    relays, rest := [], bs;
    for i := 0 to n
      invariant RelaySize(types, i) <= RelaySize(types, n)
      invariant rest == bs[RelaySize(types, i)..] && relays == DecodeRelays(types, i, bs)
    {
      RelaysGrow(types, i + 1, n);
      ghost var at, k := RelaySize(types, i), SocketSize(Has(types, i), false);
      relays := relays + [DecodeSocket(Has(types, i), false, rest)];
      rest := rest[SocketSize(Has(types, i), false)..];
      Suffixes(bs, at, k);
    }
  }

  lemma {:induction false} RelaysGrow(types: nat, i: nat, n: nat)
    requires i <= n
    ensures RelaySize(types, i) <= RelaySize(types, n)
  {
    if i < n {
      RelaysGrow(types, i, n - 1);
    }
  }

  lemma Suffixes(bs: seq<Byte>, i: nat, k: nat)
    requires i + k <= |bs|
    ensures bs[i..][k..] == bs[i + k..]
  {
  }

  /** The parts of the body add up. */
  lemma BodyRest(h: Header, bs: seq<Byte>) returns (k: seq<nat>)
    requires Size(h) - HEADER_SIZE <= |bs|
    ensures |k| == 4 && k[0] + k[1] + k[2] + k[3] + BYTE_ARRAY_SIZE == Size(h) - HEADER_SIZE
    ensures k[0] == RelaySize(h.relayTypes, h.relaySize) && k[1] == OptionalSize(h.ipv4, false, h.skipIPv4)
    ensures k[2] == OptionalSize(h.net4Internal, false, false) && k[3] == OptionalSize(h.ipv6, true, h.skipIPv6)
    ensures bs[k[0]..][k[1]..][k[2]..][k[3]..][BYTE_ARRAY_SIZE..] == bs[Size(h) - HEADER_SIZE..]
  {
    k := [RelaySize(h.relayTypes, h.relaySize), OptionalSize(h.ipv4, false, h.skipIPv4),
          OptionalSize(h.net4Internal, false, false), OptionalSize(h.ipv6, true, h.skipIPv6)];
    FiveSuffixes(bs, k[0], k[1], k[2], k[3], BYTE_ARRAY_SIZE);
  }

  /** `decode(header, buf)`. */
  method ReadBody(h: Header, bs: seq<Byte>) returns (a: Address, rest: seq<Byte>)
    requires Size(h) - HEADER_SIZE <= |bs|
    ensures a == DecodeBody(h, bs) && rest == bs[Size(h) - HEADER_SIZE..]
  {
    ghost var k := BodyRest(h, bs);
    var relays, b1 := ReadRelays(bs, h.relayTypes, h.relaySize);
    var s4, b2 := ReadOptional(b1, h.ipv4, false, h.skipIPv4);
    var int4, b3 := ReadOptional(b2, h.net4Internal, false, false);
    var s6, b4 := ReadOptional(b3, h.ipv6, true, h.skipIPv6);
    a := Address(h, relays, s4, int4, s6, KeyOf(b4[..BYTE_ARRAY_SIZE]));
    rest := b4[BYTE_ARRAY_SIZE..];
  }

  lemma FiveSuffixes(bs: seq<Byte>, b: nat, c: nat, d: nat, e: nat, f: nat)
    requires b + c + d + e + f <= |bs|
    ensures bs[b..][c..][d..][e..][f..] == bs[b + c + d + e + f..]
  {
    Suffixes(bs, b, c);
    Suffixes(bs, b + c, d);
    Suffixes(bs, b + c + d, e);
    Suffixes(bs, b + c + d + e, f);
  }

  /** `decode(buf)` on the readable bytes: the address, and the reader index moved by exactly its size. */
  method Read(bs: seq<Byte>) returns (a: Address, rest: seq<Byte>)
    requires HEADER_SIZE <= |bs| && Announced(bs) <= |bs|
    ensures a == Decode(bs) && rest == bs[Announced(bs)..]
  {
    var h := DecodeHeader(UInt(bs[..HEADER_SIZE]));
    a, rest := ReadBody(h, bs[HEADER_SIZE..]);
    Suffixes(bs, HEADER_SIZE, Size(h) - HEADER_SIZE);
  }
}
