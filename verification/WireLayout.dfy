/** Where everything is on the wire: byte order, bit positions, offsets and numbers of the format. */
module WireLayout {
  import opened Bits
  import opened Digits
  import opened Number160
  import opened Sequences
  import opened Wire
  import opened Wrappers
  import opened AssociationLists
  import opened MessageCodec
  import opened MapRoundTrip
  import opened DecoderRoundTrip
  import opened MessageStream
  import PA = PeerAddress

  /** Numbers are big-endian. */
  lemma BigEndian(a: Byte, b: Byte, c: Byte, d: Byte)
    ensures UInt([a]) == a && UInt([a, b]) == 0x100 * a + b
    ensures UInt([a, b, c, d]) == 0x100_0000 * a + 0x1_0000 * b + 0x100 * c + d
  {
    assert [a][..0] == [] && Horner(256, [a]) == a;
    assert [a, b][..1] == [a] && Horner(256, [a, b]) == Horner(256, [a]) * 256 + b;
    HornerFour(256, a, b, c, d);
  }

  /** The IP first, if it is not skipped, then the UDP, TCP and UDT ports, two bytes each. */
  lemma SocketLayout(s: PA.Socket, skip: bool)
    requires PA.SocketOk(s, skip)
    ensures var bs, at := PA.EncodeSocket(s, skip), if skip then 0 else if s.v6 then 16 else 4;
            |bs| == at + 6 && (!skip ==> UInt(bs[..at]) == s.ip.value) &&
            UInt(bs[at..at + 2]) == s.udpPort && UInt(bs[at + 2..at + 4]) == s.tcpPort && UInt(bs[at + 4..at + 6]) == s.udtPort
  {
    Powers();
    var ports := Bytes(2, s.udpPort) + Bytes(2, s.tcpPort) + Bytes(2, s.udtPort);
    PortsLayout(s.udpPort, s.tcpPort, s.udtPort);
    if skip {
      assert [] + ports == ports;
    } else {
      BytesRoundTrips(PA.IpSize(s.v6), s.ip.value);
      Behind(Bytes(PA.IpSize(s.v6), s.ip.value), ports);
    }
  }

  lemma PortsLayout(x: nat, y: nat, z: nat)
    requires x < 0x1_0000 && y < 0x1_0000 && z < 0x1_0000
    ensures var ports := Bytes(2, x) + Bytes(2, y) + Bytes(2, z);
            |ports| == 6 && UInt(ports[0..2]) == x && UInt(ports[2..4]) == y && UInt(ports[4..6]) == z
  {
    hide Bytes, UInt;
    Powers();
    BytesRoundTrips(2, x);
    BytesRoundTrips(2, y);
    BytesRoundTrips(2, z);
    var ports := Bytes(2, x) + Bytes(2, y) + Bytes(2, z);
    assert ports[0..2] == Bytes(2, x) && ports[2..4] == Bytes(2, y) && ports[4..6] == Bytes(2, z);
  }

  lemma Behind(a: seq<Byte>, b: seq<Byte>)
    requires |b| == 6
    ensures var bs := a + b;
            bs[..|a|] == a && bs[|a|..|a| + 2] == b[0..2] && bs[|a| + 2..|a| + 4] == b[2..4] && bs[|a| + 4..|a| + 6] == b[4..6]
  {
  }

  /** Bit 0 and 1 announce the IPv4 and the IPv6 socket, 2 to 7 are the six reachability flags, 8 to 10 the number of
      relays, 11 slow, 12 hole punching, 13 unreachable, 14 the internal socket, 15 and 16 the skipped IPs, and 17
      to 23 tell for each relay whether it is IPv6. */
  lemma HeaderLayout(h: PA.Header)
    requires h.relaySize < 8 && h.relayTypes < 128
    ensures var n := PA.EncodeHeader(h);
            n < 0x100_0000 && PA.Has(n, 0) == h.ipv4 && PA.Has(n, 1) == h.ipv6 &&
            PA.Has(n, 2) == h.reachable4Udp && PA.Has(n, 3) == h.reachable4Tcp && PA.Has(n, 4) == h.reachable4Udt &&
            PA.Has(n, 5) == h.reachable6Udp && PA.Has(n, 6) == h.reachable6Tcp && PA.Has(n, 7) == h.reachable6Udt &&
            Field(n, 8, 3) == h.relaySize && PA.Has(n, 11) == h.slow && PA.Has(n, 12) == h.holePunching &&
            PA.Has(n, 13) == h.unreachable && PA.Has(n, 14) == h.net4Internal && PA.Has(n, 15) == h.skipIPv4 &&
            PA.Has(n, 16) == h.skipIPv6 && Field(n, 17, 7) == h.relayTypes
  {
    hide PA.Has, PA.EncodeHeader, PA.HeaderBits, Field;
    var bs := PA.HeaderBits(h);
    FlagBits(h);
    forall k | 0 <= k < 24 ensures PA.Has(PA.EncodeHeader(h), k) == bs[k] {
      HeaderBit(h, k);
    }
    PA.RelayFields(h);
    PA.HeaderFits(h);
    Powers();
  }

  lemma FlagBits(h: PA.Header)
    ensures var bs := PA.HeaderBits(h);
            bs[0] == h.ipv4 && bs[1] == h.ipv6 && bs[2] == h.reachable4Udp && bs[3] == h.reachable4Tcp &&
            bs[4] == h.reachable4Udt && bs[5] == h.reachable6Udp && bs[6] == h.reachable6Tcp && bs[7] == h.reachable6Udt &&
            bs[11] == h.slow && bs[12] == h.holePunching && bs[13] == h.unreachable && bs[14] == h.net4Internal &&
            bs[15] == h.skipIPv4 && bs[16] == h.skipIPv6
  {
    hide LowBits;
    var a := [h.ipv4, h.ipv6, h.reachable4Udp, h.reachable4Tcp, h.reachable4Udt, h.reachable6Udp, h.reachable6Tcp, h.reachable6Udt];
    var c := [h.slow, h.holePunching, h.unreachable, h.net4Internal, h.skipIPv4, h.skipIPv6];
    FlagParts(a, LowBits(h.relaySize, 3), c, LowBits(h.relayTypes, 7), PA.HeaderBits(h));
  }

  lemma FlagParts(a: seq<bool>, b: seq<bool>, c: seq<bool>, d: seq<bool>, bs: seq<bool>)
    requires bs == a + b + c + d && |a| == 8 && |b| == 3 && |c| == 6
    ensures bs[0] == a[0] && bs[1] == a[1] && bs[2] == a[2] && bs[3] == a[3] && bs[4] == a[4] && bs[5] == a[5] && bs[6] == a[6] && bs[7] == a[7]
    ensures bs[11] == c[0] && bs[12] == c[1] && bs[13] == c[2] && bs[14] == c[3] && bs[15] == c[4] && bs[16] == c[5]
  {
  }

  lemma HeaderBit(h: PA.Header, k: nat)
    requires k < 24
    ensures PA.Has(PA.EncodeHeader(h), k) == PA.HeaderBits(h)[k]
  {
    PA.HasBit(PA.HeaderBits(h), k);
  }

  /** The header, the relays, the IPv4, the internal and the IPv6 socket, and the id last. */
  ghost predicate LaidOut(a: PA.Address, bs: seq<Byte>)
    requires PA.WellFormed(a)
  {
    var h := a.header;
    var o1 := 3 + PA.RelaySize(h.relayTypes, h.relaySize);
    var o2 := o1 + PA.OptionalSize(h.ipv4, false, h.skipIPv4);
    var o3 := o2 + PA.OptionalSize(h.net4Internal, false, false);
    var o4 := o3 + PA.OptionalSize(h.ipv6, true, h.skipIPv6);
    |bs| == o4 + 20 && UInt(bs[..3]) == PA.EncodeHeader(h) && bs[3..o1] == PA.EncodeRelays(a.relays) &&
    (h.ipv4 ==> bs[o1..o2] == PA.EncodeSocket(a.ipv4Socket.value, h.skipIPv4)) &&
    (h.net4Internal ==> bs[o2..o3] == PA.EncodeSocket(a.ipInternalSocket.value, false)) &&
    (h.ipv6 ==> bs[o3..o4] == PA.EncodeSocket(a.ipv6Socket.value, h.skipIPv6)) &&
    KeyOf(bs[o4..]) == a.peerId
  }

  lemma AddressLayout(a: PA.Address)
    requires PA.WellFormed(a)
    ensures LaidOut(a, PA.Encode(a))
  {
    hide PA.EncodeSocket, PA.EncodeRelays, ToBytes, Bytes, KeyOf, PA.EncodeHeader, UInt, PA.EncodeOptional, PA.RelaySize, LaidOut;
    PA.RelaysSizes(a.header.relayTypes, a.relays);
    PA.HeaderFits(a.header);
    BytesRoundTrips(3, PA.EncodeHeader(a.header));
    KeyRoundTrips(a.peerId);
    Placed(a, Bytes(3, PA.EncodeHeader(a.header)), PA.EncodeRelays(a.relays), PA.EncodeOptional(a.ipv4Socket, a.header.skipIPv4),
           PA.EncodeOptional(a.ipInternalSocket, false), PA.EncodeOptional(a.ipv6Socket, a.header.skipIPv6), ToBytes(a.peerId));
  }

  lemma Placed(a: PA.Address, head: seq<Byte>, relays: seq<Byte>, s4: seq<Byte>, int4: seq<Byte>, s6: seq<Byte>, id: seq<Byte>)
    requires PA.WellFormed(a)
    requires |head| == 3 && UInt(head) == PA.EncodeHeader(a.header)
    requires relays == PA.EncodeRelays(a.relays) && |relays| == PA.RelaySize(a.header.relayTypes, a.header.relaySize)
    requires s4 == PA.EncodeOptional(a.ipv4Socket, a.header.skipIPv4) && int4 == PA.EncodeOptional(a.ipInternalSocket, false)
    requires s6 == PA.EncodeOptional(a.ipv6Socket, a.header.skipIPv6) && |id| == 20 && KeyOf(id) == a.peerId
    ensures LaidOut(a, head + (relays + s4 + int4 + s6 + id))
  {
    hide PA.EncodeSocket, PA.EncodeRelays, KeyOf, PA.EncodeHeader, UInt, PA.OptionalSize, PA.EncodeOptional, PA.RelaySize, PA.RelaysOk;
    OptionalLayout(a.header.ipv4, false, a.header.skipIPv4, a.ipv4Socket);
    OptionalLayout(a.header.net4Internal, false, false, a.ipInternalSocket);
    OptionalLayout(a.header.ipv6, true, a.header.skipIPv6, a.ipv6Socket);
    SixParts(head, relays, s4, int4, s6, id);
  }

  lemma OptionalLayout(present: bool, v6: bool, skip: bool, s: Option<PA.Socket>)
    requires PA.OptionalOk(present, v6, skip, s)
    ensures |PA.EncodeOptional(s, skip)| == PA.OptionalSize(present, v6, skip)
    ensures present ==> PA.EncodeOptional(s, skip) == PA.EncodeSocket(s.value, skip)
  {
  }

  /** Relay i follows the relays before it. */
  lemma {:induction false} RelayLayout(types: nat, relays: seq<PA.Socket>, i: nat)
    requires PA.RelaysOk(types, relays) && i < |relays|
    ensures var at, to := PA.RelaySize(types, i), PA.RelaySize(types, i + 1);
            at <= to <= |PA.EncodeRelays(relays)| && PA.EncodeRelays(relays)[at..to] == PA.EncodeSocket(relays[i], false)
  {
    var n := |relays| - 1;
    PA.RelaysSizes(types, relays);
    PA.RelaysSizes(types, relays[..n]);
    if i < n {
      RelayLayout(types, relays[..n], i);
      Within(PA.EncodeRelays(relays[..n]), PA.EncodeSocket(relays[n], false), PA.RelaySize(types, i), PA.RelaySize(types, i + 1));
    }
  }

  lemma Within(a: seq<Byte>, b: seq<Byte>, i: nat, j: nat)
    requires i <= j <= |a|
    ensures (a + b)[i..j] == a[i..j]
  {
  }

  lemma SixParts(a: seq<Byte>, b: seq<Byte>, c: seq<Byte>, d: seq<Byte>, e: seq<Byte>, f: seq<Byte>)
    ensures var bs := a + (b + c + d + e + f);
            var o1 := |a| + |b|;
            var o2 := o1 + |c|;
            var o3 := o2 + |d|;
            var o4 := o3 + |e|;
            |bs| == o4 + |f| && bs[..|a|] == a && bs[|a|..o1] == b && bs[o1..o2] == c && bs[o2..o3] == d && bs[o3..o4] == e && bs[o4..] == f
  {
  }

  /** Version in 28 bits and type in 4, message id, command, recipient, content types, options. */
  lemma MessageLayout(m: Message)
    requires HeaderOk(m)
    ensures var bs := EncodeStatic(m);
            |bs| == 34 && UInt(bs[0..4]) == 16 * m.version + m.msgType && UInt(bs[4..8]) == m.messageId && bs[8] == m.command &&
            KeyOf(bs[9..29]) == m.recipient && bs[33] == m.options &&
            forall i :: 0 <= i < 8 ==> Field(UInt(bs[29..33]), 4 * i, 4) == m.kinds[i]
  {
    var a, b, c, d, e, g := StaticParts(m);
    SixFields(a, b, c, d, e, g, []);
    assert a + b + c + d + e + g + [] == EncodeStatic(m);
    assert c == [c[0]] && g == [g[0]];
    BigEndian(c[0], 0, 0, 0);
    BigEndian(g[0], 0, 0, 0);
    UnpackFields(UInt(e), 8);
  }

  /** The i-th content type is the i-th half byte, counted from the low end. */
  lemma {:induction false} UnpackFields(n: nat, count: nat)
    ensures forall i :: 0 <= i < count ==> Field(n, 4 * i, 4) == UnpackKinds(n, count)[i]
  {
    if count > 0 {
      UnpackFields(n / 16, count - 1);
      forall i | 0 <= i < count ensures Field(n, 4 * i, 4) == UnpackKinds(n, count)[i] {
        if i == 0 {
          LowNibble(n);
        } else {
          ShrFour(n, 4 * (i - 1));
          assert 4 * (i - 1) + 4 == 4 * i;
        }
      }
    }
  }

  lemma LowNibble(n: nat)
    ensures Masked(n, 4) == n % 16
  {
    assert Masked(n / 2 / 2 / 2, 1) == n / 2 / 2 / 2 % 2;
    assert Masked(n / 2 / 2, 2) == n / 2 / 2 % 2 + 2 * Masked(n / 2 / 2 / 2, 1);
    assert Masked(n / 2, 3) == n / 2 % 2 + 2 * Masked(n / 2 / 2, 2);
  }

  lemma ShrFour(n: nat, k: nat)
    ensures Shr(n, k + 4) == Shr(n / 16, k)
  {
    assert Shr(n, k + 4) == Shr(n / 2, k + 3) == Shr(n / 2 / 2, k + 2) == Shr(n / 2 / 2 / 2, k + 1) == Shr(n / 2 / 2 / 2 / 2, k);
    assert n / 2 / 2 / 2 / 2 == n / 16;
  }

  /** The numbers of the content types. */
  lemma KindNumbers(c: Content)
    ensures KindOf(c) ==
            match c
            case KeyValue(_) => 1
            case KeysMap(_) => 3
            case KeyCollection(_) => 4
            case Neighbors(_) => 5
            case Buffer(_) => 6
            case LongValue(_) => 7
            case IntValue(_) => 8
            case ByteMap(_) => 12
            case SocketValue(s) => if s.v6 then 15 else 14
  {
  }

  /** Location, domain, content and version key. */
  lemma KeyLayout(k: Number640)
    ensures var bs := Encode640(k);
            |bs| == 80 && KeyOf(bs[0..20]) == k.location && KeyOf(bs[20..40]) == k.domain && KeyOf(bs[40..60]) == k.content &&
            KeyOf(bs[60..80]) == k.version
  {
    KeyRoundTrips(k.location);
    KeyRoundTrips(k.domain);
    KeyRoundTrips(k.content);
    KeyRoundTrips(k.version);
    FourParts(ToBytes(k.location), ToBytes(k.domain), ToBytes(k.content), ToBytes(k.version));
  }

  lemma FourParts(a: seq<Byte>, b: seq<Byte>, c: seq<Byte>, d: seq<Byte>)
    requires |a| == |b| == |c| == |d| == 20
    ensures var bs := a + b + c + d; bs[0..20] == a && bs[20..40] == b && bs[40..60] == c && bs[60..80] == d
  {
  }

  /** Collections start with their length, in one byte for neighbours and in four for the others. */
  lemma LengthLayout(c: Content)
    requires ContentOk(c) && Writable(c)
    ensures var bs := EncodeContent(c);
            match c
            case Neighbors(addresses) => |bs| >= 1 && bs[0] == |addresses|
            case KeyCollection(keys) => |bs| == 4 + 80 * |keys| && UInt(bs[..4]) == |keys|
            case KeysMap(es) => |bs| >= 4 && UInt(bs[..4]) == |es|
            case ByteMap(es) => |bs| == 4 + 81 * |es| && UInt(bs[..4]) == |es|
            case Buffer(data) => bs[4..] == data && UInt(bs[..4]) == |data|
            case _ => true
  {
    match c
    case Neighbors(addresses) =>
      assert Bytes(BYTE_BYTE_SIZE, |addresses|) == [|addresses|];
    case KeyCollection(keys) =>
      Length(|keys|, Encode640s(keys));
      KeysTake80(keys);
    case KeysMap(es) =>
      Length(|es|, EncodeKeysEntries(es));
    case ByteMap(es) =>
      Length(|es|, EncodeByteEntries(es));
      EntriesTake81(es);
    case Buffer(data) =>
      Length(|data|, data);
    case _ =>
  }

  lemma {:induction false} KeysTake80(keys: seq<Number640>)
    ensures |Encode640s(keys)| == 80 * |keys|
  {
    if keys != [] {
      KeysTake80(keys[1..]);
    }
  }

  lemma {:induction false} EntriesTake81(es: seq<ByteEntry>)
    ensures |EncodeByteEntries(es)| == 81 * |es|
  {
    if es != [] {
      EntriesTake81(es[1..]);
    }
  }
}
