/** `Encoder` and `MessageHeaderCodec`: what a message looks like as bytes. */
module MessageCodec {
  import opened Digits
  import opened Number160
  import opened Sequences
  import opened Wire
  import opened Wrappers
  import opened AssociationLists
  import PA = PeerAddress

  const HEADER_SIZE_STATIC: nat := 34
  const HEADER_SIZE_MIN: nat := 63
  const CONTENT_TYPE_LENGTH: nat := 8
  const TYPES: nat := 15
  const KEY640: nat := 80

  /** A content type by its ordinal. */
  type Kind = n: nat | n < 16

  const EMPTY: Kind := 0
  const KEY: Kind := 1
  const MAP_KEY640_KEYS: Kind := 3
  const SET_KEY640: Kind := 4
  const SET_NEIGHBORS: Kind := 5
  const BYTE_BUFFER: Kind := 6
  const LONG: Kind := 7
  const INTEGER: Kind := 8
  const MAP_KEY640_BYTE: Kind := 12
  const PEER_SOCKET4: Kind := 14
  const PEER_SOCKET6: Kind := 15

  datatype Number640 = Number640(location: Key, domain: Key, content: Key, version: Key)

  /** The value of a key: the set of keys it is based on. */
  type KeysEntry = Entry<Number640, seq<Key>>

  type ByteEntry = Entry<Number640, Byte>

  /** A map is held as its entries in the order they are written or arrive; a number by its bit pattern. */
  datatype Content =
    | IntValue(int32: nat)
    | LongValue(int64: nat)
    | KeyValue(key: Key)
    | Neighbors(addresses: seq<PA.Address>)
    | SocketValue(socket: PA.Socket)
    | KeyCollection(keys: seq<Number640>)
    | KeysMap(keysEntries: seq<KeysEntry>)
    | ByteMap(byteEntries: seq<ByteEntry>)
    | Buffer(data: seq<Byte>)

  function KindOf(c: Content): (k: Kind) {
    match c
    case IntValue(_) => INTEGER
    case LongValue(_) => LONG
    case KeyValue(_) => KEY
    case Neighbors(_) => SET_NEIGHBORS
    case SocketValue(s) => if s.v6 then PEER_SOCKET6 else PEER_SOCKET4
    case KeyCollection(_) => SET_KEY640
    case KeysMap(_) => MAP_KEY640_KEYS
    case ByteMap(_) => MAP_KEY640_BYTE
    case Buffer(_) => BYTE_BUFFER
  }

  /** `kinds` are the eight content types of the header. */
  datatype Message = Message(
    version: nat,
    msgType: nat,
    messageId: nat,
    command: nat,
    recipient: Key,
    kinds: seq<Kind>,
    options: nat,
    sender: PA.Address,
    contents: seq<Content>)

  // ---------------------------------------------------------------- contents as bytes

  function Encode640(k: Number640): (bs: seq<Byte>)
    ensures |bs| == KEY640
  {
    ToBytes(k.location) + ToBytes(k.domain) + ToBytes(k.content) + ToBytes(k.version)
  }

  function Decode640(bs: seq<Byte>): (k: Number640)
    requires |bs| >= KEY640
  {
    Number640(KeyOf(bs[0..20]), KeyOf(bs[20..40]), KeyOf(bs[40..60]), KeyOf(bs[60..80]))
  }

  function EncodeKeys(keys: seq<Key>): (bs: seq<Byte>)
    ensures |bs| == BYTE_ARRAY_SIZE * |keys|
  {
    if keys == [] then [] else ToBytes(keys[0]) + EncodeKeys(keys[1..])
  }

  function EncodeAddresses(as_: seq<PA.Address>): (bs: seq<Byte>)
    requires forall i :: 0 <= i < |as_| ==> PA.Encodable(as_[i])
  {
    if as_ == [] then [] else PA.Encode(as_[0]) + EncodeAddresses(as_[1..])
  }

  function Encode640s(keys: seq<Number640>): (bs: seq<Byte>) {
    if keys == [] then [] else Encode640(keys[0]) + Encode640s(keys[1..])
  }

  function EncodeKeysEntry(e: KeysEntry): (bs: seq<Byte>) {
    Encode640(e.key) + (Bytes(BYTE_BYTE_SIZE, |e.value|) + EncodeKeys(e.value))
  }

  function EncodeKeysEntries(es: seq<KeysEntry>): (bs: seq<Byte>) {
    if es == [] then [] else EncodeKeysEntry(es[0]) + EncodeKeysEntries(es[1..])
  }

  function EncodeByteEntry(e: ByteEntry): (bs: seq<Byte>) {
    Encode640(e.key) + [e.value]
  }

  function EncodeByteEntries(es: seq<ByteEntry>): (bs: seq<Byte>) {
    if es == [] then [] else EncodeByteEntry(es[0]) + EncodeByteEntries(es[1..])
  }

  /** What the encoder can write at all: addresses and sockets that have what it reads from them. */
  predicate Writable(c: Content) {
    (c.Neighbors? ==> forall i :: 0 <= i < |c.addresses| ==> PA.Encodable(c.addresses[i])) &&
    (c.SocketValue? ==> c.socket.ip.Some?)
  }

  /** One round of the encoder's loop. */
  function EncodeContent(c: Content): (bs: seq<Byte>)
    requires Writable(c)
  {
    match c
    case IntValue(v) => Bytes(INTEGER_BYTE_SIZE, v)
    case LongValue(v) => Bytes(LONG_BYTE_SIZE, v)
    case KeyValue(k) => ToBytes(k)
    case Neighbors(addresses) => Bytes(BYTE_BYTE_SIZE, |addresses|) + EncodeAddresses(addresses)
    case SocketValue(s) => PA.EncodeSocket(s, false)
    case KeyCollection(keys) => Bytes(INTEGER_BYTE_SIZE, |keys|) + Encode640s(keys)
    case KeysMap(es) => Bytes(INTEGER_BYTE_SIZE, |es|) + EncodeKeysEntries(es)
    case ByteMap(es) => Bytes(INTEGER_BYTE_SIZE, |es|) + EncodeByteEntries(es)
    case Buffer(data) => Bytes(INTEGER_BYTE_SIZE, |data|) + data
  }

  function EncodeContents(cs: seq<Content>): (bs: seq<Byte>)
    requires forall i :: 0 <= i < |cs| ==> Writable(cs[i])
  {
    if cs == [] then [] else EncodeContent(cs[0]) + EncodeContents(cs[1..])
  }

  predicate KeysDistinct(keys: seq<Key>) {
    forall i, j :: 0 <= i < j < |keys| ==> keys[i] != keys[j]
  }

  predicate EntryOk(e: KeysEntry) {
    |e.value| < 128 && KeysDistinct(e.value)
  }

  /** Values within their widths, collections within what their length fields can say, and at most 127
      based-on keys.  Nothing is said about repeated keys. */
  ghost predicate ContentOk(c: Content) {
    match c
    case IntValue(v) => v < Pow(256, 4)
    case LongValue(v) => v < Pow(256, 8)
    case KeyValue(_) => true
    case Neighbors(addresses) => |addresses| < 256 && forall i :: 0 <= i < |addresses| ==> PA.WellFormed(addresses[i])
    case SocketValue(s) => PA.SocketOk(s, false)
    case KeyCollection(keys) => |keys| < 0x8000_0000
    case KeysMap(es) => |es| < 0x8000_0000 && forall i :: 0 <= i < |es| ==> EntryOk(es[i])
    case ByteMap(es) => |es| < 0x4000_0000
    case Buffer(data) => |data| < 0x8000_0000
  }

  lemma OkWritable(c: Content)
    requires ContentOk(c)
    ensures Writable(c)
  {
  }

  /** The content as it arrives: skipped IPs do not travel, and the entries of a map are put one by one. */
  function Arrives(c: Content): (r: Content) {
    match c
    case Neighbors(addresses) => Neighbors(AllTransmitted(addresses))
    case KeysMap(es) => KeysMap(PutAll([], es))
    case ByteMap(es) => ByteMap(PutAll([], es))
    case _ => c
  }

  /** Written by an encoder that iterates over a map: no key comes twice. */
  predicate IsMap(c: Content) {
    (c.KeysMap? ==> DistinctKeys(c.keysEntries)) && (c.ByteMap? ==> DistinctKeys(c.byteEntries))
  }

  /** No key comes twice among all entries but the last. */
  predicate CutSafe(c: Content) {
    (c.KeysMap? ==> DistinctKeys(AllButLast(c.keysEntries))) && (c.ByteMap? ==> DistinctKeys(AllButLast(c.byteEntries)))
  }

  /** Maps arrive entry for entry, and are the same wherever the bytes are cut. */
  lemma MapsArrive(c: Content)
    requires IsMap(c)
    ensures CutSafe(c) && (!c.Neighbors? ==> Arrives(c) == c)
  {
    if c.KeysMap? {
      DistinctArrive(c.keysEntries);
    } else if c.ByteMap? {
      DistinctArrive(c.byteEntries);
    }
  }

  lemma DistinctArrive<V>(es: seq<Entry<Number640, V>>)
    requires DistinctKeys(es)
    ensures PutAll([], es) == es && DistinctKeys(AllButLast(es))
  {
    assert [] + es == es;
    PutAllDistinct([], es);
  }

  function AllTransmitted(as_: seq<PA.Address>): (r: seq<PA.Address>)
    ensures |r| == |as_|
  {
    if as_ == [] then [] else [PA.Transmitted(as_[0])] + AllTransmitted(as_[1..])
  }

  // ---------------------------------------------------------------- the message header

  function PackKinds(kinds: seq<Kind>): (n: nat) {
    if kinds == [] then 0 else kinds[0] + 16 * PackKinds(kinds[1..])
  }

  function UnpackKinds(n: nat, count: nat): (kinds: seq<Kind>)
    ensures |kinds| == count
  {
    if count == 0 then [] else [n % 16] + UnpackKinds(n / 16, count - 1)
  }

  lemma {:induction false} KindsRoundTrip(kinds: seq<Kind>)
    ensures UnpackKinds(PackKinds(kinds), |kinds|) == kinds && PackKinds(kinds) < Pow(16, |kinds|)
  {
    if kinds != [] {
      KindsRoundTrip(kinds[1..]);
    }
  }

  /** `encodeContentTypes`: two types a byte, the first in the low half. */
  method EncodeContentTypes(kinds: seq<Kind>) returns (result: nat)
    requires |kinds| == CONTENT_TYPE_LENGTH
    ensures result == PackKinds(kinds) < 0x1_0000_0000
  {
    result := 0;
    var shift: nat := 1;
    for i := 0 to CONTENT_TYPE_LENGTH / 2
      invariant result + shift * PackKinds(kinds[2 * i..]) == PackKinds(kinds)
    {
      PackPair(kinds, 2 * i);
      result, shift := AddPair(result, shift, kinds[2 * i], kinds[2 * i + 1], PackKinds(kinds[2 * i + 2..]));
    }
    PackBound(kinds);
  }

  lemma PackBound(kinds: seq<Kind>)
    requires |kinds| == CONTENT_TYPE_LENGTH
    ensures PackKinds(kinds) < 0x1_0000_0000
  {
    KindsRoundTrip(kinds);
    SixteenPowers();
  }

  lemma PackPair(kinds: seq<Kind>, j: nat)
    requires j + 2 <= |kinds|
    ensures PackKinds(kinds[j..]) == kinds[j] as int + 16 * kinds[j + 1] as int + 256 * PackKinds(kinds[j + 2..])
  {
    assert kinds[j..][1..] == kinds[j + 1..];
    assert kinds[j + 1..][1..] == kinds[j + 2..];
  }

  /** Two types into one byte of the result; `rest` is what the types after them pack to. */
  method AddPair(result: nat, shift: nat, lo: nat, hi: nat, ghost rest: nat) returns (result': nat, shift': nat)
    ensures result' + shift' * rest == result + shift * (lo + 16 * hi + 256 * rest)
  {
    Distribute(shift, lo + 16 * hi, rest);
    result' := result + shift * (lo + 16 * hi);
    shift' := shift * 256;
  }

  lemma Distribute(shift: nat, x: int, rest: nat)
    ensures shift * (x + 256 * rest) == shift * x + (shift * 256) * rest
  {
  }

  /** `decodeContentTypes`. */
  method DecodeContentTypes(n: nat) returns (kinds: seq<Kind>)
    ensures kinds == UnpackKinds(n, CONTENT_TYPE_LENGTH)
  {
    kinds := [];
    var left := n;
    for i := 0 to CONTENT_TYPE_LENGTH
      invariant |kinds| == i && kinds + UnpackKinds(left, CONTENT_TYPE_LENGTH - i) == UnpackKinds(n, CONTENT_TYPE_LENGTH)
    {
      kinds := kinds + [left % 16];
      left := left / 16;
    }
  }

  function Padded(cs: seq<Content>): (kinds: seq<Kind>)
    requires |cs| <= CONTENT_TYPE_LENGTH
    ensures |kinds| == CONTENT_TYPE_LENGTH
  {
    seq(CONTENT_TYPE_LENGTH, i requires 0 <= i < CONTENT_TYPE_LENGTH => if i < |cs| then KindOf(cs[i]) else EMPTY)
  }

  /** The first 34 bytes. */
  function EncodeStatic(m: Message): (bs: seq<Byte>)
    ensures |bs| == HEADER_SIZE_STATIC
  {
    Bytes(INTEGER_BYTE_SIZE, m.version * 16 + m.msgType % 16) + Bytes(INTEGER_BYTE_SIZE, m.messageId) + Bytes(BYTE_BYTE_SIZE, m.command) + ToBytes(m.recipient) +
    Bytes(INTEGER_BYTE_SIZE, PackKinds(m.kinds)) + Bytes(BYTE_BYTE_SIZE, m.options)
  }

  function EncodeMessage(m: Message): (bs: seq<Byte>)
    requires PA.Encodable(m.sender) && forall i :: 0 <= i < |m.contents| ==> Writable(m.contents[i])
  {
    EncodeStatic(m) + (PA.Encode(m.sender) + EncodeContents(m.contents))
  }

  /** `Encoder.loop`: takes the content references one by one and appends to the buffer. */
  method WriteContents(cs: seq<Content>, buf: seq<Byte>) returns (r: seq<Byte>)
    requires forall i :: 0 <= i < |cs| ==> Writable(cs[i])
    ensures r == buf + EncodeContents(cs)
  {
    r := buf;
    var queue := cs;
    while queue != []
      invariant forall i :: 0 <= i < |queue| ==> Writable(queue[i])
      invariant r + EncodeContents(queue) == buf + EncodeContents(cs)
      decreases |queue|
    {
      Assoc(r, EncodeContent(queue[0]), EncodeContents(queue[1..]));
      r := r + EncodeContent(queue[0]);
      queue := queue[1..];
    }
  }

  method StaticBytes(m: Message) returns (head: seq<Byte>)
    requires |m.kinds| == CONTENT_TYPE_LENGTH
    ensures head == EncodeStatic(m)
  {
    var types := EncodeContentTypes(m.kinds);
    head := Bytes(INTEGER_BYTE_SIZE, m.version * 16 + m.msgType % 16) + Bytes(INTEGER_BYTE_SIZE, m.messageId) + Bytes(BYTE_BYTE_SIZE, m.command) + ToBytes(m.recipient) +
            Bytes(INTEGER_BYTE_SIZE, types) + Bytes(BYTE_BYTE_SIZE, m.options);
  }

  /** `Encoder.write` for an unsigned message. */
  method WriteMessage(m: Message, buf: seq<Byte>) returns (r: seq<Byte>)
    requires |m.kinds| == CONTENT_TYPE_LENGTH
    requires PA.Encodable(m.sender) && forall i :: 0 <= i < |m.contents| ==> Writable(m.contents[i])
    ensures r == buf + EncodeMessage(m)
  {
    var head := StaticBytes(m);
    r := PA.Write(m.sender, buf + head);
    r := WriteContents(m.contents, r);
    Assoc(buf, head, PA.Encode(m.sender));
    Assoc(buf, head + PA.Encode(m.sender), EncodeContents(m.contents));
    Assoc(head, PA.Encode(m.sender), EncodeContents(m.contents));
  }

  /** The socket a message came in on. */
  datatype Inet = Inet(v6: bool, ip: nat)

  predicate HasFamily(a: PA.Address, socket: Inet) {
    if socket.v6 then a.ipv6Socket.Some? else a.ipv4Socket.Some?
  }

  /** The sender's own view of its IP is replaced by the one the socket shows. */
  function AsSeen(a: PA.Address, socket: Inet): (r: PA.Address)
    requires HasFamily(a, socket)
  {
    if socket.v6 then a.(ipv6Socket := Some(a.ipv6Socket.value.(ip := Some(socket.ip))))
    else a.(ipv4Socket := Some(a.ipv4Socket.value.(ip := Some(socket.ip))))
  }

  /** Every header field within its width. */
  predicate HeaderOk(m: Message) {
    m.version < 0x1000_0000 && m.msgType < TYPES && m.messageId < 0x1_0000_0000 && m.command < 256 && m.options < 256 &&
    |m.kinds| == CONTENT_TYPE_LENGTH
  }

  /** A message that the codec carries: every header field within its width, at most eight contents of the
      modelled kinds, and a sender with a socket of the family it sends through. */
  ghost predicate MessageOk(m: Message, socket: Inet) {
    HeaderOk(m) && PA.WellFormed(m.sender) && HasFamily(m.sender, socket) &&
    |m.contents| <= CONTENT_TYPE_LENGTH && m.kinds == Padded(m.contents) &&
    forall i :: 0 <= i < |m.contents| ==> ContentOk(m.contents[i])
  }

  function AllArrive(cs: seq<Content>): (r: seq<Content>)
    ensures |r| == |cs|
  {
    if cs == [] then [] else [Arrives(cs[0])] + AllArrive(cs[1..])
  }

  /** The message the receiver should see. */
  function Expected(m: Message, socket: Inet): (r: Message)
    requires HasFamily(m.sender, socket)
  {
    m.(sender := AsSeen(PA.Transmitted(m.sender), socket), contents := AllArrive(m.contents))
  }

  /** The header fields other than the sender. */
  function DecodeStatic(bs: seq<Byte>): (m: Message)
    requires |bs| >= HEADER_SIZE_STATIC
  {
    Message(UInt(bs[0..4]) / 16, UInt(bs[0..4]) % 16, UInt(bs[4..8]), UInt(bs[8..9]), KeyOf(bs[9..29]),
            UnpackKinds(UInt(bs[29..33]), CONTENT_TYPE_LENGTH), UInt(bs[33..34]), NoAddress(), [])
  }

  function NoAddress(): (a: PA.Address) {
    PA.Address(PA.Header(false, false, false, false, false, false, false, false, 0, false, false, false, false, false, false, 0),
               [], None, None, None, Number([0, 0, 0, 0, 0]))
  }
}
