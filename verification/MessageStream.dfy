/** The stream of messages: header, contents, and any number of messages cut in any way. */
module MessageStream {
  import opened Number160
  import opened Sequences
  import opened Wire
  import opened Wrappers
  import opened AssociationLists
  import opened MessageCodec
  import opened Decoder
  import opened DecoderRoundTrip
  import opened MapRoundTrip
  import PA = PeerAddress

  // ---------------------------------------------------------------- the header

  function Bare(m: Message): (r: Message) { m.(sender := NoAddress(), contents := []) }

  /** Six fields one after the other, and where they end. */
  lemma SixFields(a: seq<Byte>, b: seq<Byte>, c: seq<Byte>, d: seq<Byte>, e: seq<Byte>, g: seq<Byte>, t: seq<Byte>)
    requires |a| == 4 && |b| == 4 && |c| == 1 && |d| == 20 && |e| == 4 && |g| == 1
    ensures var bs := a + b + c + d + e + g + t;
            bs[0..4] == a && bs[4..8] == b && bs[8..9] == c && bs[9..29] == d && bs[29..33] == e && bs[33..34] == g
  {
  }

  lemma StaticReads(m: Message, a: seq<Byte>, b: seq<Byte>, c: seq<Byte>, d: seq<Byte>, e: seq<Byte>, g: seq<Byte>, t: seq<Byte>)
    requires |a| == 4 && |b| == 4 && |c| == 1 && |d| == 20 && |e| == 4 && |g| == 1
    requires UInt(a) / 16 == m.version && UInt(a) % 16 == m.msgType && UInt(b) == m.messageId && UInt(c) == m.command
    requires KeyOf(d) == m.recipient && UnpackKinds(UInt(e), CONTENT_TYPE_LENGTH) == m.kinds && UInt(g) == m.options
    ensures DecodeStatic(a + b + c + d + e + g + t) == Bare(m)
  {
    SixFields(a, b, c, d, e, g, t);
  }

  lemma VersionAndType(version: nat, msgType: nat)
    requires version < 0x1000_0000 && msgType < 16
    ensures var vt := UInt(Bytes(INTEGER_BYTE_SIZE, version * 16 + msgType % 16)); vt / 16 == version && vt % 16 == msgType
  {
    WordRoundTrips(version * 16 + msgType % 16);
  }

  lemma KindsRead(kinds: seq<Kind>)
    requires |kinds| == CONTENT_TYPE_LENGTH
    ensures UnpackKinds(UInt(Bytes(INTEGER_BYTE_SIZE, PackKinds(kinds))), CONTENT_TYPE_LENGTH) == kinds
  {
    KindsRoundTrip(kinds);
    PackBound(kinds);
    WordRoundTrips(PackKinds(kinds));
  }

  lemma StaticParts(m: Message)
      returns (a: seq<Byte>, b: seq<Byte>, c: seq<Byte>, d: seq<Byte>, e: seq<Byte>, g: seq<Byte>)
    requires HeaderOk(m)
    ensures |a| == 4 && |b| == 4 && |c| == 1 && |d| == 20 && |e| == 4 && |g| == 1
    ensures UInt(a) / 16 == m.version && UInt(a) % 16 == m.msgType && UInt(b) == m.messageId && UInt(c) == m.command
    ensures KeyOf(d) == m.recipient && UnpackKinds(UInt(e), CONTENT_TYPE_LENGTH) == m.kinds && UInt(g) == m.options
    ensures EncodeStatic(m) == a + b + c + d + e + g
  {
    hide ToBytes, KeyOf, UInt, Bytes, PackKinds, UnpackKinds;
    VersionAndType(m.version, m.msgType);
    a := Bytes(INTEGER_BYTE_SIZE, m.version * 16 + m.msgType % 16);
    b, c, g := IdAndFlags(m.messageId, m.command, m.options);
    d, e := ToBytes(m.recipient), Bytes(INTEGER_BYTE_SIZE, PackKinds(m.kinds));
    KeyRoundTrips(m.recipient);
    KindsRead(m.kinds);
  }

  lemma IdAndFlags(messageId: nat, command: nat, options: nat) returns (b: seq<Byte>, c: seq<Byte>, g: seq<Byte>)
    requires messageId < 0x1_0000_0000 && command < 256 && options < 256
    ensures b == Bytes(INTEGER_BYTE_SIZE, messageId) && c == Bytes(BYTE_BYTE_SIZE, command) && g == Bytes(BYTE_BYTE_SIZE, options)
    ensures UInt(b) == messageId && UInt(c) == command && UInt(g) == options
  {
    b, c, g := Bytes(INTEGER_BYTE_SIZE, messageId), Bytes(BYTE_BYTE_SIZE, command), Bytes(BYTE_BYTE_SIZE, options);
    WordRoundTrips(messageId);
    ByteRoundTrips(command);
    ByteRoundTrips(options);
  }

  lemma StaticRoundTrip(m: Message, t: seq<Byte>)
    requires HeaderOk(m)
    ensures DecodeStatic(EncodeStatic(m) + t) == Bare(m)
  {
    var a, b, c, d, e, g := StaticParts(m);
    StaticReads(m, a, b, c, d, e, g, t);
  }

  /** The fields once the header of m is read. */
  function AfterHeader(m: Message, socket: Inet): (f: Fields)
    requires HasFamily(m.sender, socket)
  {
    Fresh().(headerDone := true,
             message := Bare(m).(sender := AsSeen(PA.Transmitted(m.sender), socket)),
             contentTypes := Queue(m.kinds))
  }

  lemma SenderReads(a: PA.Address, t: seq<Byte>)
    requires PA.WellFormed(a)
    ensures |PA.Encode(a)| == PA.Size(a.header)
    ensures Sender(PA.Encode(a) + t) == Some(Sized(PA.Transmitted(a), |PA.Encode(a)|))
  {
    PA.AddressRoundTrip(a, t);
  }

  lemma HeaderUnitReads(m: Message, socket: Inet, tail: seq<Byte>, size: nat)
    requires HeaderOk(m) && HasFamily(m.sender, socket) && |tail| >= size >= PA.MIN_SIZE_HEADER
    requires Sender(tail) == Some(Sized(PA.Transmitted(m.sender), size))
    ensures HeaderUnit(Fresh(), EncodeStatic(m) + tail, socket) == Next(AfterHeader(m, socket), HEADER_SIZE_STATIC + size)
  {
    StaticRoundTrip(m, tail);
    HeaderParts(EncodeStatic(m), tail, Bare(m), socket);
    SenderAccepted(m, socket, size);
  }

  lemma SenderAccepted(m: Message, socket: Inet, size: nat)
    requires m.msgType < TYPES && HasFamily(m.sender, socket)
    ensures SenderUnit(Fresh(), Bare(m), Some(Sized(PA.Transmitted(m.sender), size)), socket) ==
            Next(AfterHeader(m, socket), HEADER_SIZE_STATIC + size)
  {
  }

  lemma HeaderParts(head: seq<Byte>, tail: seq<Byte>, m: Message, socket: Inet)
    requires |head| == HEADER_SIZE_STATIC && |tail| >= PA.MIN_SIZE_HEADER && DecodeStatic(head + tail) == m
    ensures HeaderUnit(Fresh(), head + tail, socket) == SenderUnit(Fresh(), m, Sender(tail), socket)
  {
    Front(head, tail);
  }

  lemma HeaderReads(m: Message, socket: Inet, sender: seq<Byte>, t: seq<Byte>)
    requires HeaderOk(m) && HasFamily(m.sender, socket) && |sender| >= PA.MIN_SIZE_HEADER
    requires Sender(sender + t) == Some(Sized(PA.Transmitted(m.sender), |sender|))
    ensures Loop(Fresh(), EncodeStatic(m) + (sender + t), socket) == Loop(AfterHeader(m, socket), t, socket)
  {
    hide Loop;
    HeaderUnitReads(m, socket, sender + t, |sender|);
    HeaderLoop(EncodeStatic(m), sender, t, socket, AfterHeader(m, socket));
  }

  lemma HeaderLoop(head: seq<Byte>, sender: seq<Byte>, t: seq<Byte>, socket: Inet, f: Fields)
    requires HeaderUnit(Fresh(), head + (sender + t), socket) == Next(f, |head| + |sender|)
    ensures Loop(Fresh(), head + (sender + t), socket) == Loop(f, t, socket)
  {
    LoopStep(Fresh(), head + (sender + t), socket, f, |head| + |sender|);
    Assoc(head, sender, t);
    Front(head + sender, t);
  }

  // ---------------------------------------------------------------- the contents

  function Kinds(cs: seq<Content>): (q: seq<Kind>) {
    if cs == [] then [] else [KindOf(cs[0])] + Kinds(cs[1..])
  }

  lemma {:induction false} QueueOfPadded(cs: seq<Content>, i: nat)
    requires i <= |cs| <= CONTENT_TYPE_LENGTH
    ensures Queue(Padded(cs)[i..]) == Kinds(cs[i..])
    decreases |cs| - i
  {
    if i < |cs| {
      QueueOfPadded(cs, i + 1);
      assert Padded(cs)[i..][1..] == Padded(cs)[i + 1..];
      assert cs[i..][1..] == cs[i + 1..];
    }
  }

  lemma ContentDecodes(f: Fields, c: Content, t: seq<Byte>, socket: Inet)
    requires At(f, KindOf(c)) && Clean(f) && ContentOk(c) && Writable(c)
    ensures Loop(f, EncodeContent(c) + t, socket) == Also(Loop(Push(f, Arrives(c)), t, socket), CutSafe(c))
  {
    hide Loop;
    match c
    case Neighbors(addresses) => NeighborsDecode(f, addresses, t, socket);
    case KeyCollection(keys) => KeysDecode(f, keys, t, socket);
    case KeysMap(es) => KeysMapDecodes(f, es, t, socket);
    case ByteMap(es) => ByteMapDecodes(f, es, t, socket);
    case Buffer(data) => BufferDecodes(f, data, t, socket);
    case _ => FixedDecodes(f, c, t, socket);
  }

  /** The fields when the contents cs are read and those of kinds `more` are still to come. */
  function Filled(f: Fields, cs: seq<Content>, more: seq<Kind>): (r: Fields) {
    f.(message := f.message.(contents := f.message.contents + AllArrive(cs)), contentTypes := more)
  }

  predicate AllCutSafe(cs: seq<Content>) {
    forall i :: 0 <= i < |cs| ==> CutSafe(cs[i])
  }

  ghost predicate AllOk(cs: seq<Content>) {
    forall i :: 0 <= i < |cs| ==> ContentOk(cs[i]) && Writable(cs[i])
  }

  lemma SafeCons(cs: seq<Content>)
    requires cs != []
    ensures AllCutSafe(cs) <==> CutSafe(cs[0]) && AllCutSafe(cs[1..])
  {
    if CutSafe(cs[0]) && AllCutSafe(cs[1..]) {
      forall i | 0 <= i < |cs| ensures CutSafe(cs[i]) {
        assert i > 0 ==> cs[i] == cs[1..][i - 1];
      }
    }
  }

  lemma FilledNext(f: Fields, cs: seq<Content>, more: seq<Kind>)
    requires cs != [] && f.contentTypes != []
    ensures Filled(Push(f, Arrives(cs[0])), cs[1..], more) == Filled(f, cs, more)
  {
    Assoc(f.message.contents, [Arrives(cs[0])], AllArrive(cs[1..]));
  }

  lemma FirstDecodes(f: Fields, cs: seq<Content>, t: seq<Byte>, socket: Inet)
    requires cs != [] && At(f, KindOf(cs[0])) && Clean(f) && AllOk(cs)
    ensures Loop(f, EncodeContents(cs) + t, socket) ==
            Also(Loop(Push(f, Arrives(cs[0])), EncodeContents(cs[1..]) + t, socket), CutSafe(cs[0]))
  {
    hide Loop;
    Assoc(EncodeContent(cs[0]), EncodeContents(cs[1..]), t);
    ContentDecodes(f, cs[0], EncodeContents(cs[1..]) + t, socket);
  }

  lemma {:induction false} ContentsDecode(f: Fields, cs: seq<Content>, more: seq<Kind>, t: seq<Byte>, socket: Inet, end: Fields)
    requires f.headerDone && Clean(f) && f.contentTypes == Kinds(cs) + more && AllOk(cs) && end == Filled(f, cs, more)
    ensures Loop(f, EncodeContents(cs) + t, socket) == Also(Loop(end, t, socket), AllCutSafe(cs))
    decreases |cs|
  {
    hide Loop;
    if cs == [] {
      assert [] + t == t && [] + more == more;
      assert end == f;
    } else {
      assert f.contentTypes[1..] == Kinds(cs[1..]) + more;
      FilledNext(f, cs, more);
      FirstDecodes(f, cs, t, socket);
      ContentsDecode(Push(f, Arrives(cs[0])), cs[1..], more, t, socket, end);
      SafeCons(cs);
    }
  }

  // ---------------------------------------------------------------- messages

  lemma Writables(m: Message, socket: Inet)
    requires MessageOk(m, socket)
    ensures PA.Encodable(m.sender) && AllOk(m.contents)
  {
    forall i | 0 <= i < |m.contents| ensures ContentOk(m.contents[i]) && Writable(m.contents[i]) {
      OkWritable(m.contents[i]);
    }
  }

  ghost function Sent(m: Message, socket: Inet): (bs: seq<Byte>)
    requires MessageOk(m, socket)
  {
    Writables(m, socket);
    EncodeMessage(m)
  }

  /** The bytes of m up to its contents. */
  ghost function HeadOf(m: Message, socket: Inet): (bs: seq<Byte>)
    requires MessageOk(m, socket)
  {
    Writables(m, socket);
    EncodeStatic(m) + PA.Encode(m.sender)
  }

  lemma HeadLoop(m: Message, t: seq<Byte>, socket: Inet)
    requires MessageOk(m, socket)
    ensures Loop(Fresh(), HeadOf(m, socket) + t, socket) == Loop(AfterHeader(m, socket), t, socket)
    ensures AfterHeader(m, socket).contentTypes == Kinds(m.contents)
  {
    hide Loop;
    Writables(m, socket);
    var sender := PA.Encode(m.sender);
    SenderReads(m.sender, t);
    Assoc(EncodeStatic(m), sender, t);
    HeaderReads(m, socket, sender, t);
    QueueOfPadded(m.contents, 0);
    assert Padded(m.contents)[0..] == Padded(m.contents) && m.contents[0..] == m.contents;
  }

  /** The header of m and some of its contents. */
  lemma HeadAndFront(m: Message, front: seq<Content>, more: seq<Kind>, t: seq<Byte>, socket: Inet)
    requires MessageOk(m, socket) && Kinds(m.contents) == Kinds(front) + more && AllOk(front)
    ensures Loop(Fresh(), HeadOf(m, socket) + (EncodeContents(front) + t), socket) ==
            Also(Loop(Filled(AfterHeader(m, socket), front, more), t, socket), AllCutSafe(front))
  {
    hide Loop;
    HeadLoop(m, EncodeContents(front) + t, socket);
    ContentsDecode(AfterHeader(m, socket), front, more, t, socket, Filled(AfterHeader(m, socket), front, more));
  }

  /** One call on the bytes of a message, and of whatever follows: the message comes out as it was sent,
      with the sender's IP as the socket shows it, the bytes that follow are untouched and every partial
      field is fresh again.  It stays settled exactly when no map repeats a key before its last entry. */
  lemma MessageRoundTrip(m: Message, t: seq<Byte>, socket: Inet)
    requires MessageOk(m, socket)
    ensures var d := Decode(Fresh(), Sent(m, socket) + t, socket);
            d.status == Done && d.rest == t && d.fields.message == Expected(m, socket) && Finish(d.fields) == Fresh() &&
            (d.aligned <==> AllCutSafe(m.contents))
  {
    Writables(m, socket);
    var payload := EncodeContents(m.contents);
    Assoc(EncodeStatic(m), PA.Encode(m.sender), payload);
    Assoc(HeadOf(m, socket), payload, t);
    assert Kinds(m.contents) + [] == Kinds(m.contents);
    HeadAndFront(m, m.contents, [], t, socket);
    assert Resume(Fresh()) == Fresh();
    assert [] + AllArrive(m.contents) == AllArrive(m.contents);
  }

  ghost predicate MessagesOk(ms: seq<Message>, socket: Inet) {
    forall i :: 0 <= i < |ms| ==> MessageOk(ms[i], socket)
  }

  predicate MessagesSafe(ms: seq<Message>) {
    forall i :: 0 <= i < |ms| ==> AllCutSafe(ms[i].contents)
  }

  ghost function EncodeMessages(ms: seq<Message>, socket: Inet): (bs: seq<Byte>)
    requires MessagesOk(ms, socket)
  {
    if ms == [] then [] else Sent(ms[0], socket) + EncodeMessages(ms[1..], socket)
  }

  ghost function AllExpected(ms: seq<Message>, socket: Inet): (r: seq<Message>)
    requires MessagesOk(ms, socket)
  {
    if ms == [] then [] else [Expected(ms[0], socket)] + AllExpected(ms[1..], socket)
  }

  /** The messages of a stream are read off one by one, whatever follows them. */
  lemma {:induction false} ReadOff(ms: seq<Message>, t: seq<Byte>, out: seq<Message>, socket: Inet)
    requires MessagesOk(ms, socket) && MessagesSafe(ms)
    ensures Drain(Fresh(), EncodeMessages(ms, socket) + t, out, true, socket) ==
            Drain(Fresh(), t, out + AllExpected(ms, socket), true, socket)
    decreases |ms|
  {
    hide Loop;
    if ms == [] {
      assert [] + t == t && out + [] == out;
    } else {
      var m, rest := ms[0], ms[1..];
      Assoc(Sent(m, socket), EncodeMessages(rest, socket), t);
      MessageRoundTrip(m, EncodeMessages(rest, socket) + t, socket);
      ReadOff(rest, t, out + [Expected(m, socket)], socket);
      Assoc(out, [Expected(m, socket)], AllExpected(rest, socket));
    }
  }

  lemma NothingToRead(out: seq<Message>, aligned: bool, socket: Inet)
    ensures Drain(Fresh(), [], out, aligned, socket) == Stream(Fresh(), [], out, false, aligned)
  {
    assert Resume(Fresh()) == Fresh();
  }

  /** Any number of messages in which no map repeats a key before its last entry, their bytes cut into
      chunks in any way: exactly those messages come out, in order, nothing is left unread and the decoder
      is as new. */
  lemma ChunkedRoundTrip(ms: seq<Message>, chunks: seq<seq<Byte>>, socket: Inet)
    requires MessagesOk(ms, socket) && MessagesSafe(ms) && Flatten(chunks) == EncodeMessages(ms, socket)
    ensures ReceiveAll(chunks, socket) == Stream(Fresh(), [], AllExpected(ms, socket), false, true)
  {
    hide Drain, EncodeMessages, AllExpected, ReceiveAll;
    assert EncodeMessages(ms, socket) + [] == EncodeMessages(ms, socket);
    ReadOff(ms, [], [], socket);
    assert [] + AllExpected(ms, socket) == AllExpected(ms, socket);
    NothingToRead(AllExpected(ms, socket), true, socket);
    ChunksDoNotMatter(chunks, socket);
  }
}
