/** When the place of a cut in the byte stream matters: exactly when a map repeats a key before its last
    entry. */
module StreamCuts {
  import opened Number160
  import opened Sequences
  import opened Wire
  import opened Wrappers
  import opened AssociationLists
  import opened MessageCodec
  import opened Decoder
  import opened DecoderRoundTrip
  import opened MapRoundTrip
  import opened MessageStream
  import PA = PeerAddress

  // ---------------------------------------------------------------- what encoders write

  /** Messages written from maps: no key comes twice in any of their contents. */
  predicate Genuine(ms: seq<Message>) {
    forall i, j :: 0 <= i < |ms| && 0 <= j < |ms[i].contents| ==> IsMap(ms[i].contents[j])
  }

  lemma {:induction false} ArrivesAt(cs: seq<Content>, j: nat)
    requires j < |cs|
    ensures AllArrive(cs)[j] == Arrives(cs[j])
  {
    if j > 0 {
      ArrivesAt(cs[1..], j - 1);
    }
  }

  lemma {:induction false} ExpectedAt(ms: seq<Message>, i: nat, socket: Inet)
    requires MessagesOk(ms, socket) && i < |ms|
    ensures |AllExpected(ms, socket)| == |ms| && AllExpected(ms, socket)[i] == Expected(ms[i], socket)
  {
    if i > 0 {
      ExpectedAt(ms[1..], i - 1, socket);
    } else if |ms| > 1 {
      ExpectedAt(ms[1..], 0, socket);
    }
  }

  /** Everything an encoder can write arrives content for content, wherever the bytes are cut: only the IP of
      the sender is the one the socket shows, and skipped IPs of neighbours are missing. */
  lemma EncodedStreamArrives(ms: seq<Message>, chunks: seq<seq<Byte>>, socket: Inet)
    requires MessagesOk(ms, socket) && Genuine(ms) && Flatten(chunks) == EncodeMessages(ms, socket)
    ensures ReceiveAll(chunks, socket) == Stream(Fresh(), [], AllExpected(ms, socket), false, true)
    ensures |ReceiveAll(chunks, socket).messages| == |ms|
    ensures forall i, j :: 0 <= i < |ms| && 0 <= j < |ms[i].contents| && !ms[i].contents[j].Neighbors? ==>
              Same(ReceiveAll(chunks, socket).messages[i], ms[i], j)
  {
    forall i, j | 0 <= i < |ms| && 0 <= j < |ms[i].contents| ensures CutSafe(ms[i].contents[j]) {
      MapsArrive(ms[i].contents[j]);
    }
    ChunkedRoundTrip(ms, chunks, socket);
    if ms != [] {
      ExpectedAt(ms, 0, socket);
    }
    forall i, j | 0 <= i < |ms| && 0 <= j < |ms[i].contents| && !ms[i].contents[j].Neighbors?
      ensures Same(AllExpected(ms, socket)[i], ms[i], j)
    {
      ExpectedAt(ms, i, socket);
      MapsArrive(ms[i].contents[j]);
      ArrivesAt(ms[i].contents, j);
    }
  }

  predicate Same(received: Message, sent: Message, j: nat) {
    j < |received.contents| && j < |sent.contents| && received.contents[j] == sent.contents[j]
  }

  // ---------------------------------------------------------------- a cut before the last entry

  /** The bytes of a map up to its last entry, and those of its last entry. */
  function FrontBytes(c: Content): (bs: seq<Byte>)
    requires c.ByteMap? || c.KeysMap?
  {
    if c.ByteMap? then Bytes(INTEGER_BYTE_SIZE, |c.byteEntries|) + EncodeByteEntries(AllButLast(c.byteEntries))
    else Bytes(INTEGER_BYTE_SIZE, |c.keysEntries|) + EncodeKeysEntries(AllButLast(c.keysEntries))
  }

  function BackBytes(c: Content): (bs: seq<Byte>)
    requires (c.ByteMap? && c.byteEntries != []) || (c.KeysMap? && c.keysEntries != [])
  {
    if c.ByteMap? then EncodeByteEntries([c.byteEntries[|c.byteEntries| - 1]])
    else EncodeKeysEntries([c.keysEntries[|c.keysEntries| - 1]])
  }

  lemma ByteEntriesCons(e: ByteEntry, rest: seq<ByteEntry>)
    ensures EncodeByteEntries([e] + rest) == EncodeByteEntry(e) + EncodeByteEntries(rest)
  {
    assert ([e] + rest)[1..] == rest;
  }

  lemma {:induction false} ByteEntriesSplit(a: seq<ByteEntry>, b: seq<ByteEntry>)
    ensures EncodeByteEntries(a + b) == EncodeByteEntries(a) + EncodeByteEntries(b)
  {
    if a == [] {
      assert a + b == b;
    } else {
      var e, rest := a[0], a[1..];
      assert a == [e] + rest && a + b == [e] + (rest + b);
      ByteEntriesCons(e, rest);
      ByteEntriesCons(e, rest + b);
      ByteEntriesSplit(rest, b);
      Assoc(EncodeByteEntry(e), EncodeByteEntries(rest), EncodeByteEntries(b));
    }
  }

  lemma KeysEntriesCons(e: KeysEntry, rest: seq<KeysEntry>)
    ensures EncodeKeysEntries([e] + rest) == EncodeKeysEntry(e) + EncodeKeysEntries(rest)
  {
    assert ([e] + rest)[1..] == rest;
  }

  lemma {:induction false} KeysEntriesSplit(a: seq<KeysEntry>, b: seq<KeysEntry>)
    ensures EncodeKeysEntries(a + b) == EncodeKeysEntries(a) + EncodeKeysEntries(b)
  {
    if a == [] {
      assert a + b == b;
    } else {
      var e, rest := a[0], a[1..];
      assert a == [e] + rest && a + b == [e] + (rest + b);
      KeysEntriesCons(e, rest);
      KeysEntriesCons(e, rest + b);
      KeysEntriesSplit(rest, b);
      Assoc(EncodeKeysEntry(e), EncodeKeysEntries(rest), EncodeKeysEntries(b));
    }
  }

  lemma MapBytesSplit(c: Content)
    requires (c.ByteMap? && c.byteEntries != []) || (c.KeysMap? && c.keysEntries != [])
    ensures EncodeContent(c) == FrontBytes(c) + BackBytes(c)
  {
    hide Bytes, EncodeByteEntry, EncodeKeysEntry;
    if c.ByteMap? {
      var es := c.byteEntries;
      var front, last := AllButLast(es), [es[|es| - 1]];
      assert es == front + last;
      ByteEntriesSplit(front, last);
      Assoc(Bytes(INTEGER_BYTE_SIZE, |es|), EncodeByteEntries(front), EncodeByteEntries(last));
    } else {
      var es := c.keysEntries;
      var front, last := AllButLast(es), [es[|es| - 1]];
      assert es == front + last;
      KeysEntriesSplit(front, last);
      Assoc(Bytes(INTEGER_BYTE_SIZE, |es|), EncodeKeysEntries(front), EncodeKeysEntries(last));
    }
  }

  /** A map that is not safe, cut there: the decoder waits after both parts. */
  lemma ContentStalls(f: Fields, c: Content, socket: Inet)
    requires At(f, KindOf(c)) && Clean(f) && ContentOk(c) && !CutSafe(c)
    ensures (c.ByteMap? && c.byteEntries != []) || (c.KeysMap? && c.keysEntries != [])
    ensures var d := Loop(f, FrontBytes(c), socket);
            var e := Loop(Resume(d.fields), BackBytes(c), socket);
            d.status == More && d.rest == [] && e.status == More && e.rest == [] &&
            e.fields.message == f.message && e.fields.contentTypes == f.contentTypes
  {
    hide Loop, Bytes, EncodeByteEntries, EncodeKeysEntries;
    if c.ByteMap? {
      var es := c.byteEntries;
      ByteMapStart(f, |es|, EncodeByteEntries(AllButLast(es)), socket);
      ByteMapStalls(f.(byteMapSize := |es|, byteMap := Some([])), es, socket);
    } else {
      var es := c.keysEntries;
      KeysMapStart(f, |es|, EncodeKeysEntries(AllButLast(es)), socket);
      KeysMapStalls(f.(keysMapSize := |es|, keysMap := Some([])), es, socket);
    }
  }

  // ---------------------------------------------------------------- a stream with such a cut

  lemma {:induction false} ContentsSnoc(front: seq<Content>, c: Content)
    requires AllOk(front) && Writable(c)
    ensures AllWritable(front + [c]) && EncodeContents(front + [c]) == EncodeContents(front) + EncodeContent(c)
    ensures Kinds(front + [c]) == Kinds(front) + [KindOf(c)]
  {
    hide EncodeContent;
    if front == [] {
      assert front + [c] == [c] && [c][1..] == [];
      assert EncodeContent(c) + [] == EncodeContent(c) && [] + EncodeContent(c) == EncodeContent(c);
    } else {
      var rest := front[1..];
      ContentsSnoc(rest, c);
      ContentsCons(front[0], rest + [c]);
      ContentsCons(front[0], rest);
      assert front + [c] == [front[0]] + (rest + [c]) && front == [front[0]] + rest;
      Assoc(EncodeContent(front[0]), EncodeContents(rest), EncodeContent(c));
    }
  }

  predicate AllWritable(cs: seq<Content>) {
    forall i :: 0 <= i < |cs| ==> Writable(cs[i])
  }

  lemma ContentsCons(c: Content, rest: seq<Content>)
    requires Writable(c) && AllWritable(rest)
    ensures AllWritable([c] + rest) && EncodeContents([c] + rest) == EncodeContent(c) + EncodeContents(rest)
    ensures Kinds([c] + rest) == [KindOf(c)] + Kinds(rest)
  {
    hide EncodeContent;
    assert ([c] + rest)[1..] == rest;
  }

  function Last(m: Message): (c: Content)
    requires m.contents != []
  {
    m.contents[|m.contents| - 1]
  }

  /** The last content of the message is a map that repeats a key before its last entry. */
  ghost predicate Repeats(m: Message, socket: Inet) {
    MessageOk(m, socket) && m.contents != [] && !CutSafe(Last(m))
  }

  /** The message up to the last entry of that map, and the last entry. */
  ghost function FirstChunk(m: Message, socket: Inet): (bs: seq<Byte>)
    requires Repeats(m, socket)
  {
    Writables(m, socket);
    HeadOf(m, socket) + (EncodeContents(AllButLast(m.contents)) + FrontBytes(Last(m)))
  }

  ghost function SecondChunk(m: Message, socket: Inet): (bs: seq<Byte>)
    requires Repeats(m, socket)
  {
    BackBytes(Last(m))
  }

  lemma TwoChunks(m: Message, socket: Inet)
    requires Repeats(m, socket)
    ensures Sent(m, socket) == FirstChunk(m, socket) + SecondChunk(m, socket)
  {
    Writables(m, socket);
    var front, c := AllButLast(m.contents), Last(m);
    assert m.contents == front + [c];
    ContentsSnoc(front, c);
    MapBytesSplit(c);
    var a, b, x, y, z := EncodeStatic(m), PA.Encode(m.sender), EncodeContents(front), FrontBytes(c), BackBytes(c);
    FiveParts(a, b, x, y, z);
  }

  lemma FiveParts(a: seq<Byte>, b: seq<Byte>, x: seq<Byte>, y: seq<Byte>, z: seq<Byte>)
    ensures a + (b + (x + (y + z))) == (a + b) + (x + y) + z
  {
    Assoc(a, b, x + (y + z));
    Assoc(x, y, z);
    Assoc(a + b, x + y, z);
  }

  lemma MessageStalls(m: Message, socket: Inet)
    requires Repeats(m, socket)
    ensures var d := Loop(Fresh(), FirstChunk(m, socket), socket);
            d.status == More && d.rest == [] &&
            Loop(Resume(d.fields), SecondChunk(m, socket), socket).status == More &&
            Loop(Resume(d.fields), SecondChunk(m, socket), socket).rest == []
  {
    hide Loop, FrontBytes, BackBytes, HeadOf;
    Writables(m, socket);
    var front, c := AllButLast(m.contents), Last(m);
    assert m.contents == front + [c];
    ContentsSnoc(front, c);
    HeadAndFront(m, front, [KindOf(c)], FrontBytes(c), socket);
    ContentStalls(Filled(AfterHeader(m, socket), front, [KindOf(c)]), c, socket);
  }

  lemma OneChunk(bs: seq<Byte>, socket: Inet)
    ensures ReceiveAll([bs], socket) == Drain(Fresh(), bs, [], true, socket) && Flatten([bs]) == bs
  {
    assert [bs][..0] == [] && [] + bs == bs;
  }

  lemma TwoPieces(a: seq<Byte>, b: seq<Byte>, socket: Inet)
    ensures ReceiveAll([a, b], socket) == Receive(Drain(Fresh(), a, [], true, socket), b, socket) && Flatten([a, b]) == a + b
  {
    assert [a, b][..1] == [a];
    OneChunk(a, socket);
  }

  /** In one piece the message arrives, after those before it. */
  lemma Whole(ms: seq<Message>, m: Message, socket: Inet)
    requires MessagesOk(ms, socket) && MessagesSafe(ms) && MessageOk(m, socket)
    ensures ReceiveAll([EncodeMessages(ms, socket) + Sent(m, socket)], socket) ==
            Stream(Fresh(), [], AllExpected(ms, socket) + [Expected(m, socket)], false, AllCutSafe(m.contents))
  {
    hide Loop, Sent, EncodeMessages;
    var before := AllExpected(ms, socket);
    OneChunk(EncodeMessages(ms, socket) + Sent(m, socket), socket);
    ReadOff(ms, Sent(m, socket), [], socket);
    assert [] + before == before;
    assert Sent(m, socket) + [] == Sent(m, socket);
    MessageRoundTrip(m, [], socket);
    NothingToRead(before + [Expected(m, socket)], AllCutSafe(m.contents), socket);
  }

  /** Received bytes and a cut that show the difference: in one piece the message arrives, in two it never does,
      although every byte has been read. */
  lemma RepeatedKeyDependsOnTheCut(ms: seq<Message>, m: Message, socket: Inet) returns (chunks: seq<seq<Byte>>)
    requires MessagesOk(ms, socket) && MessagesSafe(ms) && Repeats(m, socket)
    ensures Flatten(chunks) == EncodeMessages(ms, socket) + Sent(m, socket)
    ensures ReceiveAll(chunks, socket).messages == AllExpected(ms, socket) && ReceiveAll(chunks, socket).unread == []
    ensures ReceiveAll([Flatten(chunks)], socket).messages == AllExpected(ms, socket) + [Expected(m, socket)]
  {
    chunks := [EncodeMessages(ms, socket) + FirstChunk(m, socket), SecondChunk(m, socket)];
    PiecesJoin(ms, m, socket);
    InTwo(ms, m, socket);
    Whole(ms, m, socket);
  }

  lemma PiecesJoin(ms: seq<Message>, m: Message, socket: Inet)
    requires MessagesOk(ms, socket) && Repeats(m, socket)
    ensures Flatten([EncodeMessages(ms, socket) + FirstChunk(m, socket), SecondChunk(m, socket)]) ==
            EncodeMessages(ms, socket) + Sent(m, socket)
  {
    var before, first, second := EncodeMessages(ms, socket), FirstChunk(m, socket), SecondChunk(m, socket);
    TwoPieces(before + first, second, socket);
    TwoChunks(m, socket);
    Assoc(before, first, second);
  }

  lemma InTwo(ms: seq<Message>, m: Message, socket: Inet)
    requires MessagesOk(ms, socket) && MessagesSafe(ms) && Repeats(m, socket)
    ensures var s := ReceiveAll([EncodeMessages(ms, socket) + FirstChunk(m, socket), SecondChunk(m, socket)], socket);
            s.messages == AllExpected(ms, socket) && s.unread == []
  {
    hide Drain;
    var first, out := FirstChunk(m, socket), AllExpected(ms, socket);
    ReadOff(ms, first, [], socket);
    assert [] + out == out;
    StallsInTwo(m, out, socket);
    Pieces(EncodeMessages(ms, socket) + first, first, SecondChunk(m, socket), out, socket);
  }

  lemma Pieces(a: seq<Byte>, first: seq<Byte>, second: seq<Byte>, out: seq<Message>, socket: Inet)
    requires Drain(Fresh(), a, [], true, socket) == Drain(Fresh(), first, out, true, socket)
    ensures ReceiveAll([a, second], socket) == Receive(Drain(Fresh(), first, out, true, socket), second, socket)
  {
    hide Drain;
    TwoPieces(a, second, socket);
  }

  lemma StallsInTwo(m: Message, out: seq<Message>, socket: Inet)
    requires Repeats(m, socket)
    ensures var s := Receive(Drain(Fresh(), FirstChunk(m, socket), out, true, socket), SecondChunk(m, socket), socket);
            s.messages == out && s.unread == []
  {
    hide Loop;
    MessageStalls(m, socket);
    assert Resume(Fresh()) == Fresh();
    var second := SecondChunk(m, socket);
    assert [] + second == second;
  }

  /** Every way of cutting the bytes gives the same messages, unread bytes and state. */
  ghost predicate CutFree(bs: seq<Byte>, socket: Inet) {
    forall chunks {:trigger Flatten(chunks)} :: Flatten(chunks) == bs ==> SameStream(ReceiveAll(chunks, socket), ReceiveAll([bs], socket))
  }

  /** A stream whose last content may repeat keys: the cuts make no difference exactly when that content, if
      it is a map, repeats no key before its last entry. */
  lemma CutsMatterExactly(ms: seq<Message>, m: Message, socket: Inet)
    requires MessagesOk(ms, socket) && MessagesSafe(ms) && MessageOk(m, socket)
    requires m.contents != [] && AllCutSafe(AllButLast(m.contents))
    ensures CutFree(EncodeMessages(ms, socket) + Sent(m, socket), socket) <==> CutSafe(Last(m))
  {
    var bs := EncodeMessages(ms, socket) + Sent(m, socket);
    Whole(ms, m, socket);
    if CutSafe(Last(m)) {
      SafeSnoc(m.contents);
      OneChunk(bs, socket);
      forall chunks | Flatten(chunks) == bs ensures SameStream(ReceiveAll(chunks, socket), ReceiveAll([bs], socket)) {
        ChunksDoNotMatter(chunks, socket);
      }
    } else {
      var chunks := RepeatedKeyDependsOnTheCut(ms, m, socket);
      assert ReceiveAll(chunks, socket).messages != ReceiveAll([bs], socket).messages;
    }
  }

  lemma SafeSnoc(cs: seq<Content>)
    requires cs != [] && AllCutSafe(AllButLast(cs)) && CutSafe(cs[|cs| - 1])
    ensures AllCutSafe(cs)
  {
    var front := AllButLast(cs);
    forall i | 0 <= i < |cs| ensures CutSafe(cs[i]) {
      assert i < |cs| - 1 ==> cs[i] == front[i];
    }
  }
}
