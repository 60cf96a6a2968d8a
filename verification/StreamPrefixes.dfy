/** Streams that may end anywhere: no place of a cut matters in any of their prefixes exactly when no map of
    any message repeats a key before its last entry. */
module StreamPrefixes {
  import opened Number160
  import opened Sequences
  import opened MessageCodec
  import opened Decoder
  import opened DecoderRoundTrip
  import opened MessageStream
  import opened StreamCuts
  import PA = PeerAddress

  // ---------------------------------------------------------------- safe messages

  /** Every way of cutting every prefix of the bytes gives the same result. */
  ghost predicate PrefixesCutFree(bs: seq<Byte>, socket: Inet) {
    forall n {:trigger bs[..n]} :: 0 <= n <= |bs| ==> CutFree(bs[..n], socket)
  }

  lemma SafeStream(ms: seq<Message>, socket: Inet)
    requires MessagesOk(ms, socket) && MessagesSafe(ms)
    ensures Drain(Fresh(), EncodeMessages(ms, socket), [], true, socket).aligned
  {
    var bs, out := EncodeMessages(ms, socket), AllExpected(ms, socket);
    assert bs + [] == bs && [] + out == out;
    ReadOff(ms, [], [], socket);
    NothingToRead(out, true, socket);
  }

  lemma AlignedIsCutFree(bs: seq<Byte>, socket: Inet)
    requires Drain(Fresh(), bs, [], true, socket).aligned
    ensures CutFree(bs, socket)
  {
    OneChunk(bs, socket);
    forall chunks | Flatten(chunks) == bs ensures SameStream(ReceiveAll(chunks, socket), ReceiveAll([bs], socket)) {
      ChunksDoNotMatter(chunks, socket);
    }
  }

  lemma SafePrefix(bs: seq<Byte>, n: nat, socket: Inet)
    requires n <= |bs| && Drain(Fresh(), bs, [], true, socket).aligned
    ensures CutFree(bs[..n], socket)
  {
    hide Decoder.Decode;
    assert bs[..n] + bs[n..] == bs;
    FrontAligned(bs[..n], bs[n..], socket);
    AlignedIsCutFree(bs[..n], socket);
  }

  lemma FrontAligned(a: seq<Byte>, b: seq<Byte>, socket: Inet)
    requires Drain(Fresh(), a + b, [], true, socket).aligned
    ensures Drain(Fresh(), a, [], true, socket).aligned
  {
    DrainSplit(Fresh(), a, b, [], true, socket);
  }

  // ---------------------------------------------------------------- one content further

  predicate Modelled(k: Kind) {
    k in {INTEGER, LONG, KEY, PEER_SOCKET4, PEER_SOCKET6, SET_NEIGHBORS, SET_KEY640, MAP_KEY640_KEYS, MAP_KEY640_BYTE, BYTE_BUFFER}
  }

  /** Between two contents the decoder waits for bytes. */
  lemma WaitsBetween(f: Fields, socket: Inet)
    requires f.headerDone && Clean(f) && f.contentTypes != [] && Modelled(f.contentTypes[0])
    ensures Loop(f, [], socket) == Decoded(f, [], More, true)
  {
  }

  /** The fields before content j of the message, and the bytes up to it. */
  function Reached(m: Message, socket: Inet, j: nat): (f: Fields)
    requires HasFamily(m.sender, socket) && j < |m.contents|
  {
    Filled(AfterHeader(m, socket), m.contents[..j], Kinds(m.contents[j..]))
  }

  ghost function UpTo(m: Message, socket: Inet, j: nat, t: seq<Byte>): (bs: seq<Byte>)
    requires MessageOk(m, socket) && j < |m.contents|
  {
    Writables(m, socket);
    HeadOf(m, socket) + (EncodeContents(m.contents[..j]) + t)
  }

  lemma {:induction false} KindsSplit(cs: seq<Content>, j: nat)
    requires j <= |cs|
    ensures Kinds(cs) == Kinds(cs[..j]) + Kinds(cs[j..])
  {
    if j == 0 {
      assert cs[..0] == [] && cs[0..] == cs;
    } else {
      KindsSplit(cs[1..], j - 1);
      assert cs[..j][1..] == cs[1..][..j - 1] && cs[1..][j - 1..] == cs[j..];
    }
  }

  lemma ReadsUpTo(m: Message, socket: Inet, j: nat, t: seq<Byte>)
    requires MessageOk(m, socket) && j < |m.contents|
    ensures var x, y := Loop(Fresh(), UpTo(m, socket, j, t), socket), Loop(Reached(m, socket, j), t, socket);
            x.fields == y.fields && x.rest == y.rest && x.status == y.status
  {
    hide Loop;
    Writables(m, socket);
    KindsSplit(m.contents, j);
    HeadAndFront(m, m.contents[..j], Kinds(m.contents[j..]), t, socket);
  }

  lemma ReachedAt(m: Message, socket: Inet, j: nat)
    requires MessageOk(m, socket) && j < |m.contents|
    ensures var f, c := Reached(m, socket, j), m.contents[j];
            At(f, KindOf(c)) && Clean(f) && ContentOk(c) && Writable(c) && |f.contentTypes| == |m.contents| - j &&
            f.contentTypes[1..] == Kinds(m.contents[j + 1..])
  {
    Writables(m, socket);
    var rest := m.contents[j..];
    assert rest[0] == m.contents[j] && rest[1..] == m.contents[j + 1..];
    KindsLength(rest);
  }

  lemma {:induction false} KindsLength(cs: seq<Content>)
    ensures |Kinds(cs)| == |cs|
  {
    if cs != [] {
      KindsLength(cs[1..]);
    }
  }

  // ---------------------------------------------------------------- an unsafe content

  /** In one piece content j is read: either the message is complete or its type is off the queue. */
  lemma InOnePiece(m: Message, socket: Inet, j: nat)
    requires MessageOk(m, socket) && j < |m.contents| && Writable(m.contents[j])
    ensures var d := Loop(Fresh(), UpTo(m, socket, j, EncodeContent(m.contents[j])), socket);
            d.status == Done || (d.status == More && |d.fields.contentTypes| < |m.contents| - j)
  {
    hide UpTo, EncodeContent;
    var f, c := Reached(m, socket, j), m.contents[j];
    ReachedAt(m, socket, j);
    ReadsUpTo(m, socket, j, EncodeContent(c));
    assert EncodeContent(c) + [] == EncodeContent(c);
    ContentDecodes(f, c, [], socket);
    var g := Push(f, Arrives(c));
    if g.contentTypes != [] {
      WaitsBetween(g, socket);
    }
  }

  /** Cut before its last entry it is not. */
  lemma InTwoPieces(m: Message, socket: Inet, j: nat)
    requires MessageOk(m, socket) && j < |m.contents| && !CutSafe(m.contents[j])
    ensures var c := m.contents[j];
            (c.ByteMap? && c.byteEntries != []) || (c.KeysMap? && c.keysEntries != [])
    ensures var c := m.contents[j];
            var d := Loop(Fresh(), UpTo(m, socket, j, FrontBytes(c)), socket);
            var e := Loop(Resume(d.fields), BackBytes(c), socket);
            d.status == More && d.rest == [] && e.status == More && e.rest == [] && |e.fields.contentTypes| == |m.contents| - j
  {
    hide Loop;
    ReachedAt(m, socket, j);
    ContentStalls(Reached(m, socket, j), m.contents[j], socket);
    ReadsUpTo(m, socket, j, FrontBytes(m.contents[j]));
  }

  /** One call, and what the stream makes of it. */
  lemma DrainOne(bs: seq<Byte>, out: seq<Message>, socket: Inet)
    ensures var d := Loop(Fresh(), bs, socket);
            (d.status == More ==> Drain(Fresh(), bs, out, true, socket) == Stream(d.fields, d.rest, out, false, d.aligned)) &&
            (d.status == Done ==> |Drain(Fresh(), bs, out, true, socket).messages| > |out|)
  {
    hide Loop;
    assert Resume(Fresh()) == Fresh();
    var d := Loop(Fresh(), bs, socket);
    if d.status == Done {
      DrainGrows(Finish(d.fields), d.rest, out + [d.fields.message], d.aligned, socket);
    }
  }

  lemma {:induction false} DrainGrows(f: Fields, bs: seq<Byte>, out: seq<Message>, aligned: bool, socket: Inet)
    ensures |Drain(f, bs, out, aligned, socket).messages| >= |out|
    decreases |bs|, if f.headerDone then 1 else 0
  {
    var d := Decode(f, bs, socket);
    if d.status == Done {
      DrainGrows(Finish(d.fields), d.rest, out + [d.fields.message], d.aligned && aligned, socket);
    }
  }

  lemma ReceiveWaits(s: Stream, second: seq<Byte>, socket: Inet)
    requires !s.broken && s.unread == [] && Loop(Resume(s.fields), second, socket).status == More
    ensures var e := Loop(Resume(s.fields), second, socket); var r := Receive(s, second, socket);
            r.fields == e.fields && r.messages == s.messages
  {
    hide Loop;
    assert [] + second == second;
  }

  /** The two ways of receiving the bytes up to the end of an unsafe content end differently. */
  lemma EndsDiffer(m: Message, out: seq<Message>, socket: Inet, j: nat)
    requires MessageOk(m, socket) && j < |m.contents| && Writable(m.contents[j]) && !CutSafe(m.contents[j])
    ensures var c := m.contents[j];
            (c.ByteMap? && c.byteEntries != []) || (c.KeysMap? && c.keysEntries != [])
    ensures var c := m.contents[j];
            !SameStream(Receive(Drain(Fresh(), UpTo(m, socket, j, FrontBytes(c)), out, true, socket), BackBytes(c), socket),
                        Drain(Fresh(), UpTo(m, socket, j, EncodeContent(c)), out, true, socket))
  {
    hide Loop;
    var c := m.contents[j];
    InOnePiece(m, socket, j);
    InTwoPieces(m, socket, j);
    DrainOne(UpTo(m, socket, j, EncodeContent(c)), out, socket);
    DrainOne(UpTo(m, socket, j, FrontBytes(c)), out, socket);
    ReceiveWaits(Drain(Fresh(), UpTo(m, socket, j, FrontBytes(c)), out, true, socket), BackBytes(c), socket);
  }

  /** After any safe messages. */
  lemma CutMatters(ms: seq<Message>, m: Message, socket: Inet, j: nat)
    requires MessagesOk(ms, socket) && MessagesSafe(ms) && MessageOk(m, socket)
    requires j < |m.contents| && Writable(m.contents[j]) && !CutSafe(m.contents[j])
    ensures !CutFree(EncodeMessages(ms, socket) + UpTo(m, socket, j, EncodeContent(m.contents[j])), socket)
  {
    hide Drain, UpTo;
    var c, out := m.contents[j], AllExpected(ms, socket);
    var whole, first := UpTo(m, socket, j, EncodeContent(c)), UpTo(m, socket, j, FrontBytes(c));
    EndsDiffer(m, out, socket, j);
    assert [] + out == out;
    ReadOff(ms, whole, [], socket);
    ReadOff(ms, first, [], socket);
    JoinedUpTo(m, socket, j);
    Shown(EncodeMessages(ms, socket), whole, first, BackBytes(c), out, socket);
  }

  lemma Shown(before: seq<Byte>, whole: seq<Byte>, first: seq<Byte>, second: seq<Byte>, out: seq<Message>, socket: Inet)
    requires Drain(Fresh(), before + whole, [], true, socket) == Drain(Fresh(), whole, out, true, socket)
    requires Drain(Fresh(), before + first, [], true, socket) == Drain(Fresh(), first, out, true, socket)
    requires first + second == whole
    requires !SameStream(Receive(Drain(Fresh(), first, out, true, socket), second, socket), Drain(Fresh(), whole, out, true, socket))
    ensures !CutFree(before + whole, socket)
  {
    OneChunk(before + whole, socket);
    Pieces(before + first, first, second, out, socket);
    TwoPieces(before + first, second, socket);
    Assoc(before, first, second);
    assert Flatten([before + first, second]) == before + whole;
  }

  lemma JoinedUpTo(m: Message, socket: Inet, j: nat)
    requires MessageOk(m, socket) && j < |m.contents| && Writable(m.contents[j])
    requires var c := m.contents[j]; (c.ByteMap? && c.byteEntries != []) || (c.KeysMap? && c.keysEntries != [])
    ensures UpTo(m, socket, j, FrontBytes(m.contents[j])) + BackBytes(m.contents[j]) == UpTo(m, socket, j, EncodeContent(m.contents[j]))
  {
    Writables(m, socket);
    var c, head, front := m.contents[j], HeadOf(m, socket), EncodeContents(m.contents[..j]);
    MapBytesSplit(c);
    Assoc(head, front + FrontBytes(c), BackBytes(c));
    Assoc(front, FrontBytes(c), BackBytes(c));
  }

  // ---------------------------------------------------------------- prefixes of the stream

  lemma {:induction false} ContentsSplit(cs: seq<Content>, j: nat)
    requires AllOk(cs) && j < |cs|
    ensures EncodeContents(cs) == EncodeContents(cs[..j]) + (EncodeContent(cs[j]) + EncodeContents(cs[j + 1..]))
  {
    hide EncodeContent;
    if j == 0 {
      assert cs[..0] == [];
      assert [] + EncodeContents(cs) == EncodeContents(cs);
    } else {
      ContentsSplit(cs[1..], j - 1);
      assert cs[1..][..j - 1] == cs[..j][1..] && cs[1..][j..] == cs[j + 1..];
      ContentsCons(cs[0], cs[..j][1..]);
      assert cs[..j] == [cs[0]] + cs[..j][1..];
      Assoc(EncodeContent(cs[0]), EncodeContents(cs[..j][1..]), EncodeContent(cs[j]) + EncodeContents(cs[j + 1..]));
    }
  }

  lemma SentGoesOn(m: Message, socket: Inet, j: nat) returns (t: seq<Byte>)
    requires MessageOk(m, socket) && j < |m.contents|
    ensures Writable(m.contents[j]) && Sent(m, socket) == UpTo(m, socket, j, EncodeContent(m.contents[j])) + t
  {
    Writables(m, socket);
    var head, front, c := HeadOf(m, socket), EncodeContents(m.contents[..j]), EncodeContent(m.contents[j]);
    t := EncodeContents(m.contents[j + 1..]);
    ContentsSplit(m.contents, j);
    Assoc(EncodeStatic(m), PA.Encode(m.sender), EncodeContents(m.contents));
    Assoc(front, c, t);
    Assoc(head, front + c, t);
  }

  lemma MessagesCons(m: Message, rest: seq<Message>, socket: Inet)
    requires MessageOk(m, socket) && MessagesOk(rest, socket)
    ensures MessagesOk([m] + rest, socket) && EncodeMessages([m] + rest, socket) == Sent(m, socket) + EncodeMessages(rest, socket)
  {
    assert ([m] + rest)[1..] == rest;
  }

  lemma {:induction false} MessagesJoin(a: seq<Message>, b: seq<Message>, socket: Inet)
    requires MessagesOk(a, socket) && MessagesOk(b, socket)
    ensures MessagesOk(a + b, socket) && EncodeMessages(a + b, socket) == EncodeMessages(a, socket) + EncodeMessages(b, socket)
  {
    if a == [] {
      assert a + b == b;
    } else {
      var m, rest := a[0], a[1..];
      assert a == [m] + rest && a + b == [m] + (rest + b);
      MessagesJoin(rest, b, socket);
      MessagesCons(m, rest, socket);
      MessagesCons(m, rest + b, socket);
      Assoc(Sent(m, socket), EncodeMessages(rest, socket), EncodeMessages(b, socket));
    }
  }

  lemma MessagesSplit(ms: seq<Message>, i: nat, socket: Inet) returns (t: seq<Byte>)
    requires MessagesOk(ms, socket) && i < |ms|
    ensures EncodeMessages(ms, socket) == EncodeMessages(ms[..i], socket) + (Sent(ms[i], socket) + t)
  {
    hide Sent;
    var after := ms[i + 1..];
    t := EncodeMessages(after, socket);
    MessagesCons(ms[i], after, socket);
    MessagesJoin(ms[..i], [ms[i]] + after, socket);
    assert ms == ms[..i] + ([ms[i]] + after);
  }

  lemma {:induction false} FirstUnsafe(ms: seq<Message>, n: nat) returns (i: nat)
    requires n <= |ms| && !MessagesSafe(ms[..n])
    ensures i < n && MessagesSafe(ms[..i]) && !AllCutSafe(ms[i].contents)
  {
    var m := n - 1;
    if MessagesSafe(ms[..m]) {
      i := m;
      assert forall k :: 0 <= k < m ==> ms[..n][k] == ms[..m][k];
    } else {
      i := FirstUnsafe(ms, m);
    }
  }

  lemma UnsafePrefix(ms: seq<Message>, socket: Inet) returns (n: nat)
    requires MessagesOk(ms, socket) && !MessagesSafe(ms)
    ensures n <= |EncodeMessages(ms, socket)| && !CutFree(EncodeMessages(ms, socket)[..n], socket)
  {
    assert ms[..|ms|] == ms;
    var i := FirstUnsafe(ms, |ms|);
    var j :| 0 <= j < |ms[i].contents| && !CutSafe(ms[i].contents[j]);
    var part := UnsafePart(ms, i, j, socket);
    n := |part|;
  }

  /** The stream up to the end of an unsafe content. */
  lemma UnsafePart(ms: seq<Message>, i: nat, j: nat, socket: Inet) returns (part: seq<Byte>)
    requires MessagesOk(ms, socket) && i < |ms| && MessagesSafe(ms[..i])
    requires j < |ms[i].contents| && !CutSafe(ms[i].contents[j])
    ensures |part| <= |EncodeMessages(ms, socket)| && EncodeMessages(ms, socket)[..|part|] == part && !CutFree(part, socket)
  {
    hide Sent, UpTo, CutFree;
    var t := MessagesSplit(ms, i, socket);
    var u := SentGoesOn(ms[i], socket, j);
    var before, to := EncodeMessages(ms[..i], socket), UpTo(ms[i], socket, j, EncodeContent(ms[i].contents[j]));
    part := before + to;
    CutMatters(ms[..i], ms[i], socket, j);
    PrefixIs(before, to, u, t);
  }

  lemma PrefixIs(a: seq<Byte>, b: seq<Byte>, u: seq<Byte>, t: seq<Byte>)
    ensures (a + ((b + u) + t))[..|a + b|] == a + b && |a + b| <= |a + ((b + u) + t)|
  {
    Assoc(b, u, t);
    Assoc(a, b, u + t);
    Front(a + b, u + t);
  }

  /** For every stream of messages: no cut matters in any prefix of it if and only if no map in it repeats a
      key before its last entry. */
  lemma PrefixesCutFreeExactly(ms: seq<Message>, socket: Inet)
    requires MessagesOk(ms, socket)
    ensures PrefixesCutFree(EncodeMessages(ms, socket), socket) <==> MessagesSafe(ms)
  {
    var bs := EncodeMessages(ms, socket);
    if MessagesSafe(ms) {
      SafeStream(ms, socket);
      forall n | 0 <= n <= |bs| ensures CutFree(bs[..n], socket) {
        SafePrefix(bs, n, socket);
      }
    } else {
      var n := UnsafePrefix(ms, socket);
    }
  }
}
