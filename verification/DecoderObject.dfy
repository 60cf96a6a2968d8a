/** The decoder object: fields that survive between two calls, and loops that pick up where the last call
    stopped.  Its calls are those of the value-level decoder. */
module DecoderObject {
  import opened Number160
  import opened Wire
  import opened Wrappers
  import opened AssociationLists
  import opened MessageCodec
  import opened Decoder
  import PA = PeerAddress

  /** What reading a content came to. */
  datatype Progress = Finished | Blocked | Thrown

  /** One more unit of the payload on the way from (f0, b0). */
  lemma Advance(f0: Fields, b0: seq<Byte>, f: Fields, bs: seq<Byte>, g: Fields, n: nat, socket: Inet)
    requires SameEnd(f0, b0, f, bs, socket)
    requires f.headerDone && f.contentTypes != [] && PayloadUnit(f, bs) == Next(g, n)
    ensures n <= |bs| && SameEnd(f0, b0, g, bs[n..], socket)
  {
    UnitSameEnd(f, bs, g, n, socket);
  }

  /** Where reading stops, the value-level loop stops. */
  ghost predicate Stops(p: Progress, f: Fields, bs: seq<Byte>)
    requires f.contentTypes != []
  {
    (p == Blocked ==> PayloadUnit(f, bs).Wait?) && (p == Thrown ==> PayloadUnit(f, bs).Fail?)
  }

  class Reader {
    const socket: Inet
    var headerDone: bool
    var contentTypes: seq<Kind>
    var message: Message
    var neighborSize: int
    var neighborSet: Option<seq<PA.Address>>
    var keyCollectionSize: int
    var keyCollection: Option<seq<Number640>>
    var keysMapSize: int
    var keysMap: Option<seq<KeysEntry>>
    var keysIndex: nat
    var byteMapSize: int
    var byteMap: Option<seq<ByteEntry>>
    var byteIndex: nat
    var bufferSize: int

    ghost function View(): (f: Fields)
      reads this
    {
      Fields(headerDone, contentTypes, message, neighborSize, neighborSet, keyCollectionSize, keyCollection,
             keysMapSize, keysMap, keysIndex, byteMapSize, byteMap, byteIndex, bufferSize)
    }

    constructor (socket: Inet)
      ensures this.socket == socket && View() == Fresh()
    {
      this.socket := socket;
      headerDone, contentTypes, message := false, [], NewMessage();
      neighborSize, neighborSet, keyCollectionSize, keyCollection := -1, None, -1, None;
      keysMapSize, keysMap, keysIndex, byteMapSize, byteMap, byteIndex, bufferSize := -1, None, 0, -1, None, 0, -1;
    }

    /** `prepareFinish`. */
    method PrepareFinish() returns (m: Message)
      modifies this
      ensures m == old(message) && View() == Finish(old(View()))
    {
      m := message;
      message, contentTypes, headerDone := NewMessage(), [], false;
      neighborSize, neighborSet, keyCollectionSize, keyCollection := -1, None, -1, None;
      keysMapSize, keysMap, bufferSize := -1, None, -1;
      keysIndex, byteIndex := 0, 0;
    }

    /** The content goes into the message and its type off the queue. */
    method Deliver(c: Content)
      requires contentTypes != []
      modifies this`message, this`contentTypes
      ensures View() == Push(old(View()), c)
    {
      message := message.(contents := message.contents + [c]);
      contentTypes := contentTypes[1..];
    }

    method ReadNeighbors(bs: seq<Byte>) returns (p: Progress, rest: seq<Byte>)
      requires headerDone && contentTypes != [] && contentTypes[0] == SET_NEIGHBORS
      modifies this
      ensures headerDone && SameEnd(old(View()), bs, View(), rest, socket)
      ensures p == Finished ==> contentTypes == old(contentTypes)[1..]
      ensures p != Finished ==> contentTypes == old(contentTypes) && Stops(p, View(), rest)
    {
      rest := bs;
      ghost var f0 := View();
      if neighborSize == -1 {
        if |rest| < 1 {
          return Blocked, rest;
        }
        ghost var f := View();
        neighborSize, neighborSet := rest[0], Some([]);
        Advance(f0, bs, f, rest, View(), 1, socket);
        rest := rest[1..];
      }
      while |Read(neighborSet)| < neighborSize
        invariant headerDone && contentTypes == old(contentTypes) && neighborSize != -1
        invariant SameEnd(f0, bs, View(), rest, socket)
        decreases neighborSize - |Read(neighborSet)|
      {
        if |rest| < PA.HEADER_SIZE || |rest| < PA.Announced(rest) {
          return Blocked, rest;
        }
        ghost var f := View();
        var pa, after := PA.Read(rest);
        neighborSet := Some(Read(neighborSet) + [pa]);
        Advance(f0, bs, f, rest, View(), PA.Announced(rest), socket);
        rest := after;
      }
      ghost var f := View();
      Deliver(Neighbors(Read(neighborSet)));
      neighborSize, neighborSet := -1, None;
      Advance(f0, bs, f, rest, View(), 0, socket);
      p := Finished;
    }

    method ReadKeyCollection(bs: seq<Byte>) returns (p: Progress, rest: seq<Byte>)
      requires headerDone && contentTypes != [] && contentTypes[0] == SET_KEY640
      modifies this
      ensures headerDone && SameEnd(old(View()), bs, View(), rest, socket)
      ensures p == Finished ==> contentTypes == old(contentTypes)[1..]
      ensures p != Finished ==> contentTypes == old(contentTypes) && Stops(p, View(), rest)
    {
      rest := bs;
      ghost var f0 := View();
      if keyCollectionSize == -1 {
        if |rest| < 4 {
          return Blocked, rest;
        }
        ghost var f := View();
        Bound32(rest[..4]);
        var size := Signed32(UInt(rest[..4]));
        if size < 0 {
          return Thrown, rest;
        }
        keyCollectionSize, keyCollection := size, Some([]);
        Advance(f0, bs, f, rest, View(), 4, socket);
        rest := rest[4..];
      }
      while |Read(keyCollection)| < keyCollectionSize
        invariant headerDone && contentTypes == old(contentTypes) && keyCollectionSize != -1
        invariant SameEnd(f0, bs, View(), rest, socket)
        decreases keyCollectionSize - |Read(keyCollection)|
      {
        if |rest| < KEY640 {
          return Blocked, rest;
        }
        ghost var f := View();
        keyCollection := Some(Read(keyCollection) + [Decode640(rest)]);
        Advance(f0, bs, f, rest, View(), KEY640, socket);
        rest := rest[KEY640..];
      }
      ghost var f := View();
      Deliver(KeyCollection(Read(keyCollection)));
      keyCollectionSize, keyCollection := -1, None;
      Advance(f0, bs, f, rest, View(), 0, socket);
      p := Finished;
    }

    method ReadKeysMap(bs: seq<Byte>) returns (p: Progress, rest: seq<Byte>)
      requires headerDone && contentTypes != [] && contentTypes[0] == MAP_KEY640_KEYS
      modifies this
      ensures headerDone && SameEnd(old(View()), bs, View(), rest, socket)
      ensures p == Finished ==> contentTypes == old(contentTypes)[1..]
      ensures p != Finished ==> contentTypes == old(contentTypes) && Stops(p, View(), rest)
    {
      rest := bs;
      ghost var f0 := View();
      if keysMapSize == -1 {
        if |rest| < 4 {
          return Blocked, rest;
        }
        ghost var f := View();
        Bound32(rest[..4]);
        var size := Signed32(UInt(rest[..4]));
        if size < 0 {
          Deliver(KeysMap([]));
          Advance(f0, bs, f, rest, View(), 4, socket);
          return Finished, rest[4..];
        }
        keysMapSize, keysMap, keysIndex := size, Some([]), 0;
        Advance(f0, bs, f, rest, View(), 4, socket);
        rest := rest[4..];
      }
      p, rest := ReadKeysEntries(rest);
    }

    /** One entry, if all its bytes are there. */
    method ReadKeysEntry(bs: seq<Byte>) returns (p: Progress, rest: seq<Byte>)
      requires contentTypes != [] && keysMapSize != -1 && keysIndex < keysMapSize
      modifies this`keysMap, this`keysIndex
      ensures p == Finished ==> |rest| <= |bs| && rest == bs[|bs| - |rest|..]
      ensures p == Finished ==> KeysMapUnit(old(View()), bs) == Next(View(), |bs| - |rest|) && keysIndex == old(keysIndex) + 1
      ensures p != Finished ==> View() == old(View()) && rest == bs
      ensures p == Blocked <==> KeysMapUnit(old(View()), bs).Wait?
      ensures p == Thrown <==> KeysMapUnit(old(View()), bs).Fail?
    {
      if |bs| < KEY640 + 1 || |bs| < KEY640 + 1 + BYTE_ARRAY_SIZE * bs[KEY640] {
        return Blocked, bs;
      }
      if bs[KEY640] >= 128 {
        return Thrown, bs;
      }
      var value := ReadKeySet(bs[KEY640 + 1..], bs[KEY640]);
      keysMap := Some(Put(Read(keysMap), Entry(Decode640(bs), value)));
      keysIndex := keysIndex + 1;
      p, rest := Finished, bs[KEY640 + 1 + BYTE_ARRAY_SIZE * bs[KEY640]..];
    }

    method ReadKeysEntries(bs: seq<Byte>) returns (p: Progress, rest: seq<Byte>)
      requires headerDone && contentTypes != [] && contentTypes[0] == MAP_KEY640_KEYS && keysMapSize != -1
      modifies this
      ensures headerDone && SameEnd(old(View()), bs, View(), rest, socket)
      ensures p == Finished ==> contentTypes == old(contentTypes)[1..]
      ensures p != Finished ==> contentTypes == old(contentTypes) && Stops(p, View(), rest)
    {
      rest := bs;
      ghost var f0 := View();
      while keysIndex < keysMapSize
        invariant headerDone && contentTypes == old(contentTypes) && keysMapSize != -1
        invariant SameEnd(f0, bs, View(), rest, socket)
        decreases keysMapSize - keysIndex
      {
        ghost var f, before := View(), rest;
        p, rest := ReadKeysEntry(rest);
        if p != Finished {
          return;
        }
        Advance(f0, bs, f, before, View(), |before| - |rest|, socket);
      }
      ghost var f := View();
      Deliver(KeysMap(Read(keysMap)));
      keysMapSize, keysMap, keysIndex := -1, None, 0;
      Advance(f0, bs, f, rest, View(), 0, socket);
      p := Finished;
    }

    method ReadByteMap(bs: seq<Byte>) returns (p: Progress, rest: seq<Byte>)
      requires headerDone && contentTypes != [] && contentTypes[0] == MAP_KEY640_BYTE
      modifies this
      ensures headerDone && SameEnd(old(View()), bs, View(), rest, socket)
      ensures p == Finished ==> contentTypes == old(contentTypes)[1..]
      ensures p != Finished ==> contentTypes == old(contentTypes) && Stops(p, View(), rest)
    {
      rest := bs;
      ghost var f0 := View();
      if byteMapSize == -1 {
        if |rest| < 4 {
          return Blocked, rest;
        }
        ghost var f := View();
        Bound32(rest[..4]);
        var size := Signed32(UInt(rest[..4]));
        if Signed32(2 * UInt(rest[..4]) % 0x1_0000_0000) < 0 {
          return Thrown, rest;
        }
        if size < 0 {
          Deliver(ByteMap([]));
          Advance(f0, bs, f, rest, View(), 4, socket);
          return Finished, rest[4..];
        }
        byteMapSize, byteMap, byteIndex := size, Some([]), 0;
        Advance(f0, bs, f, rest, View(), 4, socket);
        rest := rest[4..];
      }
      p, rest := ReadByteEntries(rest);
    }

    method ReadByteEntry(bs: seq<Byte>) returns (p: Progress, rest: seq<Byte>)
      requires contentTypes != [] && byteMapSize != -1 && byteIndex < byteMapSize
      modifies this`byteMap, this`byteIndex
      ensures p == Finished ==> |bs| > KEY640 && rest == bs[KEY640 + 1..] && byteIndex == old(byteIndex) + 1
      ensures p == Finished ==> ByteMapUnit(old(View()), bs) == Next(View(), KEY640 + 1)
      ensures p != Finished ==> p == Blocked && View() == old(View()) && rest == bs && ByteMapUnit(View(), bs).Wait?
    {
      if |bs| < KEY640 + 1 {
        return Blocked, bs;
      }
      byteMap := Some(Put(Read(byteMap), Entry(Decode640(bs), bs[KEY640])));
      byteIndex := byteIndex + 1;
      p, rest := Finished, bs[KEY640 + 1..];
    }

    method ReadByteEntries(bs: seq<Byte>) returns (p: Progress, rest: seq<Byte>)
      requires headerDone && contentTypes != [] && contentTypes[0] == MAP_KEY640_BYTE && byteMapSize != -1
      modifies this
      ensures headerDone && SameEnd(old(View()), bs, View(), rest, socket)
      ensures p == Finished ==> contentTypes == old(contentTypes)[1..]
      ensures p != Finished ==> contentTypes == old(contentTypes) && Stops(p, View(), rest)
    {
      rest := bs;
      ghost var f0 := View();
      while byteIndex < byteMapSize
        invariant headerDone && contentTypes == old(contentTypes) && byteMapSize != -1
        invariant SameEnd(f0, bs, View(), rest, socket)
        decreases byteMapSize - byteIndex
      {
        ghost var f, before := View(), rest;
        p, rest := ReadByteEntry(rest);
        if p != Finished {
          return;
        }
        Advance(f0, bs, f, before, View(), KEY640 + 1, socket);
      }
      ghost var f := View();
      Deliver(ByteMap(Read(byteMap)));
      byteMapSize, byteMap, byteIndex := -1, None, 0;
      Advance(f0, bs, f, rest, View(), 0, socket);
      p := Finished;
    }

    method ReadBuffer(bs: seq<Byte>) returns (p: Progress, rest: seq<Byte>)
      requires headerDone && contentTypes != [] && contentTypes[0] == BYTE_BUFFER
      modifies this
      ensures headerDone && SameEnd(old(View()), bs, View(), rest, socket)
      ensures p == Finished ==> contentTypes == old(contentTypes)[1..]
      ensures p != Finished ==> contentTypes == old(contentTypes) && Stops(p, View(), rest)
    {
      rest := bs;
      ghost var f0 := View();
      if bufferSize == -1 {
        if |rest| < 4 {
          return Blocked, rest;
        }
        ghost var f := View();
        Bound32(rest[..4]);
        var size := Signed32(UInt(rest[..4]));
        if size < 0 {
          return Thrown, rest;
        }
        bufferSize := size;
        Advance(f0, bs, f, rest, View(), 4, socket);
        rest := rest[4..];
      }
      if |rest| < bufferSize {
        return Blocked, rest;
      }
      if bufferSize < 0 {
        return Thrown, rest;
      }
      ghost var f := View();
      var n := bufferSize;
      Deliver(Buffer(rest[..n]));
      bufferSize := -1;
      Advance(f0, bs, f, rest, View(), n, socket);
      rest := rest[n..];
      p := Finished;
    }

    /** The contents of fixed size; types outside the model count as thrown. */
    method ReadFixed(bs: seq<Byte>) returns (p: Progress, rest: seq<Byte>)
      requires headerDone && contentTypes != []
      requires contentTypes[0] !in {SET_NEIGHBORS, SET_KEY640, MAP_KEY640_KEYS, MAP_KEY640_BYTE, BYTE_BUFFER}
      modifies this`message, this`contentTypes
      ensures headerDone && SameEnd(old(View()), bs, View(), rest, socket)
      ensures p == Finished ==> contentTypes == old(contentTypes)[1..]
      ensures p != Finished ==> contentTypes == old(contentTypes) && Stops(p, View(), rest)
    {
      ghost var f0 := View();
      var k := contentTypes[0];
      if k !in {INTEGER, LONG, KEY, PEER_SOCKET4, PEER_SOCKET6} {
        return Thrown, bs;
      }
      var n := if k == INTEGER then 4 else if k == LONG then 8 else if k == KEY then 20 else if k == PEER_SOCKET4 then 10 else 22;
      if |bs| < n {
        return Blocked, bs;
      }
      if k == INTEGER {
        Deliver(IntValue(UInt(bs[..4])));
      } else if k == LONG {
        Deliver(LongValue(UInt(bs[..8])));
      } else if k == KEY {
        Deliver(KeyValue(KeyOf(bs[..20])));
      } else {
        Deliver(SocketValue(PA.DecodeSocket(k == PEER_SOCKET6, false, bs)));
      }
      Advance(f0, bs, f0, bs, View(), n, socket);
      p, rest := Finished, bs[n..];
    }

    method ReadContent(bs: seq<Byte>) returns (p: Progress, rest: seq<Byte>)
      requires headerDone && contentTypes != []
      modifies this
      ensures headerDone && SameEnd(old(View()), bs, View(), rest, socket)
      ensures p == Finished ==> contentTypes == old(contentTypes)[1..]
      ensures p != Finished ==> contentTypes == old(contentTypes) && Stops(p, View(), rest)
    {
      var k := contentTypes[0];
      if k == SET_NEIGHBORS {
        p, rest := ReadNeighbors(bs);
      } else if k == SET_KEY640 {
        p, rest := ReadKeyCollection(bs);
      } else if k == MAP_KEY640_KEYS {
        p, rest := ReadKeysMap(bs);
      } else if k == MAP_KEY640_BYTE {
        p, rest := ReadByteMap(bs);
      } else if k == BYTE_BUFFER {
        p, rest := ReadBuffer(bs);
      } else {
        p, rest := ReadFixed(bs);
      }
    }

    /** `decodePayload`. */
    method DecodePayload(bs: seq<Byte>) returns (status: Status, rest: seq<Byte>)
      requires headerDone
      modifies this
      ensures var d := Loop(old(View()), bs, socket); View() == d.fields && rest == d.rest && status == d.status
    {
      ghost var f0 := View();
      rest := bs;
      while contentTypes != []
        invariant headerDone && SameEnd(f0, bs, View(), rest, socket)
        decreases |contentTypes|
      {
        var p;
        p, rest := ReadContent(rest);
        if p != Finished {
          return if p == Blocked then More else Broken, rest;
        }
      }
      status := Done;
    }

    /** `decodeHeader`: too few bytes leave everything as it was. */
    method DecodeHeader(bs: seq<Byte>) returns (status: Status, rest: seq<Byte>)
      requires !headerDone
      modifies this`headerDone, this`message, this`contentTypes
      ensures match HeaderUnit(old(View()), bs, socket)
              case Wait => status == More && View() == old(View()) && rest == bs
              case Fail => status == Broken && View() == old(View()) && rest == bs
              case Next(f, n) => status == Done && View() == f && n <= |bs| && rest == bs[n..]
    {
      if |bs| < HEADER_SIZE_MIN {
        return More, bs;
      }
      var used;
      var sender := ReadSender(bs[HEADER_SIZE_STATIC..]);
      status, used := DecodeSender(DecodeStatic(bs), sender);
      rest := if status == Done then bs[used..] else bs;
    }

    /** The header after its first 34 bytes. */
    method DecodeSender(m: Message, s: Option<Sized>) returns (status: Status, used: nat)
      modifies this`headerDone, this`message, this`contentTypes
      ensures match SenderUnit(old(View()), m, s, socket)
              case Wait => status == More && View() == old(View())
              case Fail => status == Broken && View() == old(View())
              case Next(f, n) => status == Done && View() == f && used == n
    {
      if m.msgType >= TYPES {
        return Broken, 0;
      }
      if s.None? {
        return More, 0;
      }
      if !HasFamily(s.value.address, socket) {
        return Broken, 0;
      }
      headerDone, message := true, m.(sender := AsSeen(s.value.address, socket));
      contentTypes := QueueUpToEmpty(m.kinds);
      status, used := Done, HEADER_SIZE_STATIC + s.value.size;
    }

    /** `decode`: every call does what the value-level decoder does from the same fields. */
    method Decode(bs: seq<Byte>) returns (status: Status, rest: seq<Byte>)
      modifies this
      ensures var d := Decoder.Decode(old(View()), bs, socket); View() == d.fields && rest == d.rest && status == d.status
    {
      keysIndex, byteIndex := |Read(keysMap)|, |Read(byteMap)|;
      ghost var f0 := View();
      rest := bs;
      if !headerDone {
        status, rest := DecodeHeader(bs);
        if status != Done {
          return;
        }
        UnitSameEnd(f0, bs, View(), HeaderUnit(f0, bs, socket).used, socket);
      }
      status, rest := DecodePayload(rest);
    }

    /** The loop around `decode` and `prepareFinish` on the bytes received and not yet read. */
    method Feed(bs: seq<Byte>) returns (out: seq<Message>, rest: seq<Byte>, broken: bool)
      modifies this
      ensures var s := Drain(old(View()), bs, [], true, socket);
              View() == s.fields && rest == s.unread && out == s.messages && broken == s.broken
    {
      out, rest := [], bs;
      ghost var goal := Drain(View(), bs, [], true, socket);
      var status := Done;
      while status == Done
        invariant status == Done ==> SameStream(Drain(View(), rest, out, true, socket), goal)
        invariant status != Done ==> SameStream(Stream(View(), rest, out, status == Broken, true), goal)
        decreases status == Done, |rest|, if headerDone then 1 else 0
      {
        ghost var f, before := View(), rest;
        status, rest := Decode(rest);
        if status == Done {
          ghost var aligned := Decoder.Decode(f, before, socket).aligned;
          var m := PrepareFinish();
          out := out + [m];
          DrainAlike(View(), rest, out, aligned, true, socket);
        }
      }
      broken := status == Broken;
    }
  }

  /** The sender's address, if all its bytes are there. */
  method ReadSender(bs: seq<Byte>) returns (s: Option<Sized>)
    requires |bs| >= PA.HEADER_SIZE
    ensures s == Sender(bs)
  {
    var size := PA.ComputeSize(PA.DecodeHeader(UInt(bs[..PA.HEADER_SIZE])));
    if |bs| < size {
      return None;
    }
    var sender, tail := PA.Read(bs);
    s := Some(Sized(sender, size));
  }

  /** The based-on keys, collected into a set. */
  method ReadKeySet(bs: seq<Byte>, n: nat) returns (keys: seq<Key>)
    requires |bs| >= BYTE_ARRAY_SIZE * n
    ensures keys == BasedOn([], bs, n)
  {
    keys := [];
    var rest := bs;
    for j := 0 to n
      invariant |rest| >= BYTE_ARRAY_SIZE * (n - j) && BasedOn(keys, rest, n - j) == BasedOn([], bs, n)
    {
      keys := AddKey(keys, KeyOf(rest[..BYTE_ARRAY_SIZE]));
      rest := rest[BYTE_ARRAY_SIZE..];
    }
  }

  /** The content types up to the first empty one. */
  method QueueUpToEmpty(kinds: seq<Kind>) returns (q: seq<Kind>)
    ensures q == Queue(kinds)
  {
    q := [];
    var left := kinds;
    while left != [] && left[0] != EMPTY
      invariant q + Queue(left) == Queue(kinds)
      decreases |left|
    {
      q, left := q + [left[0]], left[1..];
    }
  }
}
