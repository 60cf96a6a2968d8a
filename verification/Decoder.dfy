/** `Decoder`: a resumable decoder that keeps what it has read of a message between two calls.

    One unit is the smallest piece of progress: the header, a length field, one element of a collection,
    or the end of a content.  A unit that lacks bytes changes nothing. */
module Decoder {
  import opened Number160
  import opened Sequences
  import opened Wire
  import opened Wrappers
  import opened AssociationLists
  import opened MessageCodec
  import PA = PeerAddress

  /** The fields of the decoder; -1 and `None` mean that nothing is being read.  The two indices are the
      variables of the loops that fill the maps: each call sets them anew from the size of the map. */
  datatype Fields = Fields(
    headerDone: bool,
    contentTypes: seq<Kind>,
    message: Message,
    neighborSize: int,
    neighborSet: Option<seq<PA.Address>>,
    keyCollectionSize: int,
    keyCollection: Option<seq<Number640>>,
    keysMapSize: int,
    keysMap: Option<seq<KeysEntry>>,
    keysIndex: nat,
    byteMapSize: int,
    byteMap: Option<seq<ByteEntry>>,
    byteIndex: nat,
    bufferSize: int)

  function NewMessage(): (m: Message) {
    Message(0, 0, 0, 0, Number([0, 0, 0, 0, 0]), [], 0, NoAddress(), [])
  }

  function Fresh(): (f: Fields) {
    Fields(false, [], NewMessage(), -1, None, -1, None, -1, None, 0, -1, None, 0, -1)
  }

  /** No content is half read. */
  predicate Clean(f: Fields) {
    f.neighborSize == -1 && f.neighborSet == None && f.keyCollectionSize == -1 && f.keyCollection == None &&
    f.keysMapSize == -1 && f.keysMap == None && f.keysIndex == 0 &&
    f.byteMapSize == -1 && f.byteMap == None && f.byteIndex == 0 && f.bufferSize == -1
  }

  /** `prepareFinish`: the byte map is the one partial content it does not touch. */
  function Finish(f: Fields): (r: Fields) {
    Fresh().(byteMapSize := f.byteMapSize, byteMap := f.byteMap)
  }

  function Read<T>(partial: Option<seq<T>>): (r: seq<T>) {
    if partial.Some? then partial.value else []
  }

  /** `Wait`: more bytes are needed.  `Fail`: the original throws. */
  datatype Unit = Wait | Fail | Next(fields: Fields, used: nat)

  /** The content is complete: it goes into the message and its type off the queue. */
  function Push(f: Fields, c: Content): (r: Fields)
    requires f.contentTypes != []
  {
    f.(message := f.message.(contents := f.message.contents + [c]), contentTypes := f.contentTypes[1..])
  }

  /** The content types up to the first empty one. */
  function Queue(kinds: seq<Kind>): (q: seq<Kind>) {
    if kinds == [] || kinds[0] == EMPTY then [] else [kinds[0]] + Queue(kinds[1..])
  }

  function HeaderUnit(f: Fields, bs: seq<Byte>, socket: Inet): (u: Unit) {
    if |bs| < HEADER_SIZE_MIN then Wait else SenderUnit(f, DecodeStatic(bs), Sender(bs[HEADER_SIZE_STATIC..]), socket)
  }

  datatype Sized = Sized(address: PA.Address, size: nat)

  /** The address at the front of the bytes, if they hold all of it. */
  function Sender(rest: seq<Byte>): (s: Option<Sized>)
    requires |rest| >= PA.HEADER_SIZE
    ensures s.Some? ==> s.value.size <= |rest|
  {
    if |rest| < PA.Announced(rest) then None else Some(Sized(PA.Decode(rest), PA.Announced(rest)))
  }

  /** The rest of the header, with the first 34 bytes decoded. */
  function SenderUnit(f: Fields, m: Message, sender: Option<Sized>, socket: Inet): (u: Unit) {
    if m.msgType >= TYPES then Fail
    else
      match sender
      case None => Wait
      case Some(s) => Accept(f, m, s.address, HEADER_SIZE_STATIC + s.size, socket)
  }

  function Accept(f: Fields, m: Message, sender: PA.Address, used: nat, socket: Inet): (u: Unit) {
    if !HasFamily(sender, socket) then Fail
    else Next(f.(headerDone := true, message := m.(sender := AsSeen(sender, socket)), contentTypes := Queue(m.kinds)), used)
  }

  function FixedUnit(f: Fields, bs: seq<Byte>): (u: Unit)
    requires f.contentTypes != []
  {
    var k := f.contentTypes[0];
    if k == INTEGER then
      if |bs| < 4 then Wait else Next(Push(f, IntValue(UInt(bs[..4]))), 4)
    else if k == LONG then
      if |bs| < 8 then Wait else Next(Push(f, LongValue(UInt(bs[..8]))), 8)
    else if k == KEY then
      if |bs| < 20 then Wait else Next(Push(f, KeyValue(KeyOf(bs[..20]))), 20)
    else if k == PEER_SOCKET4 then
      if |bs| < 10 then Wait else Next(Push(f, SocketValue(PA.DecodeSocket(false, false, bs))), 10)
    else if k == PEER_SOCKET6 then
      if |bs| < 22 then Wait else Next(Push(f, SocketValue(PA.DecodeSocket(true, false, bs))), 22)
    else Fail
  }

  function NeighborUnit(f: Fields, bs: seq<Byte>): (u: Unit)
    requires f.contentTypes != []
  {
    if f.neighborSize == -1 then
      if |bs| < 1 then Wait else Next(f.(neighborSize := bs[0], neighborSet := Some([])), 1)
    else if |Read(f.neighborSet)| >= f.neighborSize then
      Next(Push(f, Neighbors(Read(f.neighborSet))).(neighborSize := -1, neighborSet := None), 0)
    else if |bs| < PA.HEADER_SIZE || |bs| < PA.Announced(bs) then Wait
    else Next(f.(neighborSet := Some(Read(f.neighborSet) + [PA.Decode(bs)])), PA.Announced(bs))
  }

  function KeyCollectionUnit(f: Fields, bs: seq<Byte>): (u: Unit)
    requires f.contentTypes != []
  {
    if f.keyCollectionSize == -1 then
      if |bs| < 4 then Wait
      else
        Bound32(bs[..4]);
        var size := Signed32(UInt(bs[..4]));
        if size < 0 then Fail else Next(f.(keyCollectionSize := size, keyCollection := Some([])), 4)
    else if |Read(f.keyCollection)| >= f.keyCollectionSize then
      Next(Push(f, KeyCollection(Read(f.keyCollection))).(keyCollectionSize := -1, keyCollection := None), 0)
    else if |bs| < KEY640 then Wait
    else Next(f.(keyCollection := Some(Read(f.keyCollection) + [Decode640(bs)])), KEY640)
  }

  /** The next n based-on keys, added to a set. */
  function BasedOn(got: seq<Key>, bs: seq<Byte>, n: nat): (keys: seq<Key>)
    requires |bs| >= BYTE_ARRAY_SIZE * n
    decreases n
  {
    if n == 0 then got else BasedOn(AddKey(got, KeyOf(bs[..BYTE_ARRAY_SIZE])), bs[BYTE_ARRAY_SIZE..], n - 1)
  }

  /** `HashSet.add`. */
  function AddKey(keys: seq<Key>, key: Key): (r: seq<Key>) {
    if key in keys then keys else keys + [key]
  }

  /** The peek at the length is unsigned, the length read is signed: 128 based-on keys or more make the
      set constructor throw. */
  function KeysMapUnit(f: Fields, bs: seq<Byte>): (u: Unit)
    requires f.contentTypes != []
  {
    if f.keysMapSize == -1 then
      if |bs| < 4 then Wait
      else
        Bound32(bs[..4]);
        var size := Signed32(UInt(bs[..4]));
        if size < 0 then Next(Push(f, KeysMap([])), 4) else Next(f.(keysMapSize := size, keysMap := Some([]), keysIndex := 0), 4)
    else if f.keysIndex >= f.keysMapSize then
      Next(Push(f, KeysMap(Read(f.keysMap))).(keysMapSize := -1, keysMap := None, keysIndex := 0), 0)
    else if |bs| < KEY640 + 1 || |bs| < KEY640 + 1 + BYTE_ARRAY_SIZE * bs[KEY640] then Wait
    else if bs[KEY640] >= 128 then Fail
    else Next(f.(keysIndex := f.keysIndex + 1,
                 keysMap := Some(Put(Read(f.keysMap), Entry(Decode640(bs), BasedOn([], bs[KEY640 + 1..], bs[KEY640]))))),
              KEY640 + 1 + BYTE_ARRAY_SIZE * bs[KEY640])
  }

  /** Twice the length as a 32-bit product must not be negative: it is the capacity of a hash map. */
  function ByteMapUnit(f: Fields, bs: seq<Byte>): (u: Unit)
    requires f.contentTypes != []
  {
    if f.byteMapSize == -1 then
      if |bs| < 4 then Wait
      else
        Bound32(bs[..4]);
        var size := Signed32(UInt(bs[..4]));
        if Signed32(2 * UInt(bs[..4]) % 0x1_0000_0000) < 0 then Fail
        else if size < 0 then Next(Push(f, ByteMap([])), 4)
        else Next(f.(byteMapSize := size, byteMap := Some([]), byteIndex := 0), 4)
    else if f.byteIndex >= f.byteMapSize then
      Next(Push(f, ByteMap(Read(f.byteMap))).(byteMapSize := -1, byteMap := None, byteIndex := 0), 0)
    else if |bs| < KEY640 + 1 then Wait
    else Next(f.(byteIndex := f.byteIndex + 1, byteMap := Some(Put(Read(f.byteMap), Entry(Decode640(bs), bs[KEY640])))), KEY640 + 1)
  }

  function BufferUnit(f: Fields, bs: seq<Byte>): (u: Unit)
    requires f.contentTypes != []
  {
    if f.bufferSize == -1 then
      if |bs| < 4 then Wait
      else
        Bound32(bs[..4]);
        var size := Signed32(UInt(bs[..4]));
        if size < 0 then Fail else Next(f.(bufferSize := size), 4)
    else if |bs| < f.bufferSize then Wait
    else if f.bufferSize < 0 then Fail
    else Next(Push(f, Buffer(bs[..f.bufferSize])).(bufferSize := -1), f.bufferSize)
  }

  lemma Bound32(bs: seq<Byte>)
    requires |bs| == 4
    ensures UInt(bs) < 0x1_0000_0000
  {
    WordBound(bs);
  }

  /** One unit of the payload; content types outside the model end in `Fail`. */
  function PayloadUnit(f: Fields, bs: seq<Byte>): (u: Unit)
    requires f.contentTypes != []
  {
    var k := f.contentTypes[0];
    if k == SET_NEIGHBORS then NeighborUnit(f, bs)
    else if k == SET_KEY640 then KeyCollectionUnit(f, bs)
    else if k == MAP_KEY640_KEYS then KeysMapUnit(f, bs)
    else if k == MAP_KEY640_BYTE then ByteMapUnit(f, bs)
    else if k == BYTE_BUFFER then BufferUnit(f, bs)
    else FixedUnit(f, bs)
  }

  predicate Complete(f: Fields) { f.headerDone && f.contentTypes == [] }

  function Step(f: Fields, bs: seq<Byte>, socket: Inet): (u: Unit)
    requires !Complete(f)
  {
    if !f.headerDone then HeaderUnit(f, bs, socket) else PayloadUnit(f, bs)
  }

  /** Every unit uses bytes that are there, and either uses some or shortens the queue. */
  lemma StepProgress(f: Fields, bs: seq<Byte>, socket: Inet)
    requires !Complete(f)
    ensures var u := Step(f, bs, socket);
            u.Next? ==> u.used <= |bs| && u.fields.headerDone && (u.used > 0 || (f.headerDone && |u.fields.contentTypes| < |f.contentTypes|))
  {
  }

  // ---------------------------------------------------------------- bytes not looked at do not matter

  lemma SenderExtend(rest: seq<Byte>, ext: seq<Byte>)
    requires |rest| >= PA.HEADER_SIZE && Sender(rest).Some?
    ensures Sender(rest + ext) == Sender(rest)
  {
    PA.DecodeExtend(rest, ext);
  }

  lemma SenderUnitExtend(f: Fields, m: Message, rest: seq<Byte>, ext: seq<Byte>, socket: Inet)
    requires |rest| >= PA.HEADER_SIZE && !SenderUnit(f, m, Sender(rest), socket).Wait?
    ensures SenderUnit(f, m, Sender(rest + ext), socket) == SenderUnit(f, m, Sender(rest), socket)
  {
    if Sender(rest).Some? {
      SenderExtend(rest, ext);
    }
  }

  lemma HeaderExtend(f: Fields, bs: seq<Byte>, ext: seq<Byte>, socket: Inet)
    requires !HeaderUnit(f, bs, socket).Wait?
    ensures HeaderUnit(f, bs + ext, socket) == HeaderUnit(f, bs, socket)
  {
    Extend(bs, ext, HEADER_SIZE_STATIC);
    StaticExtend(bs, ext);
    SenderUnitExtend(f, DecodeStatic(bs), bs[HEADER_SIZE_STATIC..], ext, socket);
  }

  lemma StaticExtend(bs: seq<Byte>, ext: seq<Byte>)
    requires |bs| >= HEADER_SIZE_STATIC
    ensures DecodeStatic(bs + ext) == DecodeStatic(bs)
  {
    Middle(bs, ext, 0, 4);
    Middle(bs, ext, 4, 8);
    Middle(bs, ext, 8, 9);
    Middle(bs, ext, 9, 29);
    Middle(bs, ext, 29, 33);
    Middle(bs, ext, 33, 34);
  }

  lemma Middle(bs: seq<Byte>, ext: seq<Byte>, i: nat, j: nat)
    requires i <= j <= |bs|
    ensures (bs + ext)[i..j] == bs[i..j]
  {
  }

  lemma FixedExtend(f: Fields, bs: seq<Byte>, ext: seq<Byte>)
    requires f.contentTypes != [] && !FixedUnit(f, bs).Wait?
    ensures FixedUnit(f, bs + ext) == FixedUnit(f, bs)
  {
    var k := f.contentTypes[0];
    if k == INTEGER {
      Extend(bs, ext, 4);
    } else if k == LONG {
      Extend(bs, ext, 8);
    } else if k == KEY {
      Extend(bs, ext, 20);
    } else if k == PEER_SOCKET4 {
      PA.SocketExtend(false, false, bs, ext);
    } else if k == PEER_SOCKET6 {
      PA.SocketExtend(true, false, bs, ext);
    }
  }

  lemma NeighborExtend(f: Fields, bs: seq<Byte>, ext: seq<Byte>)
    requires f.contentTypes != [] && !NeighborUnit(f, bs).Wait?
    ensures NeighborUnit(f, bs + ext) == NeighborUnit(f, bs)
  {
    if f.neighborSize != -1 && |Read(f.neighborSet)| < f.neighborSize {
      PA.DecodeExtend(bs, ext);
    }
  }

  lemma Extend640(bs: seq<Byte>, ext: seq<Byte>)
    requires |bs| >= KEY640
    ensures Decode640(bs + ext) == Decode640(bs)
  {
    Middle(bs, ext, 0, 20);
    Middle(bs, ext, 20, 40);
    Middle(bs, ext, 40, 60);
    Middle(bs, ext, 60, 80);
  }

  lemma KeyCollectionExtend(f: Fields, bs: seq<Byte>, ext: seq<Byte>)
    requires f.contentTypes != [] && !KeyCollectionUnit(f, bs).Wait?
    ensures KeyCollectionUnit(f, bs + ext) == KeyCollectionUnit(f, bs)
  {
    if f.keyCollectionSize == -1 {
      Extend(bs, ext, 4);
    } else if |Read(f.keyCollection)| < f.keyCollectionSize {
      Extend640(bs, ext);
    }
  }

  lemma {:induction false} BasedOnExtend(got: seq<Key>, bs: seq<Byte>, ext: seq<Byte>, n: nat)
    requires |bs| >= BYTE_ARRAY_SIZE * n
    ensures BasedOn(got, bs + ext, n) == BasedOn(got, bs, n)
    decreases n
  {
    if n > 0 {
      Extend(bs, ext, BYTE_ARRAY_SIZE);
      BasedOnExtend(AddKey(got, KeyOf(bs[..BYTE_ARRAY_SIZE])), bs[BYTE_ARRAY_SIZE..], ext, n - 1);
    }
  }

  lemma KeysMapExtend(f: Fields, bs: seq<Byte>, ext: seq<Byte>)
    requires f.contentTypes != [] && !KeysMapUnit(f, bs).Wait?
    ensures KeysMapUnit(f, bs + ext) == KeysMapUnit(f, bs)
  {
    hide UInt, Put, Push, Decode640, BasedOn;
    if f.keysMapSize == -1 {
      Extend(bs, ext, 4);
    } else if f.keysIndex < f.keysMapSize {
      Extend640(bs, ext);
      Extend(bs, ext, KEY640 + 1);
      BasedOnExtend([], bs[KEY640 + 1..], ext, bs[KEY640]);
    }
  }

  lemma ByteMapExtend(f: Fields, bs: seq<Byte>, ext: seq<Byte>)
    requires f.contentTypes != [] && !ByteMapUnit(f, bs).Wait?
    ensures ByteMapUnit(f, bs + ext) == ByteMapUnit(f, bs)
  {
    if f.byteMapSize == -1 {
      Extend(bs, ext, 4);
    } else if f.byteIndex < f.byteMapSize {
      Extend640(bs, ext);
    }
  }

  lemma BufferExtend(f: Fields, bs: seq<Byte>, ext: seq<Byte>)
    requires f.contentTypes != [] && !BufferUnit(f, bs).Wait?
    ensures BufferUnit(f, bs + ext) == BufferUnit(f, bs)
  {
    if f.bufferSize == -1 {
      Extend(bs, ext, 4);
    } else if f.bufferSize >= 0 {
      Extend(bs, ext, f.bufferSize);
    }
  }

  /** A unit that has its bytes does the same whatever follows them. */
  lemma StepExtend(f: Fields, bs: seq<Byte>, ext: seq<Byte>, socket: Inet)
    requires !Complete(f) && !Step(f, bs, socket).Wait?
    ensures Step(f, bs + ext, socket) == Step(f, bs, socket)
  {
    if !f.headerDone {
      HeaderExtend(f, bs, ext, socket);
    } else {
      var k := f.contentTypes[0];
      if k == SET_NEIGHBORS {
        NeighborExtend(f, bs, ext);
      } else if k == SET_KEY640 {
        KeyCollectionExtend(f, bs, ext);
      } else if k == MAP_KEY640_KEYS {
        KeysMapExtend(f, bs, ext);
      } else if k == MAP_KEY640_BYTE {
        ByteMapExtend(f, bs, ext);
      } else if k == BYTE_BUFFER {
        BufferExtend(f, bs, ext);
      } else {
        FixedExtend(f, bs, ext);
      }
    }
  }

  // ---------------------------------------------------------------- one call of decode, and the stream

  /** A call starts each loop at the size of the map read so far. */
  function Resume(f: Fields): (r: Fields) {
    f.(keysIndex := |Read(f.keysMap)|, byteIndex := |Read(f.byteMap)|)
  }

  /** The loop indices say how many entries the maps hold. */
  predicate Aligned(f: Fields) { Resume(f) == f }

  /** All entries of the map being read are there, so the next unit needs no bytes and no call ends here. */
  predicate MapFull(f: Fields) {
    f.headerDone && f.contentTypes != [] &&
    ((f.contentTypes[0] == MAP_KEY640_KEYS && f.keysMapSize != -1 && f.keysIndex >= f.keysMapSize) ||
     (f.contentTypes[0] == MAP_KEY640_BYTE && f.byteMapSize != -1 && f.byteIndex >= f.byteMapSize))
  }

  /** A call that ends here, if one can, is resumed with the same indices. */
  predicate Settled(f: Fields) { Aligned(f) || MapFull(f) }

  datatype Status = Done | More | Broken

  /** `aligned`: the fields were settled before and after every unit. */
  datatype Decoded = Decoded(fields: Fields, rest: seq<Byte>, status: Status, aligned: bool)

  function Also(d: Decoded, aligned: bool): (r: Decoded) { d.(aligned := d.aligned && aligned) }

  /** Units until the message is complete or bytes are missing. */
  function Loop(f: Fields, bs: seq<Byte>, socket: Inet): (d: Decoded)
    ensures |d.rest| <= |bs|
    ensures d.status == Done ==> Complete(d.fields) && (!f.headerDone ==> |d.rest| < |bs|)
    ensures d.aligned ==> Aligned(d.fields)
    decreases |bs|, |f.contentTypes|
  {
    if Complete(f) then Decoded(f, bs, Done, Settled(f))
    else
      StepProgress(f, bs, socket);
      match Step(f, bs, socket)
      case Wait => Decoded(f, bs, More, Settled(f))
      case Fail => Decoded(f, bs, Broken, Settled(f))
      case Next(f', n) => Also(Loop(f', bs[n..], socket), Settled(f))
  }

  /** The two situations lead to the same end, whether or not the maps stayed aligned on the way. */
  ghost predicate SameEnd(f: Fields, bs: seq<Byte>, g: Fields, cs: seq<Byte>, socket: Inet) {
    var x, y := Loop(f, bs, socket), Loop(g, cs, socket);
    x.fields == y.fields && x.rest == y.rest && x.status == y.status
  }

  lemma UnitSameEnd(f: Fields, bs: seq<Byte>, g: Fields, n: nat, socket: Inet)
    requires !Complete(f) && Step(f, bs, socket) == Next(g, n)
    ensures n <= |bs| && SameEnd(f, bs, g, bs[n..], socket)
  {
    StepProgress(f, bs, socket);
  }

  /** `decode`. */
  function Decode(f: Fields, bs: seq<Byte>, socket: Inet): (d: Decoded)
    ensures |d.rest| <= |bs|
    ensures d.status == Done ==> Complete(d.fields) && (!f.headerDone ==> |d.rest| < |bs|)
    ensures d.aligned ==> Aligned(d.fields)
  {
    Loop(Resume(f), bs, socket)
  }

  lemma {:induction false} LoopSplit(f: Fields, a: seq<Byte>, b: seq<Byte>, socket: Inet)
    ensures var d := Loop(f, a, socket);
            Loop(f, a + b, socket) ==
            if d.status == More then Also(Loop(d.fields, d.rest + b, socket), d.aligned) else d.(rest := d.rest + b)
    decreases |a|, |f.contentTypes|
  {
    if !Complete(f) {
      var u := Step(f, a, socket);
      StepProgress(f, a, socket);
      if !u.Wait? {
        StepExtend(f, a, b, socket);
      }
      if u.Next? {
        Extend(a, b, u.used);
        LoopSplit(u.fields, a[u.used..], b, socket);
      }
    }
  }

  /** The bytes received and not yet read, and the messages handed on. */
  datatype Stream = Stream(fields: Fields, unread: seq<Byte>, messages: seq<Message>, broken: bool, aligned: bool)

  /** The loop around `decode` and `prepareFinish`. */
  function Drain(f: Fields, bs: seq<Byte>, out: seq<Message>, aligned: bool, socket: Inet): (s: Stream)
    ensures s.aligned ==> aligned && Aligned(s.fields)
    decreases |bs|, if f.headerDone then 1 else 0
  {
    var d := Decode(f, bs, socket);
    match d.status
    case More => Stream(d.fields, d.rest, out, false, d.aligned && aligned)
    case Broken => Stream(d.fields, d.rest, out, true, d.aligned && aligned)
    case Done => Drain(Finish(d.fields), d.rest, out + [d.fields.message], d.aligned && aligned, socket)
  }

  /** Whether two draining decoders end alike, leaving aside how aligned their maps were. */
  ghost predicate SameStream(s: Stream, t: Stream) {
    s.(aligned := true) == t.(aligned := true)
  }

  lemma {:induction false} DrainAlike(f: Fields, bs: seq<Byte>, out: seq<Message>, a: bool, b: bool, socket: Inet)
    ensures SameStream(Drain(f, bs, out, a, socket), Drain(f, bs, out, b, socket))
    decreases |bs|, if f.headerDone then 1 else 0
  {
    var d := Decode(f, bs, socket);
    if d.status == Done {
      DrainAlike(Finish(d.fields), d.rest, out + [d.fields.message], d.aligned && a, d.aligned && b, socket);
    }
  }

  function Receive(s: Stream, chunk: seq<Byte>, socket: Inet): (r: Stream) {
    if s.broken then s.(unread := s.unread + chunk)
    else Drain(s.fields, s.unread + chunk, s.messages, s.aligned, socket)
  }

  /** Cutting the bytes in two makes no difference when everything was settled up to the cut. */
  lemma {:induction false} DrainSplit(f: Fields, a: seq<Byte>, b: seq<Byte>, out: seq<Message>, aligned: bool, socket: Inet)
    ensures Drain(f, a + b, out, aligned, socket).aligned ==> Drain(f, a, out, aligned, socket).aligned
    ensures Drain(f, a, out, aligned, socket).aligned ==>
              Drain(f, a + b, out, aligned, socket) == Receive(Drain(f, a, out, aligned, socket), b, socket)
    decreases |a|, if f.headerDone then 1 else 0
  {
    var d := Decode(f, a, socket);
    LoopSplit(Resume(f), a, b, socket);
    if d.status == Done {
      DrainSplit(Finish(d.fields), d.rest, b, out + [d.fields.message], d.aligned && aligned, socket);
    }
  }

  function Flatten(chunks: seq<seq<Byte>>): (bs: seq<Byte>) {
    if chunks == [] then [] else Flatten(chunks[..|chunks| - 1]) + chunks[|chunks| - 1]
  }

  function ReceiveAll(chunks: seq<seq<Byte>>, socket: Inet): (s: Stream) {
    if chunks == [] then Stream(Fresh(), [], [], false, true)
    else Receive(ReceiveAll(chunks[..|chunks| - 1], socket), chunks[|chunks| - 1], socket)
  }

  /** However the bytes are cut into chunks, messages, unread bytes and partial state are those of
      receiving everything at once, for every stream, well-formed or not, that stays settled in one piece. */
  lemma {:induction false} ChunksDoNotMatter(chunks: seq<seq<Byte>>, socket: Inet)
    requires Drain(Fresh(), Flatten(chunks), [], true, socket).aligned
    ensures ReceiveAll(chunks, socket) == Drain(Fresh(), Flatten(chunks), [], true, socket)
  {
    if chunks != [] {
      var n := |chunks| - 1;
      DrainSplit(Fresh(), Flatten(chunks[..n]), chunks[n], [], true, socket);
      ChunksDoNotMatter(chunks[..n], socket);
    }
  }
}
