/** What the encoder writes, the decoder reads back, however the bytes are cut. */
module DecoderRoundTrip {
  import opened Number160
  import opened Sequences
  import opened Wire
  import opened Wrappers
  import opened MessageCodec
  import opened Decoder
  import PA = PeerAddress

  lemma LoopStep(f: Fields, bs: seq<Byte>, socket: Inet, f': Fields, n: nat)
    requires !Complete(f) && Aligned(f) && Step(f, bs, socket) == Next(f', n)
    ensures n <= |bs| && Loop(f, bs, socket) == Loop(f', bs[n..], socket)
  {
    StepProgress(f, bs, socket);
  }

  /** Ready to read a content of kind k. */
  predicate At(f: Fields, k: Kind) {
    f.headerDone && f.contentTypes != [] && f.contentTypes[0] == k
  }

  /** A payload unit that uses exactly the bytes `a`. */
  lemma PayloadStep(f: Fields, a: seq<Byte>, t: seq<Byte>, socket: Inet, f': Fields)
    requires f.headerDone && f.contentTypes != [] && Aligned(f) && PayloadUnit(f, a + t) == Next(f', |a|)
    ensures Loop(f, a + t, socket) == Loop(f', t, socket)
  {
    Front(a, t);
    LoopStep(f, a + t, socket, f', |a|);
  }

  // ---------------------------------------------------------------- contents of fixed size

  predicate Fixed(c: Content) { c.IntValue? || c.LongValue? || c.KeyValue? || c.SocketValue? }

  lemma FixedReads(f: Fields, c: Content, t: seq<Byte>)
    requires At(f, KindOf(c)) && ContentOk(c) && Writable(c) && Fixed(c)
    ensures PayloadUnit(f, EncodeContent(c) + t) == Next(Push(f, c), |EncodeContent(c)|)
  {
    Front(EncodeContent(c), t);
    match c {
      case IntValue(v) => BytesRoundTrips(4, v);
      case LongValue(v) => BytesRoundTrips(8, v);
      case KeyValue(k) => KeyRoundTrips(k);
      case SocketValue(s) => PA.SocketRoundTrip(s, false, t);
    }
  }

  lemma FixedDecodes(f: Fields, c: Content, t: seq<Byte>, socket: Inet)
    requires At(f, KindOf(c)) && Clean(f) && ContentOk(c) && Writable(c) && Fixed(c)
    ensures Loop(f, EncodeContent(c) + t, socket) == Loop(Push(f, c), t, socket)
  {
    FixedReads(f, c, t);
    PayloadStep(f, EncodeContent(c), t, socket, Push(f, c));
  }

  // ---------------------------------------------------------------- lengths

  lemma Length(n: nat, t: seq<Byte>)
    requires n < 0x8000_0000
    ensures (Bytes(INTEGER_BYTE_SIZE, n) + t)[..4] == Bytes(INTEGER_BYTE_SIZE, n) && UInt(Bytes(INTEGER_BYTE_SIZE, n)) == n && Signed32(n) == n
  {
    Powers();
    BytesRoundTrips(4, n);
    Front(Bytes(INTEGER_BYTE_SIZE, n), t);
  }

  // ---------------------------------------------------------------- neighbours

  function WithNeighbors(f: Fields, got: seq<PA.Address>): (r: Fields) { f.(neighborSet := Some(got)) }

  function NeighborsPushed(f: Fields, all: seq<PA.Address>): (r: Fields)
    requires f.contentTypes != []
  {
    Push(f, Neighbors(all)).(neighborSize := -1, neighborSet := None)
  }

  lemma NeighborReads(f: Fields, got: seq<PA.Address>, a: PA.Address, t: seq<Byte>)
    requires f.contentTypes != [] && f.neighborSet == Some(got) && |got| < f.neighborSize && PA.WellFormed(a)
    ensures NeighborUnit(f, PA.Encode(a) + t) == Next(WithNeighbors(f, got + [PA.Transmitted(a)]), |PA.Encode(a)|)
  {
    PA.AddressRoundTrip(a, t);
  }

  lemma NeighborOne(f: Fields, got: seq<PA.Address>, a: PA.Address, t: seq<Byte>, socket: Inet)
    requires At(f, SET_NEIGHBORS) && Aligned(f) && f.neighborSet == Some(got) && |got| < f.neighborSize
    requires PA.WellFormed(a)
    ensures Loop(f, PA.Encode(a) + t, socket) == Loop(WithNeighbors(f, got + [PA.Transmitted(a)]), t, socket)
  {
    NeighborReads(f, got, a, t);
    PayloadStep(f, PA.Encode(a), t, socket, WithNeighbors(f, got + [PA.Transmitted(a)]));
  }

  lemma NeighborEnd(f: Fields, got: seq<PA.Address>, t: seq<Byte>, socket: Inet)
    requires At(f, SET_NEIGHBORS) && Aligned(f) && f.neighborSet == Some(got) && f.neighborSize == |got|
    ensures Loop(f, t, socket) == Loop(NeighborsPushed(f, got), t, socket)
  {
    assert [] + t == t;
    PayloadStep(f, [], t, socket, NeighborsPushed(f, got));
  }

  lemma {:induction false} NeighborsLoop(f: Fields, got: seq<PA.Address>, todo: seq<PA.Address>, t: seq<Byte>, socket: Inet)
    requires At(f, SET_NEIGHBORS) && Aligned(f) && f.neighborSet == Some(got) && f.neighborSize == |got| + |todo|
    requires forall i :: 0 <= i < |todo| ==> PA.WellFormed(todo[i]) && PA.Encodable(todo[i])
    ensures Loop(f, EncodeAddresses(todo) + t, socket) == Loop(NeighborsPushed(f, got + AllTransmitted(todo)), t, socket)
    decreases |todo|
  {
    hide Loop;
    if todo == [] {
      assert got + [] == got && [] + t == t;
      NeighborEnd(f, got, t, socket);
    } else {
      var a, rest := todo[0], todo[1..];
      var got' := got + [PA.Transmitted(a)];
      Assoc(PA.Encode(a), EncodeAddresses(rest), t);
      NeighborOne(f, got, a, EncodeAddresses(rest) + t, socket);
      NeighborsLoop(WithNeighbors(f, got'), got', rest, t, socket);
      Assoc(got, [PA.Transmitted(a)], AllTransmitted(rest));
    }
  }

  lemma NeighborsStart(f: Fields, n: nat, t: seq<Byte>, socket: Inet)
    requires At(f, SET_NEIGHBORS) && Clean(f) && n < 256
    ensures Loop(f, Bytes(BYTE_BYTE_SIZE, n) + t, socket) == Loop(f.(neighborSize := n, neighborSet := Some([])), t, socket)
  {
    assert Bytes(BYTE_BYTE_SIZE, n) == [n];
    PayloadStep(f, Bytes(BYTE_BYTE_SIZE, n), t, socket, f.(neighborSize := n, neighborSet := Some([])));
  }

  lemma NeighborsDecode(f: Fields, addresses: seq<PA.Address>, t: seq<Byte>, socket: Inet)
    requires At(f, SET_NEIGHBORS) && Clean(f) && ContentOk(Neighbors(addresses)) && Writable(Neighbors(addresses))
    ensures Loop(f, EncodeContent(Neighbors(addresses)) + t, socket) == Loop(Push(f, Arrives(Neighbors(addresses))), t, socket)
  {
    hide Loop;
    var f1 := f.(neighborSize := |addresses|, neighborSet := Some([]));
    Assoc(Bytes(BYTE_BYTE_SIZE, |addresses|), EncodeAddresses(addresses), t);
    NeighborsStart(f, |addresses|, EncodeAddresses(addresses) + t, socket);
    NeighborsLoop(f1, [], addresses, t, socket);
    assert [] + AllTransmitted(addresses) == AllTransmitted(addresses);
    assert NeighborsPushed(f1, AllTransmitted(addresses)) == Push(f, Arrives(Neighbors(addresses)));
  }

  // ---------------------------------------------------------------- collections of keys

  lemma RoundTrip640(k: Number640, t: seq<Byte>)
    ensures Decode640(Encode640(k) + t) == k
  {
    hide ToBytes, KeyOf;
    KeyRoundTrips(k.location);
    KeyRoundTrips(k.domain);
    KeyRoundTrips(k.content);
    KeyRoundTrips(k.version);
    var a, b, c, d := ToBytes(k.location), ToBytes(k.domain), ToBytes(k.content), ToBytes(k.version);
    var bs := Encode640(k) + t;
    assert bs[0..20] == a;
    assert bs[20..40] == b;
    assert bs[40..60] == c;
    assert bs[60..80] == d;
  }

  function WithKeys(f: Fields, got: seq<Number640>): (r: Fields) { f.(keyCollection := Some(got)) }

  function KeysPushed(f: Fields, all: seq<Number640>): (r: Fields)
    requires f.contentTypes != []
  {
    Push(f, KeyCollection(all)).(keyCollectionSize := -1, keyCollection := None)
  }

  lemma KeyReads(f: Fields, got: seq<Number640>, k: Number640, t: seq<Byte>)
    requires f.contentTypes != [] && f.keyCollection == Some(got) && |got| < f.keyCollectionSize
    ensures KeyCollectionUnit(f, Encode640(k) + t) == Next(WithKeys(f, got + [k]), KEY640)
  {
    RoundTrip640(k, t);
  }

  lemma KeyOne(f: Fields, got: seq<Number640>, k: Number640, t: seq<Byte>, socket: Inet)
    requires At(f, SET_KEY640) && Aligned(f) && f.keyCollection == Some(got) && |got| < f.keyCollectionSize
    ensures Loop(f, Encode640(k) + t, socket) == Loop(WithKeys(f, got + [k]), t, socket)
  {
    KeyReads(f, got, k, t);
    PayloadStep(f, Encode640(k), t, socket, WithKeys(f, got + [k]));
  }

  lemma KeyEnd(f: Fields, got: seq<Number640>, t: seq<Byte>, socket: Inet)
    requires At(f, SET_KEY640) && Aligned(f) && f.keyCollection == Some(got) && f.keyCollectionSize == |got|
    ensures Loop(f, t, socket) == Loop(KeysPushed(f, got), t, socket)
  {
    assert [] + t == t;
    PayloadStep(f, [], t, socket, KeysPushed(f, got));
  }

  lemma {:induction false} KeysLoop(f: Fields, got: seq<Number640>, todo: seq<Number640>, t: seq<Byte>, socket: Inet)
    requires At(f, SET_KEY640) && Aligned(f) && f.keyCollection == Some(got) && f.keyCollectionSize == |got| + |todo|
    ensures Loop(f, Encode640s(todo) + t, socket) == Loop(KeysPushed(f, got + todo), t, socket)
    decreases |todo|
  {
    hide Loop;
    if todo == [] {
      assert got + [] == got && [] + t == t;
      KeyEnd(f, got, t, socket);
    } else {
      var k, rest := todo[0], todo[1..];
      Assoc(Encode640(k), Encode640s(rest), t);
      KeyOne(f, got, k, Encode640s(rest) + t, socket);
      KeysLoop(WithKeys(f, got + [k]), got + [k], rest, t, socket);
      Moved(got, todo);
    }
  }

  lemma KeysStart(f: Fields, n: nat, t: seq<Byte>, socket: Inet)
    requires At(f, SET_KEY640) && Clean(f) && n < 0x8000_0000
    ensures Loop(f, Bytes(INTEGER_BYTE_SIZE, n) + t, socket) == Loop(f.(keyCollectionSize := n, keyCollection := Some([])), t, socket)
  {
    Length(n, t);
    PayloadStep(f, Bytes(INTEGER_BYTE_SIZE, n), t, socket, f.(keyCollectionSize := n, keyCollection := Some([])));
  }

  lemma KeysDecode(f: Fields, keys: seq<Number640>, t: seq<Byte>, socket: Inet)
    requires At(f, SET_KEY640) && Clean(f) && ContentOk(KeyCollection(keys))
    ensures Loop(f, EncodeContent(KeyCollection(keys)) + t, socket) == Loop(Push(f, KeyCollection(keys)), t, socket)
  {
    hide Loop;
    var f1 := f.(keyCollectionSize := |keys|, keyCollection := Some([]));
    Assoc(Bytes(INTEGER_BYTE_SIZE, |keys|), Encode640s(keys), t);
    KeysStart(f, |keys|, Encode640s(keys) + t, socket);
    KeysLoop(f1, [], keys, t, socket);
    assert [] + keys == keys;
    assert KeysPushed(f1, keys) == Push(f, KeyCollection(keys));
  }

  // ---------------------------------------------------------------- byte buffers

  lemma BufferStart(f: Fields, n: nat, t: seq<Byte>, socket: Inet)
    requires At(f, BYTE_BUFFER) && Clean(f) && n < 0x8000_0000
    ensures Loop(f, Bytes(INTEGER_BYTE_SIZE, n) + t, socket) == Loop(f.(bufferSize := n), t, socket)
  {
    Length(n, t);
    PayloadStep(f, Bytes(INTEGER_BYTE_SIZE, n), t, socket, f.(bufferSize := n));
  }

  lemma BufferEnd(f: Fields, data: seq<Byte>, t: seq<Byte>, socket: Inet)
    requires At(f, BYTE_BUFFER) && Aligned(f) && f.bufferSize == |data|
    ensures Loop(f, data + t, socket) == Loop(Push(f, Buffer(data)).(bufferSize := -1), t, socket)
  {
    Front(data, t);
    PayloadStep(f, data, t, socket, Push(f, Buffer(data)).(bufferSize := -1));
  }

  lemma BufferDecodes(f: Fields, data: seq<Byte>, t: seq<Byte>, socket: Inet)
    requires At(f, BYTE_BUFFER) && Clean(f) && ContentOk(Buffer(data))
    ensures Loop(f, EncodeContent(Buffer(data)) + t, socket) == Loop(Push(f, Buffer(data)), t, socket)
  {
    hide Loop;
    var f1 := f.(bufferSize := |data|);
    Assoc(Bytes(INTEGER_BYTE_SIZE, |data|), data, t);
    BufferStart(f, |data|, data + t, socket);
    BufferEnd(f1, data, t, socket);
    assert Push(f1, Buffer(data)).(bufferSize := -1) == Push(f, Buffer(data));
  }
}
