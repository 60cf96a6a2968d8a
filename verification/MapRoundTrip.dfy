/** The two maps on the wire, with keys that may repeat: how they are read, in one piece and in parts. */
module MapRoundTrip {
  import opened Number160
  import opened Sequences
  import opened Wire
  import opened Wrappers
  import opened AssociationLists
  import opened MessageCodec
  import opened Decoder
  import opened DecoderRoundTrip

  /** A payload unit that uses exactly the bytes `a`, from settled fields or not. */
  lemma PayloadLoop(f: Fields, a: seq<Byte>, t: seq<Byte>, socket: Inet, f': Fields)
    requires f.headerDone && f.contentTypes != [] && PayloadUnit(f, a + t) == Next(f', |a|)
    ensures Loop(f, a + t, socket) == Also(Loop(f', t, socket), Settled(f))
  {
    Front(a, t);
    StepProgress(f, a + t, socket);
  }

  // ---------------------------------------------------------------- maps to bytes

  /** In the middle of the map, with fewer entries read than announced. */
  predicate InByteMap(f: Fields) {
    At(f, MAP_KEY640_BYTE) && f.byteMapSize != -1 && f.byteIndex < f.byteMapSize
  }

  function WithByte(f: Fields, e: ByteEntry): (r: Fields) {
    f.(byteIndex := f.byteIndex + 1, byteMap := Some(Put(Read(f.byteMap), e)))
  }

  function BytePushed(f: Fields, all: seq<ByteEntry>): (r: Fields)
    requires f.contentTypes != []
  {
    Push(f, ByteMap(all)).(byteMapSize := -1, byteMap := None, byteIndex := 0)
  }

  /** The other map is not being read. */
  predicate OnlyByte(f: Fields) { f.keysIndex == |Read(f.keysMap)| }

  lemma ByteEntryReads(e: ByteEntry, t: seq<Byte>)
    ensures |EncodeByteEntry(e)| == KEY640 + 1
    ensures Decode640(EncodeByteEntry(e) + t) == e.key && (EncodeByteEntry(e) + t)[KEY640] == e.value
  {
    Assoc(Encode640(e.key), [e.value], t);
    RoundTrip640(e.key, [e.value] + t);
  }

  lemma ByteReads(f: Fields, e: ByteEntry, t: seq<Byte>)
    requires InByteMap(f)
    ensures ByteMapUnit(f, EncodeByteEntry(e) + t) == Next(WithByte(f, e), |EncodeByteEntry(e)|)
  {
    ByteEntryReads(e, t);
  }

  lemma ByteOne(f: Fields, e: ByteEntry, t: seq<Byte>, socket: Inet)
    requires InByteMap(f) && OnlyByte(f)
    ensures Loop(f, EncodeByteEntry(e) + t, socket) == Also(Loop(WithByte(f, e), t, socket), f.byteIndex == |Read(f.byteMap)|)
  {
    ByteReads(f, e, t);
    PayloadLoop(f, EncodeByteEntry(e), t, socket, WithByte(f, e));
  }

  lemma ByteEnd(f: Fields, t: seq<Byte>, socket: Inet)
    requires At(f, MAP_KEY640_BYTE) && f.byteMapSize != -1 && f.byteIndex >= f.byteMapSize
    ensures Loop(f, t, socket) == Loop(BytePushed(f, Read(f.byteMap)), t, socket)
  {
    assert [] + t == t;
    PayloadLoop(f, [], t, socket, BytePushed(f, Read(f.byteMap)));
  }

  lemma BytePushedSame(f: Fields, e: ByteEntry, all: seq<ByteEntry>)
    requires f.contentTypes != []
    ensures BytePushed(WithByte(f, e), all) == BytePushed(f, all)
  {
  }

  lemma ByteFirst(f: Fields, todo: seq<ByteEntry>, t: seq<Byte>, socket: Inet)
    requires todo != [] && InByteMap(f) && OnlyByte(f)
    ensures Loop(f, EncodeByteEntries(todo) + t, socket) ==
            Also(Loop(WithByte(f, todo[0]), EncodeByteEntries(todo[1..]) + t, socket), f.byteIndex == |Read(f.byteMap)|)
  {
    hide Loop;
    Assoc(EncodeByteEntry(todo[0]), EncodeByteEntries(todo[1..]), t);
    ByteOne(f, todo[0], EncodeByteEntries(todo[1..]) + t, socket);
  }

  lemma {:induction false} ByteMapLoop(f: Fields, todo: seq<ByteEntry>, t: seq<Byte>, socket: Inet, end: Fields)
    requires At(f, MAP_KEY640_BYTE) && OnlyByte(f) && f.byteMapSize != -1 && f.byteMapSize == f.byteIndex + |todo|
    requires end == BytePushed(f, PutAll(Read(f.byteMap), todo))
    ensures Loop(f, EncodeByteEntries(todo) + t, socket) == Also(Loop(end, t, socket), Steady(Read(f.byteMap), f.byteIndex, todo))
    decreases |todo|
  {
    hide Loop;
    if todo == [] {
      assert [] + t == t;
      ByteEnd(f, t, socket);
    } else {
      BytePushedSame(f, todo[0], PutAll(Read(f.byteMap), todo));
      ByteFirst(f, todo, t, socket);
      ByteMapLoop(WithByte(f, todo[0]), todo[1..], t, socket, end);
    }
  }

  lemma ByteMapStart(f: Fields, n: nat, t: seq<Byte>, socket: Inet)
    requires At(f, MAP_KEY640_BYTE) && Clean(f) && n < 0x4000_0000
    ensures Loop(f, Bytes(INTEGER_BYTE_SIZE, n) + t, socket) == Loop(f.(byteMapSize := n, byteMap := Some([])), t, socket)
  {
    Length(n, t);
    PayloadStep(f, Bytes(INTEGER_BYTE_SIZE, n), t, socket, f.(byteMapSize := n, byteMap := Some([])));
  }

  /** The whole map, and whether it stayed settled. */
  lemma ByteMapDecodes(f: Fields, es: seq<ByteEntry>, t: seq<Byte>, socket: Inet)
    requires At(f, MAP_KEY640_BYTE) && Clean(f) && ContentOk(ByteMap(es))
    ensures Loop(f, EncodeContent(ByteMap(es)) + t, socket) ==
            Also(Loop(Push(f, Arrives(ByteMap(es))), t, socket), CutSafe(ByteMap(es)))
  {
    hide Loop;
    var f1 := f.(byteMapSize := |es|, byteMap := Some([]));
    Assoc(Bytes(INTEGER_BYTE_SIZE, |es|), EncodeByteEntries(es), t);
    ByteMapStart(f, |es|, EncodeByteEntries(es) + t, socket);
    ByteMapLoop(f1, es, t, socket, BytePushed(f1, PutAll([], es)));
    SteadyIsDistinct([], es);
    assert [] + AllButLast(es) == AllButLast(es);
    assert BytePushed(f1, PutAll([], es)) == Push(f, Arrives(ByteMap(es)));
  }

  /** The fields after some entries. */
  function AfterByte(f: Fields, part: seq<ByteEntry>): (r: Fields) {
    f.(byteIndex := f.byteIndex + |part|, byteMap := Some(PutAll(Read(f.byteMap), part)))
  }

  /** Fewer entries than announced: the decoder waits for the others. */
  lemma {:induction false} ByteMapWaits(f: Fields, part: seq<ByteEntry>, socket: Inet)
    requires At(f, MAP_KEY640_BYTE) && OnlyByte(f) && f.byteMapSize != -1 && f.byteMapSize > f.byteIndex + |part| && f.byteMap.Some?
    ensures var d := Loop(f, EncodeByteEntries(part), socket); d.fields == AfterByte(f, part) && d.rest == [] && d.status == More
    decreases |part|
  {
    if part != [] {
      ByteOne(f, part[0], EncodeByteEntries(part[1..]), socket);
      ByteMapWaits(WithByte(f, part[0]), part[1..], socket);
    }
  }

  /** The map cut before its last entry, when a key repeats before that: the decoder goes on waiting after
      the last entry has come. */
  lemma ByteMapStalls(f: Fields, es: seq<ByteEntry>, socket: Inet)
    requires At(f, MAP_KEY640_BYTE) && OnlyByte(f) && f.byteMapSize == |es| > 0 && f.byteMap == Some([]) && f.byteIndex == 0
    requires !DistinctKeys(AllButLast(es))
    ensures var d := Loop(f, EncodeByteEntries(AllButLast(es)), socket);
            var e := Loop(Resume(d.fields), EncodeByteEntries([es[|es| - 1]]), socket);
            d.status == More && d.rest == [] && e.status == More && e.rest == [] &&
            e.fields.message == f.message && e.fields.contentTypes == f.contentTypes
  {
    hide Loop, EncodeByteEntry;
    var front, last := AllButLast(es), es[|es| - 1];
    ByteMapWaits(f, front, socket);
    PutAllSize([], front);
    assert [] + front == front;
    ByteMapWaits(Resume(AfterByte(f, front)), [last], socket);
  }

  // ---------------------------------------------------------------- maps to sets of keys

  /** In the middle of the map, with fewer entries read than announced. */
  predicate InKeysMap(f: Fields) {
    At(f, MAP_KEY640_KEYS) && f.keysMapSize != -1 && f.keysIndex < f.keysMapSize
  }

  function WithKeysEntry(f: Fields, e: KeysEntry): (r: Fields) {
    f.(keysIndex := f.keysIndex + 1, keysMap := Some(Put(Read(f.keysMap), e)))
  }

  function KeysMapPushed(f: Fields, all: seq<KeysEntry>): (r: Fields)
    requires f.contentTypes != []
  {
    Push(f, KeysMap(all)).(keysMapSize := -1, keysMap := None, keysIndex := 0)
  }

  /** The other map is not being read. */
  predicate OnlyKeys(f: Fields) { f.byteIndex == |Read(f.byteMap)| }

  lemma {:induction false} BasedOnReads(got: seq<Key>, keys: seq<Key>, t: seq<Byte>)
    requires KeysDistinct(got + keys)
    ensures BasedOn(got, EncodeKeys(keys) + t, |keys|) == got + keys
    decreases |keys|
  {
    if keys == [] {
      assert got + keys == got;
    } else {
      var key, rest := keys[0], keys[1..];
      Assoc(ToBytes(key), EncodeKeys(rest), t);
      Front(ToBytes(key), EncodeKeys(rest) + t);
      KeyRoundTrips(key);
      FirstIsNew(got, keys);
      BasedOnReads(got + [key], rest, t);
    }
  }

  lemma FirstIsNew(got: seq<Key>, keys: seq<Key>)
    requires keys != [] && KeysDistinct(got + keys)
    ensures keys[0] !in got && got + [keys[0]] + keys[1..] == got + keys
  {
    assert (got + keys)[|got|] == keys[0];
    forall i | 0 <= i < |got| ensures got[i] != keys[0] {
      assert (got + keys)[i] == got[i];
    }
  }

  lemma KeysEntryReads(e: KeysEntry, t: seq<Byte>)
    requires |e.value| < 256 && KeysDistinct(e.value)
    ensures var bs := EncodeKeysEntry(e) + t;
            |EncodeKeysEntry(e)| == KEY640 + 1 + BYTE_ARRAY_SIZE * |e.value| &&
            Decode640(bs) == e.key && bs[KEY640] == |e.value| && BasedOn([], bs[KEY640 + 1..], |e.value|) == e.value
  {
    var n := |e.value|;
    assert Bytes(BYTE_BYTE_SIZE, n) == [n];
    EntryParts(Encode640(e.key), n, EncodeKeys(e.value), t);
    RoundTrip640(e.key, [n] + (EncodeKeys(e.value) + t));
    assert [] + e.value == e.value;
    BasedOnReads([], e.value, t);
  }

  lemma EntryParts(key: seq<Byte>, n: Byte, keys: seq<Byte>, t: seq<Byte>)
    requires |key| == KEY640
    ensures var bs := key + ([n] + keys) + t;
            bs == key + ([n] + (keys + t)) && bs[KEY640] == n && bs[KEY640 + 1..] == keys + t
  {
    Assoc(key, [n] + keys, t);
    Assoc([n], keys, t);
  }

  lemma KeysReads(f: Fields, e: KeysEntry, t: seq<Byte>)
    requires InKeysMap(f) && EntryOk(e)
    ensures KeysMapUnit(f, EncodeKeysEntry(e) + t) == Next(WithKeysEntry(f, e), |EncodeKeysEntry(e)|)
  {
    KeysEntryReads(e, t);
  }

  /** A map entry is read exactly when it has at most 127 based-on keys: the length byte is written unsigned
      and read signed, and a negative length throws. */
  lemma BasedOnLimit(f: Fields, e: KeysEntry, t: seq<Byte>)
    requires InKeysMap(f) && |e.value| < 256 && KeysDistinct(e.value)
    ensures KeysMapUnit(f, EncodeKeysEntry(e) + t) == Next(WithKeysEntry(f, e), |EncodeKeysEntry(e)|) <==> |e.value| < 128
    ensures KeysMapUnit(f, EncodeKeysEntry(e) + t).Fail? <==> |e.value| >= 128
  {
    if |e.value| < 128 {
      KeysReads(f, e, t);
    } else {
      TooManyThrow(f, e, t);
    }
  }

  lemma TooManyThrow(f: Fields, e: KeysEntry, t: seq<Byte>)
    requires InKeysMap(f) && 128 <= |e.value| < 256 && KeysDistinct(e.value)
    ensures KeysMapUnit(f, EncodeKeysEntry(e) + t) == Fail
  {
    KeysEntryReads(e, t);
    Throws(f, EncodeKeysEntry(e) + t);
  }

  lemma Throws(f: Fields, bs: seq<Byte>)
    requires InKeysMap(f) && |bs| > KEY640 && |bs| >= KEY640 + 1 + BYTE_ARRAY_SIZE * bs[KEY640] && bs[KEY640] >= 128
    ensures KeysMapUnit(f, bs) == Fail
  {
  }

  lemma KeysOne(f: Fields, e: KeysEntry, t: seq<Byte>, socket: Inet)
    requires InKeysMap(f) && OnlyKeys(f) && EntryOk(e)
    ensures Loop(f, EncodeKeysEntry(e) + t, socket) == Also(Loop(WithKeysEntry(f, e), t, socket), f.keysIndex == |Read(f.keysMap)|)
  {
    KeysReads(f, e, t);
    PayloadLoop(f, EncodeKeysEntry(e), t, socket, WithKeysEntry(f, e));
  }

  lemma KeysEnd(f: Fields, t: seq<Byte>, socket: Inet)
    requires At(f, MAP_KEY640_KEYS) && f.keysMapSize != -1 && f.keysIndex >= f.keysMapSize
    ensures Loop(f, t, socket) == Loop(KeysMapPushed(f, Read(f.keysMap)), t, socket)
  {
    assert [] + t == t;
    PayloadLoop(f, [], t, socket, KeysMapPushed(f, Read(f.keysMap)));
  }

  lemma KeysMapPushedSame(f: Fields, e: KeysEntry, all: seq<KeysEntry>)
    requires f.contentTypes != []
    ensures KeysMapPushed(WithKeysEntry(f, e), all) == KeysMapPushed(f, all)
  {
  }

  lemma KeysFirst(f: Fields, todo: seq<KeysEntry>, t: seq<Byte>, socket: Inet)
    requires todo != [] && InKeysMap(f) && OnlyKeys(f) && EntryOk(todo[0])
    ensures Loop(f, EncodeKeysEntries(todo) + t, socket) ==
            Also(Loop(WithKeysEntry(f, todo[0]), EncodeKeysEntries(todo[1..]) + t, socket), f.keysIndex == |Read(f.keysMap)|)
  {
    hide Loop;
    Assoc(EncodeKeysEntry(todo[0]), EncodeKeysEntries(todo[1..]), t);
    KeysOne(f, todo[0], EncodeKeysEntries(todo[1..]) + t, socket);
  }

  lemma {:induction false} KeysMapLoop(f: Fields, todo: seq<KeysEntry>, t: seq<Byte>, socket: Inet, end: Fields)
    requires At(f, MAP_KEY640_KEYS) && OnlyKeys(f) && f.keysMapSize != -1 && f.keysMapSize == f.keysIndex + |todo|
    requires forall i :: 0 <= i < |todo| ==> EntryOk(todo[i])
    requires end == KeysMapPushed(f, PutAll(Read(f.keysMap), todo))
    ensures Loop(f, EncodeKeysEntries(todo) + t, socket) == Also(Loop(end, t, socket), Steady(Read(f.keysMap), f.keysIndex, todo))
    decreases |todo|
  {
    hide Loop;
    if todo == [] {
      assert [] + t == t;
      KeysEnd(f, t, socket);
    } else {
      KeysMapPushedSame(f, todo[0], PutAll(Read(f.keysMap), todo));
      KeysFirst(f, todo, t, socket);
      KeysMapLoop(WithKeysEntry(f, todo[0]), todo[1..], t, socket, end);
    }
  }

  lemma KeysMapStart(f: Fields, n: nat, t: seq<Byte>, socket: Inet)
    requires At(f, MAP_KEY640_KEYS) && Clean(f) && n < 0x8000_0000
    ensures Loop(f, Bytes(INTEGER_BYTE_SIZE, n) + t, socket) == Loop(f.(keysMapSize := n, keysMap := Some([])), t, socket)
  {
    Length(n, t);
    PayloadStep(f, Bytes(INTEGER_BYTE_SIZE, n), t, socket, f.(keysMapSize := n, keysMap := Some([])));
  }

  /** The whole map, and whether it stayed settled. */
  lemma KeysMapDecodes(f: Fields, es: seq<KeysEntry>, t: seq<Byte>, socket: Inet)
    requires At(f, MAP_KEY640_KEYS) && Clean(f) && ContentOk(KeysMap(es))
    ensures Loop(f, EncodeContent(KeysMap(es)) + t, socket) ==
            Also(Loop(Push(f, Arrives(KeysMap(es))), t, socket), CutSafe(KeysMap(es)))
  {
    hide Loop;
    var f1 := f.(keysMapSize := |es|, keysMap := Some([]));
    Assoc(Bytes(INTEGER_BYTE_SIZE, |es|), EncodeKeysEntries(es), t);
    KeysMapStart(f, |es|, EncodeKeysEntries(es) + t, socket);
    KeysMapLoop(f1, es, t, socket, KeysMapPushed(f1, PutAll([], es)));
    SteadyIsDistinct([], es);
    assert [] + AllButLast(es) == AllButLast(es);
    assert KeysMapPushed(f1, PutAll([], es)) == Push(f, Arrives(KeysMap(es)));
  }

  /** The fields after some entries. */
  function AfterKeys(f: Fields, part: seq<KeysEntry>): (r: Fields) {
    f.(keysIndex := f.keysIndex + |part|, keysMap := Some(PutAll(Read(f.keysMap), part)))
  }

  /** Fewer entries than announced: the decoder waits for the others. */
  lemma {:induction false} KeysMapWaits(f: Fields, part: seq<KeysEntry>, socket: Inet)
    requires At(f, MAP_KEY640_KEYS) && OnlyKeys(f) && f.keysMapSize != -1 && f.keysMapSize > f.keysIndex + |part| && f.keysMap.Some?
    requires forall i :: 0 <= i < |part| ==> EntryOk(part[i])
    ensures var d := Loop(f, EncodeKeysEntries(part), socket); d.fields == AfterKeys(f, part) && d.rest == [] && d.status == More
    decreases |part|
  {
    if part != [] {
      KeysOne(f, part[0], EncodeKeysEntries(part[1..]), socket);
      KeysMapWaits(WithKeysEntry(f, part[0]), part[1..], socket);
    }
  }

  /** The map cut before its last entry, when a key repeats before that: the decoder goes on waiting after
      the last entry has come. */
  lemma KeysMapStalls(f: Fields, es: seq<KeysEntry>, socket: Inet)
    requires At(f, MAP_KEY640_KEYS) && OnlyKeys(f) && f.keysMapSize == |es| > 0 && f.keysMap == Some([]) && f.keysIndex == 0
    requires !DistinctKeys(AllButLast(es)) && forall i :: 0 <= i < |es| ==> EntryOk(es[i])
    ensures var d := Loop(f, EncodeKeysEntries(AllButLast(es)), socket);
            var e := Loop(Resume(d.fields), EncodeKeysEntries([es[|es| - 1]]), socket);
            d.status == More && d.rest == [] && e.status == More && e.rest == [] &&
            e.fields.message == f.message && e.fields.contentTypes == f.contentTypes
  {
    hide Loop, EncodeKeysEntry;
    var front, last := AllButLast(es), es[|es| - 1];
    KeysMapWaits(f, front, socket);
    PutAllSize([], front);
    assert [] + front == front;
    KeysMapWaits(Resume(AfterKeys(f, front)), [last], socket);
  }
}
