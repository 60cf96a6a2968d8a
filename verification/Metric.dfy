/** The XOR metric on identifiers, the classes (bags) it induces, and the
    comparators that order peers by it. */
module Metric {
  import opened Bits
  import opened Orders
  import N = Number160

  /** An identifier as a number; `Number160` ties it to the five limbs. */
  type Id = x: nat | x < Pow2(N.BITS)

  function Distance(a: Id, b: Id): (d: nat) {
    Xor(a, b)
  }

  /** Position of the highest digit in which the two differ, -1 if they are equal. */
  function Class(a: Id, b: Id): (c: int)
    ensures -1 <= c < N.BITS
  {
    XorBound(a, b, N.BITS);
    BitLenBound(Distance(a, b), N.BITS);
    BitLen(Distance(a, b)) - 1
  }

  /** Both lie in one subtree of height `h`. */
  ghost predicate Together(a: Id, b: Id, h: nat) {
    Shr(a, h) == Shr(b, h)
  }

  lemma ClassBelow(a: Id, b: Id, h: nat)
    ensures Class(a, b) < h <==> Together(a, b, h)
  {
    XorBitLen(a, b, h);
  }

  lemma ClassEqual(a: Id, b: Id)
    ensures Class(a, b) == -1 <==> a == b
  {
    XorZero(a, b);
  }

  lemma ClassSymmetric(a: Id, b: Id)
    ensures Class(a, b) == Class(b, a)
  {
    XorCommutes(a, b);
  }

  /** The class is an ultrametric: of three classes the two largest are equal. */
  lemma ClassUltrametric(a: Id, b: Id, c: Id)
    ensures Class(a, b) != Class(b, c) ==>
              Class(a, c) == if Class(a, b) > Class(b, c) then Class(a, b) else Class(b, c)
    ensures Class(a, b) == Class(b, c) ==> Class(a, c) <= Class(a, b)
  {
    ClassTriangle(a, b, c);
    ClassTriangle(b, a, c);
    ClassTriangle(b, c, a);
    ClassSymmetric(a, b);
    ClassSymmetric(b, c);
    ClassSymmetric(a, c);
  }

  lemma ClassTriangle(a: Id, b: Id, c: Id)
    ensures Class(a, c) <= Class(a, b) || Class(a, c) <= Class(b, c)
  {
    var h := (if Class(a, b) > Class(b, c) then Class(a, b) else Class(b, c)) + 1;
    ClassBelow(a, b, h);
    ClassBelow(b, c, h);
    ClassBelow(a, c, h);
  }

  /** Two peers of one class are closer to each other than to the observer:
      a class is a whole sibling subtree. */
  lemma ClassSiblings(s: Id, r: Id, x: Id)
    requires Class(s, r) == Class(s, x) >= 0
    ensures Class(r, x) < Class(s, r)
  {
    var b: nat := Class(s, r);
    ClassBelow(s, r, b);
    ClassBelow(s, x, b);
    ClassBelow(s, r, b + 1);
    ClassBelow(s, x, b + 1);
    ClassBelow(r, x, b);
    ShrNext(s, b);
    ShrNext(r, b);
    ShrNext(x, b);
  }

  /** A lower class is a smaller distance. */
  lemma ClassOrdersDistance(t: Id, a: Id, b: Id)
    requires Class(t, a) < Class(t, b)
    ensures Distance(t, a) < Distance(t, b)
  {
    BitLenOrders(Distance(t, a), Distance(t, b));
  }

  // ---------------------------------------------------------------- on limbs

  lemma KeyIsId(k: N.Key)
    ensures N.Value(k) < Pow2(N.BITS)
  {
    N.ValueBound(k);
  }

  method ClassMember(id1: N.Key, id2: N.Key) returns (c: int)
    ensures N.Value(id1) < Pow2(N.BITS) && N.Value(id2) < Pow2(N.BITS)
    ensures c == Class(N.Value(id1), N.Value(id2))
    ensures c == -1 <==> id1 == id2
  {
    KeyIsId(id1);
    KeyIsId(id2);
    var d := N.XorKeys(id1, id2);
    var bits: int := N.BitLength(d);
    c := bits - 1;
    ClassEqual(N.Value(id1), N.Value(id2));
    N.ValueInjective(id1, id2);
  }

  /** -1 if `rn` is closer to `id` than `rn2`, 1 if it is farther, 0 only for one and the same peer. */
  method IsKadCloser(id: N.Key, rn: N.Key, rn2: N.Key) returns (c: int)
    ensures c == 0 <==> rn == rn2
    ensures c == -1 <==> Xor(N.Value(id), N.Value(rn)) < Xor(N.Value(id), N.Value(rn2))
    ensures c == 1 <==> Xor(N.Value(id), N.Value(rn)) > Xor(N.Value(id), N.Value(rn2))
  {
    var d := N.XorKeys(id, rn);
    var d2 := N.XorKeys(id, rn2);
    c := N.CompareTo(d, d2);
    N.ValueInjective(d, d2);
    N.ValueInjective(rn, rn2);
    if d == d2 {
      XorInjective(N.Value(id), N.Value(rn), N.Value(rn2));
    }
  }

  // ---------------------------------------------------------------- comparators

  /** What the comparators read of a peer statistic; `meanRtt` is negative when nothing was measured. */
  datatype Stat = Stat(id: Id, meanRtt: int)

  function Sign(x: int): (s: int) {
    if x < 0 then -1 else if x > 0 then 1 else 0
  }

  function CompareXor(location: Id, o1: Stat, o2: Stat): (c: int) {
    Sign(Distance(location, o1.id) - Distance(location, o2.id))
  }

  function CompareRtt(location: Id, o1: Stat, o2: Stat): (c: int) {
    if o1.id == o2.id then 0
    else
      var first := Sign(Class(location, o1.id) - Class(location, o2.id));
      if first != 0 then first
      else if o1.meanRtt < 0 && o2.meanRtt >= 0 then 1
      else if o1.meanRtt >= 0 && o2.meanRtt < 0 then -1
      else if o1.meanRtt >= 0 && o2.meanRtt >= 0 && o1.meanRtt != o2.meanRtt then Sign(o1.meanRtt - o2.meanRtt)
      else CompareXor(location, o1, o2)
  }

  lemma CompareXorOrder(location: Id, a: Stat, b: Stat, c: Stat)
    ensures CompareXor(location, a, b) == 0 <==> a.id == b.id
    ensures CompareXor(location, a, b) == -CompareXor(location, b, a)
    ensures CompareXor(location, a, b) < 0 && CompareXor(location, b, c) < 0 ==> CompareXor(location, a, c) < 0
  {
    if CompareXor(location, a, b) == 0 {
      XorInjective(location, a.id, b.id);
    }
  }

  /** The four-level comparator never identifies two peers, is antisymmetric, and chains
      through any three statistics exactly when the outer two belong to different peers. */
  lemma CompareRttOrder(location: Id, a: Stat, b: Stat, c: Stat)
    ensures CompareRtt(location, a, b) == 0 <==> a.id == b.id
    ensures CompareRtt(location, a, b) == -CompareRtt(location, b, a)
    ensures CompareRtt(location, a, b) < 0 && CompareRtt(location, b, c) < 0 ==>
              (CompareRtt(location, a, c) < 0 <==> a.id != c.id)
  {
    CompareXorOrder(location, a, b, c);
    CompareXorOrder(location, b, c, a);
    CompareXorOrder(location, a, c, b);
  }

  /** What comes first: the nearer peer for the xor comparator; for the other one the smaller class, within a
      class the measured peer, of two measured ones the faster, and otherwise the nearer. */
  lemma CompareDirections(location: Id, a: Stat, b: Stat)
    requires a.id != b.id
    ensures CompareXor(location, a, b) < 0 <==> Distance(location, a.id) < Distance(location, b.id)
    ensures Class(location, a.id) < Class(location, b.id) ==> CompareRtt(location, a, b) < 0
    ensures Class(location, a.id) == Class(location, b.id) ==>
              (a.meanRtt >= 0 > b.meanRtt ==> CompareRtt(location, a, b) < 0) &&
              (0 <= a.meanRtt < b.meanRtt ==> CompareRtt(location, a, b) < 0) &&
              (a.meanRtt == b.meanRtt || (a.meanRtt < 0 && b.meanRtt < 0) ==>
                 (CompareRtt(location, a, b) < 0 <==> Distance(location, a.id) < Distance(location, b.id)))
  {
    CompareXorOrder(location, a, b, a);
  }

  /** The comparator on peers that have one statistic each. */
  function RttBefore(location: Id, stat: Id -> Stat): (before: (Id, Id) -> bool) {
    (a: Id, b: Id) => CompareRtt(location, stat(a), stat(b)) < 0
  }

  /** With one statistic for each peer the comparator is a strict total order. */
  lemma RttBeforeTotal(location: Id, stat: Id -> Stat)
    requires forall x: Id {:trigger stat(x)} :: stat(x).id == x
    ensures StrictTotal(RttBefore(location, stat))
  {
    var before := RttBefore(location, stat);
    forall a: Id, b: Id ensures before(a, b) ==> !before(b, a) {
      CompareRttOrder(location, stat(a), stat(b), stat(a));
    }
    forall a: Id, b: Id | a != b ensures before(a, b) || before(b, a) {
      CompareRttOrder(location, stat(a), stat(b), stat(a));
    }
    forall a: Id, b: Id, c: Id | before(a, b) && before(b, c) ensures before(a, c) {
      CompareRttOrder(location, stat(a), stat(b), stat(c));
      CompareRttOrder(location, stat(b), stat(c), stat(b));
    }
  }

  /** Two snapshots of one peer with different round-trip times break the chain. */
  lemma CompareRttSnapshots()
    ensures exists location: Id, a, b, c ::
              CompareRtt(location, a, b) < 0 && CompareRtt(location, b, c) < 0 && CompareRtt(location, a, c) == 0
  {
    BitLenBound(4, N.BITS);
    assert BitLen(4) == 3;
    var location: Id, p: Id, q: Id := 0, 2, 3;
    var a, b, c := Stat(p, 10), Stat(q, 20), Stat(p, 30);
    assert Xor(0, 2) == 2 by { assert Xor(0, 1) == 1; }
    assert Xor(0, 3) == 3 by { assert Xor(0, 1) == 1; }
    assert BitLen(2) == 2 && BitLen(3) == 2;
    assert CompareRtt(location, a, b) < 0 && CompareRtt(location, b, c) < 0 && CompareRtt(location, a, c) == 0;
  }
}
