/** `PeerMap.closePeers`: the bags as an index for nearest-neighbour queries. */
module ClosePeers {
  import opened Wrappers
  import opened Orders
  import opened Metric
  import opened Bags
  import N = Number160

  /** Every peer sits in the bag of its class. */
  ghost predicate Consistent(self: Id, t: Table) {
    forall c, i :: 0 <= c < N.BITS && 0 <= i < |t[c]| ==> Class(self, t[c][i]) == c
  }

  /** `x` is stored in bag `c`. */
  predicate Holds(t: Table, c: int, x: Id) {
    0 <= c < N.BITS && x in t[c]
  }

  ghost predicate Stored(self: Id, t: Table, x: Id) {
    Holds(t, Class(self, x), x)
  }

  // ---------------------------------------------------------------- the sorted set

  /** A comparator of peers that is 0 only for equal ids. */
  type Before = (Id, Id) -> bool

  /** The comparator used when none is given. */
  function XorBefore(target: Id): (before: Before) {
    (a: Id, b: Id) => Distance(target, a) < Distance(target, b)
  }

  lemma XorBeforeTotal(target: Id)
    ensures StrictTotal(XorBefore(target))
  {
    forall a: Id, b: Id | a != b ensures XorBefore(target)(a, b) || XorBefore(target)(b, a) {
      if Distance(target, a) == Distance(target, b) {
        DistanceInjective(target, a, b);
      }
    }
  }

  ghost predicate Sorted(before: Before, s: seq<Id>) {
    forall i, j {:trigger s[i], s[j]} :: 0 <= i < j < |s| ==> before(s[i], s[j])
  }

  /** `TreeSet.add`. */
  method Add(before: Before, s: seq<Id>, x: Id) returns (r: seq<Id>)
    requires StrictTotal(before) && Sorted(before, s)
    ensures Sorted(before, r)
    ensures forall y :: y in r <==> y in s || y == x
  {
    var i := 0;
    while i < |s| && before(s[i], x)
      invariant i <= |s|
      invariant forall j :: 0 <= j < i ==> before(s[j], x)
    {
      i := i + 1;
    }
    if i < |s| && !before(x, s[i]) {
      return s;
    }
    assert forall j :: i <= j < |s| ==> before(x, s[j]);
    r := s[..i] + [x] + s[i..];
    assert s == s[..i] + s[i..];
  }

  lemma DistanceInjective(t: Id, a: Id, b: Id)
    requires Distance(t, a) == Distance(t, b)
    ensures a == b
  {
    CompareXorOrder(t, Stat(a, 0), Stat(b, 0), Stat(a, 0));
  }

  /** Adds a whole bag; says whether the set is now large enough. */
  method FillSet(atLeast: int, before: Before, s: seq<Id>, bag: seq<Id>) returns (r: seq<Id>, done: bool)
    requires StrictTotal(before) && Sorted(before, s)
    ensures Sorted(before, r)
    ensures forall y :: y in r <==> y in s || y in bag
    ensures done <==> |r| >= atLeast
  {
    r := s;
    var i := 0;
    while i < |bag|
      invariant i <= |bag| && Sorted(before, r)
      invariant forall y :: y in r <==> y in s || y in bag[..i]
    {
      r := Add(before, r, bag[i]);
      assert bag[..i + 1] == bag[..i] + [bag[i]];
      i := i + 1;
    }
    assert bag[..i] == bag;
    done := |r| >= atLeast;
  }

  // ---------------------------------------------------------------- which bags come first

  /** Seen from the target, the bag of the target's own class is nearest, then all lower bags
      together, then the higher bags in turn. */
  lemma ClassFromTarget(self: Id, target: Id, x: Id)
    ensures Class(self, target) == -1 ==> Class(target, x) == Class(self, x)
    ensures Class(self, x) == Class(self, target) >= 0 ==> Class(target, x) < Class(self, target)
    ensures Class(self, x) < Class(self, target) ==> Class(target, x) == Class(self, target)
    ensures Class(self, x) > Class(self, target) ==> Class(target, x) == Class(self, x)
  {
    ClassEqual(self, target);
    ClassSymmetric(self, target);
    ClassUltrametric(target, self, x);
    if Class(self, x) == Class(self, target) >= 0 {
      ClassSiblings(self, target, x);
    }
  }

  /** Place of a class in that order. */
  function Rank(c: int, k: int): (r: int) {
    if k == c then 0 else if k < c then 1 else 1 + k - c
  }

  lemma RankOrdersDistance(self: Id, target: Id, y: Id, x: Id)
    requires Rank(Class(self, target), Class(self, y)) < Rank(Class(self, target), Class(self, x))
    requires Class(self, y) >= 0
    ensures Distance(target, y) < Distance(target, x)
  {
    ClassFromTarget(self, target, x);
    ClassFromTarget(self, target, y);
    ClassOrdersDistance(target, y, x);
  }

  /** `s` holds exactly the stored peers of rank at most `k`. */
  ghost predicate UpToRank(self: Id, target: Id, t: Table, s: seq<Id>, k: int) {
    forall x {:trigger x in s} :: x in s <==> Stored(self, t, x) && Rank(Class(self, target), Class(self, x)) <= k
  }

  /** Nobody left out is as close as anybody returned, in xor distance and whatever the comparator. */
  ghost predicate Nearest(self: Id, target: Id, t: Table, s: seq<Id>) {
    (forall y :: y in s ==> Stored(self, t, y)) &&
    (forall y, x {:trigger y in s, Stored(self, t, x)} ::
      y in s && Stored(self, t, x) && x !in s ==> Distance(target, y) < Distance(target, x))
  }

  ghost predicate Everybody(self: Id, t: Table, s: seq<Id>) {
    forall x {:trigger Stored(self, t, x)} :: Stored(self, t, x) ==> x in s
  }

  lemma RankGivesNearest(self: Id, target: Id, t: Table, s: seq<Id>, k: int)
    requires UpToRank(self, target, t, s, k)
    ensures Nearest(self, target, t, s)
  {
    forall y, x | y in s && Stored(self, t, x) && x !in s ensures Distance(target, y) < Distance(target, x) {
      RankOrdersDistance(self, target, y, x);
    }
  }

  /** The whole table has been added. */
  lemma RankGivesEverybody(self: Id, target: Id, t: Table, s: seq<Id>)
    requires UpToRank(self, target, t, s, N.BITS + 1)
    ensures Nearest(self, target, t, s) && Everybody(self, t, s)
  {
    RankGivesNearest(self, target, t, s, N.BITS + 1);
  }

  lemma BagMember(self: Id, t: Table, c: nat, x: Id)
    requires Consistent(self, t) && c < N.BITS
    ensures x in t[c] <==> Stored(self, t, x) && Class(self, x) == c
  {
  }

  /** The stored peers of the classes below `k`. */
  ghost predicate Below(self: Id, t: Table, s: seq<Id>, k: int) {
    forall x {:trigger x in s} :: x in s <==> Stored(self, t, x) && Class(self, x) < k
  }

  // ---------------------------------------------------------------- where the search stops

  /** Bags are added in groups: one bag after the other when the target is the peer itself, and
      otherwise the target's own bag, all lower bags, all higher bags. */
  function Group(c: int, k: int): (g: int) {
    if c == -1 then k else if k == c then 0 else if k < c then 1 else 2
  }

  function LastGroup(c: int): (g: int) {
    if c == -1 then N.BITS - 1 else 2
  }

  /** The size of the set is looked at after group `g`: it is not when there are no lower bags. */
  predicate Checked(c: int, g: int) {
    c == -1 || g == 0 || (g == 1 && c > 0)
  }

  ghost function Within(self: Id, target: Id, s: seq<Id>, g: int): (r: set<Id>) {
    set x | x in s && Group(Class(self, target), Class(self, x)) <= g
  }

  /** No check before group `g` found enough peers. */
  ghost predicate Short(self: Id, target: Id, s: seq<Id>, atLeast: int, g: int) {
    forall h {:trigger Within(self, target, s, h)} ::
      0 <= h < g && Checked(Class(self, target), h) ==> |Within(self, target, s, h)| < atLeast
  }

  ghost predicate UpToGroup(self: Id, target: Id, t: Table, s: seq<Id>, g: int) {
    forall x {:trigger x in s} :: x in s <==> Stored(self, t, x) && Group(Class(self, target), Class(self, x)) <= g
  }

  /** `s` is exactly the stored peers of the groups up to `g`, and `g` is the first checked group
      with enough peers, or the last group of all. */
  ghost predicate StopsAt(self: Id, target: Id, t: Table, s: seq<Id>, atLeast: int, g: int) {
    var c := Class(self, target);
    UpToGroup(self, target, t, s, g) &&
    Short(self, target, s, atLeast, g) &&
    (g == LastGroup(c) || (0 <= g && Checked(c, g) && |s| >= atLeast))
  }

  ghost function Members(s: seq<Id>): (r: set<Id>) {
    set x | x in s
  }

  lemma {:induction false} SortedDistinct(before: Before, s: seq<Id>, n: nat)
    requires StrictTotal(before) && Sorted(before, s) && n <= |s|
    ensures |Members(s[..n])| == n
  {
    if n > 0 {
      SortedDistinct(before, s, n - 1);
      var x := s[n - 1];
      assert s[..n] == s[..n - 1] + [x];
      assert x !in s[..n - 1] by {
        assert forall i :: 0 <= i < n - 1 ==> before(s[i], x);
      }
      assert Members(s[..n]) == Members(s[..n - 1]) + {x};
    }
  }

  /** A set that was too small when group `g` was complete stays too small for that check. */
  lemma ShortNext(self: Id, target: Id, before: Before, s: seq<Id>, r: seq<Id>, atLeast: int, g: nat)
    requires StrictTotal(before) && Sorted(before, s)
    requires Short(self, target, s, atLeast, g) && (Checked(Class(self, target), g) ==> |s| < atLeast)
    requires forall x :: x in s <==> x in r && Group(Class(self, target), Class(self, x)) <= g
    ensures Short(self, target, r, atLeast, g + 1)
  {
    SortedDistinct(before, s, |s|);
    assert s[..|s|] == s;
    forall h | 0 <= h < g + 1 && Checked(Class(self, target), h) ensures |Within(self, target, r, h)| < atLeast {
      assert Within(self, target, r, h) == Within(self, target, s, h);
      if h == g {
        assert Within(self, target, s, h) == Members(s);
      }
    }
  }

  /** `target == self`: bags in ascending order until there are enough. */
  method CloseToSelf(self: Id, atLeast: int, t: Table, before: Before) returns (s: seq<Id>)
    requires Consistent(self, t) && StrictTotal(before)
    ensures Sorted(before, s) && Nearest(self, self, t, s)
    ensures |s| >= atLeast || Everybody(self, t, s)
    ensures exists g :: StopsAt(self, self, t, s, atLeast, g)
  {
    s := [];
    ClassEqual(self, self);
    var j := 0;
    while j < N.BITS
      invariant j <= N.BITS && Sorted(before, s) && Below(self, t, s, j)
      invariant Short(self, self, s, atLeast, j) && (j > 0 ==> |s| < atLeast)
    {
      var done;
      ghost var was := s;
      s, done := FillSet(atLeast, before, s, t[j]);
      assert Below(self, t, s, j + 1) by {
        forall x ensures x in t[j] <==> Stored(self, t, x) && Class(self, x) == j { BagMember(self, t, j, x); }
      }
      if j > 0 {
        ShortNext(self, self, before, was, s, atLeast, j - 1);
      }
      if done {
        RankGivesNearest(self, self, t, s, j + 2);
        assert StopsAt(self, self, t, s, atLeast, j);
        return;
      }
      ShortNext(self, self, before, s, s, atLeast, j);
      j := j + 1;
    }
    RankGivesEverybody(self, self, t, s);
    assert StopsAt(self, self, t, s, atLeast, N.BITS - 1);
  }

  lemma RankGroup(self: Id, target: Id, t: Table, s: seq<Id>, k: nat)
    requires Class(self, target) >= 0 && k <= 2 && UpToRank(self, target, t, s, if k == 2 then N.BITS + 1 else k)
    ensures UpToGroup(self, target, t, s, k)
  {
  }

  lemma GroupGrows(self: Id, target: Id, t: Table, s: seq<Id>, r: seq<Id>, g: nat)
    requires UpToGroup(self, target, t, s, g) && UpToGroup(self, target, t, r, g + 1)
    ensures forall x :: x in s <==> x in r && Group(Class(self, target), Class(self, x)) <= g
  {
    hide Group, Stored;
  }

  /** Seen from another target, the three groups are the ranks 0, 1 and beyond. */
  lemma RankStops(self: Id, target: Id, t: Table, before: Before, s: seq<Id>, k: nat, atLeast: int, own: seq<Id>, lower: seq<Id>)
    requires Class(self, target) >= 0 && StrictTotal(before) && k <= 2
    requires UpToRank(self, target, t, s, if k == 2 then N.BITS + 1 else k)
    requires k < 2 ==> Checked(Class(self, target), k) && |s| >= atLeast
    requires k > 0 ==> Sorted(before, own) && UpToRank(self, target, t, own, 0) && |own| < atLeast
    requires k > 1 ==> Sorted(before, lower) && UpToRank(self, target, t, lower, 1)
    requires k > 1 && Class(self, target) > 0 ==> |lower| < atLeast
    ensures StopsAt(self, target, t, s, atLeast, k)
  {
    hide UpToRank, UpToGroup, Group, Sorted, StrictTotal;
    RankGroup(self, target, t, s, k);
    if k > 0 {
      RankGroup(self, target, t, own, 0);
    }
    if k == 1 {
      GroupGrows(self, target, t, own, s, 0);
      ShortNext(self, target, before, own, s, atLeast, 0);
    } else if k == 2 {
      RankGroup(self, target, t, lower, 1);
      GroupGrows(self, target, t, own, lower, 0);
      GroupGrows(self, target, t, lower, s, 1);
      ShortNext(self, target, before, own, lower, atLeast, 0);
      ShortNext(self, target, before, lower, s, atLeast, 1);
    }
  }

  /** The lower bags, all of them, on top of the target's own. */
  method FillLower(self: Id, target: Id, c: nat, atLeast: int, t: Table, before: Before, s0: seq<Id>) returns (s: seq<Id>, last: bool)
    requires Consistent(self, t) && c == Class(self, target) < N.BITS && StrictTotal(before)
    requires Sorted(before, s0) && UpToRank(self, target, t, s0, 0)
    ensures Sorted(before, s) && UpToRank(self, target, t, s, 1)
    ensures last <==> c > 0 && |s| >= atLeast
  {
    s := s0;
    last := false;
    var i := 0;
    while i < c
      invariant i <= c && Sorted(before, s)
      invariant last <==> i > 0 && |s| >= atLeast
      invariant forall x {:trigger x in s} :: x in s <==> Stored(self, t, x) && (Class(self, x) == c || Class(self, x) < i)
    {
      forall x ensures x in t[i] <==> Stored(self, t, x) && Class(self, x) == i { BagMember(self, t, i, x); }
      s, last := FillSet(atLeast, before, s, t[i]);
      i := i + 1;
    }
  }

  /** The higher bags, all of them. */
  method FillHigher(self: Id, target: Id, c: nat, atLeast: int, t: Table, before: Before, s0: seq<Id>) returns (s: seq<Id>)
    requires Consistent(self, t) && c == Class(self, target) < N.BITS && StrictTotal(before)
    requires Sorted(before, s0) && UpToRank(self, target, t, s0, 1)
    ensures Sorted(before, s) && UpToRank(self, target, t, s, N.BITS + 1)
  {
    s := s0;
    var i := c + 1;
    while i < N.BITS
      invariant c < i <= N.BITS && Sorted(before, s)
      invariant Below(self, t, s, i)
    {
      forall x ensures x in t[i] <==> Stored(self, t, x) && Class(self, x) == i { BagMember(self, t, i, x); }
      var done;
      s, done := FillSet(atLeast, before, s, t[i]);
      i := i + 1;
    }
  }

  /** Sorted by the comparator, which is that of xor distance when none is given; at least `atLeast`
      peers or all there are; nobody left out is as close in xor distance as anybody returned; and it
      stops at the first check that finds enough. */
  method ClosePeers(self: Id, other: Id, atLeast: int, t: Table, comparator: Option<Before>) returns (s: seq<Id>)
    requires Consistent(self, t) && (comparator.Some? ==> StrictTotal(comparator.value))
    ensures Sorted(if comparator.Some? then comparator.value else XorBefore(other), s)
    ensures Nearest(self, other, t, s)
    ensures |s| >= atLeast || Everybody(self, t, s)
    ensures exists g :: StopsAt(self, other, t, s, atLeast, g)
  {
    var before := if comparator.Some? then comparator.value else XorBefore(other);
    XorBeforeTotal(other);
    var classMember := Class(self, other);
    ClassEqual(self, other);
    if classMember == -1 {
      s := CloseToSelf(self, atLeast, t, before);
      return;
    }
    var done;
    s, done := FillSet(atLeast, before, [], t[classMember]);
    assert UpToRank(self, other, t, s, 0) by {
      forall x ensures x in t[classMember] <==> Stored(self, t, x) && Class(self, x) == classMember {
        BagMember(self, t, classMember, x);
      }
    }
    if done {
      RankGivesNearest(self, other, t, s, 0);
      RankStops(self, other, t, before, s, 0, atLeast, s, s);
      return;
    }
    var last;
    ghost var own := s;
    s, last := FillLower(self, other, classMember, atLeast, t, before, s);
    if last {
      RankGivesNearest(self, other, t, s, 1);
      RankStops(self, other, t, before, s, 1, atLeast, own, s);
      return;
    }
    ghost var lower := s;
    s := FillHigher(self, other, classMember, atLeast, t, before, s);
    RankGivesEverybody(self, other, t, s);
    RankStops(self, other, t, before, s, 2, atLeast, own, lower);
  }

  // ---------------------------------------------------------------- sort and take

  /** Against the plain definition: sort all stored peers by distance; what `closePeers` returns under the
      xor comparator is a prefix of that list. */
  lemma SortAndTake(self: Id, target: Id, t: Table, all: seq<Id>, s: seq<Id>)
    requires Sorted(XorBefore(target), all) && forall x :: x in all <==> Stored(self, t, x)
    requires Sorted(XorBefore(target), s) && Nearest(self, target, t, s)
    ensures s <= all
  {
    AgreeUpTo(self, target, t, all, s, |s|);
    assert s[..|s|] == s;
  }

  lemma NextNearest(self: Id, target: Id, t: Table, s: seq<Id>, i: nat, x: Id)
    requires Sorted(XorBefore(target), s) && Nearest(self, target, t, s) && i < |s| && Stored(self, t, x)
    requires forall l :: 0 <= l < i ==> s[l] != x
    ensures Distance(target, s[i]) <= Distance(target, x)
  {
    if x in s {
      var l :| 0 <= l < |s| && s[l] == x;
    } else {
      assert s[i] in s;
    }
  }

  lemma {:induction false} AgreeUpTo(self: Id, target: Id, t: Table, all: seq<Id>, s: seq<Id>, n: nat)
    requires Sorted(XorBefore(target), all) && forall x :: x in all <==> Stored(self, t, x)
    requires Sorted(XorBefore(target), s) && Nearest(self, target, t, s) && n <= |s|
    ensures n <= |all| && s[..n] == all[..n]
  {
    if n > 0 {
      AgreeUpTo(self, target, t, all, s, n - 1);
      var i := n - 1;
      assert forall l :: 0 <= l < i ==> s[l] == s[..i][l] == all[..i][l] == all[l];
      var y := s[i];
      assert y in all by { assert Stored(self, t, y); }
      var j :| 0 <= j < |all| && all[j] == y;
      assert forall l :: 0 <= l < i ==> all[l] != y;
      var x := all[i];
      assert Distance(target, x) <= Distance(target, y);
      NextNearest(self, target, t, s, i, x);
      DistanceInjective(target, x, y);
      assert s[..n] == s[..i] + [y] && all[..n] == all[..i] + [x];
    }
  }
}
