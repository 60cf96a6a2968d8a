/** The verified part of the routing table as the broadcast sees it: one bag of
    peers for each class, each bag in the iteration order of its map. */
module Bags {
  import opened Arithmetic
  import opened Metric
  import N = Number160

  type Table = t: seq<seq<Id>> | |t| == N.BITS witness seq(N.BITS, _ => [])

  function Take(bag: seq<Id>, n: nat): (s: seq<Id>) {
    bag[..Min(n, |bag|)]
  }

  /** At most `n` peers from each of the first `k` bags. */
  function FromBags(t: Table, n: nat, k: nat): (s: seq<Id>)
    requires k <= N.BITS
  {
    if k == 0 then [] else FromBags(t, n, k - 1) + Take(t[k - 1], n)
  }

  function AllPeers(bags: seq<seq<Id>>): (s: seq<Id>) {
    if bags == [] then [] else AllPeers(bags[..|bags| - 1]) + bags[|bags| - 1]
  }

  /** Non-empty bags at index `from` and above. */
  function FilledFrom(t: Table, from: nat): (c: nat)
    requires from <= N.BITS
    decreases N.BITS - from
  {
    if from == N.BITS then 0 else (if t[from] != [] then 1 else 0) + FilledFrom(t, from + 1)
  }

  /** How many peers the first `k` bags have to offer when each gives at most `n`. */
  function Quota(bags: seq<seq<Id>>, n: nat, k: nat): (q: nat)
    requires k <= |bags|
  {
    if k == 0 then 0 else Quota(bags, n, k - 1) + Min(n, |bags[k - 1]|)
  }

  /** Bag after bag, the first `n` peers of each or all it has: these and no others, in this order. */
  ghost predicate Gathers(bags: seq<seq<Id>>, n: nat, k: nat, s: seq<Id>)
    requires k <= |bags|
  {
    |s| == Quota(bags, n, k) &&
    forall c, i {:trigger InPlace(bags, n, s, c, i)} :: 0 <= c < k && 0 <= i < Min(n, |bags[c]|) ==> InPlace(bags, n, s, c, i)
  }

  /** Peer i of bag c comes after those of the bags below and those before it. */
  ghost predicate InPlace(bags: seq<seq<Id>>, n: nat, s: seq<Id>, c: nat, i: nat)
    requires c < |bags| && i < |bags[c]|
  {
    var at := Quota(bags, n, c) + i;
    at < |s| && s[at] == bags[c][i]
  }

  /** The size of the largest bag. */
  function Largest(bags: seq<seq<Id>>): (n: nat) {
    if bags == [] then 0
    else
      var m := Largest(bags[..|bags| - 1]);
      if |bags[|bags| - 1]| > m then |bags[|bags| - 1]| else m
  }

  /** `PeerMap.all`. */
  method All(t: Table) returns (s: seq<Id>)
    ensures s == AllPeers(t) && Gathers(t, Largest(t), N.BITS, s)
  {
    LargestBounds(t);
    AllPeersExact(t, Largest(t));
    s := [];
    var i := 0;
    while i < N.BITS
      invariant i <= N.BITS && s == AllPeers(t[..i])
    {
      assert t[..i + 1][..i] == t[..i];
      s := s + t[i];
      i := i + 1;
    }
    assert t[..i] == t;
  }

  /** Which bags `maxBucket`, an exclusive bound, lets through. */
  function Bound(maxBucket: int): (k: nat)
    ensures k <= N.BITS
  {
    if maxBucket < 0 then 0 else Min(maxBucket, N.BITS)
  }

  /** `PeerMap.fromEachBag`: a negative `nrNeighbors` means everybody. */
  method FromEachBag(t: Table, nrNeighbors: int, maxBucket: int) returns (s: seq<Id>)
    ensures nrNeighbors < 0 ==> Gathers(t, Largest(t), N.BITS, s)
    ensures nrNeighbors >= 0 ==> Gathers(t, nrNeighbors, Bound(maxBucket), s)
    ensures nrNeighbors >= 0 ==> s == FromBags(t, nrNeighbors, Bound(maxBucket))
  {
    if nrNeighbors < 0 {
      s := All(t);
      return;
    }
    s := UpToBucket(t, nrNeighbors, maxBucket);
    FromBagsExact(t, nrNeighbors, Bound(maxBucket));
  }

  method UpToBucket(t: Table, nrNeighbors: nat, maxBucket: int) returns (s: seq<Id>)
    ensures s == FromBags(t, nrNeighbors, Bound(maxBucket))
  {
    s := [];
    var i, bucketCounter := 0, 0;
    while i < N.BITS
      invariant i <= N.BITS && bucketCounter == i
      invariant i > 0 ==> i <= maxBucket
      invariant s == FromBags(t, nrNeighbors, i)
    {
      bucketCounter := bucketCounter + 1;
      if bucketCounter > maxBucket {
        break;
      }
      var neighborCounter, j := 0, 0;
      while j < |t[i]|
        invariant neighborCounter == j <= |t[i]| && j <= nrNeighbors
        invariant s == FromBags(t, nrNeighbors, i) + t[i][..j]
      {
        neighborCounter := neighborCounter + 1;
        if neighborCounter > nrNeighbors {
          break;
        }
        assert t[i][..j + 1] == t[i][..j] + [t[i][j]];
        s := s + [t[i][j]];
        j := j + 1;
      }
      i := i + 1;
    }
  }

  /** `PeerMap.nrFilledBags` */
  method NrFilledBags(t: Table) returns (counter: nat)
    ensures counter == FilledFrom(t, 0) == |FilledClasses(t, 0)|
  {
    FilledIsCount(t, 0);
    counter := 0;
    var i := 0;
    while i < N.BITS
      invariant i <= N.BITS
      invariant counter + FilledFrom(t, i) == FilledFrom(t, 0)
    {
      if |t[i]| > 0 {
        counter := counter + 1;
      }
      i := i + 1;
    }
  }

  /** One more bag. */
  lemma GathersNext(bags: seq<seq<Id>>, n: nat, k: nat, s: seq<Id>)
    requires k < |bags| && Gathers(bags, n, k, s)
    ensures Gathers(bags, n, k + 1, s + bags[k][..Min(n, |bags[k]|)])
  {
    var taken := bags[k][..Min(n, |bags[k]|)];
    var r := s + taken;
    forall c, i | 0 <= c < k + 1 && 0 <= i < Min(n, |bags[c]|) ensures InPlace(bags, n, r, c, i) {
      if c == k {
        assert r[|s| + i] == taken[i];
      } else {
        assert InPlace(bags, n, s, c, i);
      }
    }
  }

  lemma {:induction false} FromBagsExact(t: Table, n: nat, k: nat)
    requires k <= N.BITS
    ensures Gathers(t, n, k, FromBags(t, n, k))
  {
    if k != 0 {
      FromBagsExact(t, n, k - 1);
      GathersNext(t, n, k - 1, FromBags(t, n, k - 1));
    }
  }

  lemma {:induction false} QuotaPrefix(bags: seq<seq<Id>>, n: nat, k: nat, m: nat)
    requires k <= m <= |bags|
    ensures Quota(bags[..m], n, k) == Quota(bags, n, k)
  {
    if k != 0 {
      QuotaPrefix(bags, n, k - 1, m);
    }
  }

  lemma GathersPrefix(bags: seq<seq<Id>>, n: nat, k: nat, s: seq<Id>)
    requires k <= |bags| && Gathers(bags[..k], n, k, s)
    ensures Gathers(bags, n, k, s)
  {
    QuotaPrefix(bags, n, k, k);
    forall c, i | 0 <= c < k && 0 <= i < Min(n, |bags[c]|) ensures InPlace(bags, n, s, c, i) {
      QuotaPrefix(bags, n, c, k);
      assert bags[..k][c] == bags[c];
      assert InPlace(bags[..k], n, s, c, i);
    }
  }

  lemma {:induction false} LargestBounds(bags: seq<seq<Id>>)
    ensures forall c :: 0 <= c < |bags| ==> |bags[c]| <= Largest(bags)
  {
    if bags != [] {
      var m := |bags| - 1;
      LargestBounds(bags[..m]);
      assert forall c :: 0 <= c < m ==> bags[..m][c] == bags[c];
    }
  }

  lemma {:induction false} AllPeersExact(bags: seq<seq<Id>>, n: nat)
    requires forall c :: 0 <= c < |bags| ==> |bags[c]| <= n
    ensures Gathers(bags, n, |bags|, AllPeers(bags))
  {
    if bags != [] {
      var m := |bags| - 1;
      AllPeersExact(bags[..m], n);
      GathersPrefix(bags, n, m, AllPeers(bags[..m]));
      GathersNext(bags, n, m, AllPeers(bags[..m]));
      assert bags[m][..|bags[m]|] == bags[m];
    }
  }

  /** The classes from `from` on whose bags are not empty. */
  function FilledClasses(t: Table, from: nat): (cs: set<nat>)
    requires from <= N.BITS
  {
    set c: nat | from <= c < N.BITS && t[c] != []
  }

  lemma {:induction false} FilledIsCount(t: Table, from: nat)
    requires from <= N.BITS
    ensures FilledFrom(t, from) == |FilledClasses(t, from)|
    decreases N.BITS - from
  {
    var here := FilledClasses(t, from);
    if from < N.BITS {
      FilledIsCount(t, from + 1);
      var above := FilledClasses(t, from + 1);
      if t[from] != [] {
        assert here == above + {from};
      } else {
        assert here == above;
      }
    } else {
      assert here == {};
    }
  }

  /** Nothing comes out that is not in one of the bags asked for. */
  lemma {:induction false} FromBagsSound(t: Table, n: nat, k: nat, x: Id) returns (c: nat)
    requires k <= N.BITS && x in FromBags(t, n, k)
    ensures c < k && x in t[c]
  {
    if x in FromBags(t, n, k - 1) {
      c := FromBagsSound(t, n, k - 1, x);
    } else {
      c := k - 1;
    }
  }

  /** The first peer of every non-empty bag asked for comes out. */
  lemma {:induction false} FromBagsComplete(t: Table, n: nat, k: nat, c: nat)
    requires n >= 1 && c < k <= N.BITS && t[c] != []
    ensures t[c][0] in FromBags(t, n, k)
  {
    if c == k - 1 {
      assert t[c][0] == Take(t[c], n)[0];
    } else {
      FromBagsComplete(t, n, k - 1, c);
    }
  }

  lemma {:induction false} FromBagsLength(t: Table, n: nat, k: nat)
    requires k <= N.BITS
    ensures |FromBags(t, n, k)| <= n * k
  {
    if k != 0 {
      FromBagsLength(t, n, k - 1);
      assert n * k == n * (k - 1) + n;
    }
  }

  lemma {:induction false} FromBagsEmpty(t: Table, n: nat, k: nat)
    requires k <= N.BITS && forall c :: 0 <= c < k ==> t[c] == []
    ensures FromBags(t, n, k) == []
  {
    if k != 0 {
      FromBagsEmpty(t, n, k - 1);
    }
  }

  lemma {:induction false} FilledMonotone(t: Table, i: nat, j: nat)
    requires i <= j <= N.BITS
    ensures FilledFrom(t, i) >= FilledFrom(t, j)
    decreases j - i
  {
    if i < j {
      FilledMonotone(t, i + 1, j);
    }
  }

  /** If the bags from `b` up already account for the whole count, those below are empty. */
  lemma {:induction false} FilledAbove(t: Table, i: nat, b: nat)
    requires i <= b <= N.BITS && FilledFrom(t, i) <= FilledFrom(t, b)
    ensures forall c :: i <= c < b ==> t[c] == []
    decreases b - i
  {
    if i < b {
      FilledMonotone(t, i + 1, b);
      FilledAbove(t, i + 1, b);
    }
  }

  /** Tables that agree on which bags are empty have the same count. */
  lemma {:induction false} FilledAgree(t: Table, u: Table, from: nat)
    requires from <= N.BITS && forall c :: from <= c < N.BITS ==> (t[c] == [] <==> u[c] == [])
    ensures FilledFrom(t, from) == FilledFrom(u, from)
    decreases N.BITS - from
  {
    if from < N.BITS {
      FilledAgree(t, u, from + 1);
    }
  }
}
