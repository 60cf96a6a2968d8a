/** The counting Bloom filter: a saturating counter for every index, `k` indices for every element.

    `java.util.Random` seeded with an element's hash code is the function `draw`:
    `draw(hash, x)` is the index of its x-th draw. */
module CountingBloomFilter {
  import opened Arithmetic

  const MAX_VALUE: nat := 0x7fff_ffff

  type Draw = (int, nat) -> nat

  /** How many of the first `k` draws for `o` hit index `j`. */
  function Draws(draw: Draw, o: int, k: nat, j: nat): (n: nat) {
    if k == 0 then 0 else Draws(draw, o, k - 1, j) + if draw(o, k - 1) == j then 1 else 0
  }

  /** How often index `j` has been hit by a sequence of additions. */
  function Hits(draw: Draw, k: nat, added: seq<int>, j: nat): (n: nat) {
    if added == [] then 0
    else Hits(draw, k, added[..|added| - 1], j) + Draws(draw, added[|added| - 1], k, j)
  }

  function Occurrences(added: seq<int>, o: int): (n: nat) {
    if added == [] then 0
    else Occurrences(added[..|added| - 1], o) + if added[|added| - 1] == o then 1 else 0
  }

  lemma {:induction false} OwnDraw(draw: Draw, o: int, k: nat, x: nat)
    requires x < k
    ensures Draws(draw, o, k, draw(o, x)) >= 1
  {
    if x < k - 1 {
      OwnDraw(draw, o, k - 1, x);
    }
  }

  /** Every addition of `o` hits each of its indices at least once. */
  lemma {:induction false} HitsCoverOccurrences(draw: Draw, k: nat, added: seq<int>, o: int, x: nat)
    requires x < k
    ensures Hits(draw, k, added, draw(o, x)) >= Occurrences(added, o)
  {
    if added != [] {
      HitsCoverOccurrences(draw, k, added[..|added| - 1], o, x);
      OwnDraw(draw, o, k, x);
    }
  }

  lemma {:induction false} OccursPositive(added: seq<int>, o: int)
    ensures o in added <==> Occurrences(added, o) > 0
  {
    if added != [] {
      var n := |added| - 1;
      OccursPositive(added[..n], o);
      assert added == added[..n] + [added[n]];
    }
  }

  class Filter {
    const draw: Draw
    const k: nat
    const intSet: array<int>
    ghost var base: seq<int>
    ghost var added: seq<int>

    /** Each counter is exactly what it held at first plus the number of hits, cut off at the largest int. */
    ghost predicate Valid()
      reads this, intSet
    {
      |base| == intSet.Length && (forall h, x :: draw(h, x) < intSet.Length) &&
      (forall j :: 0 <= j < intSet.Length ==> intSet[j] == Min(MAX_VALUE, base[j] + Hits(draw, k, added, j)))
    }

    /** What the counter of the x-th draw of o would be without the cut-off. */
    ghost function Total(o: int, x: nat): (n: int)
      requires Valid()
      reads this, intSet
    {
      base[draw(o, x)] + Hits(draw, k, added, draw(o, x))
    }

    /** Over existing data, whatever the ints in it. */
    constructor (draw: Draw, k: nat, intSet: array<int>)
      requires forall h, x :: draw(h, x) < intSet.Length
      requires forall j :: 0 <= j < intSet.Length ==> intSet[j] <= MAX_VALUE
      ensures Valid() && this.intSet == intSet && this.draw == draw && this.k == k
      ensures base == intSet[..] && added == []
    {
      this.draw, this.k, this.intSet := draw, k, intSet;
      base, added := intSet[..], [];
    }

    /** The data it started from had no negative counters, as that of another filter has none. */
    ghost predicate Sound()
      reads this
    {
      forall j :: 0 <= j < |base| ==> base[j] >= 0
    }

    method Add(o: int)
      requires Valid()
      modifies this`added, intSet
      ensures Valid() && added == old(added) + [o]
    {
      var x := 0;
      while x < k
        invariant x <= k && added == old(added)
        invariant forall j :: 0 <= j < intSet.Length ==>
                    intSet[j] == Min(MAX_VALUE, base[j] + Hits(draw, k, old(added), j) + Draws(draw, o, x, j))
      {
        var index := draw(o, x);
        var was := intSet[index];
        if was != MAX_VALUE {
          intSet[index] := was + 1;
        }
        x := x + 1;
      }
      added := added + [o];
      assert added[..|added| - 1] == old(added);
    }

    method Clear()
      requires forall h, x :: draw(h, x) < intSet.Length
      modifies this, intSet
      ensures Valid() && Sound() && added == [] && forall j :: 0 <= j < |base| ==> base[j] == 0
    {
      var x := 0;
      while x < intSet.Length
        invariant x <= intSet.Length && forall j :: 0 <= j < x ==> intSet[j] == 0
      {
        intSet[x] := 0;
        x := x + 1;
      }
      base, added := intSet[..], [];
    }

    /** True exactly when no counter of the element is zero; never a false negative. */
    method Contains(o: int) returns (r: bool)
      requires Valid()
      ensures r <==> forall x :: 0 <= x < k ==> Total(o, x) != 0
      ensures Sound() && o in added ==> r
    {
      OccursPositive(added, o);
      var x := 0;
      while x < k
        invariant x <= k && forall y :: 0 <= y < x ==> Total(o, y) != 0
      {
        HitsCoverOccurrences(draw, k, added, o, x);
        if intSet[draw(o, x)] == 0 {
          assert Total(o, x) == 0;
          return false;
        }
        x := x + 1;
      }
      return true;
    }

    /** Never smaller than the number of additions, saturation aside; and never larger than any of
        the element's own counters. */
    method ApproximateCount(o: int) returns (r: int)
      requires Valid()
      ensures Sound() ==> r >= Min(MAX_VALUE, Occurrences(added, o))
      ensures r <= MAX_VALUE && forall x :: 0 <= x < k ==> r <= Total(o, x)
      ensures r == MAX_VALUE || exists x :: 0 <= x < k && r == Total(o, x)
    {
      r := MAX_VALUE;
      var x := 0;
      while x < k
        invariant x <= k
        invariant r <= MAX_VALUE && (Sound() ==> r >= Min(MAX_VALUE, Occurrences(added, o)))
        invariant forall y :: 0 <= y < x ==> r <= Total(o, y)
        invariant r == MAX_VALUE || exists y :: 0 <= y < x && r == Total(o, y)
      {
        HitsCoverOccurrences(draw, k, added, o, x);
        assert intSet[draw(o, x)] == Min(MAX_VALUE, Total(o, x));
        r := Min(r, intSet[draw(o, x)]);
        x := x + 1;
      }
    }
  }
}
