/** Maps held as their entries, in the order the keys first came in. */
module AssociationLists {
  import opened Sequences

  datatype Entry<K, +V> = Entry(key: K, value: V)

  /** `Map.put`: a key that is there keeps its place and gets the new value. */
  function Put<K(==), V>(es: seq<Entry<K, V>>, e: Entry<K, V>): (r: seq<Entry<K, V>>) {
    if es == [] then [e]
    else if es[0].key == e.key then [e] + es[1..]
    else [es[0]] + Put(es[1..], e)
  }

  function PutAll<K(==), V>(got: seq<Entry<K, V>>, es: seq<Entry<K, V>>): (r: seq<Entry<K, V>>)
    decreases |es|
  {
    if es == [] then got else PutAll(Put(got, es[0]), es[1..])
  }

  predicate DistinctKeys<K(==), V>(es: seq<Entry<K, V>>) {
    forall i, j :: 0 <= i < j < |es| ==> es[i].key != es[j].key
  }

  predicate NewKey<K(==), V>(got: seq<Entry<K, V>>, e: Entry<K, V>) {
    forall i :: 0 <= i < |got| ==> got[i].key != e.key
  }

  lemma {:induction false} PutNew<K, V>(es: seq<Entry<K, V>>, e: Entry<K, V>)
    requires NewKey(es, e)
    ensures Put(es, e) == es + [e]
  {
    if es != [] {
      PutNew(es[1..], e);
      assert es == [es[0]] + es[1..];
    }
  }

  lemma {:induction false} PutOld<K, V>(es: seq<Entry<K, V>>, e: Entry<K, V>)
    requires !NewKey(es, e)
    ensures |Put(es, e)| == |es| && forall i :: 0 <= i < |es| ==> Put(es, e)[i].key == es[i].key
  {
    if es[0].key != e.key {
      var i :| 0 <= i < |es| && es[i].key == e.key;
      assert es[1..][i - 1].key == e.key;
      PutOld(es[1..], e);
    }
  }

  lemma PutSize<K, V>(es: seq<Entry<K, V>>, e: Entry<K, V>)
    requires DistinctKeys(es)
    ensures DistinctKeys(Put(es, e)) && |Put(es, e)| == |es| + if NewKey(es, e) then 1 else 0
  {
    if NewKey(es, e) {
      PutNew(es, e);
    } else {
      PutOld(es, e);
    }
  }

  /** Moving the first entry over. */
  lemma Shift<K, V>(got: seq<Entry<K, V>>, es: seq<Entry<K, V>>)
    requires es != []
    ensures got + [es[0]] + es[1..] == got + es
    ensures DistinctKeys(got + es) ==> NewKey(got, es[0])
  {
    Moved(got, es);
    var all := got + es;
    assert all[|got|] == es[0];
    assert forall i :: 0 <= i < |got| ==> all[i] == got[i];
  }

  lemma {:induction false} PutAllDistinct<K, V>(got: seq<Entry<K, V>>, es: seq<Entry<K, V>>)
    requires DistinctKeys(got + es)
    ensures PutAll(got, es) == got + es
    decreases |es|
  {
    if es == [] {
      assert got + es == got;
    } else {
      Shift(got, es);
      PutNew(got, es[0]);
      PutAllDistinct(got + [es[0]], es[1..]);
    }
  }

  /** A repeated key makes the map smaller than the list. */
  lemma {:induction false} PutAllSize<K, V>(got: seq<Entry<K, V>>, es: seq<Entry<K, V>>)
    requires DistinctKeys(got)
    ensures |PutAll(got, es)| <= |got| + |es|
    ensures |PutAll(got, es)| == |got| + |es| <==> DistinctKeys(got + es)
    decreases |es|
  {
    if es == [] {
      assert got + es == got;
    } else {
      Shift(got, es);
      PutSize(got, es[0]);
      PutAllSize(Put(got, es[0]), es[1..]);
      if NewKey(got, es[0]) {
        PutNew(got, es[0]);
      }
    }
  }

  /** Before each of the entries still to come, the index agrees with the size of the map. */
  predicate Steady<K(==), V>(got: seq<Entry<K, V>>, index: nat, todo: seq<Entry<K, V>>)
    decreases |todo|
  {
    todo == [] || (index == |got| && Steady(Put(got, todo[0]), index + 1, todo[1..]))
  }

  /** That is so exactly when no key repeats among all entries but the last. */
  lemma {:induction false} SteadyIsDistinct<K, V>(got: seq<Entry<K, V>>, todo: seq<Entry<K, V>>)
    requires DistinctKeys(got)
    ensures Steady(got, |got|, todo) <==> DistinctKeys(got + AllButLast(todo))
    decreases |todo|
  {
    if |todo| <= 1 {
      assert got + AllButLast(todo) == got;
    } else {
      var e, rest, front := todo[0], todo[1..], AllButLast(todo);
      assert front[0] == e && front[1..] == AllButLast(rest);
      Shift(got, front);
      PutSize(got, e);
      if NewKey(got, e) {
        PutNew(got, e);
        SteadyIsDistinct(got + [e], rest);
      }
    }
  }
}
