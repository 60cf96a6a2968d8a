/** Sequences taken apart and put together. */
module Sequences {
  lemma Front<T>(a: seq<T>, b: seq<T>)
    ensures (a + b)[..|a|] == a && (a + b)[|a|..] == b
  {
  }

  lemma Assoc<T>(a: seq<T>, b: seq<T>, c: seq<T>)
    ensures (a + b) + c == a + (b + c)
  {
  }

  lemma Extend<T>(bs: seq<T>, ext: seq<T>, n: nat)
    requires n <= |bs|
    ensures (bs + ext)[..n] == bs[..n] && (bs + ext)[n..] == bs[n..] + ext
  {
  }

  lemma Moved<T>(got: seq<T>, todo: seq<T>)
    requires todo != []
    ensures got + [todo[0]] + todo[1..] == got + todo
  {
  }

  function AllButLast<T>(s: seq<T>): (r: seq<T>) {
    if s == [] then [] else s[..|s| - 1]
  }
}
