/** Comparators that are 0 only for equal arguments, as the relation "comes before". */
module Orders {
  ghost predicate StrictTotal<T(!new)>(before: (T, T) -> bool) {
    (forall a, b :: before(a, b) ==> !before(b, a)) &&
    (forall a, b :: a != b ==> before(a, b) || before(b, a)) &&
    (forall a, b, c :: before(a, b) && before(b, c) ==> before(a, c))
  }
}
