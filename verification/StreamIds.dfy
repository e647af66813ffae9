/** Stream entry ids and their order. */
module StreamIds {

  datatype Id = Id(ms: nat, n: nat)

  predicate Before(a: Id, b: Id) {
    a.ms < b.ms || (a.ms == b.ms && a.n < b.n)
  }

  /** `b` is not before `a`. */
  predicate UpTo(a: Id, b: Id) {
    a == b || Before(a, b)
  }
}
