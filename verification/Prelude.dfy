/** Small shared datatypes. */
module Prelude {
  datatype Option<+T> = None | Some(value: T)

  /** No two elements bear the same name. */
  predicate DistinctBy<T>(xs: seq<T>, name: T -> string) {
    forall i, j | 0 <= i < j < |xs| :: name(xs[i]) != name(xs[j])
  }

  function Min(a: int, b: int): int {
    if a <= b then a else b
  }

  /** Go's integer division: it truncates toward zero. */
  function TruncDiv(a: int, b: int): int
    requires b > 0
  {
    if a >= 0 then a / b else -((-a) / b)
  }

  /** Taking one position out of a sequence takes one occurrence out of its multiset. */
  lemma RemoveOne<T>(s: seq<T>, i: nat)
    requires i < |s|
    ensures multiset(s) == multiset(s[..i] + s[i + 1..]) + multiset{s[i]}
  {
    assert s == s[..i] + [s[i]] + s[i + 1..];
  }
}
