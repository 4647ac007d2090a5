/** The order of strings by their code units. */
module TextOrder {
  predicate IdLess(a: string, b: string)
    decreases |a|
  {
    b != [] && (a == [] || a[0] < b[0] || (a[0] == b[0] && IdLess(a[1..], b[1..])))
  }

  lemma {:induction false} IdLessTotal(a: string, b: string)
    ensures IdLess(a, b) || a == b || IdLess(b, a)
    ensures !(IdLess(a, b) && IdLess(b, a)) && (a == b ==> !IdLess(a, b))
    decreases |a|
  {
    if a != [] && b != [] && a[0] == b[0] {
      IdLessTotal(a[1..], b[1..]);
      assert a == [a[0]] + a[1..] && b == [b[0]] + b[1..];
    }
  }

  lemma {:induction false} IdLessTransitive(a: string, b: string, c: string)
    requires IdLess(a, b) && IdLess(b, c)
    ensures IdLess(a, c)
    decreases |a|
  {
    if a != [] && a[0] == b[0] == c[0] {
      IdLessTransitive(a[1..], b[1..], c[1..]);
    }
  }
}
