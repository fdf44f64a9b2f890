/** Small shared vocabulary: an optional value, and filtering a sequence
    through a partial projection (used to read one kind of entry out of an
    event log or a list of HTTP calls). */
module Util {

  datatype Option<+T> = None | Some(value: T)

  /** The projections of the elements of `s` that `f` keeps, in order. */
  function Collect<T, U>(s: seq<T>, f: T -> Option<U>): (r: seq<U>)
    ensures |r| <= |s|
    ensures forall u :: u in r ==> exists t :: t in s && f(t) == Some(u)
  {
    if s == [] then []
    else
      var rest := Collect(s[1..], f);
      assert forall u :: u in rest ==> exists t :: t in s[1..] && f(t) == Some(u);
      match f(s[0])
      case Some(u) => [u] + rest
      case None => rest
  }

  /** Collecting distributes over concatenation: the order of the kept
      elements is the order of the log. */
  lemma {:induction false} CollectAppend<T, U>(a: seq<T>, b: seq<T>, f: T -> Option<U>)
    ensures Collect(a + b, f) == Collect(a, f) + Collect(b, f)
  {
    if a == [] {
      assert a + b == b;
    } else {
      assert (a + b)[1..] == a[1..] + b;
      CollectAppend(a[1..], b, f);
    }
  }
}
