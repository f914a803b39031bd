/** Row selection shared by every analysis step: the first position holding a value.
    A pandas boolean-mask selection `df[df[col] == v]` followed by `.iloc[0]` or
    `.values[0]`, and Python's `list.index(v)`, both pick this position. */
module Selection {

  datatype Option<T> = None | Some(value: T)

  /** Position of the first occurrence of `x` in `s`, or None when `x` does not occur. */
  function FirstIndexOf<X(==)>(s: seq<X>, x: X): (r: Option<nat>)
    ensures r.Some? <==> x in s
    ensures r.Some? ==> r.value < |s| && s[r.value] == x
    ensures r.Some? ==> forall i :: 0 <= i < r.value ==> s[i] != x
  {
    if |s| == 0 then None
    else if s[0] == x then Some(0)
    else
      match FirstIndexOf(s[1..], x)
      case None => None
      case Some(k) =>
        assert forall i :: 1 <= i < k + 1 ==> s[i] == s[1..][i - 1];
        Some(k + 1)
  }
}
