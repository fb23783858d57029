/** The two list searches the pipeline relies on: JavaScript's `Array.prototype.indexOf`
    (index of the first occurrence, or -1) and `Array.prototype.includes` (membership,
    which for strings is Dafny's `in`). The -1 of `indexOf` becomes `None`. */
module Search {
  import opened Wrappers

  /** Element `j` of `s` is the first occurrence of its value. */
  predicate FirstOccurrence<T(==)>(s: seq<T>, j: nat)
    requires j < |s|
  {
    s[j] !in s[..j]
  }

  /** `s.indexOf(x)`: the index of the first element equal to `x`, or `None` for -1. */
  function IndexOf<T(==)>(s: seq<T>, x: T): (r: Option<nat>)
    ensures r.None? <==> x !in s
    ensures r.Some? ==> r.value < |s| && s[r.value] == x && FirstOccurrence(s, r.value)
  {
    if |s| == 0 then None
    else if s[0] == x then Some(0)
    else
      match IndexOf(s[1..], x)
      case None => None
      case Some(i) =>
        assert s[..i + 1] == [s[0]] + s[1..][..i];
        Some(i + 1)
  }

  /** `indexOf` names exactly one position: `j` is the answer iff `s[j] == x` is a first occurrence. */
  lemma IndexOfExactly<T>(s: seq<T>, x: T, j: nat)
    requires j < |s|
    ensures IndexOf(s, x) == Some(j) <==> s[j] == x && FirstOccurrence(s, j)
  {
  }
}
