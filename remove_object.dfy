/** The generic `Array.removeObject` extension: scan the whole array, remember the
    index of the LAST element equal to the argument, and remove that one element. */
module ArrayExtension {

  /** No value occurs twice. */
  predicate Distinct<T(==)>(s: seq<T>) {
    forall i, j :: 0 <= i < j < |s| ==> s[i] != s[j]
  }

  /** The highest index holding `x`, or -1 when `x` does not occur. */
  function LastIndexOf<T(==)>(s: seq<T>, x: T): (i: int)
    ensures -1 <= i < |s|
    ensures i == -1 <==> x !in s
    ensures 0 <= i ==> s[i] == x && x !in s[i + 1..]
    decreases |s|
  {
    if s == [] then -1
    else if s[|s| - 1] == x then |s| - 1
    else
      assert s == s[..|s| - 1] + [s[|s| - 1]];
      var i := LastIndexOf(s[..|s| - 1], x);
      assert 0 <= i ==> s[i + 1..] == s[..|s| - 1][i + 1..] + [s[|s| - 1]];
      i
  }

  /** The value `removeObject` leaves behind. */
  function RemoveLast<T(==)>(s: seq<T>, x: T): (r: seq<T>)
    ensures x !in s ==> r == s
    ensures x in s ==> |r| == |s| - 1
  {
    var i := LastIndexOf(s, x);
    if i == -1 then s else s[..i] + s[i + 1..]
  }

  /** The source's loop: `index` is overwritten at every equal element, so after the
      scan it holds the last one; then at most one element is removed. */
  method RemoveObject<T(==)>(s: seq<T>, x: T) returns (r: seq<T>)
    ensures r == RemoveLast(s, x)
  {
    var index := -1;
    for idx := 0 to |s|
      invariant index == LastIndexOf(s[..idx], x)
    {
      assert s[..idx + 1][..idx] == s[..idx];
      if s[idx] == x {
        index := idx;
      }
    }
    assert s[..|s|] == s;
    if index != -1 {
      r := s[..index] + s[index + 1..];
    } else {
      r := s;
    }
  }

  /** Characterisation from the end of the array: an `x` appended last is the one
      removed, and any other element appended last stays last. Together with
      `RemoveLast([], x) == []` these equations determine `RemoveLast` completely. */
  lemma RemoveLastFromEnd<T>(s: seq<T>, x: T, y: T)
    ensures RemoveLast(s + [x], x) == s
    ensures y != x ==> RemoveLast(s + [y], x) == RemoveLast(s, x) + [y]
  {
  }

  /** Exactly one copy of `x` leaves (when there is one) and nothing else does. */
  lemma RemoveLastMultiset<T>(s: seq<T>, x: T)
    ensures multiset(RemoveLast(s, x)) == multiset(s) - multiset{x}
  {
    var i := LastIndexOf(s, x);
    if i == -1 {
      assert multiset(s)[x] == 0;
    } else {
      assert s == s[..i] + [x] + s[i + 1..];
      assert multiset(s) == multiset(s[..i]) + multiset{x} + multiset(s[i + 1..]);
    }
  }

  /** On an array without duplicates the removal takes `x` out entirely, keeps
      every other element and keeps the array free of duplicates. */
  lemma RemoveLastDistinct<T>(s: seq<T>, x: T)
    requires Distinct(s)
    ensures Distinct(RemoveLast(s, x))
    ensures x !in RemoveLast(s, x)
    ensures forall y :: y in s && y != x ==> y in RemoveLast(s, x)
  {
  }
}
