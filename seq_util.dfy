/** Sequence helpers shared by the host-selection and upgrade models. */
module SeqUtil {

  datatype Option<+T> = None | Some(value: T)

  /** The distinct elements of `s`. */
  function Elements<T>(s: seq<T>): set<T>
  {
    set x | x in s
  }

  predicate NoDuplicates<T(==)>(s: seq<T>)
  {
    forall i, j :: 0 <= i < j < |s| ==> s[i] != s[j]
  }

  /** `a` can be obtained from `b` by deleting elements, keeping the order of the rest. */
  predicate IsSubsequence<T(==)>(a: seq<T>, b: seq<T>)
    decreases |b|
  {
    a == [] ||
    (b != [] && ((a[0] == b[0] && IsSubsequence(a[1..], b[1..])) || IsSubsequence(a, b[1..])))
  }

  /** The elements of `s` that are not in `excluded`, in their order in `s`. */
  function Excluding<T(==)>(s: seq<T>, excluded: set<T>): seq<T>
    decreases |s|
  {
    if s == [] then []
    else if s[0] in excluded then Excluding(s[1..], excluded)
    else [s[0]] + Excluding(s[1..], excluded)
  }

  /** An element is kept exactly when it occurs in `s` and is not excluded. */
  lemma {:induction false} ExcludingMembers<T>(s: seq<T>, excluded: set<T>, y: T)
    ensures y in Excluding(s, excluded) <==> y in s && y !in excluded
  {
    if s != [] {
      ExcludingMembers(s[1..], excluded, y);
      assert s == [s[0]] + s[1..];
    }
  }

  /** Every occurrence of a kept element survives, and no occurrence of an excluded one. */
  lemma {:induction false} ExcludingOccurrences<T>(s: seq<T>, excluded: set<T>, y: T)
    ensures multiset(Excluding(s, excluded))[y] == if y in excluded then 0 else multiset(s)[y]
  {
    if s != [] {
      ExcludingOccurrences(s[1..], excluded, y);
      assert s == [s[0]] + s[1..];
      assert multiset(s) == multiset{s[0]} + multiset(s[1..]);
    }
  }

  /** The kept elements stay in their original order. */
  lemma {:induction false} ExcludingIsSubsequence<T>(s: seq<T>, excluded: set<T>)
    ensures IsSubsequence(Excluding(s, excluded), s)
  {
    if s != [] {
      ExcludingIsSubsequence(s[1..], excluded);
      var rest := Excluding(s[1..], excluded);
      if s[0] !in excluded {
        assert ([s[0]] + rest)[1..] == rest;
      }
    }
  }

  /** Appending one element extends the kept elements by it unless it is excluded. */
  lemma {:induction false} ExcludingSnoc<T>(s: seq<T>, x: T, excluded: set<T>)
    ensures Excluding(s + [x], excluded) == Excluding(s, excluded) + (if x in excluded then [] else [x])
  {
    if s == [] {
      assert s + [x] == [x];
    } else {
      assert (s + [x])[1..] == s[1..] + [x];
      ExcludingSnoc(s[1..], x, excluded);
    }
  }

  /** Splitting off the head of a sequence without duplicates. */
  lemma HeadNotInTail<T>(s: seq<T>)
    requires s != [] && NoDuplicates(s)
    ensures s[0] !in s[1..] && NoDuplicates(s[1..])
    ensures Elements(s) == {s[0]} + Elements(s[1..])
  {
    assert s == [s[0]] + s[1..];
  }

  /** Without duplicates, exactly one element is dropped per excluded element of `s`. */
  lemma {:induction false} ExcludingLength<T>(s: seq<T>, excluded: set<T>)
    requires NoDuplicates(s)
    ensures |Excluding(s, excluded)| + |excluded * Elements(s)| == |s|
  {
    if s == [] {
      assert excluded * Elements(s) == {};
    } else {
      var rest := s[1..];
      HeadNotInTail(s);
      ExcludingLength(rest, excluded);
      assert s[0] !in Elements(rest);
      if s[0] in excluded {
        assert excluded * Elements(s) == {s[0]} + excluded * Elements(rest);
      } else {
        assert excluded * Elements(s) == excluded * Elements(rest);
      }
    }
  }

  /** Without duplicates, a sequence has as many distinct elements as entries. */
  lemma {:induction false} DistinctElements<T>(s: seq<T>)
    requires NoDuplicates(s)
    ensures |Elements(s)| == |s|
  {
    if s != [] {
      HeadNotInTail(s);
      DistinctElements(s[1..]);
      assert s[0] !in Elements(s[1..]);
    }
  }
}
