/** Small facts about sequences shared by the search modules. */
module Sequences {

  /** No element occurs twice in s: the last one is not among the others, which are distinct. */
  predicate Distinct<T(==)>(s: seq<T>) {
    s == [] || (s[|s| - 1] !in s[..|s| - 1] && Distinct(s[..|s| - 1]))
  }

  /** Two positions of a distinct sequence hold different elements. */
  lemma {:induction false} DistinctAt<T>(s: seq<T>, i: int, j: int)
    requires Distinct(s) && 0 <= i < j < |s|
    ensures s[i] != s[j]
    decreases |s|
  {
    var t := s[..|s| - 1];
    if j == |s| - 1 {
      assert s[i] == t[i];
    } else {
      DistinctAt(t, i, j);
    }
  }

  /** Distinct is the pairwise condition: any two positions hold different elements. */
  lemma {:induction false} DistinctPairwise<T>(s: seq<T>)
    ensures Distinct(s) <==> forall i, j :: 0 <= i < j < |s| ==> s[i] != s[j]
    decreases |s|
  {
    if Distinct(s) {
      forall i, j | 0 <= i < j < |s| ensures s[i] != s[j] {
        DistinctAt(s, i, j);
      }
    } else if s != [] {
      var t := s[..|s| - 1];
      DistinctPairwise(t);
      if s[|s| - 1] in t {
        var i :| 0 <= i < |t| && t[i] == s[|s| - 1];
        assert s[i] == s[|s| - 1];
      } else {
        var i, j :| 0 <= i < j < |t| && t[i] == t[j];
        assert s[i] == s[j];
      }
    }
  }

  /** The elements of s, as a set. */
  ghost function Elements<T>(s: seq<T>): set<T> {
    set x | x in s
  }

  /** s read back to front (Python's list.reverse, as a value): index i holds s's i-th element from the end. */
  function Reverse<T>(s: seq<T>): (r: seq<T>)
    ensures |r| == |s|
    ensures forall i :: 0 <= i < |s| ==> r[i] == s[|s| - 1 - i]
  {
    if s == [] then [] else Reverse(s[1..]) + [s[0]]
  }

  /** A duplicate-free sequence whose elements all lie in a set is no longer than the set. */
  lemma {:induction false} DistinctLength<T>(s: seq<T>, a: set<T>)
    requires Distinct(s)
    requires forall i :: 0 <= i < |s| ==> s[i] in a
    ensures |s| <= |a|
    decreases |s|
  {
    if s != [] {
      var x, t := s[|s| - 1], s[..|s| - 1];
      forall i | 0 <= i < |t| ensures t[i] in a - {x} {
        assert t[i] == s[i] != x;
      }
      DistinctLength(t, a - {x});
    }
  }

  lemma DistinctSnoc<T>(s: seq<T>, x: T)
    requires Distinct(s) && x !in s
    ensures Distinct(s + [x])
  {
    assert (s + [x])[..|s|] == s;
  }

  /** A duplicate-free sequence has as many elements as its set of elements. */
  lemma {:induction false} DistinctElements<T>(s: seq<T>)
    requires Distinct(s)
    ensures |Elements(s)| == |s|
    decreases |s|
  {
    if s != [] {
      var x, t := s[|s| - 1], s[..|s| - 1];
      assert s == t + [x];
      DistinctElements(t);
      assert Elements(s) == Elements(t) + {x};
      assert x !in Elements(t);
    }
  }

  /** Appending one element after a concatenation. */
  lemma SnocAssoc<T>(a: seq<T>, b: seq<T>, x: T)
    ensures a + b + [x] == a + (b + [x])
  {
  }

  lemma ElementsSnoc<T>(s: seq<T>, x: T)
    ensures Elements(s + [x]) == Elements(s) + {x}
  {
  }
}
