/** Sequences without repetition. */
module Sequences {

  ghost predicate Distinct<T>(s: seq<T>) {
    forall i, j :: 0 <= i < j < |s| ==> s[i] != s[j]
  }

  function Elements<T>(s: seq<T>): set<T> {
    set x | x in s
  }

  lemma {:induction false} DistinctSnoc<T>(s: seq<T>, x: T)
    ensures Distinct(s + [x]) <==> Distinct(s) && x !in s
    ensures Elements(s + [x]) == Elements(s) + {x}
  {
    var all := s + [x];
    if Distinct(all) {
      assert forall i :: 0 <= i < |s| ==> all[i] == s[i] && all[i] != all[|s|];
    }
  }

  lemma {:induction false} DistinctCount<T>(s: seq<T>)
    ensures |Elements(s)| <= |s|
    ensures |Elements(s)| == |s| <==> Distinct(s)
  {
    if s != [] {
      hide Distinct;
      var front, x := s[..|s| - 1], s[|s| - 1];
      DistinctCount(front);
      assert s == front + [x];
      DistinctSnoc(front, x);
      if x in front {
        assert Elements(s) == Elements(front);
      }
    }
  }
}
