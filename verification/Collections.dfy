/** Options and lists without repetition, used throughout. */
module Collections {

  datatype Option<+T> = None | Some(value: T)

  predicate Distinct<T(==)>(s: seq<T>) {
    forall i, j :: 0 <= i < j < |s| ==> s[i] != s[j]
  }

  function Names(s: seq<string>): (r: set<string>) { set n <- s }

  lemma NamesLast(s: seq<string>)
    requires s != []
    ensures var t := s[..|s| - 1]; Names(s) == Names(t) + {s[|s| - 1]}
    ensures var t := s[..|s| - 1]; Distinct(s) <==> Distinct(t) && s[|s| - 1] !in Names(t)
  {
    var n := |s| - 1;
    var t := s[..n];
    assert s == t + [s[n]];
    assert forall i :: 0 <= i < n ==> t[i] == s[i] && t[i] in t;
  }

  /** |Names(s)| counts distinct names, so it reaches |s| only without repetitions. */
  lemma {:induction false} NamesCount(s: seq<string>)
    ensures |Names(s)| <= |s|
    ensures |Names(s)| == |s| <==> Distinct(s)
  {
    hide Names, Distinct;
    if s == [] {
      NoNames();
    } else {
      var n := |s| - 1;
      NamesCount(s[..n]);
      NamesLast(s);
      assert s[n] in Names(s[..n]) ==> Names(s[..n]) + {s[n]} == Names(s[..n]);
    }
  }

  lemma NoNames()
    ensures Names([]) == {} && Distinct<string>([])
  {
  }

  lemma SubsetOfEqualSize<T>(a: set<T>, b: set<T>)
    requires a <= b && |a| >= |b|
    ensures a == b
  {
    assert b == a + (b - a) && |b - a| == 0;
  }
}
