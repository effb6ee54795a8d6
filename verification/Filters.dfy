/** Counting by filtering: a tally of one is one place and no other. */
module Filters {

  /** Those of the first `n` elements that satisfy the condition, in order. */
  function Filter<T>(s: seq<T>, n: nat, p: T -> bool): seq<T>
    requires n <= |s|
  {
    if n == 0 then [] else Filter(s, n - 1, p) + if p(s[n - 1]) then [s[n - 1]] else []
  }

  /** The condition holds here and nowhere else among the first `n`. */
  ghost predicate OnlyAt<T>(s: seq<T>, n: nat, p: T -> bool, i: int)
    requires n <= |s|
  {
    0 <= i < n && p(s[i]) && forall j :: 0 <= j < n && p(s[j]) ==> j == i
  }

  lemma {:induction false} NoneLeft<T>(s: seq<T>, n: nat, p: T -> bool)
    requires n <= |s|
    ensures Filter(s, n, p) == [] <==> forall j :: 0 <= j < n ==> !p(s[j])
  {
    if n > 0 {
      NoneLeft(s, n - 1, p);
    }
  }

  /** Exactly one element is left exactly when the condition holds at one place only, and then it is that one. */
  lemma {:induction false} OneLeft<T>(s: seq<T>, n: nat, p: T -> bool)
    requires n <= |s|
    ensures |Filter(s, n, p)| == 1 <==> exists i :: OnlyAt(s, n, p, i)
    ensures forall i :: OnlyAt(s, n, p, i) ==> Filter(s, n, p) == [s[i]]
  {
    if n > 0 {
      OneLeft(s, n - 1, p);
      NoneLeft(s, n - 1, p);
      forall i | OnlyAt(s, n, p, i) ensures Filter(s, n, p) == [s[i]] {
        assert i < n - 1 ==> OnlyAt(s, n - 1, p, i);
      }
      if |Filter(s, n, p)| == 1 {
        if p(s[n - 1]) {
          assert OnlyAt(s, n, p, n - 1);
        } else {
          var i :| OnlyAt(s, n - 1, p, i);
          assert OnlyAt(s, n, p, i);
        }
      }
    }
  }

  lemma {:induction false} LeftIsPicked<T>(s: seq<T>, n: nat, p: T -> bool, x: T)
    requires n <= |s|
    ensures x in Filter(s, n, p) <==> exists j :: 0 <= j < n && p(s[j]) && s[j] == x
  {
    if n > 0 {
      LeftIsPicked(s, n - 1, p, x);
    }
  }
}
