/** Facts about the sizes of sets that the counting arguments share. */
module Sets {
  lemma SubsetSize<T>(a: set<T>, b: set<T>)
    requires a <= b
    ensures |a| <= |b|
  {
    assert b == a + (b - a);
  }

  /** The n numbers from `from` on. */
  function Range(from: nat, n: nat): (r: set<nat>)
    ensures |r| == n
    ensures forall k: nat :: k in r <==> from <= k < from + n
  {
    if n == 0 then {} else Range(from, n - 1) + {from + n - 1}
  }

  function Members(s: seq<nat>): set<nat> {
    set x | x in s
  }

  lemma {:induction false} DistinctSize(s: seq<nat>)
    requires forall i, j :: 0 <= i < j < |s| ==> s[i] != s[j]
    ensures |Members(s)| == |s|
  {
    if s == [] {
    } else {
      var most, last := s[..|s| - 1], s[|s| - 1];
      DistinctSize(most);
      assert s == most + [last];
      assert Members(s) == Members(most) + {last};
    }
  }

  /** |s| distinct numbers below |s| are all of them. */
  lemma DistinctCovers(s: seq<nat>, m: nat)
    requires (forall i :: 0 <= i < |s| ==> s[i] < |s|) && m < |s|
    requires forall i, j :: 0 <= i < j < |s| ==> s[i] != s[j]
    ensures m in s
  {
    DistinctSize(s);
    if m !in s {
      SubsetSize(Members(s), Range(0, |s|) - {m});
    }
  }
}
