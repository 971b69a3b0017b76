// Filtering, sorting and listing: what the standard containers and algorithms do for the original.

module Sequences {
  import opened Types

  ghost predicate Distinct<T(!new)>(s: seq<T>) {
    forall i, j :: 0 <= i < j < |s| ==> s[i] != s[j]
  }

  // std::remove_if followed by erase.
  function Without<T(==)>(s: seq<T>, dead: set<T>): seq<T> {
    if s == [] then []
    else
      var n := |s| - 1;
      if s[n] in dead then Without(s[..n], dead) else Without(s[..n], dead) + [s[n]]
  }

  // The elements in a set, in order.
  function Only<T(==)>(s: seq<T>, keep: set<T>): seq<T> {
    if s == [] then []
    else
      var n := |s| - 1;
      if s[n] in keep then Only(s[..n], keep) + [s[n]] else Only(s[..n], keep)
  }

  lemma {:induction false} WithoutMembers<T>(s: seq<T>, dead: set<T>)
    ensures forall x :: x in Without(s, dead) <==> x in s && x !in dead
  {
    if s != [] {
      WithoutMembers(s[..|s| - 1], dead);
      assert s == s[..|s| - 1] + [s[|s| - 1]];
    }
  }

  lemma {:induction false} WithoutDistinct<T(!new)>(s: seq<T>, dead: set<T>)
    requires Distinct(s)
    ensures Distinct(Without(s, dead))
  {
    if s != [] {
      WithoutDistinct(s[..|s| - 1], dead);
      WithoutMembers(s[..|s| - 1], dead);
    }
  }

  lemma {:induction false} WithoutNone<T>(s: seq<T>, dead: set<T>)
    requires forall x :: x in s ==> x !in dead
    ensures Without(s, dead) == s
  {
    if s != [] {
      WithoutNone(s[..|s| - 1], dead);
    }
  }

  lemma {:induction false} WithoutWithout<T>(s: seq<T>, a: set<T>, b: set<T>)
    ensures Without(Without(s, a), b) == Without(s, a + b)
  {
    if s != [] {
      var n := |s| - 1;
      WithoutWithout(s[..n], a, b);
      WithoutSnoc(Without(s[..n], a), s[n], b);
    }
  }

  lemma WithoutSnoc<T>(s: seq<T>, x: T, dead: set<T>)
    ensures Without(s + [x], dead) == Without(s, dead) + if x in dead then [] else [x]
  {
    assert (s + [x])[..|s|] == s;
  }

  lemma {:induction false} WithoutConcat<T>(a: seq<T>, b: seq<T>, dead: set<T>)
    ensures Without(a + b, dead) == Without(a, dead) + Without(b, dead)
  {
    if b == [] {
      assert a + b == a;
    } else {
      var n := |b| - 1;
      assert a + b == (a + b[..n]) + [b[n]];
      WithoutSnoc(a + b[..n], b[n], dead);
      WithoutConcat(a, b[..n], dead);
    }
  }

  lemma WithoutCons<T>(x: T, s: seq<T>, dead: set<T>)
    ensures Without([x] + s, dead) == (if x in dead then [] else [x]) + Without(s, dead)
  {
    WithoutConcat([x], s, dead);
  }

  lemma OnlySnoc<T>(s: seq<T>, x: T, keep: set<T>)
    ensures Only(s + [x], keep) == Only(s, keep) + if x in keep then [x] else []
  {
    assert (s + [x])[..|s|] == s;
  }

  // Removing elements outside a set leaves the order inside the set alone.
  lemma {:induction false} OnlyWithout<T>(s: seq<T>, dead: set<T>, keep: set<T>)
    requires dead !! keep
    ensures Only(Without(s, dead), keep) == Only(s, keep)
  {
    if s != [] {
      var n := |s| - 1;
      OnlyWithout(s[..n], dead, keep);
      OnlySnoc(Without(s[..n], dead), s[n], keep);
    }
  }

  // ----- ascending lists of ids -----

  ghost predicate Ascending(s: seq<uint32>) {
    forall i, j :: 0 <= i < j < |s| ==> s[i] < s[j]
  }

  lemma AscendingSnoc(s: seq<uint32>, x: uint32)
    requires Ascending(s) && forall y :: y in s ==> y < x
    ensures Ascending(s + [x])
  {
    assert forall i :: 0 <= i < |s| ==> s[i] in s;
  }

  lemma LastIsLargest(s: seq<uint32>, x: uint32)
    requires Ascending(s) && x in s
    ensures x <= s[|s| - 1] && (x in s[..|s| - 1] <==> x != s[|s| - 1])
  {
    var i :| 0 <= i < |s| && s[i] == x;
    if i < |s| - 1 {
      assert s[..|s| - 1][i] == x;
    }
  }

  // An ascending list is determined by its members.
  lemma {:induction false} AscendingUnique(a: seq<uint32>, b: seq<uint32>)
    requires Ascending(a) && Ascending(b) && forall x :: x in a <==> x in b
    ensures a == b
  {
    assert a != [] ==> a[0] in b;
    assert b != [] ==> b[0] in a;
    if a != [] && b != [] {
      var m, n := |a| - 1, |b| - 1;
      assert a[m] in b && b[n] in a;
      LastIsLargest(a, b[n]);
      LastIsLargest(b, a[m]);
      forall x ensures x in a[..m] <==> x in b[..n] {
        if x in a {
          LastIsLargest(a, x);
          LastIsLargest(b, x);
        }
      }
      AscendingUnique(a[..m], b[..n]);
      assert a == a[..m] + [a[m]] && b == b[..n] + [b[n]];
    }
  }

  lemma {:induction false} WithoutAscending(s: seq<uint32>, dead: set<uint32>)
    requires Ascending(s)
    ensures Ascending(Without(s, dead))
  {
    if s != [] {
      var n := |s| - 1;
      WithoutAscending(s[..n], dead);
      WithoutMembers(s[..n], dead);
      if s[n] !in dead {
        AscendingSnoc(Without(s[..n], dead), s[n]);
      }
    }
  }

  // There are fewer than 2^32 nonzero ids.
  lemma {:induction false} AscendingBounded(s: seq<uint32>)
    requires Ascending(s) && 0 !in s
    ensures |s| < 0x1_0000_0000 && (s != [] ==> |s| <= s[|s| - 1])
  {
    if s != [] {
      var n := |s| - 1;
      assert s == s[..n] + [s[n]];
      AscendingBounded(s[..n]);
      assert s[n] in s;
    }
  }

  lemma DistinctBounded(s: seq<uint32>)
    requires Distinct(s) && 0 !in s
    ensures |s| < 0x1_0000_0000
  {
    SortIdsCorrect(s);
    AscendingBounded(SortIds(s));
  }

  function InsertId(x: uint32, s: seq<uint32>): seq<uint32> {
    if s == [] || s[|s| - 1] <= x then s + [x] else InsertId(x, s[..|s| - 1]) + [s[|s| - 1]]
  }

  // std::sort on ids.
  function SortIds(s: seq<uint32>): seq<uint32> {
    if s == [] then [] else InsertId(s[|s| - 1], SortIds(s[..|s| - 1]))
  }

  lemma {:induction false} InsertIdMembers(x: uint32, s: seq<uint32>)
    ensures |InsertId(x, s)| == |s| + 1 && forall y :: y in InsertId(x, s) <==> y == x || y in s
  {
    if !(s == [] || s[|s| - 1] <= x) {
      InsertIdMembers(x, s[..|s| - 1]);
      assert s == s[..|s| - 1] + [s[|s| - 1]];
    }
  }

  lemma {:induction false} InsertIdAscending(x: uint32, s: seq<uint32>)
    requires Ascending(s) && x !in s
    ensures Ascending(InsertId(x, s))
  {
    if !(s == [] || s[|s| - 1] <= x) {
      var n := |s| - 1;
      InsertIdAscending(x, s[..n]);
      InsertIdMembers(x, s[..n]);
      AscendingSnoc(InsertId(x, s[..n]), s[n]);
    } else if s != [] {
      forall y | y in s ensures y < x {
        LastIsLargest(s, y);
      }
      AscendingSnoc(s, x);
    }
  }

  // Sorting a list of different ids gives the ascending list of the same ids.
  lemma {:induction false} SortIdsCorrect(s: seq<uint32>)
    ensures |SortIds(s)| == |s| && forall y :: y in SortIds(s) <==> y in s
    ensures Distinct(s) ==> Ascending(SortIds(s))
  {
    if s != [] {
      var n := |s| - 1;
      SortIdsCorrect(s[..n]);
      InsertIdMembers(s[n], SortIds(s[..n]));
      if Distinct(s) {
        assert s[n] !in s[..n];
        InsertIdAscending(s[n], SortIds(s[..n]));
      }
      assert s == s[..n] + [s[n]];
    }
  }

  // The ascending list of a set of ids.
  ghost function Listed(s: set<uint32>): (r: seq<uint32>)
    ensures Ascending(r) && forall x :: x in r <==> x in s
  {
    if s == {} then []
    else
      var x :| x in s;
      var rest := Listed(s - {x});
      InsertIdMembers(x, rest);
      InsertIdAscending(x, rest);
      InsertId(x, rest)
  }
}
