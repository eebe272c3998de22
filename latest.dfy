/**
 Selecting the most recent element of a listing.

 Both restore scripts pick their snapshot with `sorted(xs, key=k, reverse=True)[0]`.
 Python's sort is stable, and `reverse=True` keeps equal elements in their original
 order, so the head of that list is the earliest-listed element of maximal key.
 `SortDesc` models the sort itself; `LatestIndex` is an independent definition of
 "the earliest position holding a maximal key"; `SortDescHead` ties them together.
 */
module Latest {

  /** Every key in `s` is at least the key of its successor. */
  ghost predicate Descending<T>(s: seq<T>, key: T -> int) {
    forall i, j :: 0 <= i < j < |s| ==> key(s[j]) <= key(s[i])
  }

  /** `k` is the first position of `s` whose key is maximal in `s`. */
  ghost predicate IsLatest<T>(s: seq<T>, key: T -> int, k: int) {
    && 0 <= k < |s|
    && (forall j :: 0 <= j < |s| ==> key(s[j]) <= key(s[k]))
    && (forall j :: 0 <= j < k ==> key(s[j]) < key(s[k]))
  }

  /** Inserts `x` into the descending list `s`, in front of every element whose key does
      not exceed its own: `x` is listed before the rest, so ties keep the listing order. */
  function Insert<T>(x: T, s: seq<T>, key: T -> int): (r: seq<T>)
    ensures |r| == |s| + 1
    ensures multiset(r) == multiset(s) + multiset{x}
  {
    if s == [] || key(s[0]) <= key(x) then [x] + s
    else
      assert s == [s[0]] + s[1..];
      [s[0]] + Insert(x, s[1..], key)
  }

  /** `sorted(s, key=key, reverse=True)`: a stable insertion sort, newest first. */
  function SortDesc<T>(s: seq<T>, key: T -> int): (r: seq<T>)
    ensures |r| == |s|
  {
    if s == [] then [] else Insert(s[0], SortDesc(s[1..], key), key)
  }

  /** The first position of `s` with the largest key. */
  function LatestIndex<T>(s: seq<T>, key: T -> int): (k: nat)
    requires s != []
    ensures IsLatest(s, key, k)
  {
    if |s| == 1 then 0
    else
      var k := LatestIndex(s[1..], key);
      if key(s[k + 1]) <= key(s[0]) then 0 else k + 1
  }

  lemma {:induction false} InsertDescending<T>(x: T, s: seq<T>, key: T -> int)
    requires Descending(s, key)
    ensures Descending(Insert(x, s, key), key)
  {
    if s == [] || key(s[0]) <= key(x) {
    } else {
      InsertDescending(x, s[1..], key);
      var t := Insert(x, s[1..], key);
      assert t[0] == x || t[0] == s[1] by { InsertHead(x, s[1..], key); }
    }
  }

  lemma InsertHead<T>(x: T, s: seq<T>, key: T -> int)
    ensures Insert(x, s, key)[0] == if s == [] || key(s[0]) <= key(x) then x else s[0]
  {
  }

  /** The sort yields a descending permutation of its input. */
  lemma SortDescIsSort<T>(s: seq<T>, key: T -> int)
    ensures Descending(SortDesc(s, key), key)
    ensures multiset(SortDesc(s, key)) == multiset(s)
  {
    SortDescDescending(s, key);
    SortDescPermutes(s, key);
  }

  lemma {:induction false} SortDescDescending<T>(s: seq<T>, key: T -> int)
    ensures Descending(SortDesc(s, key), key)
  {
    if s != [] {
      SortDescDescending(s[1..], key);
      InsertDescending(s[0], SortDesc(s[1..], key), key);
    }
  }

  lemma {:induction false} SortDescPermutes<T>(s: seq<T>, key: T -> int)
    ensures multiset(SortDesc(s, key)) == multiset(s)
  {
    if s != [] {
      SortDescPermutes(s[1..], key);
      assert s == [s[0]] + s[1..];
    }
  }

  /** The head of the stable descending sort is the earliest-listed element of maximal key. */
  lemma {:induction false} SortDescHead<T>(s: seq<T>, key: T -> int)
    requires s != []
    ensures SortDesc(s, key)[0] == s[LatestIndex(s, key)]
  {
    if |s| > 1 {
      SortDescHead(s[1..], key);
      InsertHead(s[0], SortDesc(s[1..], key), key);
    }
  }

  /** `[x for x in s if keep(x)]`. */
  function Filter<T>(s: seq<T>, keep: T -> bool): (r: seq<T>)
    ensures |r| <= |s|
    ensures forall i :: 0 <= i < |r| ==> keep(r[i])
    ensures r == [] <==> forall i :: 0 <= i < |s| ==> !keep(s[i])
  {
    if s == [] then []
    else
      var rest := Filter(s[1..], keep);
      assert rest == [] <==> forall i :: 1 <= i < |s| ==> !keep(s[i]) by {
        assert forall i :: 1 <= i < |s| ==> s[i] == s[1..][i - 1];
      }
      if keep(s[0]) then [s[0]] + rest else rest
  }

  /** The comprehension keeps exactly the listed elements that satisfy the predicate. */
  lemma {:induction false} FilterMembers<T>(s: seq<T>, keep: T -> bool, x: T)
    ensures x in Filter(s, keep) <==> x in s && keep(x)
    decreases |s|
  {
    if s != [] {
      FilterMembers(s[1..], keep, x);
      assert s == [s[0]] + s[1..];
    }
  }

  /** The comprehension keeps the listing order and the multiplicity of what it keeps: it
      distributes over concatenation, and on one element it keeps it or drops it. With
      `Filter([], keep) == []` these three determine it. */
  lemma {:induction false} FilterConcat<T>(a: seq<T>, b: seq<T>, keep: T -> bool)
    ensures Filter(a + b, keep) == Filter(a, keep) + Filter(b, keep)
    decreases |a|
  {
    if a == [] {
      assert a + b == b;
    } else {
      FilterConcat(a[1..], b, keep);
      assert (a + b)[0] == a[0] && (a + b)[1..] == a[1..] + b;
      if keep(a[0]) {
        calc {
          Filter(a + b, keep);
          [a[0]] + Filter(a[1..] + b, keep);
          [a[0]] + (Filter(a[1..], keep) + Filter(b, keep));
          ([a[0]] + Filter(a[1..], keep)) + Filter(b, keep);
        }
      } else {
        assert Filter(a + b, keep) == Filter(a[1..] + b, keep);
        assert Filter(a, keep) == Filter(a[1..], keep);
      }
    }
  }

  lemma FilterSingleton<T>(x: T, keep: T -> bool)
    ensures Filter([], keep) == []
    ensures Filter([x], keep) == if keep(x) then [x] else []
  {
    assert [x][1..] == [];
  }

  /** Filtering and counting commute: every element occurs in the result as often as it
      occurs in the input if it is kept, and not at all otherwise. */
  lemma {:induction false} FilterMultiset<T>(s: seq<T>, keep: T -> bool, x: T)
    ensures multiset(Filter(s, keep))[x] == if keep(x) then multiset(s)[x] else 0
    decreases |s|
  {
    if s != [] {
      FilterMultiset(s[1..], keep, x);
      assert s == [s[0]] + s[1..];
    }
  }

  /** Position `k` of `s` holds a kept element whose key is maximal among the kept ones, and
      no kept element listed before it has the same key. */
  ghost predicate IsLatestKept<T>(s: seq<T>, keep: T -> bool, key: T -> int, k: int) {
    && 0 <= k < |s|
    && keep(s[k])
    && (forall j :: 0 <= j < |s| && keep(s[j]) ==> key(s[j]) <= key(s[k]))
    && (forall j :: 0 <= j < k && keep(s[j]) ==> key(s[j]) < key(s[k]))
  }

  /** Filtering first and then taking the earliest-listed maximum picks, in the listing
      itself, the earliest-listed maximum among the kept elements. */
  lemma {:induction false} LatestOfFilter<T>(s: seq<T>, keep: T -> bool, key: T -> int)
    requires Filter(s, keep) != []
    ensures var f := Filter(s, keep);
      exists k :: IsLatestKept(s, keep, key, k) && s[k] == f[LatestIndex(f, key)]
  {
    var x, rest := s[0], s[1..];
    var f, fr := Filter(s, keep), Filter(rest, keep);
    if !keep(x) {
      LatestOfFilter(rest, keep, key);
      var k' :| IsLatestKept(rest, keep, key, k') && rest[k'] == fr[LatestIndex(fr, key)];
      ShiftLatestKept(s, keep, key, k');
    } else if fr == [] {
      forall j | 1 <= j < |s|
        ensures !keep(s[j])
      {
        assert s[j] == rest[j - 1];
      }
      assert IsLatestKept(s, keep, key, 0);
    } else {
      LatestOfFilter(rest, keep, key);
      var k' :| IsLatestKept(rest, keep, key, k') && rest[k'] == fr[LatestIndex(fr, key)];
      assert f == [x] + fr && f[1..] == fr;
      if key(rest[k']) <= key(x) {
        forall j | 1 <= j < |s| && keep(s[j])
          ensures key(s[j]) <= key(x)
        {
          assert s[j] == rest[j - 1];
        }
      } else {
        ShiftLatestKept(s, keep, key, k');
      }
    }
  }

  /** A latest kept position of `s[1..]` is one of `s` when `s[0]` is not kept or is older. */
  lemma ShiftLatestKept<T>(s: seq<T>, keep: T -> bool, key: T -> int, k': int)
    requires s != [] && IsLatestKept(s[1..], keep, key, k')
    requires keep(s[0]) ==> key(s[0]) < key(s[k' + 1])
    ensures IsLatestKept(s, keep, key, k' + 1)
  {
    forall j | 1 <= j < |s|
      ensures s[j] == s[1..][j - 1]
    {
    }
  }
}
