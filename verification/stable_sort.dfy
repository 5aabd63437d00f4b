/** The stable sort the source relies on (`Array.prototype.sort` is stable), for a
    comparator of the shape `key(a) - key(b)` (ascending) or `key(b) - key(a)`
    (descending). Modelled as insertion sort; stability means that elements with
    equal keys keep their input order, so descending is not the reverse of ascending. */
module StableSort {
  import opened Seqs

  datatype Direction = Asc | Desc

  /** Key `a` may stand before key `b`: the comparator returns at most 0. */
  predicate InOrder(dir: Direction, a: int, b: int) {
    match dir
    case Asc => a <= b
    case Desc => a >= b
  }

  ghost predicate Sorted<T>(s: seq<T>, key: T -> int, dir: Direction) {
    forall i, j :: 0 <= i < j < |s| ==> InOrder(dir, key(s[i]), key(s[j]))
  }

  /** Inserts `x` in front of the first element it may precede. */
  function Insert<T>(x: T, s: seq<T>, key: T -> int, dir: Direction): (r: seq<T>)
    ensures |r| == |s| + 1
    ensures multiset(r) == multiset(s) + multiset{x}
  {
    if |s| == 0 || InOrder(dir, key(x), key(s[0])) then [x] + s
    else
      assert s == [s[0]] + s[1..];
      [s[0]] + Insert(x, s[1..], key, dir)
  }

  /** Sorts `s` by `key` in direction `dir`, keeping equal keys in input order. */
  function Sort<T>(s: seq<T>, key: T -> int, dir: Direction): (r: seq<T>)
    ensures |r| == |s|
    ensures multiset(r) == multiset(s)
  {
    if |s| == 0 then []
    else
      assert s == [s[0]] + s[1..];
      Insert(s[0], Sort(s[1..], key, dir), key, dir)
  }

  /** The elements of `s` whose key is `v`, in order. */
  function WithKey<T>(s: seq<T>, key: T -> int, v: int): seq<T>
  {
    Filter(s, KeyIs(key, v))
  }

  function KeyIs<T>(key: T -> int, v: int): T -> bool
  {
    x => key(x) == v
  }

  lemma {:induction false} InsertSorted<T>(x: T, s: seq<T>, key: T -> int, dir: Direction)
    requires Sorted(s, key, dir)
    ensures Sorted(Insert(x, s, key, dir), key, dir)
  {
    if |s| == 0 || InOrder(dir, key(x), key(s[0])) {
      var r := [x] + s;
      forall i, j | 0 <= i < j < |r|
        ensures InOrder(dir, key(r[i]), key(r[j]))
      {
        if i > 0 {
          assert r[i] == s[i - 1] && r[j] == s[j - 1];
        } else {
          assert r[j] == s[j - 1];
          assert InOrder(dir, key(s[0]), key(s[j - 1])) || j == 1;
        }
      }
    } else {
      var t := s[1..];
      assert Sorted(t, key, dir);
      InsertSorted(x, t, key, dir);
      var it := Insert(x, t, key, dir);
      var r := [s[0]] + it;
      forall k | 0 <= k < |it|
        ensures InOrder(dir, key(s[0]), key(it[k]))
      {
        assert it[k] in multiset(it);
        assert it[k] == x || it[k] in multiset(t);
        if it[k] != x {
          var m :| 0 <= m < |t| && t[m] == it[k];
          assert t[m] == s[m + 1];
        }
      }
      forall i, j | 0 <= i < j < |r|
        ensures InOrder(dir, key(r[i]), key(r[j]))
      {
        if i > 0 {
          assert r[i] == it[i - 1] && r[j] == it[j - 1];
        } else {
          assert r[j] == it[j - 1];
        }
      }
    }
  }

  /** The result of `Sort` is ordered by the key. */
  lemma {:induction false} SortSorted<T>(s: seq<T>, key: T -> int, dir: Direction)
    ensures Sorted(Sort(s, key, dir), key, dir)
  {
    if |s| > 0 {
      SortSorted(s[1..], key, dir);
      InsertSorted(s[0], Sort(s[1..], key, dir), key, dir);
    }
  }

  lemma {:induction false} InsertWithKey<T>(x: T, s: seq<T>, key: T -> int, dir: Direction, v: int)
    ensures WithKey(Insert(x, s, key, dir), key, v)
         == if key(x) == v then [x] + WithKey(s, key, v) else WithKey(s, key, v)
  {
    if |s| == 0 || InOrder(dir, key(x), key(s[0])) {
      var r := [x] + s;
      assert r[0] == x && r[1..] == s;
    } else {
      InsertWithKey(x, s[1..], key, dir, v);
      var r := [s[0]] + Insert(x, s[1..], key, dir);
      assert r[0] == s[0] && r[1..] == Insert(x, s[1..], key, dir);
      assert key(s[0]) != key(x);
      if key(s[0]) == v {
        assert s[1..] == s[1..];
      }
    }
  }

  /** Stability: for every key value, the elements carrying it appear in the
      sorted result in exactly their input order. */
  lemma {:induction false} SortStable<T>(s: seq<T>, key: T -> int, dir: Direction, v: int)
    ensures WithKey(Sort(s, key, dir), key, v) == WithKey(s, key, v)
  {
    if |s| > 0 {
      SortStable(s[1..], key, dir, v);
      InsertWithKey(s[0], Sort(s[1..], key, dir), key, dir, v);
    }
  }

  /** Sorting an already sorted sequence leaves it unchanged, so sorting is idempotent. */
  lemma {:induction false} SortOfSorted<T>(s: seq<T>, key: T -> int, dir: Direction)
    requires Sorted(s, key, dir)
    ensures Sort(s, key, dir) == s
  {
    if |s| > 0 {
      assert Sorted(s[1..], key, dir);
      SortOfSorted(s[1..], key, dir);
      assert [s[0]] + s[1..] == s;
    }
  }

  lemma SortIdempotent<T>(s: seq<T>, key: T -> int, dir: Direction)
    ensures Sort(Sort(s, key, dir), key, dir) == Sort(s, key, dir)
  {
    SortSorted(s, key, dir);
    SortOfSorted(Sort(s, key, dir), key, dir);
  }

  /** A comparator that answers 0 for every pair (a constant key) keeps the input order. */
  lemma SortConstantKey<T>(s: seq<T>, key: T -> int, dir: Direction, c: int)
    requires forall i :: 0 <= i < |s| ==> key(s[i]) == c
    ensures Sort(s, key, dir) == s
  {
    SortOfSorted(s, key, dir);
  }

  /** `[...s].sort(desc by key).slice(0, n)`: the first `n` elements by descending key. */
  function Top<T>(s: seq<T>, key: T -> int, n: nat): (r: seq<T>)
    ensures |r| == if n < |s| then n else |s|
  {
    var sorted := Sort(s, key, Desc);
    sorted[..if n < |s| then n else |s|]
  }

  /** The kept elements come from `s`, are in descending key order, and each
      has a key at least as large as that of every element left out. */
  lemma TopSpec<T>(s: seq<T>, key: T -> int, n: nat)
    ensures Sorted(Top(s, key, n), key, Desc)
    ensures multiset(Top(s, key, n)) <= multiset(s)
    ensures forall i, j :: 0 <= i < |Top(s, key, n)| <= j < |Sort(s, key, Desc)|
              ==> key(Top(s, key, n)[i]) >= key(Sort(s, key, Desc)[j])
    ensures Top(s, key, n) == Sort(s, key, Desc)[..|Top(s, key, n)|]
  {
    var sorted := Sort(s, key, Desc);
    SortSorted(s, key, Desc);
    var t := Top(s, key, n);
    assert t == sorted[..|t|];
    assert sorted == t + sorted[|t|..];
    assert multiset(sorted) == multiset(t) + multiset(sorted[|t|..]);
    forall i, j | 0 <= i < |t| <= j < |sorted|
      ensures key(t[i]) >= key(sorted[j])
    {
      assert t[i] == sorted[i];
    }
  }

  /** Every element of `s` has a key at most that of the head of its descending sort. */
  lemma SortHeadIsMaximal<T>(s: seq<T>, key: T -> int)
    requires |s| > 0
    ensures forall j :: 0 <= j < |s| ==> key(s[j]) <= key(Sort(s, key, Desc)[0])
  {
    var sorted := Sort(s, key, Desc);
    SortSorted(s, key, Desc);
    forall j | 0 <= j < |s|
      ensures key(s[j]) <= key(sorted[0])
    {
      assert s[j] in multiset(sorted);
      var m :| 0 <= m < |sorted| && sorted[m] == s[j];
      if m > 0 {
        assert InOrder(Desc, key(sorted[0]), key(sorted[m]));
      }
    }
  }

  /** The first element of a descending stable sort is the FIRST element of `s`
      (by position) carrying the maximal key. */
  lemma HeadIsFirstMaximum<T>(s: seq<T>, key: T -> int)
    requires |s| > 0
    ensures exists i :: 0 <= i < |s| && s[i] == Sort(s, key, Desc)[0]
              && (forall j :: 0 <= j < |s| ==> key(s[j]) <= key(s[i]))
              && (forall j :: 0 <= j < i ==> key(s[j]) < key(s[i]))
  {
    var h := Sort(s, key, Desc)[0];
    SortHeadIsMaximal(s, key);
    var i := FirstWithHeadKey(s, key);
    forall j | 0 <= j < i
      ensures key(s[j]) < key(s[i])
    {
      assert key(s[j]) != key(h);
    }
  }

  /** The position in `s` of the head of its descending sort: no earlier element shares its key. */
  lemma FirstWithHeadKey<T>(s: seq<T>, key: T -> int) returns (i: nat)
    requires |s| > 0
    ensures i < |s| && s[i] == Sort(s, key, Desc)[0]
    ensures forall j :: 0 <= j < i ==> key(s[j]) != key(s[i])
  {
    var sorted := Sort(s, key, Desc);
    var h := sorted[0];
    var v := key(h);
    SortStable(s, key, Desc, v);
    var p := KeyIs(key, v);
    assert Filter(sorted, p)[0] == h;
    FilterHeadIsFirst(s, p);
    i :| 0 <= i < |s| && s[i] == Filter(s, p)[0] && p(s[i])
         && forall j :: 0 <= j < i ==> !p(s[j]);
  }
}
