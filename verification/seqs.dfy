/** Sequence combinators mirroring JavaScript's `Array.prototype.filter`,
    `filter(...).length`, `reduce((sum, x) => sum + f(x), 0)` and `slice`. */
module Seqs {
  import opened Wrappers

  /** `s.findIndex(p)` as an option: the first position whose element satisfies `p`. */
  function FindFirst<T>(s: seq<T>, p: T -> bool): (r: Option<nat>)
    ensures r.Some? ==> r.value < |s| && p(s[r.value]) && forall j :: 0 <= j < r.value ==> !p(s[j])
    ensures r.None? ==> forall j :: 0 <= j < |s| ==> !p(s[j])
  {
    if |s| == 0 then None
    else if p(s[0]) then Some(0)
    else match FindFirst(s[1..], p)
      case None => None
      case Some(i) => Some(i + 1)
  }

  /** `FindFirst` only looks at which elements satisfy `p`. */
  lemma {:induction false} FindFirstPointwise<T>(s: seq<T>, t: seq<T>, p: T -> bool)
    requires |s| == |t|
    requires forall i :: 0 <= i < |s| ==> p(s[i]) == p(t[i])
    ensures FindFirst(s, p) == FindFirst(t, p)
  {
    if |s| > 0 {
      assert forall i :: 0 <= i < |s[1..]| ==> s[1..][i] == s[i + 1] && t[1..][i] == t[i + 1];
      FindFirstPointwise(s[1..], t[1..], p);
    }
  }

  /** The elements of `s` satisfying `p`, in their original order. */
  function Filter<T>(s: seq<T>, p: T -> bool): (r: seq<T>)
    ensures |r| <= |s|
    ensures forall i :: 0 <= i < |r| ==> p(r[i])
  {
    if |s| == 0 then []
    else if p(s[0]) then [s[0]] + Filter(s[1..], p)
    else Filter(s[1..], p)
  }

  /** Filtering keeps exactly the members that satisfy `p`. */
  lemma {:induction false} FilterMembership<T>(s: seq<T>, p: T -> bool)
    ensures forall i :: 0 <= i < |Filter(s, p)| ==> Filter(s, p)[i] in s
    ensures forall i :: 0 <= i < |s| && p(s[i]) ==> s[i] in Filter(s, p)
  {
    if |s| > 0 {
      FilterMembership(s[1..], p);
      var r := Filter(s, p);
      var t := Filter(s[1..], p);
      forall i | 0 <= i < |r|
        ensures r[i] in s
      {
        if p(s[0]) && i == 0 {
        } else if p(s[0]) {
          assert r[i] == t[i - 1];
        } else {
          assert r[i] == t[i];
        }
      }
      forall i | 0 <= i < |s| && p(s[i])
        ensures s[i] in r
      {
        if i > 0 {
          assert s[i] == s[1..][i - 1];
        }
      }
    }
  }

  /** Filtering a sequence with a known first element. */
  lemma FilterCons<T>(x: T, s: seq<T>, p: T -> bool)
    ensures Filter([x] + s, p) == if p(x) then [x] + Filter(s, p) else Filter(s, p)
  {
    assert ([x] + s)[1..] == s;
  }

  /** What filtering keeps of a single element. */
  function Keep<T>(x: T, p: T -> bool): (r: seq<T>)
    ensures r == Filter([x], p)
  {
    assert [x][1..] == [];
    if p(x) then [x] else []
  }

  /** Filtering splits off the first element. */
  lemma FilterSplitHead<T>(s: seq<T>, p: T -> bool)
    requires |s| > 0
    ensures Filter(s, p) == Keep(s[0], p) + Filter(s[1..], p)
  {
  }

  /** Filtering two elements is filtering each one. */
  lemma FilterTwo<T>(s: seq<T>, p: T -> bool)
    requires |s| == 2
    ensures Filter(s, p) == Keep(s[0], p) + Keep(s[1], p)
  {
    FilterSplitHead(s, p);
    FilterSplitHead(s[1..], p);
    assert s[1..][1..] == [];
    assert Filter([], p) == [];
  }

  /** Filtering three elements is filtering each one. */
  lemma FilterThree<T>(s: seq<T>, p: T -> bool)
    requires |s| == 3
    ensures Filter(s, p) == Keep(s[0], p) + (Keep(s[1], p) + Keep(s[2], p))
  {
    FilterSplitHead(s, p);
    FilterTwo(s[1..], p);
    assert s[1..][0] == s[1] && s[1..][1] == s[2];
  }

  /** Filtering four elements is filtering each one. */
  lemma FilterFour<T>(s: seq<T>, p: T -> bool)
    requires |s| == 4
    ensures Filter(s, p) == Keep(s[0], p) + (Keep(s[1], p) + (Keep(s[2], p) + Keep(s[3], p)))
  {
    FilterSplitHead(s, p);
    FilterThree(s[1..], p);
    assert s[1..][0] == s[1] && s[1..][1] == s[2] && s[1..][2] == s[3];
  }

  /** The number of elements of `s` satisfying `p`. */
  function Count<T>(s: seq<T>, p: T -> bool): nat
  {
    |Filter(s, p)|
  }

  /** The sum of `f` over the elements of `s`. */
  function Sum<T>(s: seq<T>, f: T -> int): int
  {
    if |s| == 0 then 0 else f(s[0]) + Sum(s[1..], f)
  }

  /** `a` is an order-preserving subsequence of `b`. */
  ghost predicate Subseq<T>(a: seq<T>, b: seq<T>)
    decreases |b|
  {
    |a| == 0 || (|b| > 0 && ((a[0] == b[0] && Subseq(a[1..], b[1..])) || Subseq(a, b[1..])))
  }

  /** `slice(0, end)`: a negative `end` counts from the back, a large one is clipped. */
  function SliceTo<T>(s: seq<T>, end: int): (r: seq<T>)
    ensures end >= 0 ==> |r| == if end < |s| then end else |s|
    ensures end < 0 ==> |r| == if |s| + end > 0 then |s| + end else 0
    ensures r == s[..|r|]
  {
    var stop := if end < 0 then (if |s| + end > 0 then |s| + end else 0)
                else if end < |s| then end else |s|;
    s[..stop]
  }

  /** `slice(-n)` for `n > 0`: the last `n` elements, or all of them when there are fewer. */
  function LastN<T>(s: seq<T>, n: nat): (r: seq<T>)
    ensures |r| == if |s| < n then |s| else n
    ensures r == s[|s| - |r|..]
  {
    if |s| < n then s else s[|s| - n..]
  }

  lemma {:induction false} SubseqRefl<T>(s: seq<T>)
    ensures Subseq(s, s)
  {
    if |s| > 0 {
      SubseqRefl(s[1..]);
    }
  }

  lemma {:induction false} FilterIsSubseq<T>(s: seq<T>, p: T -> bool)
    ensures Subseq(Filter(s, p), s)
  {
    if |s| > 0 {
      FilterIsSubseq(s[1..], p);
      if p(s[0]) {
        var r := Filter(s, p);
        assert r[0] == s[0] && r[1..] == Filter(s[1..], p);
      } else {
        var r := Filter(s, p);
        if |r| > 0 {
          assert Subseq(r, s[1..]);
        }
      }
    }
  }

  lemma {:induction false} FilterAllKept<T>(s: seq<T>, p: T -> bool)
    requires forall i :: 0 <= i < |s| ==> p(s[i])
    ensures Filter(s, p) == s
  {
    if |s| > 0 {
      FilterAllKept(s[1..], p);
      assert [s[0]] + s[1..] == s;
    }
  }

  /** Filtering twice with the same predicate is filtering once. */
  lemma FilterIdempotent<T>(s: seq<T>, p: T -> bool)
    ensures Filter(Filter(s, p), p) == Filter(s, p)
  {
    var r := Filter(s, p);
    FilterAllKept(r, p);
  }

  /** Two successive filters are one filter by the conjunction. */
  lemma {:induction false} FilterFilter<T>(s: seq<T>, p: T -> bool, q: T -> bool, pq: T -> bool)
    requires forall x :: pq(x) == (p(x) && q(x))
    ensures Filter(Filter(s, p), q) == Filter(s, pq)
  {
    if |s| > 0 {
      FilterFilter(s[1..], p, q, pq);
      if p(s[0]) {
        var r := Filter(s, p);
        assert r[0] == s[0] && r[1..] == Filter(s[1..], p);
      }
    }
  }

  /** Filters with pointwise-equal predicates agree. */
  lemma {:induction false} FilterExt<T>(s: seq<T>, p: T -> bool, q: T -> bool)
    requires forall x :: p(x) == q(x)
    ensures Filter(s, p) == Filter(s, q)
  {
    if |s| > 0 {
      FilterExt(s[1..], p, q);
    }
  }

  lemma {:induction false} FilterAppend<T>(a: seq<T>, b: seq<T>, p: T -> bool)
    ensures Filter(a + b, p) == Filter(a, p) + Filter(b, p)
  {
    if |a| == 0 {
      assert a + b == b;
    } else {
      assert (a + b)[0] == a[0] && (a + b)[1..] == a[1..] + b;
      FilterAppend(a[1..], b, p);
    }
  }

  /** Every element satisfies `p` or `np` but never both: the two counts add up to the length. */
  lemma {:induction false} CountComplement<T>(s: seq<T>, p: T -> bool, np: T -> bool)
    requires forall x :: np(x) == !p(x)
    ensures Count(s, p) + Count(s, np) == |s|
  {
    if |s| > 0 {
      CountComplement(s[1..], p, np);
    }
  }

  /** A weaker predicate counts at least as many elements. */
  lemma {:induction false} CountMono<T>(s: seq<T>, p: T -> bool, q: T -> bool)
    requires forall x :: p(x) ==> q(x)
    ensures Count(s, p) <= Count(s, q)
  {
    if |s| > 0 {
      CountMono(s[1..], p, q);
    }
  }

  /** Two disjoint predicates that both imply `r` count at most as many elements as `r`. */
  lemma {:induction false} CountDisjoint<T>(s: seq<T>, p: T -> bool, q: T -> bool, r: T -> bool)
    requires forall x :: p(x) ==> r(x)
    requires forall x :: q(x) ==> r(x)
    requires forall x :: !(p(x) && q(x))
    ensures Count(s, p) + Count(s, q) <= Count(s, r)
  {
    if |s| > 0 {
      CountDisjoint(s[1..], p, q, r);
    }
  }

  lemma {:induction false} SumAppend<T>(a: seq<T>, b: seq<T>, f: T -> int)
    ensures Sum(a + b, f) == Sum(a, f) + Sum(b, f)
  {
    if |a| == 0 {
      assert a + b == b;
    } else {
      assert (a + b)[0] == a[0] && (a + b)[1..] == a[1..] + b;
      SumAppend(a[1..], b, f);
    }
  }

  lemma {:induction false} SumNonNegative<T>(s: seq<T>, f: T -> int)
    requires forall i :: 0 <= i < |s| ==> f(s[i]) >= 0
    ensures Sum(s, f) >= 0
  {
    if |s| > 0 {
      SumNonNegative(s[1..], f);
    }
  }

  /** A sum of terms each in `[0, bound]` lies in `[0, bound * |s|]`. */
  lemma {:induction false} SumBounded<T>(s: seq<T>, f: T -> int, bound: int)
    requires forall i :: 0 <= i < |s| ==> 0 <= f(s[i]) <= bound
    ensures 0 <= Sum(s, f) <= bound * |s|
  {
    if |s| > 0 {
      SumBounded(s[1..], f, bound);
    }
  }

  /** Summing over all of `s` a non-negative term restricted to `p` via `g` equals summing `f` over `Filter(s, p)`. */
  lemma {:induction false} SumFilter<T>(s: seq<T>, p: T -> bool, f: T -> int, g: T -> int)
    requires forall x :: g(x) == if p(x) then f(x) else 0
    ensures Sum(Filter(s, p), f) == Sum(s, g)
  {
    if |s| > 0 {
      SumFilter(s[1..], p, f, g);
      if p(s[0]) {
        var r := Filter(s, p);
        assert r[0] == s[0] && r[1..] == Filter(s[1..], p);
      }
    }
  }

  /** Sums are monotone in the summand, pointwise over the elements of `s`. */
  lemma {:induction false} SumLe<T>(s: seq<T>, f: T -> int, g: T -> int)
    requires forall i :: 0 <= i < |s| ==> f(s[i]) <= g(s[i])
    ensures Sum(s, f) <= Sum(s, g)
  {
    if |s| > 0 {
      assert forall i :: 0 <= i < |s[1..]| ==> s[1..][i] == s[i + 1];
      SumLe(s[1..], f, g);
    }
  }

  /** A sum of a constant term is that constant times the length. */
  lemma {:induction false} SumConstant<T>(s: seq<T>, f: T -> int, c: int)
    requires forall i :: 0 <= i < |s| ==> f(s[i]) == c
    ensures Sum(s, f) == c * |s|
  {
    if |s| > 0 {
      assert forall i :: 0 <= i < |s[1..]| ==> s[1..][i] == s[i + 1];
      SumConstant(s[1..], f, c);
    }
  }

  /** Counting is summing an indicator. */
  lemma {:induction false} CountAsSum<T>(s: seq<T>, p: T -> bool, ind: T -> int)
    requires forall x :: ind(x) == if p(x) then 1 else 0
    ensures Count(s, p) == Sum(s, ind)
  {
    if |s| > 0 {
      CountAsSum(s[1..], p, ind);
    }
  }

  /** With non-negative terms, a sum over a narrower filter is at most the sum over a wider one. */
  lemma {:induction false} SumFilterMono<T>(s: seq<T>, p: T -> bool, q: T -> bool, f: T -> int)
    requires forall x :: p(x) ==> q(x)
    requires forall i :: 0 <= i < |s| && q(s[i]) ==> f(s[i]) >= 0
    ensures Sum(Filter(s, p), f) <= Sum(Filter(s, q), f)
  {
    if |s| > 0 {
      assert forall i :: 0 <= i < |s[1..]| ==> s[1..][i] == s[i + 1];
      SumFilterMono(s[1..], p, q, f);
      var rp := Filter(s, p);
      var rq := Filter(s, q);
      if p(s[0]) {
        assert rp[0] == s[0] && rp[1..] == Filter(s[1..], p);
      }
      if q(s[0]) {
        assert rq[0] == s[0] && rq[1..] == Filter(s[1..], q);
      }
    }
  }

  /** The head of a non-empty filter result is the first element of `s` satisfying `p`. */
  lemma {:induction false} FilterHeadIsFirst<T>(s: seq<T>, p: T -> bool)
    requires |Filter(s, p)| > 0
    ensures exists i :: 0 <= i < |s| && s[i] == Filter(s, p)[0] && p(s[i])
                        && forall j :: 0 <= j < i ==> !p(s[j])
  {
    if p(s[0]) {
      assert s[0] == Filter(s, p)[0];
    } else {
      FilterHeadIsFirst(s[1..], p);
      var i :| 0 <= i < |s[1..]| && s[1..][i] == Filter(s[1..], p)[0] && p(s[1..][i])
               && forall j :: 0 <= j < i ==> !p(s[1..][j]);
      assert s[i + 1] == Filter(s, p)[0];
      forall j | 0 <= j < i + 1
        ensures !p(s[j])
      {
        if j > 0 {
          assert s[j] == s[1..][j - 1];
        }
      }
    }
  }
}
