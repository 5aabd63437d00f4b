/** Insertion-ordered dictionaries, the model of a JavaScript object used as a
    `Record<string, …>` accumulator inside a `forEach`: the first time a key is
    seen its entry is appended (with the name of that record), later records
    add to the existing entry, and `Object.entries`/`Object.values` enumerate
    entries in first-insertion order. */
module Tally {
  import opened Wrappers
  import opened Seqs

  /** One dictionary entry: its key, the name recorded when the key was first
      seen, and two running totals (their meaning depends on the dictionary). */
  datatype Bucket = Bucket(key: string, name: string, first: int, second: int)

  /** What one record adds to the dictionary: nothing, or amounts for a key. */
  datatype Contribution = Skip | Add(key: string, name: string, first: int, second: int)

  function Keys(t: seq<Bucket>): (r: seq<string>)
    ensures |r| == |t|
    ensures forall i :: 0 <= i < |t| ==> r[i] == t[i].key
  {
    if |t| == 0 then [] else [t[0].key] + Keys(t[1..])
  }

  function BucketFirst(b: Bucket): int { b.first }

  function BucketSecond(b: Bucket): int { b.second }

  /** The entry for key `k`, if any. */
  function Find(t: seq<Bucket>, k: string): Option<Bucket>
  {
    if |t| == 0 then None else if t[0].key == k then Some(t[0]) else Find(t[1..], k)
  }

  /** With distinct keys, looking up an entry's key finds that entry. */
  lemma {:induction false} FindDistinct(t: seq<Bucket>, i: int)
    requires 0 <= i < |t|
    requires forall a, b :: 0 <= a < b < |t| ==> t[a].key != t[b].key
    ensures Find(t, t[i].key) == Some(t[i])
  {
    if i > 0 {
      assert t[0].key != t[i].key;
      assert t[1..][i - 1] == t[i];
      FindDistinct(t[1..], i - 1);
    }
  }

  /** Adds `d1`, `d2` to the entry for `k`, appending a fresh entry named `name` when there is none. */
  function Bump(t: seq<Bucket>, k: string, name: string, d1: int, d2: int): seq<Bucket>
  {
    if |t| == 0 then [Bucket(k, name, d1, d2)]
    else if t[0].key == k then [t[0].(first := t[0].first + d1, second := t[0].second + d2)] + t[1..]
    else [t[0]] + Bump(t[1..], k, name, d1, d2)
  }

  /** Bumping keeps the key order, appending `k` only when it is new, and adds `d1`, `d2` to the totals. */
  lemma {:induction false} BumpShape(t: seq<Bucket>, k: string, name: string, d1: int, d2: int)
    ensures var r := Bump(t, k, name, d1, d2);
            && Keys(r) == (if k in Keys(t) then Keys(t) else Keys(t) + [k])
            && Sum(r, BucketFirst) == Sum(t, BucketFirst) + d1
            && Sum(r, BucketSecond) == Sum(t, BucketSecond) + d2
  {
    var r := Bump(t, k, name, d1, d2);
    if |t| > 0 {
      assert Keys(t) == [t[0].key] + Keys(t[1..]);
      if t[0].key == k {
        assert r[1..] == t[1..];
      } else {
        BumpShape(t[1..], k, name, d1, d2);
        assert r[1..] == Bump(t[1..], k, name, d1, d2);
        assert Keys(r) == [t[0].key] + Keys(r[1..]);
      }
    }
  }

  lemma {:induction false} BumpFind(t: seq<Bucket>, k: string, name: string, d1: int, d2: int, k': string)
    ensures Find(Bump(t, k, name, d1, d2), k')
         == if k' != k then Find(t, k')
            else match Find(t, k)
              case None => Some(Bucket(k, name, d1, d2))
              case Some(b) => Some(b.(first := b.first + d1, second := b.second + d2))
  {
    var r := Bump(t, k, name, d1, d2);
    if |t| == 0 {
      assert r == [Bucket(k, name, d1, d2)];
      assert Find(r, k') == if k' == k then Some(r[0]) else Find(r[1..], k');
    } else if t[0].key == k {
      assert r[0] == t[0].(first := t[0].first + d1, second := t[0].second + d2) && r[1..] == t[1..];
      assert Find(t, k) == Some(t[0]);
    } else {
      assert r[0] == t[0] && r[1..] == Bump(t[1..], k, name, d1, d2);
      BumpFind(t[1..], k, name, d1, d2, k');
    }
  }

  function Apply(t: seq<Bucket>, c: Contribution): seq<Bucket>
  {
    match c
    case Skip => t
    case Add(k, name, d1, d2) => Bump(t, k, name, d1, d2)
  }

  /** Folding one contribution into the dictionary touches only the entry for its key. */
  lemma ApplyFind(t: seq<Bucket>, c: Contribution, k: string)
    ensures Find(Apply(t, c), k)
         == if c.Skip? || c.key != k then Find(t, k)
            else match Find(t, k)
              case None => Some(Bucket(k, c.name, c.first, c.second))
              case Some(b) => Some(b.(first := b.first + c.first, second := b.second + c.second))
  {
    if c.Add? {
      BumpFind(t, c.key, c.name, c.first, c.second, k);
    }
  }

  /** `s.forEach(x => …)` folding each record's contribution into the dictionary, in order. */
  function Accumulate<T>(s: seq<T>, f: T -> Contribution): seq<Bucket>
  {
    if |s| == 0 then [] else Apply(Accumulate(s[..|s| - 1], f), f(s[|s| - 1]))
  }

  /** The keys contributed by `s`, in order, with repetitions. */
  function ContributedKeys<T>(s: seq<T>, f: T -> Contribution): seq<string>
  {
    if |s| == 0 then []
    else
      var ks := ContributedKeys(s[..|s| - 1], f);
      if f(s[|s| - 1]).Add? then ks + [f(s[|s| - 1]).key] else ks
  }

  /** The distinct elements of `ks` in order of first occurrence. */
  function FirstSeen(ks: seq<string>): (r: seq<string>)
    ensures forall i, j :: 0 <= i < j < |r| ==> r[i] != r[j]
    ensures forall k :: k in r <==> k in ks
  {
    if |ks| == 0 then []
    else
      var d := FirstSeen(ks[..|ks| - 1]);
      assert ks == ks[..|ks| - 1] + [ks[|ks| - 1]];
      if ks[|ks| - 1] in d then d else d + [ks[|ks| - 1]]
  }

  /** The name contributed first for key `k`, if any record contributes to `k`. */
  function FirstName<T>(s: seq<T>, f: T -> Contribution, k: string): Option<string>
  {
    if |s| == 0 then None
    else
      var earlier := FirstName(s[..|s| - 1], f, k);
      var c := f(s[|s| - 1]);
      if earlier.Some? then earlier
      else if c.Add? && c.key == k then Some(c.name)
      else None
  }

  /** The first amount a record contributes to key `k` (0 when it contributes elsewhere or nothing). */
  function FirstFor<T>(f: T -> Contribution, k: string): T -> int
  {
    x => if f(x).Add? && f(x).key == k then f(x).first else 0
  }

  function SecondFor<T>(f: T -> Contribution, k: string): T -> int
  {
    x => if f(x).Add? && f(x).key == k then f(x).second else 0
  }

  /** The first amount a record contributes, whatever its key. */
  function FirstOf<T>(f: T -> Contribution): T -> int
  {
    x => if f(x).Add? then f(x).first else 0
  }

  function SecondOf<T>(f: T -> Contribution): T -> int
  {
    x => if f(x).Add? then f(x).second else 0
  }

  lemma SumSnoc<T>(s: seq<T>, g: T -> int)
    requires |s| > 0
    ensures Sum(s, g) == Sum(s[..|s| - 1], g) + g(s[|s| - 1])
  {
    assert s == s[..|s| - 1] + [s[|s| - 1]];
    SumAppend(s[..|s| - 1], [s[|s| - 1]], g);
  }

  /** The dictionary's keys are the contributed keys in first-seen order, hence distinct. */
  lemma {:induction false} AccumulateKeys<T>(s: seq<T>, f: T -> Contribution)
    ensures Keys(Accumulate(s, f)) == FirstSeen(ContributedKeys(s, f))
  {
    if |s| > 0 {
      AccumulateKeys(s[..|s| - 1], f);
      var ks := ContributedKeys(s[..|s| - 1], f);
      var c := f(s[|s| - 1]);
      if c.Add? {
        BumpShape(Accumulate(s[..|s| - 1], f), c.key, c.name, c.first, c.second);
        var ks' := ks + [f(s[|s| - 1]).key];
        assert ks'[..|ks'| - 1] == ks;
      }
    }
  }

  /** Entry totals summed over the dictionary equal the amounts contributed over all records. */
  lemma {:induction false} AccumulateTotals<T>(s: seq<T>, f: T -> Contribution)
    ensures Sum(Accumulate(s, f), BucketFirst) == Sum(s, FirstOf(f))
    ensures Sum(Accumulate(s, f), BucketSecond) == Sum(s, SecondOf(f))
  {
    if |s| > 0 {
      AccumulateTotals(s[..|s| - 1], f);
      SumSnoc(s, FirstOf(f));
      SumSnoc(s, SecondOf(f));
      var c := f(s[|s| - 1]);
      if c.Add? {
        BumpShape(Accumulate(s[..|s| - 1], f), c.key, c.name, c.first, c.second);
      }
    }
  }

  /** The entry for a key holds the name of the first record contributing to it
      and the totals of exactly the records contributing to it; there is no
      entry for a key nobody contributed to. */
  lemma {:induction false} AccumulateFind<T>(s: seq<T>, f: T -> Contribution, k: string)
    ensures Find(Accumulate(s, f), k)
         == if FirstName(s, f, k).None? then None
            else Some(Bucket(k, FirstName(s, f, k).value, Sum(s, FirstFor(f, k)), Sum(s, SecondFor(f, k))))
  {
    if |s| > 0 {
      var init := s[..|s| - 1];
      var acc := Accumulate(init, f);
      var c := f(s[|s| - 1]);
      AccumulateFind(init, f, k);
      SumSnoc(s, FirstFor(f, k));
      SumSnoc(s, SecondFor(f, k));
      ApplyFind(acc, c, k);
      if c.Add? && c.key == k {
        if FirstName(init, f, k).None? {
          FindNoneTotals(init, f, k);
        }
      } else {
        assert FirstFor(f, k)(s[|s| - 1]) == 0 && SecondFor(f, k)(s[|s| - 1]) == 0;
      }
    }
  }

  /** A key with a first name has a contributing record. */
  lemma {:induction false} FirstNameContributes<T>(s: seq<T>, f: T -> Contribution, k: string)
    requires FirstName(s, f, k).Some?
    ensures exists i :: 0 <= i < |s| && f(s[i]).Add? && f(s[i]).key == k
  {
    var init := s[..|s| - 1];
    if FirstName(init, f, k).Some? {
      FirstNameContributes(init, f, k);
      var i :| 0 <= i < |init| && f(init[i]).Add? && f(init[i]).key == k;
      assert s[i] == init[i];
    } else {
      assert f(s[|s| - 1]).Add? && f(s[|s| - 1]).key == k;
    }
  }

  /** A key nobody contributed to has zero totals. */
  lemma {:induction false} FindNoneTotals<T>(s: seq<T>, f: T -> Contribution, k: string)
    requires FirstName(s, f, k).None?
    ensures Sum(s, FirstFor(f, k)) == 0 && Sum(s, SecondFor(f, k)) == 0
  {
    if |s| > 0 {
      FindNoneTotals(s[..|s| - 1], f, k);
      SumSnoc(s, FirstFor(f, k));
      SumSnoc(s, SecondFor(f, k));
    }
  }

  /** Every entry of the dictionary holds the totals of the records contributing to its key. */
  lemma AccumulateEntry<T>(s: seq<T>, f: T -> Contribution, j: int)
    requires 0 <= j < |Accumulate(s, f)|
    ensures var b := Accumulate(s, f)[j];
            b.first == Sum(s, FirstFor(f, b.key)) && b.second == Sum(s, SecondFor(f, b.key))
            && FirstName(s, f, b.key) == Some(b.name)
  {
    var all := Accumulate(s, f);
    AccumulateKeys(s, f);
    assert forall a :: 0 <= a < |all| ==> Keys(all)[a] == all[a].key;
    FindDistinct(all, j);
    AccumulateFind(s, f, all[j].key);
  }

  /** Keeping the last `n` entries keeps the last `n` keys. */
  lemma LastNKeys(t: seq<Bucket>, n: nat)
    ensures Keys(LastN(t, n)) == LastN(Keys(t), n)
  {
    var k := |t| - |LastN(t, n)|;
    var a, b := Keys(t[k..]), Keys(t)[k..];
    assert |a| == |b|;
    forall i | 0 <= i < |a|
      ensures a[i] == b[i]
    {
      assert a[i] == t[k..][i].key == t[k + i].key;
    }
  }

  /** The last `n` entries: their keys are the last `n` keys, and each holds its key's totals. */
  lemma LastEntries<T>(s: seq<T>, f: T -> Contribution, n: nat)
    ensures var t := LastN(Accumulate(s, f), n);
            Keys(t) == LastN(Keys(Accumulate(s, f)), n)
            && forall i :: 0 <= i < |t| ==> t[i].first == Sum(s, FirstFor(f, t[i].key))
  {
    var all := Accumulate(s, f);
    LastNKeys(all, n);
    var t := LastN(all, n);
    forall i | 0 <= i < |t|
      ensures t[i].first == Sum(s, FirstFor(f, t[i].key))
    {
      assert t[i] == all[|all| - |t| + i];
      AccumulateEntry(s, f, |all| - |t| + i);
    }
  }
}
