/**
 * Sequence helpers shared by every component: order-preserving filtering,
 * sums, the stable sort that `Array.prototype.sort` performs, and
 * uniqueness of a projection.
 */
module Seqs {
  import opened Wrappers

  function Min(a: int, b: int): int { if a <= b then a else b }
  function Max(a: int, b: int): int { if a >= b then a else b }

  /** The elements of `s` that satisfy `keep`, in their original order (`Array.prototype.filter`). */
  function Filter<T>(s: seq<T>, keep: T -> bool): (r: seq<T>)
    ensures |r| <= |s|
    ensures forall i :: 0 <= i < |r| ==> keep(r[i])
    decreases |s|
  {
    if |s| == 0 then []
    else Filter(s[..|s| - 1], keep) + (if keep(s[|s| - 1]) then [s[|s| - 1]] else [])
  }

  /** The filter keeps exactly the elements that pass the test. */
  lemma {:induction false} FilterMembers<T>(s: seq<T>, keep: T -> bool)
    ensures forall x :: x in Filter(s, keep) ==> x in s && keep(x)
    ensures forall x :: x in s && keep(x) ==> x in Filter(s, keep)
    decreases |s|
  {
    if |s| > 0 {
      var init, last := s[..|s| - 1], s[|s| - 1];
      assert s == init + [last];
      FilterMembers(init, keep);
    }
  }

  lemma {:induction false} FilterMultiset<T>(s: seq<T>, keep: T -> bool)
    ensures forall x :: multiset(Filter(s, keep))[x] == if keep(x) then multiset(s)[x] else 0
    decreases |s|
  {
    if |s| > 0 {
      var init, last := s[..|s| - 1], s[|s| - 1];
      assert s == init + [last];
      FilterMultiset(init, keep);
    }
  }

  lemma {:induction false} FilterConcat<T>(a: seq<T>, b: seq<T>, keep: T -> bool)
    ensures Filter(a + b, keep) == Filter(a, keep) + Filter(b, keep)
    decreases |b|
  {
    if |b| > 0 {
      var init, last := b[..|b| - 1], b[|b| - 1];
      assert a + b == (a + init) + [last];
      assert (a + b)[..|a + b| - 1] == a + init;
      FilterConcat(a, init, keep);
    } else {
      assert a + b == a;
    }
  }

  /** `s.reduce((acc, x) => acc + f(x), 0)`. */
  function SumOf<T>(s: seq<T>, f: T -> int): int
    decreases |s|
  {
    if |s| == 0 then 0 else SumOf(s[..|s| - 1], f) + f(s[|s| - 1])
  }

  lemma {:induction false} SumOfConcat<T>(a: seq<T>, b: seq<T>, f: T -> int)
    ensures SumOf(a + b, f) == SumOf(a, f) + SumOf(b, f)
    decreases |b|
  {
    if |b| > 0 {
      var init, last := b[..|b| - 1], b[|b| - 1];
      assert (a + b)[..|a + b| - 1] == a + init;
      SumOfConcat(a, init, f);
    } else {
      assert a + b == a;
    }
  }

  /** Every element of `s` has a key no greater than the keys of the elements after it. */
  predicate SortedBy<T>(s: seq<T>, key: T -> real) {
    forall i, j :: 0 <= i < j < |s| ==> key(s[i]) <= key(s[j])
  }

  /** Places `x` before the first element whose key is not smaller than its own. */
  function Insert<T>(x: T, s: seq<T>, key: T -> real): (r: seq<T>)
    ensures |r| == |s| + 1
    ensures multiset(r) == multiset(s) + multiset{x}
  {
    if s == [] || key(x) <= key(s[0]) then [x] + s
    else
      assert s == [s[0]] + s[1..];
      [s[0]] + Insert(x, s[1..], key)
  }

  /**
   * The stable sort that `Array.prototype.sort` performs with the comparator
   * `(a, b) => key(a) - key(b)`: ascending by key, equal keys kept in their
   * original order. A descending sort is this one on the negated key.
   */
  function SortBy<T>(s: seq<T>, key: T -> real): (r: seq<T>)
    ensures |r| == |s|
    ensures multiset(r) == multiset(s)
  {
    if s == [] then []
    else
      assert s == [s[0]] + s[1..];
      Insert(s[0], SortBy(s[1..], key), key)
  }

  lemma {:induction false} InsertSorted<T>(x: T, s: seq<T>, key: T -> real)
    requires SortedBy(s, key)
    ensures SortedBy(Insert(x, s, key), key)
  {
    if s != [] && key(x) > key(s[0]) {
      InsertSorted(x, s[1..], key);
      var rest := Insert(x, s[1..], key);
      forall y | y in rest ensures key(s[0]) <= key(y) {
        assert y in multiset(rest);
        if y != x {
          assert y in multiset(s[1..]);
          var i :| 0 <= i < |s[1..]| && s[1..][i] == y;
          assert s[i + 1] == y;
        }
      }
    }
  }

  lemma {:induction false} SortBySorted<T>(s: seq<T>, key: T -> real)
    ensures SortedBy(SortBy(s, key), key)
  {
    if s != [] {
      SortBySorted(s[1..], key);
      InsertSorted(s[0], SortBy(s[1..], key), key);
    }
  }

  /** No two positions of `s` share the same `id`. */
  predicate UniqueBy<T, K(==)>(s: seq<T>, id: T -> K) {
    forall i, j :: 0 <= i < j < |s| ==> id(s[i]) != id(s[j])
  }

  lemma {:induction false} InsertUnique<T, K>(x: T, s: seq<T>, key: T -> real, id: T -> K)
    requires UniqueBy(s, id)
    requires forall y :: y in s ==> id(y) != id(x)
    ensures UniqueBy(Insert(x, s, key), id)
  {
    if s != [] && key(x) > key(s[0]) {
      InsertUnique(x, s[1..], key, id);
      var rest := Insert(x, s[1..], key);
      forall y | y in rest ensures id(y) != id(s[0]) {
        assert y in multiset(rest);
        if y != x {
          assert y in multiset(s[1..]);
          var i :| 0 <= i < |s[1..]| && s[1..][i] == y;
          assert s[i + 1] == y;
        }
      }
    }
  }

  lemma {:induction false} SortByUnique<T, K>(s: seq<T>, key: T -> real, id: T -> K)
    requires UniqueBy(s, id)
    ensures UniqueBy(SortBy(s, key), id)
  {
    if s != [] {
      SortByUnique(s[1..], key, id);
      forall y | y in SortBy(s[1..], key) ensures id(y) != id(s[0]) {
        assert y in multiset(SortBy(s[1..], key));
        var i :| 0 <= i < |s[1..]| && s[1..][i] == y;
        assert s[i + 1] == y;
      }
      InsertUnique(s[0], SortBy(s[1..], key), key, id);
    }
  }

  /** The first `n` elements of `s`, or all of them when there are fewer (`slice(0, n)`). */
  function Take<T>(s: seq<T>, n: nat): (r: seq<T>)
    ensures |r| == Min(n, |s|)
  {
    if |s| <= n then s else s[..n]
  }

  lemma {:induction false} FilterUnique<T, K>(s: seq<T>, keep: T -> bool, id: T -> K)
    requires UniqueBy(s, id)
    ensures UniqueBy(Filter(s, keep), id)
    decreases |s|
  {
    if |s| > 0 {
      var init, last := s[..|s| - 1], s[|s| - 1];
      assert UniqueBy(init, id);
      FilterUnique(init, keep, id);
      var f := Filter(init, keep);
      FilterMembers(init, keep);
      forall i | 0 <= i < |f| ensures id(f[i]) != id(last) {
        assert f[i] in f;
        var k :| 0 <= k < |init| && init[k] == f[i];
        assert s[k] == f[i];
      }
    }
  }

  /** Sorting keeps exactly the elements it was given. */
  lemma SortByMembers<T>(s: seq<T>, key: T -> real)
    ensures forall x :: x in SortBy(s, key) <==> x in s
  {
    var r := SortBy(s, key);
    forall x ensures x in r <==> x in s {
      assert x in r <==> x in multiset(r);
      assert x in s <==> x in multiset(s);
    }
  }

  /** The first `n` of a sorted sequence have keys no greater than any element left out. */
  lemma TakeSortedDominates<T>(s: seq<T>, key: T -> real, n: nat)
    requires SortedBy(s, key)
    ensures forall r, x :: r in Take(s, n) && x in multiset(s) - multiset(Take(s, n)) ==> key(r) <= key(x)
  {
    var t := Take(s, n);
    var rest := s[|t|..];
    assert s == t + rest;
    assert multiset(s) - multiset(t) == multiset(rest);
    forall r, x | r in t && x in multiset(rest) ensures key(r) <= key(x) {
      var a :| 0 <= a < |t| && t[a] == r;
      var b :| 0 <= b < |rest| && rest[b] == x;
      assert s[a] == r && s[|t| + b] == x;
    }
  }

  /**
   * The first `n` after a stable sort: elements of `s` in ascending key
   * order, none with a larger key than any element left out.
   */
  lemma TopBy<T>(s: seq<T>, key: T -> real, n: nat)
    ensures var r := Take(SortBy(s, key), n);
      && (forall x :: x in r ==> x in s)
      && (forall i, j :: 0 <= i < j < |r| ==> key(r[i]) <= key(r[j]))
      && (forall a, x :: a in r && x in multiset(s) - multiset(r) ==> key(a) <= key(x))
  {
    var sorted := SortBy(s, key);
    var r := Take(sorted, n);
    SortBySorted(s, key);
    SortByMembers(s, key);
    TakeSortedDominates(sorted, key, n);
    assert r == sorted[..|r|];
  }

  /** A sum of non-negative terms is non-negative. */
  lemma {:induction false} SumOfNonneg<T>(s: seq<T>, f: T -> int)
    requires forall i :: 0 <= i < |s| ==> f(s[i]) >= 0
    ensures SumOf(s, f) >= 0
    decreases |s|
  {
    if |s| > 0 {
      SumOfNonneg(s[..|s| - 1], f);
    }
  }

  /** Dropping non-negative terms from the end never raises the sum; a non-empty sum of positive terms is positive. */
  lemma TakeSum<T>(s: seq<T>, n: nat, f: T -> int)
    requires forall i :: 0 <= i < |s| ==> f(s[i]) > 0
    ensures SumOf(Take(s, n), f) <= SumOf(s, f)
    ensures |Take(s, n)| > 0 ==> SumOf(Take(s, n), f) > 0
  {
    var t := Take(s, n);
    var rest := s[|t|..];
    assert s == t + rest;
    SumOfConcat(t, rest, f);
    assert forall i :: 0 <= i < |rest| ==> rest[i] == s[|t| + i];
    SumOfNonneg(rest, f);
    if |t| > 0 {
      assert t == [t[0]] + t[1..];
      SumOfCons(t[0], t[1..], f);
      assert forall i :: 0 <= i < |t[1..]| ==> t[1..][i] == s[i + 1];
      SumOfNonneg(t[1..], f);
    }
  }

  /**
   * When `keep` holds of an element only if it holds of every element before
   * it, the kept elements form a prefix and nothing after that prefix is kept.
   */
  lemma {:induction false} FilterPrefix<T>(s: seq<T>, keep: T -> bool)
    requires forall i, j :: 0 <= i < j < |s| && keep(s[j]) ==> keep(s[i])
    ensures var r := Filter(s, keep);
      && r == s[..|r|]
      && (forall i :: 0 <= i < |r| ==> keep(s[i]))
      && (forall i :: |r| <= i < |s| ==> !keep(s[i]))
  {
    var drop := (x: T) => !keep(x);
    var k := match Find(s, drop) case None => |s| case Some(n) => n;
    assert forall i :: 0 <= i < k ==> keep(s[i]);
    var front, back := s[..k], s[k..];
    assert s == front + back;
    FilterAllKept(front, keep);
    forall i | 0 <= i < |back| ensures !keep(back[i]) {
      assert back[i] == s[k + i];
    }
    FilterNoneKept(back, keep);
    FilterConcat(front, back, keep);
    assert Filter(s, keep) == front;
  }

  lemma {:induction false} FilterAllKept<T>(s: seq<T>, keep: T -> bool)
    requires forall i :: 0 <= i < |s| ==> keep(s[i])
    ensures Filter(s, keep) == s
    decreases |s|
  {
    if |s| > 0 {
      FilterAllKept(s[..|s| - 1], keep);
    }
  }

  lemma {:induction false} FilterNoneKept<T>(s: seq<T>, keep: T -> bool)
    requires forall i :: 0 <= i < |s| ==> !keep(s[i])
    ensures Filter(s, keep) == []
    decreases |s|
  {
    if |s| > 0 {
      FilterNoneKept(s[..|s| - 1], keep);
    }
  }

  /** The index of the first element satisfying `p` (`findIndex`, with `None` for -1). */
  function Find<T>(s: seq<T>, p: T -> bool): (r: Option<nat>)
    ensures r.None? ==> forall i :: 0 <= i < |s| ==> !p(s[i])
    ensures r.Some? ==> r.value < |s| && p(s[r.value]) && forall i :: 0 <= i < r.value ==> !p(s[i])
  {
    if |s| == 0 then None
    else if p(s[0]) then Some(0)
    else
      match Find(s[1..], p)
      case None => None
      case Some(k) => Some(k + 1)
  }

  /** Two searches that test corresponding elements alike stop at the same index. */
  lemma {:induction false} FindAlike<T, U>(s: seq<T>, p: T -> bool, t: seq<U>, q: U -> bool)
    requires |s| == |t| && forall i :: 0 <= i < |s| ==> p(s[i]) == q(t[i])
    ensures Find(s, p) == Find(t, q)
  {
    if |s| > 0 && !p(s[0]) {
      FindAlike(s[1..], p, t[1..], q);
    }
  }

  lemma SumOfCons<T>(x: T, s: seq<T>, f: T -> int)
    ensures SumOf([x] + s, f) == f(x) + SumOf(s, f)
  {
    SumOfConcat([x], s, f);
    assert [x][..0] == [];
  }

  lemma {:induction false} SumOfInsert<T>(x: T, s: seq<T>, key: T -> real, f: T -> int)
    ensures SumOf(Insert(x, s, key), f) == f(x) + SumOf(s, f)
  {
    if s == [] || key(x) <= key(s[0]) {
      SumOfCons(x, s, f);
    } else {
      SumOfInsert(x, s[1..], key, f);
      SumOfCons(s[0], Insert(x, s[1..], key), f);
      SumOfCons(s[0], s[1..], f);
      assert s == [s[0]] + s[1..];
    }
  }

  /** Sorting does not change a sum. */
  lemma {:induction false} SumOfSortBy<T>(s: seq<T>, key: T -> real, f: T -> int)
    ensures SumOf(SortBy(s, key), f) == SumOf(s, f)
  {
    if s != [] {
      SumOfSortBy(s[1..], key, f);
      SumOfInsert(s[0], SortBy(s[1..], key), key, f);
      SumOfCons(s[0], s[1..], f);
      assert s == [s[0]] + s[1..];
    }
  }

  /** Leaving out non-negative terms cannot raise a sum. */
  lemma {:induction false} SumOfFilterLe<T>(s: seq<T>, keep: T -> bool, f: T -> int)
    requires forall i :: 0 <= i < |s| ==> f(s[i]) >= 0
    ensures SumOf(Filter(s, keep), f) <= SumOf(s, f)
    decreases |s|
  {
    if |s| > 0 {
      var init, last := s[..|s| - 1], s[|s| - 1];
      assert forall i :: 0 <= i < |init| ==> init[i] == s[i];
      SumOfFilterLe(init, keep, f);
      var fi := Filter(init, keep);
      assert f(last) >= 0;
      if keep(last) {
        var q := fi + [last];
        assert Filter(s, keep) == q;
        assert q[..|q| - 1] == fi;
        assert SumOf(q, f) == SumOf(fi, f) + f(last);
      } else {
        assert Filter(s, keep) == fi;
      }
      assert SumOf(s, f) == SumOf(init, f) + f(last);
    }
  }

  /** `s.map(f)`. */
  function MapSeq<T, U>(s: seq<T>, f: T -> U): (r: seq<U>)
    ensures |r| == |s|
    ensures forall i :: 0 <= i < |s| ==> r[i] == f(s[i])
    decreases |s|
  {
    if |s| == 0 then [] else MapSeq(s[..|s| - 1], f) + [f(s[|s| - 1])]
  }

  /** `Math.min(...s)` of a non-empty list. */
  function MinOf(s: seq<int>): (r: int)
    requires |s| > 0
    ensures r in s
    ensures forall i :: 0 <= i < |s| ==> r <= s[i]
  {
    if |s| == 1 then s[0] else Min(MinOf(s[..|s| - 1]), s[|s| - 1])
  }

  /** `Math.max(...s)` of a non-empty list. */
  function MaxOf(s: seq<int>): (r: int)
    requires |s| > 0
    ensures r in s
    ensures forall i :: 0 <= i < |s| ==> s[i] <= r
  {
    if |s| == 1 then s[0] else Max(MaxOf(s[..|s| - 1]), s[|s| - 1])
  }

  /** `part / whole * 100` for a positive whole. */
  function Ratio(part: int, whole: int): (r: real)
    requires whole > 0
    ensures r * (whole as real) == (part as real) * 100.0
    ensures part >= 0 ==> r >= 0.0
    ensures part > 0 ==> r > 0.0
    ensures part >= whole ==> r >= 100.0
    ensures part <= whole ==> r <= 100.0
    ensures part < whole ==> r < 100.0
  {
    var q := part as real / whole as real;
    assert q * (whole as real) == part as real;
    QuotientFacts(part as real, whole as real, q);
    q * 100.0
  }

  lemma QuotientFacts(p: real, w: real, q: real)
    requires w > 0.0 && q * w == p
    ensures p >= 0.0 ==> q >= 0.0
    ensures p > 0.0 ==> q > 0.0
    ensures p >= w ==> q >= 1.0
    ensures p <= w ==> q <= 1.0
    ensures p < w ==> q < 1.0
  {
    QuotientSign(p, w, q);
    QuotientVsOne(p, w, q);
  }

  lemma QuotientSign(p: real, w: real, q: real)
    requires w > 0.0 && q * w == p
    ensures p >= 0.0 ==> q >= 0.0
    ensures p > 0.0 ==> q > 0.0
  {
    if p >= 0.0 { MulCancel(0.0, q, w); }
    if p > 0.0 { MulCancelStrict(0.0, q, w); }
  }

  lemma QuotientVsOne(p: real, w: real, q: real)
    requires w > 0.0 && q * w == p
    ensures p >= w ==> q >= 1.0
    ensures p <= w ==> q <= 1.0
    ensures p < w ==> q < 1.0
  {
    assert 1.0 * w == w;
    if p >= w { MulCancel(1.0, q, w); }
    if p <= w { MulCancel(q, 1.0, w); }
    if p < w { MulCancelStrict(q, 1.0, w); }
  }

  lemma MulCancelStrict(a: real, b: real, n: real)
    requires n > 0.0 && a * n < b * n
    ensures a < b
  {
    assert (b - a) * n > 0.0;
  }

  /** Bounds on each term bound the sum. */
  lemma {:induction false} SumOfBounds<T>(s: seq<T>, f: T -> int, lo: int, hi: int)
    requires forall i :: 0 <= i < |s| ==> lo <= f(s[i]) <= hi
    ensures lo * |s| <= SumOf(s, f) <= hi * |s|
    decreases |s|
  {
    if |s| > 0 {
      SumOfBounds(s[..|s| - 1], f, lo, hi);
    }
  }

  function Id(x: int): int { x }

  /** The arithmetic mean of a non-empty list. */
  function Mean(s: seq<int>): real
    requires |s| > 0
  {
    SumOf(s, Id) as real / |s| as real
  }

  lemma MulCancel(a: real, b: real, n: real)
    requires n > 0.0 && a * n <= b * n
    ensures a <= b
  {
    assert (b - a) * n >= 0.0;
  }

  /** The mean lies between the least and the greatest element. */
  lemma MeanBounds(s: seq<int>)
    requires |s| > 0
    ensures MinOf(s) as real <= Mean(s) <= MaxOf(s) as real
  {
    SumOfBounds(s, Id, MinOf(s), MaxOf(s));
    QuotientBetween(MinOf(s), MaxOf(s), SumOf(s, Id), |s|, Mean(s));
  }

  lemma QuotientBetween(lo: int, hi: int, sum: int, n: nat, m: real)
    requires n > 0 && lo * n <= sum <= hi * n && m == sum as real / n as real
    ensures lo as real <= m <= hi as real
  {
    assert m * (n as real) == sum as real;
    IntMulReal(lo, n);
    IntMulReal(hi, n);
    MulCancel(lo as real, m, n as real);
    MulCancel(m, hi as real, n as real);
  }

  lemma IntMulReal(a: int, b: int)
    ensures (a * b) as real == (a as real) * (b as real)
  {
  }
}
