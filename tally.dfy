/**
 * Insertion-ordered key -> running-total tables: the `Map<string, number>`
 * and `Record<string, number>` accumulators of the period views, kept as a
 * sequence of entries in the order their keys were first set.
 */
module Tally {
  import opened Seqs

  datatype Entry<K> = Entry(key: K, total: int)

  function KeyOf<K>(e: Entry<K>): K { e.key }

  /** The entry for `k` exists. */
  predicate Has<K(==)>(m: seq<Entry<K>>, k: K) {
    exists i :: 0 <= i < |m| && m[i].key == k
  }

  /** `m.get(k) || 0`. */
  function Get<K(==)>(m: seq<Entry<K>>, k: K): int {
    if m == [] then 0
    else if m[0].key == k then m[0].total
    else Get(m[1..], k)
  }

  /** `m.set(k, (m.get(k) || 0) + a)`: updates the entry in place, or appends a new one. */
  function Add<K(==)>(m: seq<Entry<K>>, k: K, a: int): seq<Entry<K>> {
    if m == [] then [Entry(k, a)]
    else if m[0].key == k then [Entry(k, m[0].total + a)] + m[1..]
    else [m[0]] + Add(m[1..], k, a)
  }

  /** The sum of all the table's values. */
  function Total<K>(m: seq<Entry<K>>): int {
    if m == [] then 0 else m[0].total + Total(m[1..])
  }

  lemma {:induction false} AddGet<K>(m: seq<Entry<K>>, k: K, a: int, j: K)
    ensures Get(Add(m, k, a), j) == Get(m, j) + (if j == k then a else 0)
  {
    if m != [] && m[0].key != k {
      AddGet(m[1..], k, a, j);
    }
  }

  lemma HasCons<K>(m: seq<Entry<K>>, j: K)
    requires m != []
    ensures Has(m, j) <==> m[0].key == j || Has(m[1..], j)
  {
    if Has(m, j) && m[0].key != j {
      var i :| 0 <= i < |m| && m[i].key == j;
      assert m[1..][i - 1].key == j;
    }
    if Has(m[1..], j) {
      var i :| 0 <= i < |m[1..]| && m[1..][i].key == j;
      assert m[i + 1].key == j;
    }
  }

  lemma {:induction false} AddHas<K>(m: seq<Entry<K>>, k: K, a: int, j: K)
    ensures Has(Add(m, k, a), j) <==> Has(m, j) || j == k
  {
    var r := Add(m, k, a);
    if m == [] {
      assert r[0].key == k;
    } else {
      HasCons(m, j);
      HasCons(r, j);
      if m[0].key == k {
        assert r[1..] == m[1..];
      } else {
        AddHas(m[1..], k, a, j);
        assert r[1..] == Add(m[1..], k, a);
      }
    }
  }

  lemma {:induction false} AddTotal<K>(m: seq<Entry<K>>, k: K, a: int)
    ensures Total(Add(m, k, a)) == Total(m) + a
  {
    if m != [] && m[0].key != k {
      AddTotal(m[1..], k, a);
    }
  }

  lemma {:induction false} AddUnique<K>(m: seq<Entry<K>>, k: K, a: int)
    requires UniqueBy(m, KeyOf)
    ensures UniqueBy(Add(m, k, a), KeyOf)
  {
    if m != [] && m[0].key != k {
      assert UniqueBy(m[1..], KeyOf);
      AddUnique(m[1..], k, a);
      var rest := Add(m[1..], k, a);
      forall i | 0 <= i < |rest| ensures rest[i].key != m[0].key {
        assert Has(rest, rest[i].key);
        AddHas(m[1..], k, a, rest[i].key);
        if Has(m[1..], rest[i].key) {
          var q :| 0 <= q < |m[1..]| && m[1..][q].key == rest[i].key;
          assert KeyOf(m[0]) != KeyOf(m[q + 1]);
        }
      }
    }
  }

  /** A key that is absent reads as 0. */
  lemma {:induction false} GetAbsent<K>(m: seq<Entry<K>>, k: K)
    requires !Has(m, k)
    ensures Get(m, k) == 0
  {
    if m != [] {
      HasCons(m, k);
      GetAbsent(m[1..], k);
    }
  }

  /** In a table with unique keys, each entry's value is what `Get` reads for its key. */
  lemma {:induction false} GetEntry<K>(m: seq<Entry<K>>, i: int)
    requires UniqueBy(m, KeyOf)
    requires 0 <= i < |m|
    ensures Get(m, m[i].key) == m[i].total
  {
    if i > 0 {
      assert UniqueBy(m[1..], KeyOf);
      assert KeyOf(m[0]) != KeyOf(m[i]);
      GetEntry(m[1..], i - 1);
    }
  }

  /** The keys of the table, `new Set(m.keys())`. */
  function Keys<K>(m: seq<Entry<K>>): set<K> {
    if m == [] then {} else {m[0].key} + Keys(m[1..])
  }

  lemma {:induction false} KeysHas<K>(m: seq<Entry<K>>, k: K)
    ensures k in Keys(m) <==> Has(m, k)
  {
    if m != [] {
      HasCons(m, k);
      KeysHas(m[1..], k);
    }
  }

  /** With unique keys there are as many keys as entries (`m.size`). */
  lemma {:induction false} KeysCount<K>(m: seq<Entry<K>>)
    requires UniqueBy(m, KeyOf)
    ensures |Keys(m)| == |m|
  {
    if m != [] {
      assert UniqueBy(m[1..], KeyOf);
      KeysCount(m[1..]);
      KeysHas(m[1..], m[0].key);
      forall i | 0 <= i < |m[1..]| ensures m[1..][i].key != m[0].key {
        assert KeyOf(m[0]) != KeyOf(m[i + 1]);
      }
    }
  }

  /** Every entry of the table is a positive sum. */
  predicate PositiveTotals<K>(m: seq<Entry<K>>) {
    forall i :: 0 <= i < |m| ==> m[i].total > 0
  }

  lemma {:induction false} AddPositive<K>(m: seq<Entry<K>>, k: K, a: int)
    requires PositiveTotals(m) && a > 0
    ensures PositiveTotals(Add(m, k, a))
  {
    if m != [] && m[0].key != k {
      AddPositive(m[1..], k, a);
    }
  }
}
