/** Counters kept in a Python dict, with the dict's insertion order: the
    classifier's `defaultdict(int)` of field scores and the per-keyword paper
    counts. An entry is created by the first increment of its key. */
module Tally {

  type Tally<K> = seq<(K, nat)>

  /** `t[k]` of a `defaultdict(int)`: 0 for an absent key. */
  function Lookup<K(==)>(t: Tally<K>, k: K): nat {
    if |t| == 0 then 0 else if t[0].0 == k then t[0].1 else Lookup(t[1..], k)
  }

  function Keys<K>(t: Tally<K>): set<K> {
    if |t| == 0 then {} else {t[0].0} + Keys(t[1..])
  }

  /** `t[k] += n`: in place for a present key, appended otherwise. */
  function Add<K(==)>(t: Tally<K>, k: K, n: nat): (r: Tally<K>)
    ensures |r| == |t| || |r| == |t| + 1
  {
    if |t| == 0 then [(k, n)]
    else if t[0].0 == k then [(k, t[0].1 + n)] + t[1..]
    else [t[0]] + Add(t[1..], k, n)
  }

  /** Every entry was created by a positive increment. */
  predicate Positive<K>(t: Tally<K>) {
    forall i :: 0 <= i < |t| ==> t[i].1 > 0
  }

  lemma {:induction false} AddLookup<K>(t: Tally<K>, k: K, n: nat, m: K)
    ensures Lookup(Add(t, k, n), m) == Lookup(t, m) + (if m == k then n else 0)
  {
    if |t| > 0 && t[0].0 != k {
      assert Add(t, k, n)[1..] == Add(t[1..], k, n);
      AddLookup(t[1..], k, n, m);
    }
  }

  lemma {:induction false} AddKeys<K>(t: Tally<K>, k: K, n: nat)
    ensures Keys(Add(t, k, n)) == Keys(t) + {k}
  {
    if |t| > 0 {
      if t[0].0 == k {
        assert Add(t, k, n)[1..] == t[1..];
      } else {
        assert Add(t, k, n)[1..] == Add(t[1..], k, n);
        AddKeys(t[1..], k, n);
      }
    }
  }

  lemma {:induction false} AddPositive<K>(t: Tally<K>, k: K, n: nat)
    requires Positive(t) && n > 0
    ensures Positive(Add(t, k, n))
  {
    if |t| > 0 && t[0].0 != k {
      AddPositive(t[1..], k, n);
      assert forall i :: 0 < i < |Add(t, k, n)| ==> Add(t, k, n)[i] == Add(t[1..], k, n)[i - 1];
    }
  }

  /** A key's count in a positive tally is non-zero exactly when the key has an entry. */
  lemma {:induction false} LookupPositive<K>(t: Tally<K>, k: K)
    requires Positive(t)
    ensures Lookup(t, k) > 0 <==> k in Keys(t)
  {
    if |t| > 0 && t[0].0 != k {
      LookupPositive(t[1..], k);
    }
  }

  /** Dict keys are unique. */
  predicate DistinctKeys<K(==)>(t: Tally<K>) {
    forall i, j :: 0 <= i < j < |t| ==> t[i].0 != t[j].0
  }

  lemma {:induction false} AddDistinct<K>(t: Tally<K>, k: K, n: nat)
    requires DistinctKeys(t)
    ensures DistinctKeys(Add(t, k, n))
  {
    if |t| > 0 {
      HeadNotInTail(t);
      if t[0].0 == k {
        ConsDistinct((k, t[0].1 + n), t[1..]);
      } else {
        assert DistinctKeys(t[1..]);
        AddDistinct(t[1..], k, n);
        AddKeys(t[1..], k, n);
        ConsDistinct(t[0], Add(t[1..], k, n));
      }
    }
  }

  lemma HeadNotInTail<K>(t: Tally<K>)
    requires |t| > 0 && DistinctKeys(t)
    ensures DistinctKeys(t[1..]) && t[0].0 !in Keys(t[1..])
  {
    KeysMembership(t[1..]);
    assert forall i :: 0 <= i < |t| - 1 ==> t[1..][i].0 == t[i + 1].0;
  }

  /** Putting an entry with a new key in front keeps the keys unique. */
  lemma ConsDistinct<K>(x: (K, nat), t: Tally<K>)
    requires DistinctKeys(t) && x.0 !in Keys(t)
    ensures DistinctKeys([x] + t)
  {
    KeysMembership(t);
    assert forall i :: 0 < i < |[x] + t| ==> ([x] + t)[i] == t[i - 1];
  }

  lemma {:induction false} KeysMembership<K>(t: Tally<K>)
    ensures forall i :: 0 <= i < |t| ==> t[i].0 in Keys(t)
    ensures forall k :: k in Keys(t) ==> exists i :: 0 <= i < |t| && t[i].0 == k
  {
    if |t| > 0 {
      KeysMembership(t[1..]);
      assert forall i :: 0 < i < |t| ==> t[i] == t[1..][i - 1];
      forall k | k in Keys(t) ensures exists i :: 0 <= i < |t| && t[i].0 == k {
        if k != t[0].0 {
          var i :| 0 <= i < |t[1..]| && t[1..][i].0 == k;
          assert t[i + 1].0 == k;
        }
      }
    }
  }

  /** A count is either 0 (no entry) or the count of some entry. */
  lemma {:induction false} LookupIsEntry<K>(t: Tally<K>, k: K)
    ensures Lookup(t, k) == 0 || exists i :: 0 <= i < |t| && t[i].0 == k && t[i].1 == Lookup(t, k)
  {
    if |t| > 0 && t[0].0 != k {
      LookupIsEntry(t[1..], k);
      if Lookup(t, k) != 0 {
        var i :| 0 <= i < |t[1..]| && t[1..][i].0 == k && t[1..][i].1 == Lookup(t, k);
        assert t[i + 1] == t[1..][i];
      }
    }
  }

  /** With unique keys an entry's count is its key's count. */
  lemma {:induction false} LookupAt<K>(t: Tally<K>, i: nat)
    requires DistinctKeys(t) && i < |t|
    ensures Lookup(t, t[i].0) == t[i].1
  {
    if i > 0 {
      assert t[0].0 != t[i].0;
      assert t[1..][i - 1] == t[i];
      LookupAt(t[1..], i - 1);
    }
  }

  /** Python's `max(t.items(), key=count)`: the FIRST entry with the largest count. */
  function BestIndex<K>(t: Tally<K>): (i: nat)
    requires |t| > 0
    ensures i < |t|
    ensures forall j :: 0 <= j < |t| ==> t[j].1 <= t[i].1
    ensures forall j :: 0 <= j < i ==> t[j].1 < t[i].1
  {
    if |t| == 1 then 0
    else
      var k := BestIndex(t[1..]);
      assert forall j :: 1 <= j < |t| ==> t[j] == t[1..][j - 1];
      if t[0].1 >= t[k + 1].1 then 0 else k + 1
  }
}
