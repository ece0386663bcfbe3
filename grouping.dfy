/**
 * pandas' `value_counts()` and `groupby(key)[col].sum()` as folds from a
 * key column (and a value column) into a map, with the reference meaning of
 * each: the multiplicity of a key, and the sum over the rows of its group.
 * A key of `None` is a NaN name, which both operations drop; a value of
 * `None` is a NaN amount, which `sum()` skips.
 */
module Grouping {
  import opened Wrappers

  /** `series.get(key, 0)`. */
  function Get(m: map<string, real>, k: string): real {
    if k in m then m[k] else 0.0
  }

  /** `value_counts()`: how many rows carry each non-NaN key. */
  function CountBy(keys: seq<Option<string>>): map<string, nat> {
    if keys == [] then map[]
    else
      var m := CountBy(keys[1..]);
      match keys[0]
      case None => m
      case Some(k) => m[k := (if k in m then m[k] else 0) + 1]
  }

  /** The fold counts what it should: its keys are exactly the non-NaN keys of the
      column, and each count is that key's multiplicity in the column. */
  lemma {:induction false} CountByCounts(keys: seq<Option<string>>)
    ensures forall k :: k in CountBy(keys) <==> Some(k) in keys
    ensures forall k :: k in CountBy(keys) ==> CountBy(keys)[k] == multiset(keys)[Some(k)]
  {
    if keys != [] {
      CountByCounts(keys[1..]);
      assert keys == [keys[0]] + keys[1..];
    }
  }

  /** Counting the rows of two tables stacked one on the other (`pd.concat`) adds the counts. */
  lemma CountByAppend(a: seq<Option<string>>, b: seq<Option<string>>, k: string)
    ensures (k in CountBy(a + b) <==> k in CountBy(a) || k in CountBy(b))
    ensures k in CountBy(a + b) ==>
      CountBy(a + b)[k] == (if k in CountBy(a) then CountBy(a)[k] else 0)
                         + (if k in CountBy(b) then CountBy(b)[k] else 0)
  {
    CountByCounts(a);
    CountByCounts(b);
    CountByCounts(a + b);
    assert multiset(a + b) == multiset(a) + multiset(b);
  }

  /** `value_counts() / divisor`. */
  function CountsOver(m: map<string, nat>, divisor: nat): (r: map<string, real>)
    requires divisor > 0
    ensures r.Keys == m.Keys
  {
    map k | k in m :: m[k] as real / divisor as real
  }

  /** pandas' `sum()` of one group: NaN is skipped, so an empty or all-NaN group sums to 0. */
  function Sum(xs: seq<Option<real>>): real {
    if xs == [] then 0.0
    else (if xs[0].Some? then xs[0].value else 0.0) + Sum(xs[1..])
  }

  /** The values of the rows whose key is `k`, in row order: one group of `groupby`. */
  function Group(keys: seq<Option<string>>, vals: seq<Option<real>>, k: string): seq<Option<real>>
    requires |keys| == |vals|
  {
    if keys == [] then []
    else (if keys[0] == Some(k) then [vals[0]] else []) + Group(keys[1..], vals[1..], k)
  }

  /** `groupby(keys)[vals].sum()` as one pass over the rows. */
  function SumBy(keys: seq<Option<string>>, vals: seq<Option<real>>): map<string, real>
    requires |keys| == |vals|
  {
    if keys == [] then map[]
    else
      var m := SumBy(keys[1..], vals[1..]);
      match keys[0]
      case None => m
      case Some(k) => m[k := Get(m, k) + (if vals[0].Some? then vals[0].value else 0.0)]
  }

  /** The one-pass fold agrees with "split into groups, then sum each group": its keys
      are exactly the non-NaN keys, and each entry is the NaN-skipping sum of its group. */
  lemma {:induction false} SumByGroups(keys: seq<Option<string>>, vals: seq<Option<real>>)
    requires |keys| == |vals|
    ensures forall k :: k in SumBy(keys, vals) <==> Some(k) in keys
    ensures forall k :: k in SumBy(keys, vals) ==> SumBy(keys, vals)[k] == Sum(Group(keys, vals, k))
  {
    if keys != [] {
      SumByGroups(keys[1..], vals[1..]);
      assert keys == [keys[0]] + keys[1..];
      forall k | k in SumBy(keys, vals)
        ensures SumBy(keys, vals)[k] == Sum(Group(keys, vals, k))
      {
        var head: seq<Option<real>> := if keys[0] == Some(k) then [vals[0]] else [];
        assert Group(keys, vals, k) == head + Group(keys[1..], vals[1..], k);
        SumAppend(head, Group(keys[1..], vals[1..], k));
        if Some(k) !in keys[1..] {
          GroupEmpty(keys[1..], vals[1..], k);
        }
      }
    }
  }

  /** A group holds one value per row carrying its key. */
  lemma {:induction false} GroupSize(keys: seq<Option<string>>, vals: seq<Option<real>>, k: string)
    requires |keys| == |vals|
    ensures |Group(keys, vals, k)| == multiset(keys)[Some(k)]
  {
    if keys != [] {
      GroupSize(keys[1..], vals[1..], k);
      assert keys == [keys[0]] + keys[1..];
    }
  }

  lemma {:induction false} SumAppend(x: seq<Option<real>>, y: seq<Option<real>>)
    ensures Sum(x + y) == Sum(x) + Sum(y)
  {
    if x == [] {
      assert x + y == y;
    } else {
      assert (x + y)[1..] == x[1..] + y;
      SumAppend(x[1..], y);
    }
  }

  lemma {:induction false} GroupAppend(
    ka: seq<Option<string>>, va: seq<Option<real>>,
    kb: seq<Option<string>>, vb: seq<Option<real>>, k: string)
    requires |ka| == |va| && |kb| == |vb|
    ensures Group(ka + kb, va + vb, k) == Group(ka, va, k) + Group(kb, vb, k)
  {
    if ka == [] {
      assert ka + kb == kb && va + vb == vb;
    } else {
      var head := if ka[0] == Some(k) then [va[0]] else [];
      assert (ka + kb)[0] == ka[0] && (va + vb)[0] == va[0];
      assert (ka + kb)[1..] == ka[1..] + kb && (va + vb)[1..] == va[1..] + vb;
      assert Group(ka + kb, va + vb, k) == head + Group(ka[1..] + kb, va[1..] + vb, k);
      GroupAppend(ka[1..], va[1..], kb, vb, k);
      assert Group(ka, va, k) == head + Group(ka[1..], va[1..], k);
    }
  }

  /** Summing over two tables stacked one on the other (`pd.concat`) adds the per-key sums. */
  lemma SumByAppend(
    ka: seq<Option<string>>, va: seq<Option<real>>,
    kb: seq<Option<string>>, vb: seq<Option<real>>, k: string)
    requires |ka| == |va| && |kb| == |vb|
    ensures Get(SumBy(ka + kb, va + vb), k) == Get(SumBy(ka, va), k) + Get(SumBy(kb, vb), k)
  {
    SumByGroups(ka, va);
    SumByGroups(kb, vb);
    SumByGroups(ka + kb, va + vb);
    GroupAppend(ka, va, kb, vb, k);
    SumAppend(Group(ka, va, k), Group(kb, vb, k));
    if Some(k) !in ka { GroupEmpty(ka, va, k); }
    if Some(k) !in kb { GroupEmpty(kb, vb, k); }
  }

  lemma {:induction false} GroupEmpty(keys: seq<Option<string>>, vals: seq<Option<real>>, k: string)
    requires |keys| == |vals| && Some(k) !in keys
    ensures Group(keys, vals, k) == []
  {
    if keys != [] {
      assert Some(k) !in keys[1..];
      GroupEmpty(keys[1..], vals[1..], k);
    }
  }

  /** `value_counts()` and `groupby().sum()` over the same key column have the same keys. */
  lemma CountAndSumSameKeys(keys: seq<Option<string>>, vals: seq<Option<real>>)
    requires |keys| == |vals|
    ensures CountBy(keys).Keys == SumBy(keys, vals).Keys
  {
    CountByCounts(keys);
    SumByGroups(keys, vals);
  }
}
