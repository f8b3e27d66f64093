/**
 * Accumulating into a plain object keyed by a string, as the report loops do:
 * `if (!data[key]) data[key] = zero; data[key] = data[key] + v`. The buckets are
 * kept in order of first appearance.
 */
module Buckets {
  import opened Wrappers
  import opened Entities
  import Seqs

  datatype Bucket<K, V> = Bucket(key: K, value: V)

  function Keys<K, V>(bs: seq<Bucket<K, V>>): (ks: seq<K>)
    ensures |ks| == |bs| && forall i :: 0 <= i < |bs| ==> ks[i] == bs[i].key
  {
    seq(|bs|, i requires 0 <= i < |bs| => bs[i].key)
  }

  /** One contribution: a fresh bucket starts at `zero`, then the value is added. */
  function Add<K(==), V>(bs: seq<Bucket<K, V>>, k: K, v: V, zero: V, plus: (V, V) -> V): seq<Bucket<K, V>>
  {
    match FirstIndex(Keys(bs), k)
    case Some(i) => bs[i := Bucket(k, plus(bs[i].value, v))]
    case None => bs + [Bucket(k, plus(zero, v))]
  }

  /** The contributions one after the other. */
  function AddAll<K(==), V>(bs: seq<Bucket<K, V>>, cs: seq<(K, V)>, zero: V, plus: (V, V) -> V): seq<Bucket<K, V>>
  {
    if |cs| == 0 then bs
    else Add(AddAll(bs, cs[..|cs| - 1], zero, plus), cs[|cs| - 1].0, cs[|cs| - 1].1, zero, plus)
  }

  lemma AddAllSnoc<K, V>(bs: seq<Bucket<K, V>>, cs: seq<(K, V)>, c: (K, V), zero: V, plus: (V, V) -> V)
    ensures AddAll(bs, cs + [c], zero, plus) == Add(AddAll(bs, cs, zero, plus), c.0, c.1, zero, plus)
  {
    assert (cs + [c])[..|cs|] == cs;
  }

  /** The keys of the contributions, in order. */
  function KeysOf<K, V>(cs: seq<(K, V)>): (ks: seq<K>)
    ensures |ks| == |cs| && forall j :: 0 <= j < |cs| ==> ks[j] == cs[j].0
  {
    seq(|cs|, j requires 0 <= j < |cs| => cs[j].0)
  }

  /** Adding leaves the keys alone when the key has a bucket, and appends it otherwise. */
  lemma AddKeys<K, V>(bs: seq<Bucket<K, V>>, k: K, v: V, zero: V, plus: (V, V) -> V)
    ensures Keys(Add(bs, k, v, zero, plus)) == if k in Keys(bs) then Keys(bs) else Keys(bs) + [k]
  {
  }

  /** Starting from no buckets, the buckets' keys are the contributions' keys in order of first appearance. */
  lemma {:induction false} AddAllKeys<K, V>(cs: seq<(K, V)>, zero: V, plus: (V, V) -> V)
    ensures Keys(AddAll([], cs, zero, plus)) == Seqs.Dedup(KeysOf(cs))
  {
    if |cs| > 0 {
      var init := cs[..|cs| - 1];
      AddAllKeys(init, zero, plus);
      assert KeysOf(cs)[..|cs| - 1] == KeysOf(init);
      AddKeys(AddAll([], init, zero, plus), cs[|cs| - 1].0, cs[|cs| - 1].1, zero, plus);
    }
  }

  /** What the contributions for key `k` add up to, starting from `zero`. */
  function SumFor<K(==), V>(cs: seq<(K, V)>, k: K, zero: V, plus: (V, V) -> V): V
  {
    if |cs| == 0 then zero
    else
      var s := SumFor(cs[..|cs| - 1], k, zero, plus);
      if cs[|cs| - 1].0 == k then plus(s, cs[|cs| - 1].1) else s
  }

  predicate DistinctKeys<K(==), V>(bs: seq<Bucket<K, V>>)
  {
    forall a, b :: 0 <= a < b < |bs| ==> bs[a].key != bs[b].key
  }

  /** There is a bucket for exactly the keys that some contribution names. */
  predicate Covers<K(==), V>(cs: seq<(K, V)>, bs: seq<Bucket<K, V>>)
  {
    (forall j :: 0 <= j < |cs| ==> cs[j].0 in Keys(bs))
    && (forall i :: 0 <= i < |bs| ==> exists j :: 0 <= j < |cs| && cs[j].0 == bs[i].key)
  }

  /** Each bucket holds the sum of the contributions for its key. */
  ghost predicate Sums<K, V>(cs: seq<(K, V)>, bs: seq<Bucket<K, V>>, zero: V, plus: (V, V) -> V)
  {
    forall i :: 0 <= i < |bs| ==> bs[i].value == SumFor(cs, bs[i].key, zero, plus)
  }

  lemma SumForAbsent<K, V>(cs: seq<(K, V)>, k: K, zero: V, plus: (V, V) -> V)
    requires forall j :: 0 <= j < |cs| ==> cs[j].0 != k
    ensures SumFor(cs, k, zero, plus) == zero
  {
    if |cs| > 0 {
      SumForAbsent(cs[..|cs| - 1], k, zero, plus);
    }
  }

  lemma StepKeys<K, V>(cs: seq<(K, V)>, prev: seq<Bucket<K, V>>, zero: V, plus: (V, V) -> V)
    requires |cs| > 0 && DistinctKeys(prev) && Covers(cs[..|cs| - 1], prev)
    ensures var bs := Add(prev, cs[|cs| - 1].0, cs[|cs| - 1].1, zero, plus);
      DistinctKeys(bs) && Covers(cs, bs)
  {
    var init := cs[..|cs| - 1];
    var c := cs[|cs| - 1];
    var bs := Add(prev, c.0, c.1, zero, plus);
    assert forall j :: 0 <= j < |init| ==> init[j] == cs[j];
    match FirstIndex(Keys(prev), c.0)
    case Some(k) =>
      assert Keys(bs) == Keys(prev);
      forall i | 0 <= i < |bs|
        ensures exists j :: 0 <= j < |cs| && cs[j].0 == bs[i].key
      {
        var j :| 0 <= j < |init| && init[j].0 == prev[i].key;
        assert cs[j].0 == bs[i].key;
      }
    case None =>
      assert Keys(bs) == Keys(prev) + [c.0];
      forall i | 0 <= i < |bs|
        ensures exists j :: 0 <= j < |cs| && cs[j].0 == bs[i].key
      {
        if i < |prev| {
          var j :| 0 <= j < |init| && init[j].0 == prev[i].key;
          assert cs[j].0 == bs[i].key;
        } else {
          assert cs[|cs| - 1].0 == bs[i].key;
        }
      }
  }

  lemma StepSums<K, V>(cs: seq<(K, V)>, prev: seq<Bucket<K, V>>, zero: V, plus: (V, V) -> V)
    requires |cs| > 0 && DistinctKeys(prev) && Covers(cs[..|cs| - 1], prev) && Sums(cs[..|cs| - 1], prev, zero, plus)
    ensures Sums(cs, Add(prev, cs[|cs| - 1].0, cs[|cs| - 1].1, zero, plus), zero, plus)
  {
    var init := cs[..|cs| - 1];
    var c := cs[|cs| - 1];
    var bs := Add(prev, c.0, c.1, zero, plus);
    match FirstIndex(Keys(prev), c.0)
    case Some(k) =>
      forall i | 0 <= i < |bs|
        ensures bs[i].value == SumFor(cs, bs[i].key, zero, plus)
      {
        if i != k {
          assert prev[i].key != prev[k].key;
        }
      }
    case None =>
      forall j | 0 <= j < |init|
        ensures init[j].0 != c.0
      {
        assert init[j].0 in Keys(prev);
      }
      SumForAbsent(init, c.0, zero, plus);
  }

  /**
   * Starting from no buckets, there is one bucket per key in order of first appearance,
   * and each holds the sum of that key's contributions.
   */
  lemma {:induction false} AddAllDescribes<K, V>(cs: seq<(K, V)>, zero: V, plus: (V, V) -> V)
    ensures var bs := AddAll([], cs, zero, plus);
      DistinctKeys(bs) && Covers(cs, bs) && Sums(cs, bs, zero, plus)
    ensures Keys(AddAll([], cs, zero, plus)) == Seqs.Dedup(KeysOf(cs))
  {
    AddAllKeys(cs, zero, plus);
    if |cs| > 0 {
      var prev := AddAll([], cs[..|cs| - 1], zero, plus);
      AddAllDescribes(cs[..|cs| - 1], zero, plus);
      StepKeys(cs, prev, zero, plus);
      StepSums(cs, prev, zero, plus);
    }
  }
}
