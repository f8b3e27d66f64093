/**
 * `Array.prototype.filter`, and the stable sort behind `Array.prototype.sort` with a comparator, as the queue display
 * and the product ranking use it. `le(a, b)` says `a` may stand before `b` (the comparator
 * returns a value <= 0). For a comparator that is a total preorder every stable sort gives
 * the same arrangement, so an insertion sort stands for the library's one.
 */
module Seqs {

  /** The elements that pass `keep`, in their original order. */
  function Filter<T>(s: seq<T>, keep: T -> bool): (r: seq<T>)
    ensures forall k :: 0 <= k < |r| ==> keep(r[k])
    ensures |r| <= |s|
  {
    if |s| == 0 then []
    else Filter(s[..|s| - 1], keep) + (if keep(s[|s| - 1]) then [s[|s| - 1]] else [])
  }

  /** `Array.prototype.map`. */
  function Map<T, U>(s: seq<T>, f: T -> U): (r: seq<U>)
    ensures |r| == |s| && forall k :: 0 <= k < |s| ==> r[k] == f(s[k])
  {
    seq(|s|, k requires 0 <= k < |s| => f(s[k]))
  }

  lemma MapConcat<T, U>(a: seq<T>, b: seq<T>, f: T -> U)
    ensures Map(a + b, f) == Map(a, f) + Map(b, f)
  {
  }

  /** The prefix one longer than `s[..i]` is `s[..i]` and `s[i]`. */
  lemma PrefixSnoc<T>(s: seq<T>, i: nat)
    requires i < |s|
    ensures s[..i + 1] == s[..i] + [s[i]] && s[..i + 1][..i] == s[..i]
  {
  }

  /** Dropping the last element of `a + b` drops the last element of `b`. */
  lemma ConcatDropLast<T>(a: seq<T>, b: seq<T>)
    requires |b| > 0
    ensures (a + b)[..|a + b| - 1] == a + b[..|b| - 1]
  {
  }

  /** A non-empty sequence is its prefix followed by its last element. */
  lemma SplitLast<T>(s: seq<T>)
    requires |s| > 0
    ensures s == s[..|s| - 1] + [s[|s| - 1]]
  {
  }

  /** Extending a prefix of `b` appended to `a` by one element of `b`. */
  lemma AppendPrefixSnoc<T>(a: seq<T>, b: seq<T>, j: nat)
    requires j < |b|
    ensures a + b[..j + 1] == (a + b[..j]) + [b[j]]
  {
    assert b[..j + 1] == b[..j] + [b[j]];
  }

  /** The filter of a sequence grown by one element. */
  lemma FilterSnoc<T>(s: seq<T>, x: T, keep: T -> bool)
    ensures Filter(s + [x], keep) == Filter(s, keep) + (if keep(x) then [x] else [])
  {
    assert (s + [x])[..|s|] == s;
  }

  /** Each element passes as often as it occurs, or not at all. */
  lemma {:induction false} FilterCount<T>(s: seq<T>, keep: T -> bool, x: T)
    ensures multiset(Filter(s, keep))[x] == if keep(x) then multiset(s)[x] else 0
  {
    if |s| > 0 {
      FilterCount(s[..|s| - 1], keep, x);
      assert s == s[..|s| - 1] + [s[|s| - 1]];
    }
  }

  lemma {:induction false} FilterConcat<T>(a: seq<T>, b: seq<T>, keep: T -> bool)
    ensures Filter(a + b, keep) == Filter(a, keep) + Filter(b, keep)
  {
    if |b| > 0 {
      ConcatDropLast(a, b);
      FilterConcat(a, b[..|b| - 1], keep);
    } else {
      assert a + b == a;
    }
  }

  lemma {:induction false} FilterAll<T>(s: seq<T>, keep: T -> bool)
    requires forall k :: 0 <= k < |s| ==> keep(s[k])
    ensures Filter(s, keep) == s
  {
    if |s| > 0 {
      FilterAll(s[..|s| - 1], keep);
      assert s == s[..|s| - 1] + [s[|s| - 1]];
    }
  }

  lemma {:induction false} FilterNone<T>(s: seq<T>, keep: T -> bool)
    requires forall k :: 0 <= k < |s| ==> !keep(s[k])
    ensures Filter(s, keep) == []
  {
    if |s| > 0 {
      FilterNone(s[..|s| - 1], keep);
    }
  }

  /** The elements of `s`, each once, in order of first appearance. */
  function Dedup<T(==)>(s: seq<T>): (d: seq<T>)
    ensures forall a, b :: 0 <= a < b < |d| ==> d[a] != d[b]
    ensures forall a :: 0 <= a < |d| ==> d[a] in s
    ensures forall k :: 0 <= k < |s| ==> s[k] in d
  {
    if |s| == 0 then []
    else
      var d := Dedup(s[..|s| - 1]);
      assert forall k :: 0 <= k < |s| - 1 ==> s[k] == s[..|s| - 1][k];
      if s[|s| - 1] in d then d else d + [s[|s| - 1]]
  }

  /** Before any occurrence in `s` of an entry of `d` there is an occurrence of every earlier entry. */
  predicate FirstSeenInOrder<T(==)>(s: seq<T>, d: seq<T>)
  {
    forall a, b, j :: 0 <= a < b < |d| && 0 <= j < |s| && s[j] == d[b] ==> d[a] in s[..j]
  }

  /**
   * Dedup keeps the order of first appearance: before any occurrence of a later entry
   * there is already an occurrence of every earlier one.
   */
  lemma {:induction false} DedupOrdered<T>(s: seq<T>)
    ensures FirstSeenInOrder(s, Dedup(s))
  {
    if |s| > 0 {
      var init := s[..|s| - 1];
      var x := s[|s| - 1];
      var prev := Dedup(init);
      var d := Dedup(s);
      DedupOrdered(init);
      forall a, b, j | 0 <= a < b < |d| && 0 <= j < |s| && s[j] == d[b]
        ensures d[a] in s[..j]
      {
        assert a < |prev|;
        assert d[a] == prev[a] && d[a] in init;
        if j < |s| - 1 {
          assert s[j] == init[j] && init[..j] == s[..j];
          assert b < |prev| && d[b] == prev[b];
          assert FirstSeenInOrder(init, prev);
          assert prev[a] in init[..j];
        } else {
          assert s[..j] == init;
        }
      }
    }
  }

  ghost predicate Total<T(!new)>(le: (T, T) -> bool)
  {
    forall a, b :: le(a, b) || le(b, a)
  }

  ghost predicate Transitive<T(!new)>(le: (T, T) -> bool)
  {
    forall a, b, c :: le(a, b) && le(b, c) ==> le(a, c)
  }

  predicate SortedBy<T>(s: seq<T>, le: (T, T) -> bool)
  {
    forall i, j :: 0 <= i < j < |s| ==> le(s[i], s[j])
  }

  /** Put `x` after every element that may stand before it, and before the rest. */
  function InsertBy<T>(x: T, s: seq<T>, le: (T, T) -> bool): (r: seq<T>)
    ensures multiset(r) == multiset(s) + multiset{x}
    ensures |r| == |s| + 1
  {
    if |s| == 0 then [x]
    else if le(s[|s| - 1], x) then s + [x]
    else
      assert s == s[..|s| - 1] + [s[|s| - 1]];
      InsertBy(x, s[..|s| - 1], le) + [s[|s| - 1]]
  }

  /** Insert the elements one by one, front to back. */
  function SortBy<T>(s: seq<T>, le: (T, T) -> bool): (r: seq<T>)
    ensures multiset(r) == multiset(s)
    ensures |r| == |s|
  {
    if |s| == 0 then []
    else
      assert s == s[..|s| - 1] + [s[|s| - 1]];
      InsertBy(s[|s| - 1], SortBy(s[..|s| - 1], le), le)
  }

  /** A filtered sorted sequence is still sorted. */
  lemma {:induction false} FilterSorted<T>(s: seq<T>, keep: T -> bool, le: (T, T) -> bool)
    requires SortedBy(s, le)
    ensures SortedBy(Filter(s, keep), le)
  {
    if |s| > 0 {
      var init := s[..|s| - 1];
      var last := s[|s| - 1];
      FilterSorted(init, keep, le);
      var u := Filter(init, keep);
      forall i | 0 <= i < |u| ensures le(u[i], last)
      {
        FilterCount(init, keep, u[i]);
        assert u[i] in multiset(u);
        assert u[i] in multiset(init);
        var k :| 0 <= k < |init| && init[k] == u[i];
        assert s[k] == u[i];
      }
    }
  }

  lemma {:induction false} InsertBySorted<T(!new)>(x: T, s: seq<T>, le: (T, T) -> bool)
    requires Total(le) && Transitive(le) && SortedBy(s, le)
    ensures SortedBy(InsertBy(x, s, le), le)
  {
    if |s| > 0 && !le(s[|s| - 1], x) {
      var init := s[..|s| - 1];
      var last := s[|s| - 1];
      assert SortedBy(init, le);
      InsertBySorted(x, init, le);
      InsertByBelow(x, init, last, le);
      SortedSnoc(InsertBy(x, init, le), last, le);
    }
  }

  /** Inserting an element that may stand before `last` into elements that all may keeps them so. */
  lemma InsertByBelow<T(!new)>(x: T, s: seq<T>, last: T, le: (T, T) -> bool)
    requires le(x, last) && forall k :: 0 <= k < |s| ==> le(s[k], last)
    ensures forall i :: 0 <= i < |InsertBy(x, s, le)| ==> le(InsertBy(x, s, le)[i], last)
  {
    var r := InsertBy(x, s, le);
    forall i | 0 <= i < |r| ensures le(r[i], last)
    {
      assert r[i] in multiset(r);
      if r[i] != x {
        assert r[i] in multiset(s);
        var k :| 0 <= k < |s| && s[k] == r[i];
      }
    }
  }

  lemma SortedSnoc<T>(s: seq<T>, last: T, le: (T, T) -> bool)
    requires SortedBy(s, le) && forall k :: 0 <= k < |s| ==> le(s[k], last)
    ensures SortedBy(s + [last], le)
  {
  }

  /** The result is in order. */
  lemma {:induction false} SortBySorted<T(!new)>(s: seq<T>, le: (T, T) -> bool)
    requires Total(le) && Transitive(le)
    ensures SortedBy(SortBy(s, le), le)
  {
    if |s| > 0 {
      SortBySorted(s[..|s| - 1], le);
      InsertBySorted(s[|s| - 1], SortBy(s[..|s| - 1], le), le);
    }
  }

  /** The elements that tie with `k` (each may stand before the other), in order. */
  function Ties<T>(s: seq<T>, k: T, le: (T, T) -> bool): seq<T>
  {
    Filter(s, y => le(y, k) && le(k, y))
  }

  lemma TiesConcat<T>(a: seq<T>, b: seq<T>, k: T, le: (T, T) -> bool)
    ensures Ties(a + b, k, le) == Ties(a, k, le) + Ties(b, k, le)
  {
    FilterConcat(a, b, y => le(y, k) && le(k, y));
  }

  lemma {:induction false} InsertByTies<T(!new)>(x: T, s: seq<T>, k: T, le: (T, T) -> bool)
    requires Total(le) && Transitive(le)
    ensures Ties(InsertBy(x, s, le), k, le) == Ties(s, k, le) + Ties([x], k, le)
  {
    if |s| == 0 {
      assert InsertBy(x, s, le) == [x];
    } else if le(s[|s| - 1], x) {
      TiesConcat(s, [x], k, le);
    } else {
      var init := s[..|s| - 1];
      var last := s[|s| - 1];
      assert s == init + [last];
      InsertByTies(x, init, k, le);
      TiesConcat(InsertBy(x, init, le), [last], k, le);
      TiesConcat(init, [last], k, le);
      assert [last][..0] == [] && [x][..0] == [];
      assert Ties([last], k, le) == [] || Ties([x], k, le) == [];
    }
  }

  /** Stability: the elements that tie with any `k` keep their original order. */
  lemma {:induction false} SortByStable<T(!new)>(s: seq<T>, k: T, le: (T, T) -> bool)
    requires Total(le) && Transitive(le)
    ensures Ties(SortBy(s, le), k, le) == Ties(s, k, le)
  {
    if |s| > 0 {
      var init, last := s[..|s| - 1], s[|s| - 1];
      SplitLast(s);
      var sorted := SortBy(init, le);
      SortByStable(init, k, le);
      InsertByTies(last, sorted, k, le);
      TiesConcat(init, [last], k, le);
    }
  }
}
