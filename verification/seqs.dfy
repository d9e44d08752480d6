/** List operations shared by the handlers: `filter`, ordering by a key (the store's
    `orderBy`), `skip`/`take` paging, `findIndex` + `splice(index, 1)`, and sums (`reduce`). */
module Seqs {
  import opened Wrappers

  function Min(a: int, b: int): int {
    if a <= b then a else b
  }

  // ---------------------------------------------------------------- filter

  /** `s.filter(p)`. */
  function Filter<T(!new)>(s: seq<T>, p: T -> bool): (r: seq<T>)
    ensures |r| <= |s|
    ensures forall i :: 0 <= i < |r| ==> p(r[i])
    ensures forall x :: multiset(r)[x] == if p(x) then multiset(s)[x] else 0
  {
    if s == [] then []
    else
      assert s == [s[0]] + s[1..];
      if p(s[0]) then [s[0]] + Filter(s[1..], p) else Filter(s[1..], p)
  }

  lemma FilterMembership<T(!new)>(s: seq<T>, p: T -> bool, x: T)
    ensures x in Filter(s, p) <==> x in s && p(x)
  {
    assert x in Filter(s, p) <==> multiset(Filter(s, p))[x] > 0;
    assert x in s <==> multiset(s)[x] > 0;
  }

  // ---------------------------------------------------------------- ordering

  ghost predicate SortedBy<T>(s: seq<T>, key: T -> int) {
    forall i, j :: 0 <= i < j < |s| ==> key(s[i]) <= key(s[j])
  }

  function Insert<T>(x: T, s: seq<T>, key: T -> int): (r: seq<T>)
    requires SortedBy(s, key)
    ensures SortedBy(r, key)
    ensures multiset(r) == multiset(s) + multiset{x}
  {
    if s == [] || key(x) <= key(s[0]) then
      ConsSorted(x, s, key);
      [x] + s
    else
      var t := Insert(x, s[1..], key);
      assert s == [s[0]] + s[1..];
      forall i | 0 <= i < |t| ensures key(s[0]) <= key(t[i]) {
        assert t[i] in multiset(s[1..]) + multiset{x};
        if t[i] != x {
          assert t[i] in s[1..];
        }
      }
      ConsSorted(s[0], t, key);
      [s[0]] + t
  }

  lemma ConsSorted<T>(x: T, s: seq<T>, key: T -> int)
    requires SortedBy(s, key)
    requires s != [] ==> key(x) <= key(s[0])
    ensures SortedBy([x] + s, key)
  {
    var r := [x] + s;
    forall i, j | 0 <= i < j < |r| ensures key(r[i]) <= key(r[j]) {
      if i == 0 && j > 1 {
        assert key(s[0]) <= key(s[j - 1]);
      }
    }
  }

  /** The list ordered by ascending key (ties keep their original order), as `orderBy` returns it. */
  function SortBy<T>(s: seq<T>, key: T -> int): (r: seq<T>)
    ensures SortedBy(r, key)
    ensures multiset(r) == multiset(s)
    ensures |r| == |s|
  {
    if s == [] then []
    else
      assert s == [s[0]] + s[1..];
      Insert(s[0], SortBy(s[1..], key), key)
  }

  /** Filtering an ordered list keeps it ordered. */
  lemma {:induction false} FilterKeepsOrder<T(!new)>(s: seq<T>, p: T -> bool, key: T -> int)
    requires SortedBy(s, key)
    ensures SortedBy(Filter(s, p), key)
  {
    if s != [] {
      FilterKeepsOrder(s[1..], p, key);
      var t := Filter(s[1..], p);
      forall i | 0 <= i < |t| ensures key(s[0]) <= key(t[i]) {
        assert t[i] in multiset(s[1..]);
        assert t[i] in s[1..];
      }
    }
  }

  /** Picking elements of an ordered list in order, then the list's next element too,
      keeps the picks ordered: the next element's key is at least every earlier one's. */
  lemma SortedSubsequenceStep<T>(init: seq<T>, last: T, picked: seq<T>, key: T -> int)
    requires forall x :: x in picked ==> x in init
    ensures SortedBy(init + [last], key) && SortedBy(picked, key) ==> SortedBy(picked + [last], key)
  {
    if SortedBy(init + [last], key) && SortedBy(picked, key) {
      var s := init + [last];
      forall i | 0 <= i < |picked| ensures key(picked[i]) <= key(last) {
        assert picked[i] in init;
        var k :| 0 <= k < |init| && init[k] == picked[i];
        assert s[k] == picked[i] && s[|init|] == last;
      }
      var t := picked + [last];
      forall i, j | 0 <= i < j < |t| ensures key(t[i]) <= key(t[j]) {
        if j < |picked| {
          assert t[i] == picked[i] && t[j] == picked[j];
        } else {
          assert t[i] == picked[i] && t[j] == last;
        }
      }
    }
  }

  // ---------------------------------------------------------------- paging

  /** `skip`/`take`: at most `take` elements, starting at position `skip`. */
  function Page<T>(s: seq<T>, skip: nat, take: nat): (r: seq<T>)
    ensures |r| <= take
    ensures |r| == if skip >= |s| then 0 else Min(take, |s| - skip)
    ensures forall i :: 0 <= i < |r| ==> r[i] == s[skip + i]
  {
    if skip >= |s| then [] else s[skip..Min(skip + take, |s|)]
  }

  /** A page of an ordered list is ordered, and holds only elements of the list. */
  lemma PageOfSorted<T>(s: seq<T>, skip: nat, take: nat, key: T -> int)
    requires SortedBy(s, key)
    ensures SortedBy(Page(s, skip, take), key)
    ensures forall i :: 0 <= i < |Page(s, skip, take)| ==> Page(s, skip, take)[i] in s
  {
    var r := Page(s, skip, take);
    forall i, j | 0 <= i < j < |r| ensures key(r[i]) <= key(r[j]) {
      assert r[i] == s[skip + i] && r[j] == s[skip + j];
    }
  }

  /** The elements in the opposite order. */
  function Reverse<T>(s: seq<T>): (r: seq<T>)
    ensures |r| == |s|
    ensures forall i :: 0 <= i < |s| ==> r[i] == s[|s| - 1 - i]
  {
    seq(|s|, i requires 0 <= i < |s| => s[|s| - 1 - i])
  }

  /** A page counted from the end: at most `take` consecutive elements, ending `skip`
      elements before the end. It is what paging the reversed list and reversing the
      page back gives. */
  function PageFromEnd<T>(s: seq<T>, skip: nat, take: nat): (r: seq<T>)
    ensures |r| <= take
    ensures r == Reverse(Page(Reverse(s), skip, take))
  {
    var hi := if skip >= |s| then 0 else |s| - skip;
    var lo := if hi >= take then hi - take else 0;
    PageFromEndReverses(s, skip, take);
    s[lo..hi]
  }

  /** Taking n from the end without skipping gives the last n elements, or all of them. */
  lemma LastOnes<T>(s: seq<T>, n: nat)
    ensures PageFromEnd(s, 0, n) == if |s| <= n then s else s[|s| - n..]
  {
    if |s| <= n {
      assert s[0..|s|] == s;
    }
  }

  lemma PageFromEndReverses<T>(s: seq<T>, skip: nat, take: nat)
    ensures var hi := if skip >= |s| then 0 else |s| - skip;
      var lo := if hi >= take then hi - take else 0;
      s[lo..hi] == Reverse(Page(Reverse(s), skip, take))
  {
    var hi := if skip >= |s| then 0 else |s| - skip;
    var lo := if hi >= take then hi - take else 0;
    var p := Page(Reverse(s), skip, take);
    var r := Reverse(p);
    assert |r| == hi - lo;
    forall k | 0 <= k < |r| ensures r[k] == s[lo..hi][k] {
      assert r[k] == p[|p| - 1 - k];
      assert p[|p| - 1 - k] == Reverse(s)[skip + |p| - 1 - k];
    }
  }

  /** A page from the end of an ordered list is ordered, and holds only elements of the list. */
  lemma PageFromEndOfSorted<T>(s: seq<T>, skip: nat, take: nat, key: T -> int)
    requires SortedBy(s, key)
    ensures SortedBy(PageFromEnd(s, skip, take), key)
    ensures forall i :: 0 <= i < |PageFromEnd(s, skip, take)| ==> PageFromEnd(s, skip, take)[i] in s
  {
    var hi := if skip >= |s| then 0 else |s| - skip;
    var lo := if hi >= take then hi - take else 0;
    var r := PageFromEnd(s, skip, take);
    assert r == s[lo..hi];
    assert forall i :: 0 <= i < |r| ==> r[i] == s[lo + i];
    forall i, j | 0 <= i < j < |r| ensures key(r[i]) <= key(r[j]) {
      assert key(s[lo + i]) <= key(s[lo + j]);
    }
  }

  /** The number of pages, `Math.ceil(total / limit)` for a positive limit. */
  function PageCount(total: nat, limit: nat): (n: nat)
    requires limit > 0
    ensures n * limit >= total
    ensures n == 0 || (n - 1) * limit < total
  {
    (total + limit - 1) / limit
  }

  // ---------------------------------------------------------------- findIndex and splice

  /** `s.findIndex(x => key(x) === k)`, with None for -1. */
  function FirstIndex<T, K(==)>(s: seq<T>, key: T -> K, k: K): (r: Option<nat>)
    ensures r.Some? ==> r.value < |s| && key(s[r.value]) == k
    ensures r.Some? ==> forall j :: 0 <= j < r.value ==> key(s[j]) != k
    ensures r.None? ==> forall j :: 0 <= j < |s| ==> key(s[j]) != k
  {
    if s == [] then None
    else if key(s[0]) == k then Some(0)
    else
      match FirstIndex(s[1..], key, k)
      case None => None
      case Some(i) => Some(i + 1)
  }

  /** Drop the first element whose key is k; the rest keep their order. */
  function RemoveFirst<T, K(==)>(s: seq<T>, key: T -> K, k: K): (r: seq<T>)
  {
    if s == [] then []
    else if key(s[0]) == k then s[1..]
    else [s[0]] + RemoveFirst(s[1..], key, k)
  }

  /** RemoveFirst is `splice(findIndex(...), 1)`: it deletes exactly the first match,
      keeps everything else in order, and is the identity when nothing matches. */
  lemma {:induction false} RemoveFirstIsSplice<T, K>(s: seq<T>, key: T -> K, k: K)
    ensures FirstIndex(s, key, k).None? ==> RemoveFirst(s, key, k) == s
    ensures FirstIndex(s, key, k).Some? ==>
      var i := FirstIndex(s, key, k).value;
      RemoveFirst(s, key, k) == s[..i] + s[i + 1..]
  {
    if s != [] && key(s[0]) != k {
      RemoveFirstIsSplice(s[1..], key, k);
      match FirstIndex(s[1..], key, k)
      case None =>
      case Some(i) =>
        assert s[..i + 1] == [s[0]] + s[1..][..i];
        assert s[i + 2..] == s[1..][i + 1..];
    }
  }

  // ---------------------------------------------------------------- sums

  /** `s.reduce((sum, x) => sum + f(x), 0)`. */
  function SumBy<T>(s: seq<T>, f: T -> int): int
  {
    if s == [] then 0 else SumBy(s[..|s| - 1], f) + f(s[|s| - 1])
  }

  /** The same reduction over real values. */
  function SumByReal<T>(s: seq<T>, f: T -> real): real
  {
    if s == [] then 0.0 else SumByReal(s[..|s| - 1], f) + f(s[|s| - 1])
  }

  lemma {:induction false} SumByAppend<T>(s: seq<T>, t: seq<T>, f: T -> int)
    ensures SumBy(s + t, f) == SumBy(s, f) + SumBy(t, f)
  {
    if t != [] {
      assert (s + t)[..|s + t| - 1] == s + t[..|t| - 1];
      SumByAppend(s, t[..|t| - 1], f);
    } else {
      assert s + t == s;
    }
  }

  lemma {:induction false} SumByRealAppend<T>(s: seq<T>, t: seq<T>, f: T -> real)
    ensures SumByReal(s + t, f) == SumByReal(s, f) + SumByReal(t, f)
  {
    if t != [] {
      assert (s + t)[..|s + t| - 1] == s + t[..|t| - 1];
      SumByRealAppend(s, t[..|t| - 1], f);
    } else {
      assert s + t == s;
    }
  }

  /** Sums of non-negative terms are non-negative. */
  lemma {:induction false} SumByNonNegative<T>(s: seq<T>, f: T -> int)
    requires forall i :: 0 <= i < |s| ==> f(s[i]) >= 0
    ensures SumBy(s, f) >= 0
  {
    if s != [] {
      SumByNonNegative(s[..|s| - 1], f);
    }
  }

  /** Replacing one element changes the sum by the difference of the two terms. */
  lemma {:induction false} SumByUpdate<T>(s: seq<T>, k: nat, x: T, f: T -> int)
    requires k < |s|
    ensures SumBy(s[k := x], f) == SumBy(s, f) - f(s[k]) + f(x)
  {
    var t := s[k := x];
    if k == |s| - 1 {
      assert t[..|t| - 1] == s[..|s| - 1];
    } else {
      assert t[..|t| - 1] == s[..|s| - 1][k := x];
      SumByUpdate(s[..|s| - 1], k, x, f);
    }
  }

  lemma {:induction false} SumByRealUpdate<T>(s: seq<T>, k: nat, x: T, f: T -> real)
    requires k < |s|
    ensures SumByReal(s[k := x], f) == SumByReal(s, f) - f(s[k]) + f(x)
  {
    var t := s[k := x];
    if k == |s| - 1 {
      assert t[..|t| - 1] == s[..|s| - 1];
    } else {
      assert t[..|t| - 1] == s[..|s| - 1][k := x];
      SumByRealUpdate(s[..|s| - 1], k, x, f);
    }
  }

  /** Removing the element at k takes its term out of the sum. */
  lemma {:induction false} SumByRemove<T>(s: seq<T>, k: nat, f: T -> int)
    requires k < |s|
    ensures SumBy(s[..k] + s[k + 1..], f) == SumBy(s, f) - f(s[k])
  {
    var a, m, b := s[..k], [s[k]], s[k + 1..];
    assert s == a + m + b;
    SumByAppend(a + m, b, f);
    SumByAppend(a, m, f);
    SumByAppend(a, b, f);
    assert SumBy(m, f) == f(s[k]) by {
      assert m[..0] == [];
    }
  }
}
