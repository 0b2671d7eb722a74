/**
 * The LINQ query operators the services apply to their tables, on
 * sequences: `Where`, `Sum` over a selector, `Count` with a predicate,
 * `OrderByDescending`, `Skip`/`Take` and the page they form.
 */
module Listing {

  /** `Where(p)`: the elements satisfying `p`, in their original order. */
  function Filter<T>(s: seq<T>, p: T -> bool): (r: seq<T>)
    ensures |r| <= |s|
    ensures forall i :: 0 <= i < |r| ==> p(r[i])
    ensures forall i :: 0 <= i < |r| ==> r[i] in s
    ensures forall i :: 0 <= i < |s| && p(s[i]) ==> s[i] in r
    ensures multiset(r) <= multiset(s)
  {
    if |s| == 0 then []
    else
      assert s == [s[0]] + s[1..];
      if p(s[0]) then [s[0]] + Filter(s[1..], p)
      else Filter(s[1..], p)
  }

  lemma {:induction false} FilterAppend<T>(a: seq<T>, b: seq<T>, p: T -> bool)
    ensures Filter(a + b, p) == Filter(a, p) + Filter(b, p)
    decreases |a|
  {
    if |a| > 0 {
      assert (a + b)[1..] == a[1..] + b;
      FilterAppend(a[1..], b, p);
    } else {
      assert a + b == b;
    }
  }

  /** Filtering twice by the same predicate changes nothing. */
  lemma {:induction false} FilterIdempotent<T>(s: seq<T>, p: T -> bool)
    ensures Filter(Filter(s, p), p) == Filter(s, p)
    decreases |s|
  {
    if |s| > 0 {
      FilterIdempotent(s[1..], p);
      if p(s[0]) {
        assert ([s[0]] + Filter(s[1..], p))[1..] == Filter(s[1..], p);
      }
    }
  }

  /** Two successive `Where` clauses keep exactly what their conjunction keeps. */
  lemma {:induction false} FilterFilter<T>(s: seq<T>, p: T -> bool, q: T -> bool, r: T -> bool)
    requires forall x :: r(x) <==> p(x) && q(x)
    ensures Filter(Filter(s, p), q) == Filter(s, r)
    decreases |s|
  {
    if |s| > 0 {
      FilterFilter(s[1..], p, q, r);
      if p(s[0]) {
        assert ([s[0]] + Filter(s[1..], p))[1..] == Filter(s[1..], p);
      }
    }
  }

  /** Filters whose predicates agree everywhere keep the same elements. */
  lemma {:induction false} FilterSame<T>(s: seq<T>, p: T -> bool, q: T -> bool)
    requires forall x :: p(x) == q(x)
    ensures Filter(s, p) == Filter(s, q)
    decreases |s|
  {
    if |s| > 0 {
      FilterSame(s[1..], p, q);
    }
  }

  /** A filter whose predicate holds everywhere keeps the whole sequence. */
  lemma {:induction false} FilterAll<T>(s: seq<T>, p: T -> bool)
    requires forall i :: 0 <= i < |s| ==> p(s[i])
    ensures Filter(s, p) == s
    decreases |s|
  {
    if |s| > 0 {
      FilterAll(s[1..], p);
    }
  }

  /** Replacing an element that the filter drops by another it drops leaves the filtered list as it was. */
  lemma {:induction false} FilterUpdate<T>(s: seq<T>, k: int, x: T, p: T -> bool)
    requires 0 <= k < |s| && !p(s[k]) && !p(x)
    ensures Filter(s[k := x], p) == Filter(s, p)
    decreases |s|
  {
    if k > 0 {
      assert s[k := x][1..] == s[1..][k - 1 := x];
      FilterUpdate(s[1..], k - 1, x, p);
    } else {
      assert s[k := x][1..] == s[1..];
    }
  }

  /** Removing an element that the filter drops leaves the filtered list as it was. */
  lemma {:induction false} FilterRemove<T>(s: seq<T>, k: int, p: T -> bool)
    requires 0 <= k < |s| && !p(s[k])
    ensures Filter(s[..k] + s[k + 1..], p) == Filter(s, p)
  {
    var a, b := s[..k], s[k + 1..];
    var front := a + [s[k]];
    assert s == front + b;
    FilterAppend(front, b, p);
    FilterAppend(a, [s[k]], p);
    FilterCons(s[k], [], p);
    assert [s[k]] + [] == [s[k]];
    assert Filter(front, p) == Filter(a, p);
    FilterAppend(a, b, p);
  }

  /** `Sum(f)`: the selector summed over the sequence. */
  function SumOver<T>(s: seq<T>, f: T -> real): real
  {
    if |s| == 0 then 0.0 else f(s[0]) + SumOver(s[1..], f)
  }

  lemma {:induction false} SumOverAppend<T>(a: seq<T>, b: seq<T>, f: T -> real)
    ensures SumOver(a + b, f) == SumOver(a, f) + SumOver(b, f)
    decreases |a|
  {
    if |a| == 0 {
      assert a + b == b;
    } else {
      assert (a + b)[1..] == a[1..] + b;
      SumOverAppend(a[1..], b, f);
    }
  }

  /** One more element at the end adds its selector value. */
  lemma SumOverSnoc<T>(s: seq<T>, x: T, f: T -> real)
    ensures SumOver(s + [x], f) == SumOver(s, f) + f(x)
  {
    SumOverAppend(s, [x], f);
    assert [x][1..] == [];
  }

  /** Replacing one element changes the sum by the difference of the two selector values. */
  lemma {:induction false} SumOverUpdate<T>(s: seq<T>, i: int, x: T, f: T -> real)
    requires 0 <= i < |s|
    ensures SumOver(s[i := x], f) == SumOver(s, f) - f(s[i]) + f(x)
    decreases |s|
  {
    if i > 0 {
      assert s[i := x][1..] == s[1..][i - 1 := x];
      SumOverUpdate(s[1..], i - 1, x, f);
    } else {
      assert s[i := x][1..] == s[1..];
    }
  }

  /** Elements whose selector is 0 do not contribute. */
  lemma {:induction false} SumOverZero<T>(s: seq<T>, f: T -> real)
    requires forall i :: 0 <= i < |s| ==> f(s[i]) == 0.0
    ensures SumOver(s, f) == 0.0
    decreases |s|
  {
    if |s| > 0 {
      SumOverZero(s[1..], f);
    }
  }

  lemma {:induction false} SumOverNonNegative<T>(s: seq<T>, f: T -> real)
    requires forall i :: 0 <= i < |s| ==> f(s[i]) >= 0.0
    ensures SumOver(s, f) >= 0.0
    decreases |s|
  {
    if |s| > 0 {
      SumOverNonNegative(s[1..], f);
    }
  }

  /** `Count(p)`. */
  function CountWhere<T>(s: seq<T>, p: T -> bool): (r: nat)
    ensures r <= |s|
  {
    if |s| == 0 then 0 else (if p(s[0]) then 1 else 0) + CountWhere(s[1..], p)
  }

  lemma {:induction false} CountWhereIsFilterLength<T>(s: seq<T>, p: T -> bool)
    ensures CountWhere(s, p) == |Filter(s, p)|
    decreases |s|
  {
    if |s| > 0 {
      CountWhereIsFilterLength(s[1..], p);
    }
  }

  lemma {:induction false} CountWhereAppend<T>(a: seq<T>, b: seq<T>, p: T -> bool)
    ensures CountWhere(a + b, p) == CountWhere(a, p) + CountWhere(b, p)
    decreases |a|
  {
    if |a| == 0 {
      assert a + b == b;
    } else {
      assert (a + b)[1..] == a[1..] + b;
      CountWhereAppend(a[1..], b, p);
    }
  }

  /** One more element at the end counts if it satisfies `p`. */
  lemma CountWhereSnoc<T>(s: seq<T>, x: T, p: T -> bool)
    ensures CountWhere(s + [x], p) == CountWhere(s, p) + (if p(x) then 1 else 0)
  {
    CountWhereAppend(s, [x], p);
    assert [x][1..] == [];
  }

  /** A count of 0 means no element satisfies `p`. */
  lemma {:induction false} CountWhereZero<T>(s: seq<T>, p: T -> bool, i: int)
    requires CountWhere(s, p) == 0 && 0 <= i < |s|
    ensures !p(s[i])
    decreases |s|
  {
    if i > 0 {
      CountWhereZero(s[1..], p, i - 1);
    }
  }

  /** An element satisfying `p` makes the count positive. */
  lemma {:induction false} CountWherePositive<T>(s: seq<T>, p: T -> bool, i: int)
    requires 0 <= i < |s| && p(s[i])
    ensures CountWhere(s, p) > 0
    decreases |s|
  {
    if i > 0 {
      CountWherePositive(s[1..], p, i - 1);
    }
  }

  /** Counting `p` and counting its negation `q` splits the sequence. */
  lemma {:induction false} CountWhereComplement<T>(s: seq<T>, p: T -> bool, q: T -> bool)
    requires forall i :: 0 <= i < |s| ==> (q(s[i]) <==> !p(s[i]))
    ensures CountWhere(s, p) + CountWhere(s, q) == |s|
    decreases |s|
  {
    if |s| > 0 {
      CountWhereComplement(s[1..], p, q);
    }
  }

  /** `Where(p)` and `Where(q)` with `q` the negation of `p` split a sequence: each element lands in exactly one. */
  lemma {:induction false} FilterSplit<T>(s: seq<T>, p: T -> bool, q: T -> bool)
    requires forall i :: 0 <= i < |s| ==> (q(s[i]) <==> !p(s[i]))
    ensures multiset(Filter(s, p)) + multiset(Filter(s, q)) == multiset(s)
    decreases |s|
  {
    if |s| > 0 {
      FilterSplit(s[1..], p, q);
      assert s == [s[0]] + s[1..];
    }
  }

  /** A filter whose predicate holds nowhere keeps nothing. */
  lemma {:induction false} FilterNone<T>(s: seq<T>, p: T -> bool)
    requires forall i :: 0 <= i < |s| ==> !p(s[i])
    ensures Filter(s, p) == []
    decreases |s|
  {
    if |s| > 0 {
      FilterNone(s[1..], p);
    }
  }

  /** Summing a selector scaled by a constant scales the sum. */
  lemma {:induction false} SumOverScaled<T>(s: seq<T>, f: T -> real, g: T -> real, c: real)
    requires forall i :: 0 <= i < |s| ==> g(s[i]) == f(s[i]) * c
    ensures SumOver(s, g) == SumOver(s, f) * c
    decreases |s|
  {
    if |s| > 0 {
      SumOverScaled(s[1..], f, g, c);
    }
  }

  /** A selector that is pointwise the sum of two others sums to the sum of their sums. */
  lemma {:induction false} SumOverAdd<T>(s: seq<T>, f: T -> real, g: T -> real, h: T -> real)
    requires forall i :: 0 <= i < |s| ==> f(s[i]) == g(s[i]) + h(s[i])
    ensures SumOver(s, f) == SumOver(s, g) + SumOver(s, h)
    decreases |s|
  {
    if |s| > 0 {
      SumOverAdd(s[1..], f, g, h);
    }
  }

  /** A selector that is `c` where `p` holds and 0 elsewhere sums to `c` times the count. */
  lemma {:induction false} SumOverIndicator<T>(s: seq<T>, p: T -> bool, f: T -> real, c: real)
    requires forall i :: 0 <= i < |s| ==> f(s[i]) == (if p(s[i]) then c else 0.0)
    ensures SumOver(s, f) == CountWhere(s, p) as real * c
    decreases |s|
  {
    if |s| > 0 {
      SumOverIndicator(s[1..], p, f, c);
      MulAddInt(CountWhere(s[1..], p), c);
    }
  }

  lemma MulAddInt(n: int, c: real)
    ensures (n + 1) as real * c == n as real * c + c
  {
  }

  /** With a non-negative selector, a filtered sum is at most the whole sum. */
  lemma {:induction false} SumOverFilterAtMost<T>(s: seq<T>, p: T -> bool, f: T -> real)
    requires forall i :: 0 <= i < |s| ==> f(s[i]) >= 0.0
    ensures SumOver(Filter(s, p), f) <= SumOver(s, f)
    decreases |s|
  {
    if |s| > 0 {
      SumOverFilterAtMost(s[1..], p, f);
    }
  }

  /** With a non-negative selector, one positive element makes the sum positive. */
  lemma {:induction false} SumOverPositive<T>(s: seq<T>, f: T -> real, k: int)
    requires forall i :: 0 <= i < |s| ==> f(s[i]) >= 0.0
    requires 0 <= k < |s| && f(s[k]) > 0.0
    ensures SumOver(s, f) > 0.0
    decreases |s|
  {
    if k == 0 {
      SumOverNonNegative(s[1..], f);
    } else {
      SumOverPositive(s[1..], f, k - 1);
    }
  }

  /** Pointwise comparison of two selectors carries over to their sums. */
  lemma {:induction false} SumOverMonotone<T>(s: seq<T>, f: T -> real, g: T -> real)
    requires forall i :: 0 <= i < |s| ==> f(s[i]) <= g(s[i])
    ensures SumOver(s, f) <= SumOver(s, g)
    decreases |s|
  {
    if |s| > 0 {
      SumOverMonotone(s[1..], f, g);
    }
  }

  /** With a non-negative selector, no single element exceeds the sum. */
  lemma {:induction false} SumOverElement<T>(s: seq<T>, f: T -> real, k: int)
    requires forall i :: 0 <= i < |s| ==> f(s[i]) >= 0.0
    requires 0 <= k < |s|
    ensures f(s[k]) <= SumOver(s, f)
    decreases |s|
  {
    if k == 0 {
      SumOverNonNegative(s[1..], f);
    } else {
      SumOverElement(s[1..], f, k - 1);
    }
  }

  /** Reordering does not change a sum. */
  lemma {:induction false} SumOverPermutation<T>(a: seq<T>, b: seq<T>, f: T -> real)
    requires multiset(a) == multiset(b)
    ensures SumOver(a, f) == SumOver(b, f)
    decreases |a|
  {
    if |a| == 0 {
      assert |b| == |multiset(b)| == 0;
    } else {
      var x := a[0];
      assert x in multiset(b);
      var k :| 0 <= k < |b| && b[k] == x;
      var rest := b[..k] + b[k + 1..];
      assert b == b[..k] + [x] + b[k + 1..];
      assert a == [x] + a[1..];
      assert multiset(b) == multiset(b[..k]) + multiset{x} + multiset(b[k + 1..]);
      assert multiset(a) == multiset{x} + multiset(a[1..]);
      assert multiset(rest) == multiset(b[..k]) + multiset(b[k + 1..]);
      assert multiset(rest) == multiset(b) - multiset{x};
      assert multiset(a[1..]) == multiset(a) - multiset{x};
      SumOverPermutation(a[1..], rest, f);
      SumOverAppend(b[..k] + [x], b[k + 1..], f);
      SumOverAppend(b[..k], [x], f);
      SumOverAppend(b[..k], b[k + 1..], f);
      assert SumOver([x], f) == f(x) by {
        assert [x][1..] == [];
      }
    }
  }

  // ------------------------------------------------------------ grouping

  /** The keys of `GroupBy(key)`: each distinct key once, in order of first occurrence. */
  function GroupKeys<T, K(==)>(s: seq<T>, key: T -> K): (r: seq<K>)
    ensures forall i :: 0 <= i < |s| ==> key(s[i]) in r
    ensures forall j :: 0 <= j < |r| ==> exists i :: 0 <= i < |s| && key(s[i]) == r[j]
    ensures Distinct(r)
    decreases |s|
  {
    if |s| == 0 then []
    else
      var init := s[..|s| - 1];
      var g := GroupKeys(init, key);
      assert forall i :: 0 <= i < |init| ==> init[i] == s[i];
      if key(s[|s| - 1]) in g then g else g + [key(s[|s| - 1])]
  }

  /** No element occurs twice. */
  predicate Distinct<K(==)>(r: seq<K>)
  {
    forall j, k :: 0 <= j < k < |r| ==> r[j] != r[k]
  }

  /** `Where` keeps a list without repeats without repeats. */
  lemma {:induction false} FilterDistinct<T>(s: seq<T>, p: T -> bool)
    requires Distinct(s)
    ensures Distinct(Filter(s, p))
    decreases |s|
  {
    if |s| > 0 {
      var rest := Filter(s[1..], p);
      FilterDistinct(s[1..], p);
      if p(s[0]) {
        assert s[0] !in s[1..];
        assert forall k :: 0 <= k < |rest| ==> rest[k] in s[1..];
      }
    }
  }

  /** The elements of one group, in their original order. */
  function Group<T, K(==)>(s: seq<T>, key: T -> K, k: K): (r: seq<T>)
    ensures forall i :: 0 <= i < |r| ==> key(r[i]) == k
  {
    Filter(s, (x: T) => key(x) == k)
  }

  /** The selector summed within each of the groups `ks`, and those sums added up. */
  function SumGroups<T, K(==)>(ks: seq<K>, s: seq<T>, key: T -> K, f: T -> real): real
  {
    if |ks| == 0 then 0.0 else SumOver(Group(s, key, ks[0]), f) + SumGroups(ks[1..], s, key, f)
  }

  /** One more element adds its selector value to the one group it falls in. */
  lemma {:induction false} SumGroupsCons<T, K>(ks: seq<K>, x: T, t: seq<T>, key: T -> K, f: T -> real)
    requires Distinct(ks)
    ensures SumGroups(ks, [x] + t, key, f) == SumGroups(ks, t, key, f) + (if key(x) in ks then f(x) else 0.0)
    decreases |ks|
  {
    if |ks| > 0 {
      var k0, tail := ks[0], ks[1..];
      assert ks == [k0] + tail;
      assert Distinct(tail) by {
        forall j, k | 0 <= j < k < |tail| ensures tail[j] != tail[k] {
          assert tail[j] == ks[j + 1] && tail[k] == ks[k + 1];
        }
      }
      assert k0 !in tail by {
        forall j | 0 <= j < |tail| ensures tail[j] != k0 {
          assert tail[j] == ks[j + 1];
        }
      }
      SumGroupsCons(tail, x, t, key, f);
      GroupConsSum(x, t, key, k0, f);
      assert key(x) in ks <==> key(x) == k0 || key(x) in tail;
    }
  }

  /** One more element adds its selector value to its own group's sum and to no other. */
  lemma GroupConsSum<T, K>(x: T, t: seq<T>, key: T -> K, k: K, f: T -> real)
    ensures SumOver(Group([x] + t, key, k), f) == SumOver(Group(t, key, k), f) + (if key(x) == k then f(x) else 0.0)
  {
    assert ([x] + t)[0] == x && ([x] + t)[1..] == t;
    var g := Group(t, key, k);
    if key(x) == k {
      assert Group([x] + t, key, k) == [x] + g;
      assert ([x] + g)[1..] == g;
    } else {
      assert Group([x] + t, key, k) == g;
    }
  }

  /** Grouping by distinct keys that cover every element partitions the sum. */
  lemma {:induction false} SumGroupsPartition<T, K>(ks: seq<K>, s: seq<T>, key: T -> K, f: T -> real)
    requires Distinct(ks)
    requires forall i :: 0 <= i < |s| ==> key(s[i]) in ks
    ensures SumGroups(ks, s, key, f) == SumOver(s, f)
    decreases |s|
  {
    if |s| == 0 {
      SumGroupsEmpty(ks, s, key, f);
    } else {
      assert s == [s[0]] + s[1..];
      SumGroupsCons(ks, s[0], s[1..], key, f);
      SumGroupsPartition(ks, s[1..], key, f);
    }
  }

  lemma {:induction false} SumGroupsEmpty<T, K>(ks: seq<K>, s: seq<T>, key: T -> K, f: T -> real)
    requires |s| == 0
    ensures SumGroups(ks, s, key, f) == 0.0
    decreases |ks|
  {
    if |ks| > 0 {
      SumGroupsEmpty(ks[1..], s, key, f);
    }
  }

  /** The sums of the `GroupBy` groups add up to the sum over the whole sequence. */
  lemma GroupSumsTotal<T, K>(s: seq<T>, key: T -> K, f: T -> real)
    ensures SumGroups(GroupKeys(s, key), s, key, f) == SumOver(s, f)
  {
    SumGroupsPartition(GroupKeys(s, key), s, key, f);
  }

  // ------------------------------------------------------------ ordering

  /** Non-increasing in `key`. */
  predicate SortedDesc<T>(s: seq<T>, key: T -> real)
  {
    forall i, j :: 0 <= i < j < |s| ==> key(s[i]) >= key(s[j])
  }

  /** Non-decreasing in `key`. */
  predicate SortedAsc<T>(s: seq<T>, key: T -> real)
  {
    forall i, j :: 0 <= i < j < |s| ==> key(s[i]) <= key(s[j])
  }

  /** Every key of a list that holds `t` and `x` is at most `b` when that holds for `t` and `x`. */
  lemma KeysAtMost<T>(rest: seq<T>, t: seq<T>, x: T, key: T -> real, b: real)
    requires multiset(rest) == multiset(t) + multiset{x}
    requires key(x) <= b && forall m :: 0 <= m < |t| ==> key(t[m]) <= b
    ensures forall k :: 0 <= k < |rest| ==> key(rest[k]) <= b
  {
    forall k | 0 <= k < |rest| ensures key(rest[k]) <= b {
      assert rest[k] in multiset(rest);
      if rest[k] != x {
        assert rest[k] in multiset(t);
        var m :| 0 <= m < |t| && t[m] == rest[k];
      }
    }
  }

  /** Every key of a list that holds `t` and `x` is at least `b` when that holds for `t` and `x`. */
  lemma KeysAtLeast<T>(rest: seq<T>, t: seq<T>, x: T, key: T -> real, b: real)
    requires multiset(rest) == multiset(t) + multiset{x}
    requires b <= key(x) && forall m :: 0 <= m < |t| ==> b <= key(t[m])
    ensures forall k :: 0 <= k < |rest| ==> b <= key(rest[k])
  {
    forall k | 0 <= k < |rest| ensures b <= key(rest[k]) {
      assert rest[k] in multiset(rest);
      if rest[k] != x {
        assert rest[k] in multiset(t);
        var m :| 0 <= m < |t| && t[m] == rest[k];
      }
    }
  }

  /**
   * Inserts `x` into a list sorted by descending key, in front of the
   * first element whose key is not larger than its own.
   */
  function InsertDesc<T>(x: T, s: seq<T>, key: T -> real): (r: seq<T>)
    requires SortedDesc(s, key)
    ensures multiset(r) == multiset(s) + multiset{x}
    ensures |r| == |s| + 1
    ensures SortedDesc(r, key)
  {
    if |s| == 0 then [x]
    else if key(s[0]) <= key(x) then [x] + s
    else
      var rest := InsertDesc(x, s[1..], key);
      assert s == [s[0]] + s[1..];
      KeysAtMost(rest, s[1..], x, key, key(s[0]));
      [s[0]] + rest
  }

  /**
   * `OrderByDescending(key)`: the same elements, ordered by non-increasing
   * key. Elements with equal keys keep their original relative order.
   */
  function SortDesc<T>(s: seq<T>, key: T -> real): (r: seq<T>)
    ensures multiset(r) == multiset(s)
    ensures |r| == |s|
    ensures SortedDesc(r, key)
  {
    if |s| == 0 then []
    else
      assert s == [s[0]] + s[1..];
      InsertDesc(s[0], SortDesc(s[1..], key), key)
  }

  /** Sorting keeps membership. */
  lemma SortDescElements<T>(s: seq<T>, key: T -> real, x: T)
    ensures x in SortDesc(s, key) <==> x in s
  {
    assert x in SortDesc(s, key) <==> x in multiset(SortDesc(s, key));
    assert x in s <==> x in multiset(s);
  }

  /**
   * Inserts `x` into a list sorted by ascending key, in front of the
   * first element whose key is not smaller than its own.
   */
  function InsertAsc<T>(x: T, s: seq<T>, key: T -> real): (r: seq<T>)
    requires SortedAsc(s, key)
    ensures multiset(r) == multiset(s) + multiset{x}
    ensures |r| == |s| + 1
    ensures SortedAsc(r, key)
  {
    if |s| == 0 then [x]
    else if key(x) <= key(s[0]) then [x] + s
    else
      var rest := InsertAsc(x, s[1..], key);
      assert s == [s[0]] + s[1..];
      KeysAtLeast(rest, s[1..], x, key, key(s[0]));
      [s[0]] + rest
  }

  /**
   * `OrderBy(key)`, and `List.Sort()` on numbers: the same elements,
   * ordered by non-decreasing key. Elements with equal keys keep their
   * original relative order.
   */
  function SortAsc<T>(s: seq<T>, key: T -> real): (r: seq<T>)
    ensures multiset(r) == multiset(s)
    ensures |r| == |s|
    ensures SortedAsc(r, key)
  {
    if |s| == 0 then []
    else
      assert s == [s[0]] + s[1..];
      InsertAsc(s[0], SortAsc(s[1..], key), key)
  }

  /** Sorting keeps membership. */
  lemma SortAscElements<T>(s: seq<T>, key: T -> real, x: T)
    ensures x in SortAsc(s, key) <==> x in s
  {
    assert x in SortAsc(s, key) <==> x in multiset(SortAsc(s, key));
    assert x in s <==> x in multiset(s);
  }

  lemma {:induction false} FilterCons<T>(a: T, t: seq<T>, p: T -> bool)
    ensures Filter([a] + t, p) == (if p(a) then [a] else []) + Filter(t, p)
  {
    FilterAppend([a], t, p);
    assert Filter([a], p) == (if p(a) then [a] else []) by {
      assert [a][1..] == [];
    }
  }

  /** `Where` on a non-empty list: its head, when kept, then the rest filtered. */
  lemma {:induction false} FilterHead<T>(s: seq<T>, p: T -> bool)
    requires |s| > 0
    ensures Filter(s, p) == (if p(s[0]) then [s[0]] else []) + Filter(s[1..], p)
  {
  }

  /** Putting `s[0]`, which `p` drops whenever it keeps `x`, in front of `rest` keeps `x` in front. */
  lemma {:induction false} ConsKeepsFront<T>(x: T, rest: seq<T>, r: seq<T>, s: seq<T>, p: T -> bool)
    requires |s| > 0 && r == [s[0]] + rest
    requires Filter(rest, p) == (if p(x) then [x] else []) + Filter(s[1..], p)
    requires p(x) ==> !p(s[0])
    ensures Filter(r, p) == (if p(x) then [x] else []) + Filter(s, p)
  {
    FilterCons(s[0], rest, p);
    FilterHead(s, p);
    var tail := Filter(s[1..], p);
    if p(x) {
      assert Filter(rest, p) == [x] + tail;
      assert Filter(s, p) == tail;
      assert Filter(r, p) == [x] + tail;
    } else {
      assert Filter(rest, p) == tail;
      assert Filter(r, p) == Filter(s, p);
    }
  }

  lemma {:induction false} InsertDescPast<T>(x: T, s: seq<T>, key: T -> real)
    requires SortedDesc(s, key) && |s| > 0 && !(key(s[0]) <= key(x))
    ensures InsertDesc(x, s, key) == [s[0]] + InsertDesc(x, s[1..], key)
  {
  }

  /** The step of the induction below: `x` goes past `s[0]`, which `p` drops when it keeps `x`. */
  lemma {:induction false} InsertDescStableStep<T>(x: T, s: seq<T>, key: T -> real, p: T -> bool)
    requires SortedDesc(s, key) && |s| > 0 && !(key(s[0]) <= key(x))
    requires p(x) ==> !p(s[0])
    requires Filter(InsertDesc(x, s[1..], key), p) == (if p(x) then [x] else []) + Filter(s[1..], p)
    ensures Filter(InsertDesc(x, s, key), p) == (if p(x) then [x] else []) + Filter(s, p)
  {
    InsertDescPast(x, s, key);
    ConsKeepsFront(x, InsertDesc(x, s[1..], key), InsertDesc(x, s, key), s, p);
  }

  /**
   * Inserting `x` puts it in front of every element of its own key; an
   * element `p` drops leaves the filtered list as it was.
   */
  lemma {:induction false} InsertDescStable<T>(x: T, s: seq<T>, key: T -> real, p: T -> bool)
    requires SortedDesc(s, key)
    requires p(x) ==> forall y :: p(y) ==> key(y) == key(x)
    ensures Filter(InsertDesc(x, s, key), p) == (if p(x) then [x] else []) + Filter(s, p)
    decreases |s|
  {
    if |s| == 0 {
      assert InsertDesc(x, s, key) == [x];
    } else if key(s[0]) <= key(x) {
      assert InsertDesc(x, s, key) == [x] + s;
      FilterCons(x, s, p);
    } else {
      InsertDescStable(x, s[1..], key, p);
      assert p(x) ==> !p(s[0]);
      InsertDescStableStep(x, s, key, p);
    }
  }

  /**
   * `OrderByDescending` is stable: the elements of any one key come out
   * in the order they went in.
   */
  lemma {:induction false} SortDescStable<T>(s: seq<T>, key: T -> real, p: T -> bool)
    requires forall x, y :: p(x) && p(y) ==> key(x) == key(y)
    ensures Filter(SortDesc(s, key), p) == Filter(s, p)
    decreases |s|
  {
    if |s| > 0 {
      SortDescStable(s[1..], key, p);
      InsertDescStable(s[0], SortDesc(s[1..], key), key, p);
    }
  }

  lemma {:induction false} InsertAscPast<T>(x: T, s: seq<T>, key: T -> real)
    requires SortedAsc(s, key) && |s| > 0 && !(key(x) <= key(s[0]))
    ensures InsertAsc(x, s, key) == [s[0]] + InsertAsc(x, s[1..], key)
  {
  }

  /** The step of the induction below: `x` goes past `s[0]`, which `p` drops when it keeps `x`. */
  lemma {:induction false} InsertAscStableStep<T>(x: T, s: seq<T>, key: T -> real, p: T -> bool)
    requires SortedAsc(s, key) && |s| > 0 && !(key(x) <= key(s[0]))
    requires p(x) ==> !p(s[0])
    requires Filter(InsertAsc(x, s[1..], key), p) == (if p(x) then [x] else []) + Filter(s[1..], p)
    ensures Filter(InsertAsc(x, s, key), p) == (if p(x) then [x] else []) + Filter(s, p)
  {
    InsertAscPast(x, s, key);
    ConsKeepsFront(x, InsertAsc(x, s[1..], key), InsertAsc(x, s, key), s, p);
  }

  /**
   * Inserting `x` puts it in front of every element of its own key; an
   * element `p` drops leaves the filtered list as it was.
   */
  lemma {:induction false} InsertAscStable<T>(x: T, s: seq<T>, key: T -> real, p: T -> bool)
    requires SortedAsc(s, key)
    requires p(x) ==> forall y :: p(y) ==> key(y) == key(x)
    ensures Filter(InsertAsc(x, s, key), p) == (if p(x) then [x] else []) + Filter(s, p)
    decreases |s|
  {
    if |s| == 0 {
      assert InsertAsc(x, s, key) == [x];
    } else if key(x) <= key(s[0]) {
      assert InsertAsc(x, s, key) == [x] + s;
      FilterCons(x, s, p);
    } else {
      InsertAscStable(x, s[1..], key, p);
      assert p(x) ==> !p(s[0]);
      InsertAscStableStep(x, s, key, p);
    }
  }

  /** `OrderBy` is stable: the elements of any one key come out in the order they went in. */
  lemma {:induction false} SortAscStable<T>(s: seq<T>, key: T -> real, p: T -> bool)
    requires forall x, y :: p(x) && p(y) ==> key(x) == key(y)
    ensures Filter(SortAsc(s, key), p) == Filter(s, p)
    decreases |s|
  {
    if |s| > 0 {
      SortAscStable(s[1..], key, p);
      InsertAscStable(s[0], SortAsc(s[1..], key), key, p);
    }
  }

  // ------------------------------------------------------------ paging

  /** `Skip(n)`: a non-positive count skips nothing. */
  function Skip<T>(s: seq<T>, n: int): (r: seq<T>)
    ensures n <= 0 ==> r == s
    ensures n >= |s| ==> r == []
    ensures 0 <= n <= |s| ==> r == s[n..]
  {
    if n <= 0 then s else if n >= |s| then [] else s[n..]
  }

  /** `Take(n)`: a non-positive count takes nothing. */
  function Take<T>(s: seq<T>, n: int): (r: seq<T>)
    ensures n <= 0 ==> r == []
    ensures n >= |s| ==> r == s
    ensures 0 <= n <= |s| ==> r == s[..n]
  {
    if n <= 0 then [] else if n >= |s| then s else s[..n]
  }

  /** Where a page starts: `(page - 1) * size`. */
  function PageStart(page: int, pageSize: int): (r: int)
    ensures page >= 1 && pageSize >= 1 ==> r >= 0
  {
    MulNonNegativeInt(page - 1, pageSize);
    (page - 1) * pageSize
  }

  lemma MulNonNegativeInt(a: int, b: int)
    ensures a >= 0 && b >= 0 ==> a * b >= 0
  {
  }

  /** `Skip((page - 1) * size).Take(size)`. */
  function PageOf<T>(s: seq<T>, page: int, pageSize: int): (r: seq<T>)
  {
    Take(Skip(s, PageStart(page, pageSize)), pageSize)
  }

  /**
   * A page with a positive size holds at most `pageSize` elements, and
   * they are the elements of `s` from the page's start on.
   */
  lemma PageOfSlice<T>(s: seq<T>, page: int, pageSize: int)
    requires page >= 1 && pageSize >= 1
    ensures var start := PageStart(page, pageSize);
      var r := PageOf(s, page, pageSize);
      |r| <= pageSize &&
      |r| == (if start >= |s| then 0 else if |s| - start < pageSize then |s| - start else pageSize) &&
      (|r| > 0 ==> start + |r| <= |s|) &&
      forall k :: 0 <= k < |r| ==> r[k] == s[start + k]
  {
  }

  /** Every element of a page is an element of the sequence. */
  lemma PageOfMembers<T>(s: seq<T>, page: int, pageSize: int)
    ensures forall x :: x in PageOf(s, page, pageSize) ==> x in s
  {
    var skipped := Skip(s, PageStart(page, pageSize));
    assert forall x :: x in skipped ==> x in s;
  }

  /** A page of a sorted sequence is sorted. */
  lemma PageOfSorted<T>(s: seq<T>, page: int, pageSize: int, key: T -> real)
    requires page >= 1 && pageSize >= 1
    requires SortedDesc(s, key)
    ensures SortedDesc(PageOf(s, page, pageSize), key)
  {
    PageOfSlice(s, page, pageSize);
  }

  /**
   * A page of the matching elements ordered by descending key: at most a
   * page size of elements, each of them in `s` and matching, in order.
   */
  lemma PageOfMatching<T>(s: seq<T>, p: T -> bool, key: T -> real, page: int, pageSize: int)
    requires page >= 1 && pageSize >= 1
    ensures var r := PageOf(SortDesc(Filter(s, p), key), page, pageSize);
      |r| <= pageSize && SortedDesc(r, key) && forall x :: x in r ==> x in s && p(x)
  {
    var matched := Filter(s, p);
    var ordered := SortDesc(matched, key);
    PageOfSlice(ordered, page, pageSize);
    PageOfSorted(ordered, page, pageSize, key);
    PageOfMembers(ordered, page, pageSize);
    forall x | x in PageOf(ordered, page, pageSize) ensures x in s && p(x) {
      SortDescElements(matched, key, x);
    }
  }

  lemma PageStartNext(page: int, pageSize: int)
    ensures PageStart(page + 1, pageSize) == PageStart(page, pageSize) + pageSize
  {
    assert page * pageSize == (page - 1) * pageSize + pageSize;
  }

  /** Consecutive pages do not overlap and leave nothing out: page p+1 starts where page p ends. */
  lemma PagesAdjacent<T>(s: seq<T>, page: int, pageSize: int)
    requires page >= 1 && pageSize >= 1
    requires PageStart(page, pageSize) + pageSize <= |s|
    ensures PageOf(s, page, pageSize) + Skip(s, PageStart(page + 1, pageSize)) == Skip(s, PageStart(page, pageSize))
  {
    var start := PageStart(page, pageSize);
    PageStartNext(page, pageSize);
    var rest := s[start..];
    assert Skip(s, start) == rest;
    assert PageOf(s, page, pageSize) == rest[..pageSize];
    assert Skip(s, start + pageSize) == rest[pageSize..];
    assert rest[..pageSize] + rest[pageSize..] == rest;
  }
}
