// Python's stable `sorted(xs, key=...)` and list comprehensions with a filter.
// Sort keys are tuples of numbers, modelled as `seq<real>` compared
// lexicographically, exactly as Python compares tuples.
module Sorting {

  /** Python's tuple `<=` on equal-length numeric tuples. */
  predicate LexLe(a: seq<real>, b: seq<real>)
    decreases |a|
  {
    |a| == 0 || (|b| > 0 && (a[0] < b[0] || (a[0] == b[0] && LexLe(a[1..], b[1..]))))
  }

  lemma {:induction false} LexLeRefl(a: seq<real>)
    ensures LexLe(a, a)
    decreases |a|
  {
    if |a| > 0 { LexLeRefl(a[1..]); }
  }

  lemma {:induction false} LexLeTotal(a: seq<real>, b: seq<real>)
    requires |a| == |b|
    ensures LexLe(a, b) || LexLe(b, a)
    decreases |a|
  {
    if |a| > 0 && a[0] == b[0] { LexLeTotal(a[1..], b[1..]); }
  }

  /** The first components of two tuples in order are in order, and on a tie the rest are. */
  lemma LexLeHead(a: seq<real>, b: seq<real>)
    requires |a| > 0 && LexLe(a, b)
    ensures |b| > 0 && a[0] <= b[0] && (a[0] == b[0] ==> LexLe(a[1..], b[1..]))
  {
  }

  lemma {:induction false} LexLeTrans(a: seq<real>, b: seq<real>, c: seq<real>)
    requires |a| == |b| == |c|
    requires LexLe(a, b) && LexLe(b, c)
    ensures LexLe(a, c)
    decreases |a|
  {
    if |a| > 0 && a[0] == b[0] == c[0] { LexLeTrans(a[1..], b[1..], c[1..]); }
  }

  /** A key function whose keys all have the same length, so that any two are comparable. */
  ghost predicate UniformKey<T(!new)>(key: T -> seq<real>)
  {
    forall x, y :: |key(x)| == |key(y)|
  }

  ghost predicate Sorted<T>(s: seq<T>, key: T -> seq<real>)
  {
    forall i, j :: 0 <= i < j < |s| ==> LexLe(key(s[i]), key(s[j]))
  }

  /** Place `x` before the first element whose key is not smaller: the stable insertion step. */
  function Insert<T>(x: T, s: seq<T>, key: T -> seq<real>): (r: seq<T>)
    ensures multiset(r) == multiset(s) + multiset{x}
    ensures |r| == |s| + 1
  {
    if |s| == 0 then [x]
    else if LexLe(key(x), key(s[0])) then [x] + s
    else
      assert s == [s[0]] + s[1..];
      [s[0]] + Insert(x, s[1..], key)
  }

  /** Python's stable `sorted(s, key=key)`. */
  function SortBy<T>(s: seq<T>, key: T -> seq<real>): (r: seq<T>)
    ensures multiset(r) == multiset(s)
    ensures |r| == |s|
  {
    if |s| == 0 then []
    else
      assert s == [s[0]] + s[1..];
      Insert(s[0], SortBy(s[1..], key), key)
  }

  lemma SortedTail<T>(s: seq<T>, key: T -> seq<real>)
    requires |s| > 0 && Sorted(s, key)
    ensures Sorted(s[1..], key)
  {
    forall i, j | 0 <= i < j < |s[1..]| ensures LexLe(key(s[1..][i]), key(s[1..][j])) {
      assert s[1..][i] == s[i + 1] && s[1..][j] == s[j + 1];
    }
  }

  lemma {:induction false} InsertSorted<T(!new)>(x: T, s: seq<T>, key: T -> seq<real>)
    requires UniformKey(key)
    requires Sorted(s, key)
    ensures Sorted(Insert(x, s, key), key)
    decreases |s|
  {
    var r := Insert(x, s, key);
    if |s| == 0 {
    } else if LexLe(key(x), key(s[0])) {
      forall i, j | 0 <= i < j < |r| ensures LexLe(key(r[i]), key(r[j])) {
        if i == 0 && j > 1 {
          LexLeTrans(key(x), key(s[0]), key(s[j - 1]));
        }
      }
    } else {
      SortedTail(s, key);
      InsertSorted(x, s[1..], key);
      LexLeTotal(key(x), key(s[0]));
      forall i, j | 0 <= i < j < |r| ensures LexLe(key(r[i]), key(r[j])) {
        if i == 0 {
          var y := r[j];
          assert y in multiset(Insert(x, s[1..], key));
          if y != x {
            assert y in s[1..];
            var k :| 0 <= k < |s[1..]| && s[1..][k] == y;
            assert s[k + 1] == y;
          }
        }
      }
    }
  }

  /** `sorted` returns the input's elements, in key order. */
  lemma {:induction false} SortBySorted<T(!new)>(s: seq<T>, key: T -> seq<real>)
    requires UniformKey(key)
    ensures Sorted(SortBy(s, key), key)
    decreases |s|
  {
    if |s| > 0 {
      SortBySorted(s[1..], key);
      InsertSorted(s[0], SortBy(s[1..], key), key);
    }
  }

  /** Sorting a list that is already in key order leaves it unchanged (stability). */
  lemma {:induction false} SortBySortedIdentity<T(!new)>(s: seq<T>, key: T -> seq<real>)
    requires Sorted(s, key)
    ensures SortBy(s, key) == s
    decreases |s|
  {
    if |s| > 0 {
      SortedTail(s, key);
      SortBySortedIdentity(s[1..], key);
      if |s| > 1 {
        assert LexLe(key(s[0]), key(s[1]));
      }
      assert s == [s[0]] + s[1..];
    }
  }

  /** A list comprehension `[x for x in s if p(x)]`. */
  function Filter<T(!new)>(s: seq<T>, p: T -> bool): (r: seq<T>)
    ensures |r| <= |s|
    ensures forall x :: x in r <==> x in s && p(x)
  {
    if |s| == 0 then []
    else if p(s[0]) then [s[0]] + Filter(s[1..], p)
    else Filter(s[1..], p)
  }

  /** Filtering a list extended by one element. */
  lemma {:induction false} FilterAppend<T(!new)>(s: seq<T>, x: T, p: T -> bool)
    ensures Filter(s + [x], p) == Filter(s, p) + (if p(x) then [x] else [])
    decreases |s|
  {
    if |s| > 0 {
      assert (s + [x])[1..] == s[1..] + [x];
      FilterAppend(s[1..], x, p);
    }
  }

  /** Filtering keeps the order of what it keeps: a sorted list stays sorted. */
  lemma {:induction false} FilterSorted<T(!new)>(s: seq<T>, p: T -> bool, key: T -> seq<real>)
    requires Sorted(s, key)
    ensures Sorted(Filter(s, p), key)
    decreases |s|
  {
    if |s| > 0 {
      SortedTail(s, key);
      FilterSorted(s[1..], p, key);
      var r := Filter(s, p);
      if p(s[0]) {
        forall i, j | 0 <= i < j < |r| ensures LexLe(key(r[i]), key(r[j])) {
          if i == 0 {
            assert r[j] in Filter(s[1..], p);
            var k :| 0 <= k < |s[1..]| && s[1..][k] == r[j];
            assert s[k + 1] == r[j];
          }
        }
      }
    }
  }

  /** Filtering keeps every copy of a kept element and drops every copy of the others. */
  lemma {:induction false} FilterMultiset<T(!new)>(s: seq<T>, p: T -> bool, x: T)
    ensures multiset(Filter(s, p))[x] == if p(x) then multiset(s)[x] else 0
    decreases |s|
  {
    if |s| > 0 {
      FilterMultiset(s[1..], p, x);
      assert s == [s[0]] + s[1..];
    }
  }

  /** The multiset of a filtered list only depends on the multiset of the list. */
  lemma FilterMultisetMono<T(!new)>(a: seq<T>, b: seq<T>, p: T -> bool)
    requires multiset(a) <= multiset(b)
    ensures multiset(Filter(a, p)) <= multiset(Filter(b, p))
  {
    forall x ensures multiset(Filter(a, p))[x] <= multiset(Filter(b, p))[x] {
      FilterMultiset(a, p, x);
      FilterMultiset(b, p, x);
    }
  }

  /** Python's `list.remove(x)`: drop the first element equal to x (nothing if absent). */
  function RemoveFirst<T(==)>(s: seq<T>, x: T): (r: seq<T>)
    ensures x in s ==> multiset(r) == multiset(s) - multiset{x} && |r| == |s| - 1
    ensures x !in s ==> r == s
  {
    if |s| == 0 then []
    else if s[0] == x then
      assert s == [s[0]] + s[1..];
      s[1..]
    else
      assert s == [s[0]] + s[1..];
      [s[0]] + RemoveFirst(s[1..], x)
  }

  /** The multiset union of `f` over the elements of a list, the shape of a comprehension that counts what each element contributes. */
  function Collect<T, U>(s: seq<T>, f: T -> multiset<U>): multiset<U>
  {
    if |s| == 0 then multiset{} else f(s[0]) + Collect(s[1..], f)
  }

  /** Collecting over a concatenation is the union of the two collections. */
  lemma {:induction false} CollectAppend<T, U>(a: seq<T>, b: seq<T>, f: T -> multiset<U>)
    ensures Collect(a + b, f) == Collect(a, f) + Collect(b, f)
    decreases |a|
  {
    if |a| == 0 {
      assert a + b == b;
    } else {
      assert (a + b)[0] == a[0] && (a + b)[1..] == a[1..] + b;
      CollectAppend(a[1..], b, f);
    }
  }

  /** Reordering a list does not change what is collected over it. */
  lemma {:induction false} CollectPermutation<T, U>(a: seq<T>, b: seq<T>, f: T -> multiset<U>)
    requires multiset(a) == multiset(b)
    ensures Collect(a, f) == Collect(b, f)
    decreases |a|
  {
    if |a| > 0 {
      assert a[0] in multiset(b);
      var k :| 0 <= k < |b| && b[k] == a[0];
      CollectRemove(b, k, f);
      MultisetRemove(b, k);
      assert a == [a[0]] + a[1..];
      assert multiset(a[1..]) == multiset(a) - multiset{a[0]};
      CollectPermutation(a[1..], b[..k] + b[k + 1..], f);
    }
  }

  /** Taking out the element at k takes its contribution out of the collection. */
  lemma CollectRemove<T, U>(b: seq<T>, k: int, f: T -> multiset<U>)
    requires 0 <= k < |b|
    ensures Collect(b, f) == f(b[k]) + Collect(b[..k] + b[k + 1..], f)
  {
    assert b == b[..k] + ([b[k]] + b[k + 1..]);
    CollectAppend(b[..k], [b[k]] + b[k + 1..], f);
    CollectAppend([b[k]], b[k + 1..], f);
    CollectAppend(b[..k], b[k + 1..], f);
    assert [b[k]][1..] == [];
  }

  /** Taking out the element at k takes one copy of it out of the multiset. */
  lemma MultisetRemove<T>(b: seq<T>, k: int)
    requires 0 <= k < |b|
    ensures multiset(b[..k] + b[k + 1..]) == multiset(b) - multiset{b[k]}
  {
    assert b == b[..k] + [b[k]] + b[k + 1..];
  }

  /** A property holds of every element of a list exactly when it holds of every element of any reordering of it. */
  lemma ForallPermutation<T>(a: seq<T>, b: seq<T>, p: T -> bool)
    requires multiset(a) == multiset(b)
    ensures (forall i :: 0 <= i < |a| ==> p(a[i])) <==> (forall j :: 0 <= j < |b| ==> p(b[j]))
  {
    if forall i :: 0 <= i < |a| ==> p(a[i]) {
      forall j | 0 <= j < |b| ensures p(b[j]) {
        assert b[j] in multiset(a);
      }
    }
    if forall j :: 0 <= j < |b| ==> p(b[j]) {
      forall i | 0 <= i < |a| ensures p(a[i]) {
        assert a[i] in multiset(b);
      }
    }
  }
}
