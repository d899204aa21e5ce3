/**
 * A stable sort by a real-valued key, largest key first.
 *
 * This is the behaviour of Python's `sorted(items, key=..., reverse=True)`:
 * the result is ordered by non-increasing key, and elements whose keys are
 * equal keep the order they had in the input.
 */
module StableSort {

  /** The keys of `xs` never increase from left to right. */
  ghost predicate NonIncreasing<T>(xs: seq<T>, key: T -> real) {
    forall i, j :: 0 <= i < j < |xs| ==> key(xs[i]) >= key(xs[j])
  }

  /** The elements of `xs` whose key is `v`, in their order in `xs`. */
  function WithKey<T>(xs: seq<T>, key: T -> real, v: real): (r: seq<T>)
    ensures |r| <= |xs|
  {
    if xs == [] then []
    else (if key(xs[0]) == v then [xs[0]] else []) + WithKey(xs[1..], key, v)
  }

  lemma {:induction false} WithKeyAppend<T>(a: seq<T>, b: seq<T>, key: T -> real, v: real)
    ensures WithKey(a + b, key, v) == WithKey(a, key, v) + WithKey(b, key, v)
  {
    if a == [] {
      assert a + b == b;
    } else {
      var head := if key(a[0]) == v then [a[0]] else [];
      assert (a + b)[0] == a[0];
      assert (a + b)[1..] == a[1..] + b;
      assert WithKey(a + b, key, v) == head + WithKey(a[1..] + b, key, v);
      WithKeyAppend(a[1..], b, key, v);
      assert WithKey(a, key, v) == head + WithKey(a[1..], key, v);
    }
  }

  /**
   * Inserts `x` into the sorted `ys` after every element whose key is at
   * least `key(x)`, so that a later element never overtakes an equal one.
   */
  function Insert<T>(x: T, ys: seq<T>, key: T -> real): (r: seq<T>)
    ensures |r| == |ys| + 1
  {
    if ys == [] then [x]
    else if key(ys[0]) >= key(x) then
      assert ys == [ys[0]] + ys[1..];
      [ys[0]] + Insert(x, ys[1..], key)
    else [x] + ys
  }

  /** Stable insertion sort, largest key first. */
  function SortDesc<T>(xs: seq<T>, key: T -> real): (r: seq<T>)
    ensures |r| == |xs|
  {
    if xs == [] then []
    else
      assert xs == xs[..|xs| - 1] + [xs[|xs| - 1]];
      Insert(xs[|xs| - 1], SortDesc(xs[..|xs| - 1], key), key)
  }

  /** Every element of `Insert(x, ys, key)` is `x` or an element of `ys`. */
  lemma {:induction false} InsertElements<T>(x: T, ys: seq<T>, key: T -> real)
    ensures forall k :: 0 <= k < |Insert(x, ys, key)| ==>
              Insert(x, ys, key)[k] == x || Insert(x, ys, key)[k] in ys
  {
    if ys != [] && key(ys[0]) >= key(x) {
      InsertElements(x, ys[1..], key);
      var t := Insert(x, ys[1..], key);
      assert Insert(x, ys, key) == [ys[0]] + t;
      forall k | 1 <= k < |t| + 1
        ensures Insert(x, ys, key)[k] == x || Insert(x, ys, key)[k] in ys
      {
        assert Insert(x, ys, key)[k] == t[k - 1];
        if t[k - 1] != x {
          assert t[k - 1] in ys[1..];
        }
      }
    }
  }

  /** `Insert` adds exactly one occurrence of `x`. */
  lemma {:induction false} InsertPermutes<T>(x: T, ys: seq<T>, key: T -> real)
    ensures multiset(Insert(x, ys, key)) == multiset(ys) + multiset{x}
  {
    if ys != [] && key(ys[0]) >= key(x) {
      InsertPermutes(x, ys[1..], key);
      assert ys == [ys[0]] + ys[1..];
      assert Insert(x, ys, key) == [ys[0]] + Insert(x, ys[1..], key);
    }
  }

  /** `SortDesc` only reorders its input. */
  lemma {:induction false} SortDescPermutes<T>(xs: seq<T>, key: T -> real)
    ensures multiset(SortDesc(xs, key)) == multiset(xs)
  {
    if xs != [] {
      var init, last := xs[..|xs| - 1], xs[|xs| - 1];
      assert xs == init + [last];
      SortDescPermutes(init, key);
      InsertPermutes(last, SortDesc(init, key), key);
    }
  }

  lemma {:induction false} InsertSorted<T>(x: T, ys: seq<T>, key: T -> real)
    requires NonIncreasing(ys, key)
    ensures NonIncreasing(Insert(x, ys, key), key)
  {
    if ys != [] && key(ys[0]) >= key(x) {
      InsertSorted(x, ys[1..], key);
      InsertElements(x, ys[1..], key);
      var t := Insert(x, ys[1..], key);
      assert Insert(x, ys, key) == [ys[0]] + t;
      forall k | 0 <= k < |t|
        ensures key(ys[0]) >= key(t[k])
      {
        if t[k] != x {
          var m :| 0 <= m < |ys[1..]| && ys[1..][m] == t[k];
          assert ys[m + 1] == t[k];
        }
      }
    }
  }

  lemma {:induction false} InsertWithKey<T>(x: T, ys: seq<T>, key: T -> real, v: real)
    requires NonIncreasing(ys, key)
    ensures WithKey(Insert(x, ys, key), key, v)
         == WithKey(ys, key, v) + (if key(x) == v then [x] else [])
  {
    var extra := if key(x) == v then [x] else [];
    if ys == [] {
      assert Insert(x, ys, key) == [x] + [];
      WithKeyAppend([x], [], key, v);
    } else if key(ys[0]) >= key(x) {
      var head, tail := [ys[0]], ys[1..];
      var t := Insert(x, tail, key);
      assert ys == head + tail;
      assert Insert(x, ys, key) == head + t;
      InsertWithKey(x, tail, key, v);
      WithKeyAppend(head, t, key, v);
      WithKeyAppend(head, tail, key, v);
      calc {
        WithKey(head + t, key, v);
        WithKey(head, key, v) + WithKey(t, key, v);
        WithKey(head, key, v) + (WithKey(tail, key, v) + extra);
        (WithKey(head, key, v) + WithKey(tail, key, v)) + extra;
        WithKey(ys, key, v) + extra;
      }
    } else {
      // every element of ys has a key below key(x), so none has key v when key(x) == v
      if key(x) == v {
        WithKeyNone(ys, key, v);
      }
      WithKeyAppend([x], ys, key, v);
    }
  }

  lemma {:induction false} WithKeyNone<T>(ys: seq<T>, key: T -> real, v: real)
    requires NonIncreasing(ys, key)
    requires ys != [] && key(ys[0]) < v
    ensures WithKey(ys, key, v) == []
  {
    if |ys| > 1 {
      WithKeyNone(ys[1..], key, v);
    }
  }

  /** The result of `SortDesc` is ordered by non-increasing key. */
  lemma {:induction false} SortDescSorted<T>(xs: seq<T>, key: T -> real)
    ensures NonIncreasing(SortDesc(xs, key), key)
  {
    if xs != [] {
      SortDescSorted(xs[..|xs| - 1], key);
      InsertSorted(xs[|xs| - 1], SortDesc(xs[..|xs| - 1], key), key);
    }
  }

  /**
   * Stability: for every key value, the elements carrying it appear in the
   * result in exactly their input order.
   */
  lemma {:induction false} SortDescStable<T>(xs: seq<T>, key: T -> real, v: real)
    ensures WithKey(SortDesc(xs, key), key, v) == WithKey(xs, key, v)
  {
    if xs != [] {
      var init := xs[..|xs| - 1];
      var last := xs[|xs| - 1];
      assert xs == init + [last];
      var sorted := SortDesc(init, key);
      assert SortDesc(xs, key) == Insert(last, sorted, key);
      SortDescStable(init, key, v);
      SortDescSorted(init, key);
      InsertWithKey(last, sorted, key, v);
      WithKeyAppend(init, [last], key, v);
      assert [last][1..] == [];
    }
  }

  /**
   * Cutting a sorted sequence after `n` elements keeps a sub-multiset, and
   * nothing cut off has a larger key than anything kept.
   */
  lemma TopOfSorted<T>(s: seq<T>, key: T -> real, n: nat)
    requires NonIncreasing(s, key) && n <= |s|
    ensures multiset(s[..n]) <= multiset(s)
    ensures forall x, i :: x in multiset(s) - multiset(s[..n]) && 0 <= i < n ==> key(x) <= key(s[i])
  {
    assert s == s[..n] + s[n..];
    assert multiset(s) == multiset(s[..n]) + multiset(s[n..]);
    forall x, i | x in multiset(s) - multiset(s[..n]) && 0 <= i < n
      ensures key(x) <= key(s[i])
    {
      assert x in multiset(s[n..]);
      var j :| 0 <= j < |s[n..]| && s[n..][j] == x;
      assert s[n + j] == x;
    }
  }

  /** No element occurs twice. */
  ghost predicate Distinct<T>(xs: seq<T>) {
    forall i, j :: 0 <= i < j < |xs| ==> xs[i] != xs[j]
  }

  lemma {:induction false} InsertDistinct<T>(x: T, ys: seq<T>, key: T -> real)
    requires Distinct(ys) && x !in ys
    ensures Distinct(Insert(x, ys, key))
  {
    if ys != [] && key(ys[0]) >= key(x) {
      var t := Insert(x, ys[1..], key);
      InsertDistinct(x, ys[1..], key);
      InsertElements(x, ys[1..], key);
      assert Insert(x, ys, key) == [ys[0]] + t;
      forall k | 0 <= k < |t|
        ensures t[k] != ys[0]
      {
        if t[k] != x {
          var m :| 0 <= m < |ys[1..]| && ys[1..][m] == t[k];
          assert ys[m + 1] == t[k];
        }
      }
    }
  }

  /** Sorting a sequence without repetitions gives one without repetitions. */
  lemma {:induction false} SortDescDistinct<T>(xs: seq<T>, key: T -> real)
    requires Distinct(xs)
    ensures Distinct(SortDesc(xs, key))
  {
    if xs != [] {
      var init, last := xs[..|xs| - 1], xs[|xs| - 1];
      assert xs == init + [last];
      SortDescDistinct(init, key);
      SortDescPermutes(init, key);
      forall m | 0 <= m < |init|
        ensures init[m] != last
      {
        assert xs[m] == init[m];
      }
      assert last !in multiset(SortDesc(init, key));
      InsertDistinct(last, SortDesc(init, key), key);
    }
  }

  /** The elements of a prefix carrying a key form a prefix of those of the whole. */
  lemma WithKeyPrefix<T>(a: seq<T>, b: seq<T>, key: T -> real, v: real)
    requires a <= b
    ensures WithKey(a, key, v) <= WithKey(b, key, v)
  {
    assert b == a + b[|a|..];
    WithKeyAppend(a, b[|a|..], key, v);
  }
}
