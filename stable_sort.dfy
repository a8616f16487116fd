/** Python's `list.sort(key=..., reverse=True)` and `sorted(..., key=..., reverse=True)`: a stable sort
    into non-increasing key order. Equal keys keep their original relative order. */
module StableSort {

  /** Puts `x` into `s` after every element whose key is at least `x`'s. */
  function Insert<T>(s: seq<T>, x: T, key: T -> real): seq<T>
    decreases |s|
  {
    if s == [] then [x]
    else if key(s[|s| - 1]) >= key(x) then s + [x]
    else Insert(s[..|s| - 1], x, key) + [s[|s| - 1]]
  }

  /** The stable descending sort, as an insertion sort. */
  function SortDesc<T>(xs: seq<T>, key: T -> real): seq<T>
    decreases |xs|
  {
    if xs == [] then [] else Insert(SortDesc(xs[..|xs| - 1], key), xs[|xs| - 1], key)
  }

  ghost predicate NonIncreasing<T>(s: seq<T>, key: T -> real) {
    forall i, j :: 0 <= i < j < |s| ==> key(s[i]) >= key(s[j])
  }

  /** The elements of `s` whose key is `k`, in order. */
  function WithKey<T>(s: seq<T>, key: T -> real, k: real): seq<T>
    decreases |s|
  {
    if s == [] then [] else (if key(s[0]) == k then [s[0]] else []) + WithKey(s[1..], key, k)
  }

  lemma {:induction false} WithKeyAppend<T>(a: seq<T>, b: seq<T>, key: T -> real, k: real)
    ensures WithKey(a + b, key, k) == WithKey(a, key, k) + WithKey(b, key, k)
    decreases |a|
  {
    if a == [] {
      assert a + b == b;
    } else {
      var head := if key(a[0]) == k then [a[0]] else [];
      assert (a + b)[0] == a[0] && (a + b)[1..] == a[1..] + b;
      WithKeyAppend(a[1..], b, key, k);
      assert WithKey(a + b, key, k) == head + (WithKey(a[1..], key, k) + WithKey(b, key, k));
      assert WithKey(a, key, k) == head + WithKey(a[1..], key, k);
    }
  }

  lemma {:induction false} InsertPermutes<T>(s: seq<T>, x: T, key: T -> real)
    ensures multiset(Insert(s, x, key)) == multiset(s) + multiset{x}
    decreases |s|
  {
    if s != [] {
      assert s == s[..|s| - 1] + [s[|s| - 1]];
      if key(s[|s| - 1]) < key(x) {
        InsertPermutes(s[..|s| - 1], x, key);
      }
    }
  }

  /** Inserting into elements whose keys are all at least `b` an element whose key is too keeps them all
      at least `b`. */
  lemma {:induction false} InsertAtLeast<T>(s: seq<T>, x: T, key: T -> real, b: real)
    requires forall i :: 0 <= i < |s| ==> key(s[i]) >= b
    requires key(x) >= b
    ensures forall i :: 0 <= i < |Insert(s, x, key)| ==> key(Insert(s, x, key)[i]) >= b
    decreases |s|
  {
    if s != [] && key(s[|s| - 1]) < key(x) {
      InsertAtLeast(s[..|s| - 1], x, key, b);
    }
  }

  lemma {:induction false} InsertSorted<T>(s: seq<T>, x: T, key: T -> real)
    requires NonIncreasing(s, key)
    ensures NonIncreasing(Insert(s, x, key), key)
    decreases |s|
  {
    if s != [] && key(s[|s| - 1]) < key(x) {
      var init, last := s[..|s| - 1], s[|s| - 1];
      InsertSorted(init, x, key);
      InsertAtLeast(init, x, key, key(last));
      var r := Insert(init, x, key);
      assert Insert(s, x, key) == r + [last];
      forall i, j | 0 <= i < j < |r + [last]| ensures key((r + [last])[i]) >= key((r + [last])[j]) {
        if j < |r| {
          assert (r + [last])[i] == r[i] && (r + [last])[j] == r[j];
        } else {
          assert (r + [last])[i] == r[i];
        }
      }
    }
  }

  lemma {:induction false} InsertStable<T>(s: seq<T>, x: T, key: T -> real, k: real)
    ensures WithKey(Insert(s, x, key), key, k) == WithKey(s, key, k) + WithKey([x], key, k)
    decreases |s|
  {
    if s != [] {
      var init, last := s[..|s| - 1], s[|s| - 1];
      assert s == init + [last];
      WithKeyAppend(init, [last], key, k);
      if key(last) >= key(x) {
        WithKeyAppend(s, [x], key, k);
      } else {
        InsertStable(init, x, key, k);
        WithKeyAppend(Insert(init, x, key), [last], key, k);
      }
    }
  }

  /** The sort is a permutation, orders by non-increasing key, and keeps elements with equal keys in their
      original order. */
  lemma {:induction false} SortDescSpec<T>(xs: seq<T>, key: T -> real)
    ensures multiset(SortDesc(xs, key)) == multiset(xs)
    ensures |SortDesc(xs, key)| == |xs|
    ensures NonIncreasing(SortDesc(xs, key), key)
    ensures forall k :: WithKey(SortDesc(xs, key), key, k) == WithKey(xs, key, k)
    decreases |xs|
  {
    if xs != [] {
      var init, last := xs[..|xs| - 1], xs[|xs| - 1];
      assert xs == init + [last];
      SortDescSpec(init, key);
      InsertPermutes(SortDesc(init, key), last, key);
      InsertSorted(SortDesc(init, key), last, key);
      forall k ensures WithKey(SortDesc(xs, key), key, k) == WithKey(xs, key, k) {
        InsertStable(SortDesc(init, key), last, key, k);
        WithKeyAppend(init, [last], key, k);
      }
    }
    assert |multiset(SortDesc(xs, key))| == |multiset(xs)|;
  }

  /** Moving `x` one place further down past an element whose key is smaller. */
  lemma InsertStep<T>(s: seq<T>, x: T, key: T -> real, j: nat, i: nat)
    requires 0 < j <= i <= |s|
    requires key(s[j - 1]) < key(x)
    ensures Insert(s[..j], x, key) + s[j..i] == Insert(s[..j - 1], x, key) + s[j - 1..i]
  {
    assert s[..j][..j - 1] == s[..j - 1];
    assert s[j - 1..i] == [s[j - 1]] + s[j..i];
  }

  /** `x` stays right after an element whose key is at least its own. */
  lemma InsertStop<T>(s: seq<T>, x: T, key: T -> real, j: nat)
    requires j <= |s|
    requires j == 0 || key(s[j - 1]) >= key(x)
    ensures Insert(s[..j], x, key) == s[..j] + [x]
  {
    if j > 0 {
      assert s[..j][j - 1] == s[j - 1];
    }
  }

  /** Copying the element before the gap into it moves the gap one place down. */
  lemma ShiftStep<T>(b: seq<T>, s: seq<T>, j: nat, i: nat)
    requires 0 < j <= i == |s| && i < |b|
    requires b[..j] == s[..j] && b[j + 1..i + 1] == s[j..i]
    ensures b[j := b[j - 1]][..j - 1] == s[..j - 1]
    ensures b[j := b[j - 1]][j..i + 1] == s[j - 1..i]
    ensures b[j := b[j - 1]][i + 1..] == b[i + 1..]
  {
    var c := b[j := b[j - 1]];
    assert b[j - 1] == s[j - 1] by { assert b[..j][j - 1] == s[..j][j - 1]; }
    assert c[j..i + 1] == [s[j - 1]] + c[j + 1..i + 1];
    assert c[j + 1..i + 1] == b[j + 1..i + 1];
    assert s[j - 1..i] == [s[j - 1]] + s[j..i];
  }

  /** One step of the insertion sort: moves `a[i]` down into the sorted prefix `a[..i]`. */
  method InsertAt<T>(a: array<T>, i: nat, key: T -> real)
    requires i < a.Length
    modifies a
    ensures a[..i + 1] == Insert(old(a[..i]), old(a[i]), key)
    ensures a[i + 1..] == old(a[i + 1..])
  {
    ghost var s := a[..i];
    var x := a[i];
    var j := i;
    while j > 0 && key(a[j - 1]) < key(x)
      invariant 0 <= j <= i
      invariant a[..j] == s[..j]
      invariant a[j + 1..i + 1] == s[j..i]
      invariant a[i + 1..] == old(a[i + 1..])
      invariant Insert(s, x, key) == Insert(s[..j], x, key) + s[j..i]
      decreases j
    {
      InsertStep(s, x, key, j, i);
      ShiftStep(a[..], s, j, i);
      a[j] := a[j - 1];
      j := j - 1;
    }
    InsertStop(s, x, key, j);
    a[j] := x;
    assert a[..i + 1] == s[..j] + [x] + s[j..i];
  }

  /** `a.sort(key=key, reverse=True)` in place. */
  method SortArray<T>(a: array<T>, key: T -> real)
    modifies a
    ensures a[..] == SortDesc(old(a[..]), key)
  {
    ghost var original := a[..];
    for i := 0 to a.Length
      invariant a[..i] == SortDesc(original[..i], key)
      invariant a[i..] == original[i..]
    {
      assert a[i] == original[i] && a[i + 1..] == original[i + 1..] by {
        assert a[i..][0] == a[i] && a[i..][1..] == a[i + 1..];
        assert original[i..][0] == original[i] && original[i..][1..] == original[i + 1..];
      }
      assert original[..i + 1][..i] == original[..i] && original[..i + 1][i] == original[i];
      InsertAt(a, i, key);
    }
    assert original[..a.Length] == original;
  }
}
