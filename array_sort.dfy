/**
 * `Array.prototype.sort` with a numeric comparator, as the dashboard uses it:
 * `(a, b) => key(b) - key(a)` (descending) or `(a, b) => key(a) - key(b)` (ascending).
 * The ECMAScript sort is stable, so its result is fully determined: it is the
 * insertion sort `SortBy` below, and `SortInPlace` is that sort done in place on an array.
 */
module ArraySort {

  /** `x` must be placed strictly before `y`: the comparator says `y` after `x`. */
  predicate Before<T>(key: T -> real, descending: bool, x: T, y: T) {
    if descending then key(x) > key(y) else key(x) < key(y)
  }

  /** Non-increasing by `key` when `descending`, non-decreasing otherwise. */
  predicate Ordered<T>(s: seq<T>, key: T -> real, descending: bool) {
    forall i, j :: 0 <= i < j < |s| ==> !Before(key, descending, s[j], s[i])
  }

  /** Places `x` after every element of `t` it need not precede (so equal keys keep their order). */
  function Insert<T>(x: T, t: seq<T>, key: T -> real, descending: bool): seq<T> {
    if t == [] || !Before(key, descending, x, t[|t| - 1]) then t + [x]
    else Insert(x, t[..|t| - 1], key, descending) + [t[|t| - 1]]
  }

  /** The stable sort of `s` by `key`. */
  function SortBy<T>(s: seq<T>, key: T -> real, descending: bool): seq<T> {
    if s == [] then []
    else Insert(s[|s| - 1], SortBy(s[..|s| - 1], key, descending), key, descending)
  }

  /** Inserting adds `x` and loses nothing. */
  lemma {:induction false} InsertPermutes<T>(x: T, t: seq<T>, key: T -> real, descending: bool)
    ensures multiset(Insert(x, t, key, descending)) == multiset(t) + multiset{x}
    decreases |t|
  {
    if t != [] && Before(key, descending, x, t[|t| - 1]) {
      var init := t[..|t| - 1];
      InsertPermutes(x, init, key, descending);
      assert t == init + [t[|t| - 1]];
    }
  }

  /** The sort is a permutation of its input. */
  lemma {:induction false} SortByPermutes<T>(s: seq<T>, key: T -> real, descending: bool)
    ensures multiset(SortBy(s, key, descending)) == multiset(s)
    ensures |SortBy(s, key, descending)| == |s|
    decreases |s|
  {
    if s != [] {
      var init := s[..|s| - 1];
      SortByPermutes(init, key, descending);
      InsertPermutes(s[|s| - 1], SortBy(init, key, descending), key, descending);
      assert s == init + [s[|s| - 1]];
    }
  }

  lemma {:induction false} InsertOrdered<T>(x: T, t: seq<T>, key: T -> real, descending: bool)
    requires Ordered(t, key, descending)
    ensures Ordered(Insert(x, t, key, descending), key, descending)
  {
    if t == [] || !Before(key, descending, x, t[|t| - 1]) {
    } else {
      var init, last := t[..|t| - 1], t[|t| - 1];
      InsertOrdered(x, init, key, descending);
      InsertPermutes(x, init, key, descending);
      var u := Insert(x, init, key, descending);
      forall k | 0 <= k < |u|
        ensures !Before(key, descending, last, u[k])
      {
        assert u[k] in multiset(u);
        if u[k] != x {
          assert u[k] in multiset(init);
          var m :| 0 <= m < |init| && init[m] == u[k];
          assert t[m] == u[k];
        }
      }
    }
  }

  /** What the caller of `sort` relies on: the result is ordered by the key and is a permutation. */
  lemma {:induction false} SortByOrdered<T>(s: seq<T>, key: T -> real, descending: bool)
    ensures Ordered(SortBy(s, key, descending), key, descending)
    ensures multiset(SortBy(s, key, descending)) == multiset(s)
    ensures |SortBy(s, key, descending)| == |s|
  {
    if s != [] {
      SortByOrdered(s[..|s| - 1], key, descending);
      InsertOrdered(s[|s| - 1], SortBy(s[..|s| - 1], key, descending), key, descending);
    }
    SortByPermutes(s, key, descending);
  }

  /** The sort neither adds nor drops elements: membership is exactly that of the input. */
  lemma {:induction false} SortByMembers<T>(s: seq<T>, key: T -> real, descending: bool, x: T)
    ensures x in SortBy(s, key, descending) <==> x in s
  {
    SortByPermutes(s, key, descending);
    assert x in SortBy(s, key, descending) <==> x in multiset(SortBy(s, key, descending));
    assert x in s <==> x in multiset(s);
  }

  /**
   * Where `x` lands: right after `t[..j]` when it need not precede `t[j - 1]` but must precede
   * every element from `t[j]` on.
   */
  lemma {:induction false} InsertAt<T>(x: T, t: seq<T>, j: int, key: T -> real, descending: bool)
    requires 0 <= j <= |t|
    requires j == 0 || !Before(key, descending, x, t[j - 1])
    requires forall k :: j <= k < |t| ==> Before(key, descending, x, t[k])
    ensures Insert(x, t, key, descending) == t[..j] + [x] + t[j..]
    decreases |t|
  {
    if j < |t| {
      var n := |t| - 1;
      var init, last := t[..n], t[n];
      assert Insert(x, t, key, descending) == Insert(x, init, key, descending) + [last] by {
        assert Before(key, descending, x, t[n]);
      }
      assert Insert(x, init, key, descending) == init[..j] + [x] + init[j..] by {
        assert forall k :: j <= k < |init| ==> init[k] == t[k];
        assert j == 0 || init[j - 1] == t[j - 1];
        InsertAt(x, init, j, key, descending);
      }
      assert init[..j] + [x] + init[j..] + [last] == t[..j] + [x] + t[j..] by {
        assert init[..j] == t[..j];
        assert t[j..] == init[j..] + [last];
      }
    } else {
      assert t[..j] == t && t[j..] == [];
      assert Insert(x, t, key, descending) == t + [x];
    }
  }

  /**
   * Sorts `a` in place, as `a.sort(comparator)` does: inserts each element in turn into
   * the sorted prefix before it.
   */
  method SortInPlace<T>(a: array<T>, key: T -> real, descending: bool)
    modifies a
    ensures a[..] == SortBy(old(a[..]), key, descending)
  {
    ghost var input := a[..];
    var i := 0;
    while i < a.Length
      invariant 0 <= i <= a.Length
      invariant a[..i] == SortBy(input[..i], key, descending)
      invariant a[i..] == input[i..]
    {
      ghost var before := a[..];
      InsertLast(a, i, key, descending);
      SortLoopStep(input, before, a[..], i, key, descending);
      i := i + 1;
    }
    assert input[..a.Length] == input;
  }

  /** A fresh array holding `s`, sorted in place (`[...s].sort(comparator)`); returns its contents. */
  method SortedCopy<T>(s: seq<T>, key: T -> real, descending: bool) returns (r: seq<T>)
    ensures r == SortBy(s, key, descending)
  {
    var a := new T[|s|](i requires 0 <= i < |s| => s[i]);
    assert a[..] == s;
    SortInPlace(a, key, descending);
    r := a[..];
  }

  /** One pass of the insertion sort: moves `a[i]` left into the sorted prefix `a[..i]`. */
  method InsertLast<T>(a: array<T>, i: int, key: T -> real, descending: bool)
    requires 0 <= i < a.Length
    modifies a
    ensures a[..i + 1] == Insert(old(a[i]), old(a[..i]), key, descending)
    ensures a[i + 1..] == old(a[i + 1..])
  {
    ghost var t := a[..i];
    var x := a[i];
    var j := i;
    while j > 0 && Before(key, descending, x, a[j - 1])
      invariant 0 <= j <= i
      invariant forall k :: 0 <= k < j ==> a[k] == t[k]
      invariant forall k :: j < k <= i ==> a[k] == t[k - 1]
      invariant forall k :: j <= k < i ==> Before(key, descending, x, t[k])
      invariant forall k :: i < k < a.Length ==> a[k] == old(a[k])
    {
      a[j] := a[j - 1];
      j := j - 1;
    }
    a[j] := x;
    InsertAt(x, t, j, key, descending);
    var u := t[..j] + [x] + t[j..];
    forall k | 0 <= k <= i
      ensures a[k] == u[k]
    {
      if k < j {
        assert u[k] == t[k];
      } else if j < k {
        assert u[k] == t[k - 1];
      }
    }
    assert a[..i + 1] == u;
  }

  /** The outer loop of `SortInPlace` keeps its invariant across one `InsertLast`. */
  lemma {:induction false} SortLoopStep<T>(input: seq<T>, before: seq<T>, after: seq<T>, i: int, key: T -> real, descending: bool)
    requires 0 <= i < |input| == |before| == |after|
    requires before[..i] == SortBy(input[..i], key, descending) && before[i..] == input[i..]
    requires after[..i + 1] == Insert(before[i], before[..i], key, descending)
    requires after[i + 1..] == before[i + 1..]
    ensures after[..i + 1] == SortBy(input[..i + 1], key, descending)
    ensures after[i + 1..] == input[i + 1..]
  {
    assert before[i] == input[i] by {
      assert before[i..][0] == input[i..][0];
    }
    SortStep(input, i, key, descending);
    assert before[i + 1..] == before[i..][1..];
    assert input[i + 1..] == input[i..][1..];
  }

  lemma {:induction false} SortStep<T>(s: seq<T>, i: int, key: T -> real, descending: bool)
    requires 0 <= i < |s|
    ensures SortBy(s[..i + 1], key, descending) == Insert(s[i], SortBy(s[..i], key, descending), key, descending)
  {
    assert s[..i + 1][..i] == s[..i];
  }
}
