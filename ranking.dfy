/** Python's `sorted(items, key=k, reverse=True)[:10]`, as the leaderboards
    use it: a stable sort by descending key (elements with equal keys keep
    their original order) cut to the first ten. */
module Ranking {

  predicate SortedDesc<T>(s: seq<T>, key: T -> int) {
    forall i, j :: 0 <= i < j < |s| ==> key(s[i]) >= key(s[j])
  }

  /** Inserts `x` after every element whose key is at least its own. */
  function Insert<T>(x: T, s: seq<T>, key: T -> int): seq<T> {
    if s == [] then [x]
    else if key(x) > key(s[0]) then [x] + s
    else [s[0]] + Insert(x, s[1..], key)
  }

  /** `sorted(xs, key=key, reverse=True)` */
  function SortDesc<T>(xs: seq<T>, key: T -> int): seq<T> {
    if xs == [] then [] else Insert(xs[|xs| - 1], SortDesc(xs[..|xs| - 1], key), key)
  }

  /** `sorted(xs, key=key, reverse=True)[:10]` */
  function TopTen<T>(xs: seq<T>, key: T -> int): seq<T> {
    var s := SortDesc(xs, key);
    if |s| <= 10 then s else s[..10]
  }

  /** The elements with key `k`, in order. */
  function WithKey<T>(s: seq<T>, key: T -> int, k: int): seq<T> {
    if s == [] then [] else (if key(s[0]) == k then [s[0]] else []) + WithKey(s[1..], key, k)
  }

  /** Putting an element whose key bounds every later key in front of a
      sorted sequence keeps it sorted. */
  lemma ConsSorted<T>(h: T, rest: seq<T>, key: T -> int)
    requires SortedDesc(rest, key)
    requires forall j :: 0 <= j < |rest| ==> key(h) >= key(rest[j])
    ensures SortedDesc([h] + rest, key)
  {
    var r := [h] + rest;
    forall i, j | 0 <= i < j < |r| ensures key(r[i]) >= key(r[j]) {
      assert r[j] == rest[j - 1];
      if i > 0 {
        assert r[i] == rest[i - 1];
      }
    }
  }

  /** An element of a sorted sequence's tail has a key no larger than the head's. */
  lemma HeadBounds<T>(s: seq<T>, key: T -> int, y: T)
    requires SortedDesc(s, key) && s != [] && y in multiset(s[1..])
    ensures key(s[0]) >= key(y)
  {
    var m :| 0 <= m < |s[1..]| && s[1..][m] == y;
    assert s[m + 1] == y;
  }

  lemma {:induction false} InsertProperties<T>(x: T, s: seq<T>, key: T -> int)
    requires SortedDesc(s, key)
    ensures multiset(Insert(x, s, key)) == multiset(s) + multiset{x}
    ensures SortedDesc(Insert(x, s, key), key)
  {
    if s == [] {
    } else if key(x) > key(s[0]) {
      ConsSorted(x, s, key);
    } else {
      var rest := Insert(x, s[1..], key);
      assert SortedDesc(s[1..], key);
      InsertProperties(x, s[1..], key);
      assert s == [s[0]] + s[1..];
      forall j | 0 <= j < |rest| ensures key(s[0]) >= key(rest[j]) {
        assert rest[j] in multiset(rest);
        if rest[j] != x {
          HeadBounds(s, key, rest[j]);
        }
      }
      ConsSorted(s[0], rest, key);
    }
  }

  /** The sort returns a rearrangement of its input in non-increasing key order. */
  lemma {:induction false} SortDescProperties<T>(xs: seq<T>, key: T -> int)
    ensures multiset(SortDesc(xs, key)) == multiset(xs)
    ensures SortedDesc(SortDesc(xs, key), key)
  {
    if xs != [] {
      var init := xs[..|xs| - 1];
      SortDescProperties(init, key);
      InsertProperties(xs[|xs| - 1], SortDesc(init, key), key);
      assert xs == init + [xs[|xs| - 1]];
    }
  }

  lemma {:induction false} WithKeyAppend<T>(a: seq<T>, b: seq<T>, key: T -> int, k: int)
    ensures WithKey(a + b, key, k) == WithKey(a, key, k) + WithKey(b, key, k)
  {
    if a != [] {
      WithKeyAppend(a[1..], b, key, k);
      assert (a + b)[1..] == a[1..] + b;
    } else {
      assert a + b == b;
    }
  }

  lemma {:induction false} WithKeyNone<T>(s: seq<T>, key: T -> int, k: int)
    requires forall i :: 0 <= i < |s| ==> key(s[i]) < k
    ensures WithKey(s, key, k) == []
  {
    if s != [] {
      WithKeyNone(s[1..], key, k);
    }
  }

  lemma {:induction false} InsertStable<T>(x: T, s: seq<T>, key: T -> int, k: int)
    requires SortedDesc(s, key)
    ensures WithKey(Insert(x, s, key), key, k) == WithKey(s, key, k) + (if key(x) == k then [x] else [])
  {
    if s == [] {
    } else if key(x) > key(s[0]) {
      if key(x) == k {
        WithKeyNone(s, key, k);
      }
      assert WithKey([x] + s, key, k) == (if key(x) == k then [x] else []) + WithKey(s, key, k);
    } else {
      InsertStable(x, s[1..], key, k);
      assert ([s[0]] + Insert(x, s[1..], key))[1..] == Insert(x, s[1..], key);
    }
  }

  /** Ties keep their original order: the elements with any one key appear
      in the sorted result exactly as in the input. */
  lemma {:induction false} SortDescStable<T>(xs: seq<T>, key: T -> int, k: int)
    ensures WithKey(SortDesc(xs, key), key, k) == WithKey(xs, key, k)
  {
    if xs != [] {
      var init := xs[..|xs| - 1];
      var x := xs[|xs| - 1];
      var sorted := SortDesc(init, key);
      var last := if key(x) == k then [x] else [];
      calc {
        WithKey(SortDesc(xs, key), key, k);
        WithKey(Insert(x, sorted, key), key, k);
        { SortDescProperties(init, key); InsertStable(x, sorted, key, k); }
        WithKey(sorted, key, k) + last;
        { SortDescStable(init, key, k); }
        WithKey(init, key, k) + last;
        { WithKeyAppend(init, [x], key, k);
          assert WithKey([x], key, k) == last + WithKey([], key, k); }
        WithKey(init + [x], key, k);
        { assert xs == init + [x]; }
        WithKey(xs, key, k);
      }
    }
  }

  /** The first ten of the ranking: at most ten of the input's elements, in
      non-increasing order, none ranked below an element left out. */
  lemma TopTenProperties<T>(xs: seq<T>, key: T -> int)
    ensures var top := TopTen(xs, key);
      var s := SortDesc(xs, key);
      && |top| == (if |xs| <= 10 then |xs| else 10)
      && top == s[..|top|]
      && SortedDesc(top, key)
      && multiset(top) <= multiset(xs)
      && forall i, j :: 0 <= i < |top| <= j < |s| ==> key(s[i]) >= key(s[j])
  {
    var s := SortDesc(xs, key);
    var top := TopTen(xs, key);
    SortDescProperties(xs, key);
    assert |s| == |xs| by {
      assert |multiset(s)| == |s| && |multiset(xs)| == |xs|;
    }
    var n := |top|;
    assert top == s[..n];
    forall i, j | 0 <= i < j < n ensures key(top[i]) >= key(top[j]) {
      assert top[i] == s[i] && top[j] == s[j];
    }
    assert s == top + s[n..];
    assert multiset(s) == multiset(top) + multiset(s[n..]);
  }

  /** An element the cut leaves out ranks no higher than any element kept. */
  lemma TopTenLeftOut<T>(xs: seq<T>, key: T -> int, e: T, t: T)
    requires e in multiset(xs) - multiset(TopTen(xs, key)) && t in TopTen(xs, key)
    ensures key(t) >= key(e)
  {
    var top := TopTen(xs, key);
    var s := SortDesc(xs, key);
    TopTenProperties(xs, key);
    SortDescProperties(xs, key);
    var rest := s[|top|..];
    assert s == top + rest;
    assert multiset(s) == multiset(top) + multiset(rest);
    assert e in multiset(rest);
    var j :| 0 <= j < |rest| && rest[j] == e;
    var i :| 0 <= i < |top| && top[i] == t;
    assert s[|top| + j] == e && s[i] == t;
  }

  /** Cutting to ten keeps the tie order: the kept elements with any one key
      are the first ones of that key in the input. */
  lemma TopTenStable<T>(xs: seq<T>, key: T -> int, k: int)
    ensures var w := WithKey(TopTen(xs, key), key, k);
      var all := WithKey(xs, key, k);
      |w| <= |all| && all[..|w|] == w
  {
    var s := SortDesc(xs, key);
    var top := TopTen(xs, key);
    SortDescStable(xs, key, k);
    assert s == top + s[|top|..];
    WithKeyAppend(top, s[|top|..], key, k);
  }
}
