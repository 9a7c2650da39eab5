/** The array built-ins the front-end relies on: `filter`, `find`,
    `findIndex`, `some` and `flat`, with the facts the callers need about
    them. */
module Lists {
  import opened Wrappers

  /** `a` is `b` with some elements dropped and the rest kept in order. */
  predicate IsSubsequence<T(==)>(a: seq<T>, b: seq<T>)
    decreases |b|
  {
    if a == [] then true
    else if b == [] then false
    else if a[0] == b[0] then IsSubsequence(a[1..], b[1..])
    else IsSubsequence(a, b[1..])
  }

  /** `s.filter(p)`. */
  function Filter<T>(s: seq<T>, p: T -> bool): (r: seq<T>)
    ensures |r| <= |s|
    ensures forall i :: 0 <= i < |r| ==> p(r[i])
  {
    if s == [] then []
    else if p(s[0]) then [s[0]] + Filter(s[1..], p)
    else Filter(s[1..], p)
  }

  /** Filtering keeps the order of what it keeps. */
  lemma {:induction false} FilterIsSubsequence<T>(s: seq<T>, p: T -> bool)
    ensures IsSubsequence(Filter(s, p), s)
  {
    if s != [] {
      FilterIsSubsequence(s[1..], p);
      var r := Filter(s[1..], p);
      if !p(s[0]) {
        SubsequenceOfTail(r, s);
      }
    }
  }

  lemma {:induction false} SubsequenceOfTail<T>(a: seq<T>, b: seq<T>)
    requires b != [] && IsSubsequence(a, b[1..])
    ensures IsSubsequence(a, b)
    decreases |a| + |b|
  {
    if a != [] && a[0] == b[0] {
      SubsequenceDropFirst(a, b[1..]);
    }
  }

  lemma {:induction false} SubsequenceDropFirst<T>(a: seq<T>, b: seq<T>)
    requires a != [] && IsSubsequence(a, b)
    ensures IsSubsequence(a[1..], b)
    decreases |a| + |b|
  {
    if b != [] {
      if a[0] == b[0] {
        SubsequenceOfTail(a[1..], b);
      } else {
        SubsequenceDropFirst(a, b[1..]);
        SubsequenceOfTail(a[1..], b);
      }
    }
  }

  /** Filtering keeps every kept value as often as it occurs, and no other:
      with the order kept, this pins the result down exactly. */
  lemma {:induction false} FilterCount<T>(s: seq<T>, p: T -> bool, x: T)
    ensures multiset(Filter(s, p))[x] == if p(x) then multiset(s)[x] else 0
  {
    if s != [] {
      FilterCount(s[1..], p, x);
      assert s == [s[0]] + s[1..];
    }
  }

  /** A filter that keeps nothing gives the empty list. */
  lemma {:induction false} FilterNone<T>(s: seq<T>, p: T -> bool)
    requires forall i :: 0 <= i < |s| ==> !p(s[i])
    ensures Filter(s, p) == []
  {
    if s != [] {
      FilterNone(s[1..], p);
    }
  }

  /** A filter that keeps everything is the identity. */
  lemma {:induction false} FilterAll<T>(s: seq<T>, p: T -> bool)
    requires forall i :: 0 <= i < |s| ==> p(s[i])
    ensures Filter(s, p) == s
  {
    if s != [] {
      FilterAll(s[1..], p);
    }
  }

  /** A weaker test keeps more: everything kept under `p` is kept under `q`. */
  lemma {:induction false} FilterMonotone<T>(s: seq<T>, p: T -> bool, q: T -> bool)
    requires forall i :: 0 <= i < |s| && p(s[i]) ==> q(s[i])
    ensures IsSubsequence(Filter(s, p), Filter(s, q))
  {
    if s != [] {
      FilterMonotone(s[1..], p, q);
      var rp, rq := Filter(s[1..], p), Filter(s[1..], q);
      if p(s[0]) {
      } else if q(s[0]) {
        SubsequenceOfTail(rp, [s[0]] + rq);
      }
    }
  }

  /** `s.findIndex(p)`, with -1 as None. */
  function FindIndex<T>(s: seq<T>, p: T -> bool): (r: Option<nat>)
    ensures r.Some? ==> r.value < |s| && p(s[r.value])
    ensures r.Some? ==> forall j :: 0 <= j < r.value ==> !p(s[j])
    ensures r.None? ==> forall j :: 0 <= j < |s| ==> !p(s[j])
  {
    if s == [] then None
    else if p(s[0]) then Some(0)
    else match FindIndex(s[1..], p)
      case None => None
      case Some(i) => Some(i + 1)
  }

  /** `s.find(p)`: the first element that passes, or undefined. */
  function Find<T>(s: seq<T>, p: T -> bool): Option<T> {
    match FindIndex(s, p)
    case None => None
    case Some(i) => Some(s[i])
  }

  /** `s.some(p)`. */
  predicate Any<T>(s: seq<T>, p: T -> bool) {
    exists i :: 0 <= i < |s| && p(s[i])
  }

  /** `pages.flat()`: the pages concatenated in order. */
  function Flatten<T>(pages: seq<seq<T>>): (r: seq<T>)
    ensures |r| == TotalLength(pages)
  {
    if pages == [] then [] else pages[0] + Flatten(pages[1..])
  }

  function TotalLength<T>(pages: seq<seq<T>>): nat {
    if pages == [] then 0 else |pages[0]| + TotalLength(pages[1..])
  }

  /** Loading one more page appends it to what was shown. */
  lemma {:induction false} FlattenAppend<T>(pages: seq<seq<T>>, page: seq<T>)
    ensures Flatten(pages + [page]) == Flatten(pages) + page
  {
    if pages != [] {
      assert (pages + [page])[1..] == pages[1..] + [page];
      FlattenAppend(pages[1..], page);
    }
  }

  /** Filtering a longer list filters the added element on its own. */
  lemma {:induction false} FilterAppend<T>(s: seq<T>, x: T, p: T -> bool)
    ensures Filter(s + [x], p) == Filter(s, p) + (if p(x) then [x] else [])
  {
    if s != [] {
      assert (s + [x])[1..] == s[1..] + [x];
      FilterAppend(s[1..], x, p);
    }
  }

  /** Filtering two lists one after the other filters their concatenation. */
  lemma {:induction false} FilterConcat<T>(a: seq<T>, b: seq<T>, p: T -> bool)
    ensures Filter(a + b, p) == Filter(a, p) + Filter(b, p)
  {
    if a == [] {
      assert a + b == b;
    } else {
      assert (a + b)[1..] == a[1..] + b;
      FilterConcat(a[1..], b, p);
    }
  }

  /** A filter that drops nothing keeps the list as it was. */
  lemma {:induction false} FilterKeepsAll<T>(s: seq<T>, p: T -> bool)
    requires |Filter(s, p)| == |s|
    ensures Filter(s, p) == s
  {
    if s != [] && p(s[0]) {
      FilterKeepsAll(s[1..], p);
    }
  }

  /** The dictionary a `forEach` builds with `dict[key(e)] = val(e)`: a
      later element with the same key overwrites an earlier one. */
  function Index<T, K, V>(s: seq<T>, key: T -> K, val: T -> V): map<K, V> {
    if s == [] then map[]
    else Index(s[..|s| - 1], key, val)[key(s[|s| - 1]) := val(s[|s| - 1])]
  }

  /** The dictionary's keys are exactly the keys of the elements. */
  lemma {:induction false} IndexKeys<T, K, V>(s: seq<T>, key: T -> K, val: T -> V, k: K)
    ensures k in Index(s, key, val) <==> exists i :: 0 <= i < |s| && key(s[i]) == k
  {
    if s != [] {
      var n := |s| - 1;
      var init := s[..n];
      IndexKeys(init, key, val, k);
      if k in Index(init, key, val) {
        var i :| 0 <= i < |init| && key(init[i]) == k;
        assert s[i] == init[i];
      }
      if exists i :: 0 <= i < n && key(s[i]) == k {
        var i :| 0 <= i < n && key(s[i]) == k;
        assert init[i] == s[i];
      }
    }
  }

  /** The last element with a given key is the one the dictionary keeps. */
  lemma {:induction false} IndexLastWins<T, K, V>(s: seq<T>, key: T -> K, val: T -> V, i: int)
    requires 0 <= i < |s|
    requires forall j :: i < j < |s| ==> key(s[j]) != key(s[i])
    ensures key(s[i]) in Index(s, key, val)
    ensures Index(s, key, val)[key(s[i])] == val(s[i])
  {
    var n := |s| - 1;
    if i < n {
      var init := s[..n];
      assert init[i] == s[i];
      IndexLastWins(init, key, val, i);
    }
  }

  // --------------------------------------------------------- sorted ints

  predicate SortedAsc(s: seq<int>) {
    forall i, j :: 0 <= i < j < |s| ==> s[i] <= s[j]
  }

  function InsertAsc(x: int, s: seq<int>): (r: seq<int>)
    requires SortedAsc(s)
    ensures SortedAsc(r) && multiset(r) == multiset(s) + multiset{x}
  {
    if s == [] || x <= s[0] then [x] + s
    else
      assert s == [s[0]] + s[1..];
      var rest := InsertAsc(x, s[1..]);
      BoundedByMultiset(s[0], s[1..], x, rest);
      [s[0]] + rest
  }

  /** A lower bound of `t` and of `x` bounds every permutation of them. */
  lemma BoundedByMultiset(lo: int, t: seq<int>, x: int, r: seq<int>)
    requires lo <= x && forall j :: 0 <= j < |t| ==> lo <= t[j]
    requires multiset(r) == multiset(t) + multiset{x}
    ensures forall k :: 0 <= k < |r| ==> lo <= r[k]
  {
    forall k | 0 <= k < |r|
      ensures lo <= r[k]
    {
      assert r[k] in multiset(r);
      assert r[k] == x || r[k] in multiset(t);
    }
  }

  /** The numbers in ascending order. */
  function SortAsc(s: seq<int>): (r: seq<int>)
    ensures SortedAsc(r) && multiset(r) == multiset(s)
  {
    if s == [] then []
    else
      assert s == [s[0]] + s[1..];
      InsertAsc(s[0], SortAsc(s[1..]))
  }
}
