/** Python's `list.sort(key=..., reverse=...)`: a stable sort under a total
    preorder. Every ordering the routes use (by name, by score descending,
    by strength and count descending, by creation time descending) is an
    instance of `Sort` with its own comparison. */
module Sorting {
  import Text

  /** `le` is total and transitive: what a sort key with `<=` (or `>=` for
      `reverse=True`) provides. */
  ghost predicate TotalPreorder<T(!new)>(le: (T, T) -> bool) {
    (forall a, b :: le(a, b) || le(b, a))
    && (forall a, b, c :: le(a, b) && le(b, c) ==> le(a, c))
  }

  predicate SortedBy<T>(s: seq<T>, le: (T, T) -> bool) {
    forall i, j :: 0 <= i < j < |s| ==> le(s[i], s[j])
  }

  /** Places `x` after every element of `s` that is `le` it. */
  function Insert<T>(x: T, s: seq<T>, le: (T, T) -> bool): (r: seq<T>)
    ensures multiset(r) == multiset(s) + multiset{x}
    ensures |r| == |s| + 1
  {
    if s == [] then [x]
    else if le(s[0], x) then
      assert s == [s[0]] + s[1..];
      [s[0]] + Insert(x, s[1..], le)
    else [x] + s
  }

  /** Stable insertion sort: each element is placed after the equivalent
      elements that precede it in the input. */
  function Sort<T>(s: seq<T>, le: (T, T) -> bool): (r: seq<T>)
    ensures multiset(r) == multiset(s)
    ensures |r| == |s|
  {
    if s == [] then []
    else
      assert s == s[..|s| - 1] + [s[|s| - 1]];
      Insert(s[|s| - 1], Sort(s[..|s| - 1], le), le)
  }

  lemma {:induction false} InsertSorted<T(!new)>(x: T, s: seq<T>, le: (T, T) -> bool)
    requires TotalPreorder(le)
    requires SortedBy(s, le)
    ensures SortedBy(Insert(x, s, le), le)
  {
    if s == [] {
    } else if le(s[0], x) {
      var tail := Insert(x, s[1..], le);
      InsertSorted(x, s[1..], le);
      forall k | 0 <= k < |tail| ensures le(s[0], tail[k]) {
        InsertedFrom(x, s, le, k);
      }
      ConsSorted(s[0], tail, le);
    } else {
      assert le(x, s[0]);
      forall k | 0 <= k < |s| ensures le(x, s[k]) {
        if k > 0 {
          assert le(s[0], s[k]);
        }
      }
      ConsSorted(x, s, le);
    }
  }

  /** An element of the tail after insertion is `x` or an element of `s`
      after its head. */
  lemma InsertedFrom<T(!new)>(x: T, s: seq<T>, le: (T, T) -> bool, k: nat)
    requires TotalPreorder(le)
    requires SortedBy(s, le) && s != [] && le(s[0], x)
    requires k < |Insert(x, s[1..], le)|
    ensures le(s[0], Insert(x, s[1..], le)[k])
  {
    var tail := Insert(x, s[1..], le);
    assert tail[k] in multiset(tail);
    if tail[k] != x {
      assert tail[k] in multiset(s[1..]);
      var j :| 0 <= j < |s[1..]| && s[1..][j] == tail[k];
      assert s[j + 1] == tail[k];
    }
  }

  /** A head below every element of a sorted tail gives a sorted sequence. */
  lemma ConsSorted<T>(h: T, t: seq<T>, le: (T, T) -> bool)
    requires SortedBy(t, le)
    requires forall k :: 0 <= k < |t| ==> le(h, t[k])
    ensures SortedBy([h] + t, le)
  {
    var r := [h] + t;
    forall i, j | 0 <= i < j < |r| ensures le(r[i], r[j]) {
      assert r[j] == t[j - 1];
      if i > 0 {
        assert r[i] == t[i - 1];
      }
    }
  }

  /** The result of `Sort` is ordered by `le`. */
  lemma {:induction false} SortSorted<T(!new)>(s: seq<T>, le: (T, T) -> bool)
    requires TotalPreorder(le)
    ensures SortedBy(Sort(s, le), le)
  {
    if s != [] {
      SortSorted(s[..|s| - 1], le);
      InsertSorted(s[|s| - 1], Sort(s[..|s| - 1], le), le);
    }
  }

  /** Python's `sorted(items, ...)[:limit]`: the cut keeps as many as the
      limit allows, in order, drawn from the items, and each one kept sorts
      before every one cut off. */
  lemma SortedPrefix<T(!new)>(items: seq<T>, le: (T, T) -> bool, limit: int)
    requires TotalPreorder(le)
    ensures var r := Text.Take(Sort(items, le), limit);
      && (limit >= 0 ==> |r| == if limit < |items| then limit else |items|)
      && SortedBy(r, le)
      && multiset(r) <= multiset(items)
      && (forall x :: x in r ==> x in items)
      && (forall x, c :: x in r && c in multiset(items) - multiset(r) ==> le(x, c))
      && (limit >= |items| ==> multiset(r) == multiset(items))
  {
    var sorted := Sort(items, le);
    SortSorted(items, le);
    var r := Text.Take(sorted, limit);
    var rest := sorted[|r|..];
    assert sorted == r + rest;
    assert multiset(items) == multiset(r) + multiset(rest);
    forall x | x in r ensures x in items {
      assert x in multiset(items);
    }
    forall i, j | 0 <= i < j < |r| ensures le(r[i], r[j]) {
      assert r[i] == sorted[i] && r[j] == sorted[j];
    }
    forall x, c | x in r && c in multiset(items) - multiset(r) ensures le(x, c) {
      assert c in multiset(rest);
      assert c in rest;
      var j :| 0 <= j < |rest| && rest[j] == c;
      var i :| 0 <= i < |r| && r[i] == x;
      assert sorted[i] == x && sorted[|r| + j] == c;
    }
  }

  predicate NoDuplicates<T(==)>(s: seq<T>) {
    forall i, j :: 0 <= i < j < |s| ==> s[i] != s[j]
  }

  /** A list without duplicates holds each value at most once. */
  lemma {:induction false} NoDuplicatesCount<T>(s: seq<T>, x: T)
    requires NoDuplicates(s)
    ensures multiset(s)[x] <= 1
  {
    if s != [] {
      var n := |s| - 1;
      var init := s[..n];
      assert s == init + [s[n]];
      assert forall i :: 0 <= i < n ==> init[i] == s[i];
      NoDuplicatesCount(init, x);
      if s[n] == x {
        assert x !in init;
      }
    }
  }

  /** Two positions holding the same value count it twice. */
  lemma TwoCopies<T>(r: seq<T>, i: nat, j: nat)
    requires i < j < |r|
    ensures r[i] == r[j] ==> multiset(r)[r[i]] >= 2
  {
    assert r == r[..j] + [r[j]] + r[j + 1..];
    assert r[i] == r[..j][i];
    assert multiset(r) == multiset(r[..j]) + multiset{r[j]} + multiset(r[j + 1..]);
  }

  /** Part of a list without duplicates has none either. */
  lemma NoDuplicatesSub<T>(r: seq<T>, s: seq<T>)
    requires multiset(r) <= multiset(s) && NoDuplicates(s)
    ensures NoDuplicates(r)
  {
    forall i, j | 0 <= i < j < |r| ensures r[i] != r[j] {
      NoDuplicatesCount(s, r[i]);
      TwoCopies(r, i, j);
    }
  }

  /** Python's `[y for y in s if p(y)]`. */
  function Filter<T>(s: seq<T>, p: T -> bool): (r: seq<T>)
    ensures |r| <= |s|
    ensures forall y :: y in r ==> y in s && p(y)
  {
    if s == [] then []
    else (if p(s[0]) then [s[0]] else []) + Filter(s[1..], p)
  }

  lemma {:induction false} FilterAppend<T>(s: seq<T>, t: seq<T>, p: T -> bool)
    ensures Filter(s + t, p) == Filter(s, p) + Filter(t, p)
  {
    if s == [] {
      assert s + t == t;
    } else {
      assert (s + t)[0] == s[0];
      assert (s + t)[1..] == s[1..] + t;
      FilterAppend(s[1..], t, p);
    }
  }

  lemma {:induction false} FilterNone<T>(s: seq<T>, p: T -> bool)
    requires forall k :: 0 <= k < |s| ==> !p(s[k])
    ensures Filter(s, p) == []
  {
    if s != [] {
      FilterNone(s[1..], p);
    }
  }

  /** When `y` sorts strictly before the head of a sorted `s`, nothing in `s`
      is equivalent to `y`. */
  lemma GreaterNotEquivalent<T(!new)>(x: T, y: T, s: seq<T>, le: (T, T) -> bool, p: T -> bool)
    requires TotalPreorder(le)
    requires SortedBy(s, le)
    requires s != [] && !le(s[0], y)
    requires p(y)
    requires forall z :: p(z) <==> le(x, z) && le(z, x)
    ensures forall k :: 0 <= k < |s| ==> !p(s[k])
  {
    forall k | 0 <= k < |s| ensures !p(s[k]) {
      var head, z := s[0], s[k];
      assert le(head, z);
      assert le(z, y) ==> le(head, y);
      assert p(z) ==> le(z, y);
    }
  }

  lemma FilterHead<T>(h: T, t: seq<T>, p: T -> bool)
    ensures Filter([h] + t, p) == (if p(h) then [h] else []) + Filter(t, p)
  {
    assert ([h] + t)[0] == h;
    assert ([h] + t)[1..] == t;
  }

  /** Filtering commutes with putting one element in front. */
  lemma FilterCons<T>(h: T, tail: seq<T>, rest: seq<T>, ys: seq<T>, p: T -> bool)
    requires Filter(tail, p) == Filter(rest, p) + ys
    ensures Filter([h] + tail, p) == Filter([h] + rest, p) + ys
  {
    var c: seq<T> := if p(h) then [h] else [];
    var b := Filter(rest, p);
    FilterHead(h, tail, p);
    FilterHead(h, rest, p);
    ConcatAssoc(c, b, ys);
  }

  lemma ConcatAssoc<T>(a: seq<T>, b: seq<T>, c: seq<T>)
    ensures a + (b + c) == (a + b) + c
  {
  }

  /** Inserting `y` in front of a sorted `s` whose head sorts after it. */
  lemma InsertFront<T(!new)>(x: T, y: T, s: seq<T>, le: (T, T) -> bool, p: T -> bool)
    requires TotalPreorder(le)
    requires SortedBy(s, le)
    requires s != [] && !le(s[0], y)
    requires forall z :: p(z) <==> le(x, z) && le(z, x)
    ensures Filter([y] + s, p) == Filter(s, p) + Filter([y], p)
  {
    FilterAppend([y], s, p);
    if p(y) {
      GreaterNotEquivalent(x, y, s, le, p);
      FilterNone(s, p);
    } else {
      assert Filter([y], p) == [];
    }
  }

  lemma {:induction false} InsertStable<T(!new)>(x: T, y: T, s: seq<T>, le: (T, T) -> bool, p: T -> bool)
    requires TotalPreorder(le)
    requires SortedBy(s, le)
    requires forall z :: p(z) <==> le(x, z) && le(z, x)
    ensures Filter(Insert(y, s, le), p) == Filter(s, p) + Filter([y], p)
  {
    if s == [] {
      assert Insert(y, s, le) == [y];
      assert Filter(s, p) == [];
    } else if le(s[0], y) {
      var tail := Insert(y, s[1..], le);
      assert Insert(y, s, le) == [s[0]] + tail;
      assert SortedBy(s[1..], le);
      InsertStable(x, y, s[1..], le, p);
      FilterCons(s[0], tail, s[1..], Filter([y], p), p);
      assert [s[0]] + s[1..] == s;
    } else {
      assert Insert(y, s, le) == [y] + s;
      InsertFront(x, y, s, le, p);
    }
  }

  /** Stability: the elements equivalent to any `x` appear in the output in
      the order they had in the input. */
  lemma {:induction false} SortStable<T(!new)>(x: T, s: seq<T>, le: (T, T) -> bool, p: T -> bool)
    requires TotalPreorder(le)
    requires forall z :: p(z) <==> le(x, z) && le(z, x)
    ensures Filter(Sort(s, le), p) == Filter(s, p)
  {
    if s != [] {
      var init := s[..|s| - 1];
      var last := s[|s| - 1];
      assert s == init + [last];
      assert Sort(s, le) == Insert(last, Sort(init, le), le);
      SortSorted(init, le);
      InsertStable(x, last, Sort(init, le), le, p);
      SortStable(x, init, le, p);
      FilterAppend(init, [last], p);
    }
  }
}
