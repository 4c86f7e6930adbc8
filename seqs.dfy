/** The JavaScript array methods the store is written with: `filter`, `find`,
    `findIndex`, `splice(i, 1)` and the stable comparator `sort`. */
module Seqs {
  import opened Wrappers

  /** `r` is `s` with some elements deleted and the rest kept in order. */
  predicate IsSubsequence<T(==)>(r: seq<T>, s: seq<T>)
    decreases |s|
  {
    if r == [] then true
    else if s == [] then false
    else if r[0] == s[0] then IsSubsequence(r[1..], s[1..])
    else IsSubsequence(r, s[1..])
  }

  /** `Array.prototype.filter`: the elements of `s` that satisfy `p`, in order. */
  function Filter<T(==)>(s: seq<T>, p: T -> bool): (r: seq<T>)
    ensures |r| <= |s|
    ensures forall i :: 0 <= i < |r| ==> p(r[i]) && r[i] in s
    ensures forall i :: 0 <= i < |s| && p(s[i]) ==> s[i] in r
    ensures IsSubsequence(r, s)
  {
    if s == [] then []
    else if p(s[0]) then [s[0]] + Filter(s[1..], p)
    else
      var rest := Filter(s[1..], p);
      assert rest != [] ==> p(rest[0]) && rest[0] != s[0];
      rest
  }

  /** `Array.prototype.findIndex`, with `None` for its `-1`. */
  function FirstIndex<T>(s: seq<T>, p: T -> bool): (r: Option<nat>)
    ensures r.Some? ==> r.value < |s| && p(s[r.value])
    ensures r.Some? ==> forall k :: 0 <= k < r.value ==> !p(s[k])
    ensures r.None? ==> forall k :: 0 <= k < |s| ==> !p(s[k])
  {
    if s == [] then None
    else if p(s[0]) then Some(0)
    else match FirstIndex(s[1..], p)
      case None => None
      case Some(i) => Some(i + 1)
  }

  /** `Array.prototype.find`, with `None` for its `undefined`. */
  function Find<T>(s: seq<T>, p: T -> bool): (r: Option<T>)
    ensures r.Some? <==> exists k :: 0 <= k < |s| && p(s[k])
    ensures r.Some? ==> p(r.value)
    ensures r.Some? ==> exists k :: 0 <= k < |s| && s[k] == r.value
    ensures forall k :: 0 <= k < |s| && p(s[k]) && (forall m :: 0 <= m < k ==> !p(s[m])) ==>
              r == Some(s[k])
  {
    match FirstIndex(s, p)
    case None => None
    case Some(i) => Some(s[i])
  }

  /** `splice(i, 1)`: the sequence without its element at `i`. */
  function RemoveAt<T>(s: seq<T>, i: nat): (r: seq<T>)
    requires i < |s|
    ensures |r| == |s| - 1
    ensures forall k :: 0 <= k < i ==> r[k] == s[k]
    ensures forall k :: i <= k < |r| ==> r[k] == s[k + 1]
  {
    s[..i] + s[i + 1..]
  }

  /** `splice(i, 1)` takes out one copy of the element at `i` and nothing else. */
  lemma RemoveAtMultiset<T>(s: seq<T>, i: nat)
    requires i < |s|
    ensures multiset(RemoveAt(s, i)) + multiset{s[i]} == multiset(s)
  {
    assert s == s[..i] + [s[i]] + s[i + 1..];
  }

  /** The comparator of a sort puts `a` strictly before `b`.  A comparator
      that sorts consistently is a strict weak order: asymmetric, and
      whenever `a` comes before `c`, any `b` comes after `a` or before `c`. */
  ghost predicate StrictWeakOrder<T(!new)>(before: (T, T) -> bool)
  {
    && (forall a, b :: before(a, b) ==> !before(b, a))
    && (forall a, b, c :: before(a, c) ==> before(a, b) || before(b, c))
  }

  /** The members of a filtered sequence are the members that satisfy the test. */
  lemma FilterMembers<T>(s: seq<T>, p: T -> bool)
    ensures forall x :: x in Filter(s, p) <==> x in s && p(x)
  {
    var r := Filter(s, p);
    forall x | x in r
      ensures x in s && p(x)
    {
      var k :| 0 <= k < |r| && r[k] == x;
    }
    forall x | x in s && p(x)
      ensures x in r
    {
      var k :| 0 <= k < |s| && s[k] == x;
    }
  }

  /** A filtered sequence keeps every copy of an element that satisfies the
      test and no copy of one that does not. */
  lemma {:induction false} FilterMultiplicity<T>(s: seq<T>, p: T -> bool, x: T)
    ensures multiset(Filter(s, p))[x] == if p(x) then multiset(s)[x] else 0
  {
    if s != [] {
      FilterMultiplicity(s[1..], p, x);
      FilterCons(s[0], s[1..], p);
      assert s == [s[0]] + s[1..];
    }
  }

  /** Two sequences with one multiset have the same elements. */
  lemma SameMembers<T>(a: seq<T>, b: seq<T>)
    requires multiset(a) == multiset(b)
    ensures forall x :: x in a <==> x in b
  {
    forall x
      ensures x in a <==> x in b
    {
      assert x in a <==> x in multiset(a);
      assert x in b <==> x in multiset(b);
    }
  }

  /** No element is strictly before an element to its left. */
  predicate SortedBy<T>(s: seq<T>, before: (T, T) -> bool)
  {
    forall i, j :: 0 <= i < j < |s| ==> !before(s[j], s[i])
  }

  /** Neither of `x` and `e` comes before the other: the comparator returns 0. */
  function TiedWith<T>(before: (T, T) -> bool, e: T): T -> bool
  {
    x => !before(x, e) && !before(e, x)
  }

  /** Places `x` in front of the first element that is not strictly before it. */
  function Insert<T>(x: T, s: seq<T>, before: (T, T) -> bool): (r: seq<T>)
    ensures multiset(r) == multiset(s) + multiset{x}
  {
    if s == [] then [x]
    else if before(s[0], x) then
      assert s == [s[0]] + s[1..];
      [s[0]] + Insert(x, s[1..], before)
    else [x] + s
  }

  /** `Array.prototype.sort(compare)`: a stable sort (insertion sort) in which
      `before(a, b)` holds when `compare(a, b) < 0`. */
  function SortBy<T>(s: seq<T>, before: (T, T) -> bool): (r: seq<T>)
    ensures multiset(r) == multiset(s)
  {
    if s == [] then []
    else
      assert s == [s[0]] + s[1..];
      Insert(s[0], SortBy(s[1..], before), before)
  }

  lemma {:induction false} InsertSorted<T(!new)>(x: T, s: seq<T>, before: (T, T) -> bool)
    requires StrictWeakOrder(before) && SortedBy(s, before)
    ensures SortedBy(Insert(x, s, before), before)
  {
    if s != [] {
      if before(s[0], x) {
        var t := Insert(x, s[1..], before);
        InsertSorted(x, s[1..], before);
        var r := [s[0]] + t;
        forall j | 0 < j < |r|
          ensures !before(r[j], s[0])
        {
          var y := t[j - 1];
          assert y in multiset(t);
          assert y == x || y in multiset(s[1..]);
          if y != x {
            var k :| 0 <= k < |s[1..]| && s[1..][k] == y;
            assert s[k + 1] == y;
          }
        }
        assert SortedBy(r, before);
      } else {
        var r := [x] + s;
        forall j | 0 < j < |r|
          ensures !before(r[j], x)
        {
          if j > 1 {
            assert !before(s[j - 1], s[0]);
          }
        }
        assert SortedBy(r, before);
      }
    }
  }

  /** The sort puts its result in order. */
  lemma {:induction false} SortBySorted<T(!new)>(s: seq<T>, before: (T, T) -> bool)
    requires StrictWeakOrder(before)
    ensures SortedBy(SortBy(s, before), before)
  {
    if s != [] {
      SortBySorted(s[1..], before);
      InsertSorted(s[0], SortBy(s[1..], before), before);
    }
  }

  lemma FilterCons<T>(x: T, s: seq<T>, p: T -> bool)
    ensures Filter([x] + s, p) == if p(x) then [x] + Filter(s, p) else Filter(s, p)
  {
    assert ([x] + s)[1..] == s;
  }

  /** If `a` comes strictly before `x`, the two do not both tie with `e`. */
  lemma StrictlyBeforeNotBothTied<T(!new)>(a: T, x: T, before: (T, T) -> bool, e: T)
    requires StrictWeakOrder(before) && before(a, x)
    ensures !(TiedWith(before, e)(a) && TiedWith(before, e)(x))
  {
    assert before(a, e) || before(e, x);
  }

  lemma SkipStep<T>(y: T, x: T, t: seq<T>, s: seq<T>, tied: T -> bool)
    requires !(tied(y) && tied(x))
    requires Filter(t, tied) == (if tied(x) then [x] else []) + Filter(s, tied)
    ensures Filter([y] + t, tied) == (if tied(x) then [x] else []) + Filter([y] + s, tied)
  {
    FilterCons(y, t, tied);
    FilterCons(y, s, tied);
  }

  lemma {:induction false} InsertKeepsTies<T(!new)>(x: T, s: seq<T>, before: (T, T) -> bool, e: T)
    requires StrictWeakOrder(before)
    ensures var tied := TiedWith(before, e);
      Filter(Insert(x, s, before), tied) == (if tied(x) then [x] else []) + Filter(s, tied)
  {
    var tied := TiedWith(before, e);
    if s == [] {
      FilterCons(x, [], tied);
    } else if before(s[0], x) {
      InsertKeepsTies(x, s[1..], before, e);
      StrictlyBeforeNotBothTied(s[0], x, before, e);
      SkipStep(s[0], x, Insert(x, s[1..], before), s[1..], tied);
      assert s == [s[0]] + s[1..];
    } else {
      FilterCons(x, s, tied);
    }
  }

  /** The sort is stable: the elements that tie with any `e` keep their order. */
  lemma {:induction false} SortByStable<T(!new)>(s: seq<T>, before: (T, T) -> bool, e: T)
    requires StrictWeakOrder(before)
    ensures Filter(SortBy(s, before), TiedWith(before, e)) == Filter(s, TiedWith(before, e))
  {
    if s != [] {
      SortByStable(s[1..], before, e);
      InsertKeepsTies(s[0], SortBy(s[1..], before), before, e);
      FilterCons(s[0], s[1..], TiedWith(before, e));
      assert s == [s[0]] + s[1..];
    }
  }
}
