/**
 Python's `sorted` as used across the backend: a stable sort under a total
 preorder, and the ascending enumeration of a set under a total order.
 */
module Ordering {

  // The three laws are stated per tuple, so that the solver only uses them
  // where a lemma names the elements.
  predicate Total<T>(le: (T, T) -> bool, a: T, b: T) { le(a, b) || le(b, a) }

  predicate Transitive<T>(le: (T, T) -> bool, a: T, b: T, c: T) { le(a, b) && le(b, c) ==> le(a, c) }

  predicate Antisymmetric<T(==)>(le: (T, T) -> bool, a: T, b: T) { le(a, b) && le(b, a) ==> a == b }

  ghost predicate TotalPreorder<T(!new)>(le: (T, T) -> bool) {
    && (forall a, b :: Total(le, a, b))
    && (forall a, b, c :: Transitive(le, a, b, c))
  }

  ghost predicate TotalOrder<T(!new)>(le: (T, T) -> bool) {
    && TotalPreorder(le)
    && (forall a, b :: Antisymmetric(le, a, b))
  }

  ghost predicate Sorted<T>(s: seq<T>, le: (T, T) -> bool) {
    forall i, j :: 0 <= i < j < |s| ==> le(s[i], s[j])
  }

  // Elements that compare equal are the same element.
  ghost predicate StrictOn<T>(s: seq<T>, le: (T, T) -> bool) {
    forall x, y :: x in s && y in s ==> Antisymmetric(le, x, y)
  }

  ghost predicate NoDuplicates<T>(s: seq<T>) {
    forall i, j :: 0 <= i < j < |s| ==> s[i] != s[j]
  }

  function Insert<T>(x: T, s: seq<T>, le: (T, T) -> bool): seq<T> {
    if s == [] || le(x, s[0]) then [x] + s else [s[0]] + Insert(x, s[1..], le)
  }

  /** `sorted(xs, key=...)`: insertion from the right keeps equal elements in order. */
  function Sort<T>(xs: seq<T>, le: (T, T) -> bool): seq<T> {
    if xs == [] then [] else Insert(xs[0], Sort(xs[1..], le), le)
  }

  lemma {:induction false} InsertPermutes<T>(x: T, s: seq<T>, le: (T, T) -> bool)
    ensures multiset(Insert(x, s, le)) == multiset{x} + multiset(s)
  {
    if s != [] && !le(x, s[0]) {
      InsertPermutes(x, s[1..], le);
      assert s == [s[0]] + s[1..];
    }
  }

  lemma {:induction false} InsertSorted<T(!new)>(x: T, s: seq<T>, le: (T, T) -> bool)
    requires TotalPreorder(le) && Sorted(s, le)
    ensures Sorted(Insert(x, s, le), le)
  {
    if s == [] {
    } else if le(x, s[0]) {
      forall j | 0 <= j < |s| ensures le(x, s[j]) { assert Transitive(le, x, s[0], s[j]); }
    } else {
      InsertSorted(x, s[1..], le);
      InsertPermutes(x, s[1..], le);
      var r := Insert(x, s[1..], le);
      assert Total(le, x, s[0]);
      forall j | 0 <= j < |r| ensures le(s[0], r[j]) {
        assert r[j] in multiset(r);
        assert r[j] == x || r[j] in s[1..];
      }
    }
  }

  /** The sorted list is a rearrangement of the input in order. */
  lemma {:induction false} SortCorrect<T(!new)>(xs: seq<T>, le: (T, T) -> bool)
    requires TotalPreorder(le)
    ensures Sorted(Sort(xs, le), le)
    ensures multiset(Sort(xs, le)) == multiset(xs)
    ensures |Sort(xs, le)| == |xs|
  {
    if xs != [] {
      SortCorrect(xs[1..], le);
      InsertSorted(xs[0], Sort(xs[1..], le), le);
      InsertPermutes(xs[0], Sort(xs[1..], le), le);
      assert xs == [xs[0]] + xs[1..];
    }
    assert |Sort(xs, le)| == |multiset(Sort(xs, le))| == |multiset(xs)|;
  }

  /** A sorted list is left alone, equal elements included. */
  lemma {:induction false} SortIdempotent<T(!new)>(xs: seq<T>, le: (T, T) -> bool)
    requires Sorted(xs, le)
    ensures Sort(xs, le) == xs
  {
    if xs != [] {
      SortIdempotent(xs[1..], le);
      assert xs == [xs[0]] + xs[1..];
    }
  }

  lemma SortedHead<T(!new)>(a: seq<T>, b: seq<T>, le: (T, T) -> bool)
    requires TotalPreorder(le) && Sorted(a, le) && Sorted(b, le)
    requires a != [] && b != [] && a[0] in b && b[0] in a && StrictOn(a, le)
    ensures a[0] == b[0]
  {
    assert Total(le, a[0], a[0]) && Total(le, b[0], b[0]);
    var i :| 0 <= i < |a| && a[i] == b[0];
    var j :| 0 <= j < |b| && b[j] == a[0];
    assert le(a[0], a[i]) && le(b[0], b[j]);
    assert Antisymmetric(le, a[0], b[0]);
  }

  lemma MultisetTail<T>(a: seq<T>)
    requires a != []
    ensures multiset(a[1..]) == multiset(a) - multiset{a[0]}
  {
    assert a == [a[0]] + a[1..];
  }

  lemma RemoveOne<T>(b: seq<T>, j: nat)
    requires j < |b|
    ensures multiset(b[..j] + b[j + 1..]) == multiset(b) - multiset{b[j]}
  {
    assert b == b[..j] + [b[j]] + b[j + 1..];
  }

  /** Two sorted rearrangements of the same elements agree when ties are equalities. */
  lemma {:induction false} SortedUnique<T(!new)>(a: seq<T>, b: seq<T>, le: (T, T) -> bool)
    requires TotalPreorder(le) && Sorted(a, le) && Sorted(b, le)
    requires multiset(a) == multiset(b) && StrictOn(a, le)
    ensures a == b
  {
    assert |a| == |multiset(a)| == |multiset(b)| == |b|;
    if a != [] {
      assert a[0] in multiset(b) && b[0] in multiset(a);
      SortedHead(a, b, le);
      MultisetTail(a);
      MultisetTail(b);
      SortedUnique(a[1..], b[1..], le);
      assert a == [a[0]] + a[1..] && b == [b[0]] + b[1..];
    }
  }

  /** Sorting forgets the order of the input when ties are equalities. */
  lemma SortForgetsOrder<T(!new)>(a: seq<T>, b: seq<T>, le: (T, T) -> bool)
    requires TotalPreorder(le) && multiset(a) == multiset(b) && StrictOn(a, le)
    ensures Sort(a, le) == Sort(b, le)
  {
    SortCorrect(a, le);
    SortCorrect(b, le);
    forall x, y | x in Sort(a, le) && y in Sort(a, le) ensures Antisymmetric(le, x, y) {
      assert x in multiset(Sort(a, le)) && y in multiset(Sort(a, le));
    }
    SortedUnique(Sort(a, le), Sort(b, le), le);
  }

  // ---- Rearranging commutes with mapping ----

  function Map<A, B>(f: A -> B, s: seq<A>): seq<B> {
    if s == [] then [] else [f(s[0])] + Map(f, s[1..])
  }

  lemma {:induction false} MapInsert<A, B>(f: A -> B, l: seq<A>, x: A, r: seq<A>)
    ensures multiset(Map(f, l + [x] + r)) == multiset(Map(f, l + r)) + multiset{f(x)}
  {
    if l == [] {
      assert l + [x] + r == [x] + r && l + r == r;
      assert ([x] + r)[1..] == r;
    } else {
      assert (l + [x] + r)[1..] == l[1..] + [x] + r && (l + r)[1..] == l[1..] + r;
      MapInsert(f, l[1..], x, r);
    }
  }

  // The first element of a, found in a rearrangement b.
  lemma Pluck<T>(a: seq<T>, b: seq<T>) returns (l: seq<T>, r: seq<T>)
    requires a != [] && multiset(a) == multiset(b)
    ensures b == l + [a[0]] + r && multiset(a[1..]) == multiset(l + r)
  {
    assert a[0] in multiset(b);
    var j :| 0 <= j < |b| && b[j] == a[0];
    l, r := b[..j], b[j + 1..];
    RemoveOne(b, j);
    MultisetTail(a);
  }

  lemma {:induction false} MapPermutes<A, B>(f: A -> B, a: seq<A>, b: seq<A>)
    requires multiset(a) == multiset(b)
    ensures multiset(Map(f, a)) == multiset(Map(f, b))
  {
    if a == [] {
      assert |multiset(b)| == |b|;
    } else {
      var l, r := Pluck(a, b);
      MapPermutes(f, a[1..], l + r);
      MapInsert(f, l, a[0], r);
    }
  }

  // ---- Ascending enumeration of a set ----

  lemma {:induction false} LeastExists<T(!new)>(s: set<T>, le: (T, T) -> bool)
    requires TotalOrder(le) && s != {}
    ensures exists m :: m in s && forall y :: y in s ==> le(m, y)
  {
    var x :| x in s;
    assert Total(le, x, x);
    if s == {x} {
      assert forall y :: y in s ==> le(x, y);
    } else {
      LeastExists(s - {x}, le);
      var m :| m in s - {x} && forall y :: y in s - {x} ==> le(m, y);
      var k := if le(x, m) then x else m;
      assert Total(le, x, m);
      forall y | y in s ensures le(k, y) {
        assert y == x || y in s - {x};
        assert Transitive(le, x, m, y);
      }
      assert k in s;
    }
  }

  lemma LeastUnique<T(!new)>(s: set<T>, le: (T, T) -> bool, m: T, k: T)
    requires TotalOrder(le) && m in s && k in s && le(m, k) && le(k, m)
    ensures m == k
  {
    assert Antisymmetric(le, m, k);
  }

  function Least<T(!new)>(s: set<T>, le: (T, T) -> bool): (m: T)
    requires TotalOrder(le) && s != {}
    ensures m in s && forall y :: y in s ==> le(m, y)
  {
    LeastExists(s, le);
    assert forall m, k | m in s && k in s && le(m, k) && le(k, m) :: m == k by {
      forall m, k | m in s && k in s && le(m, k) && le(k, m) ensures m == k { LeastUnique(s, le, m, k); }
    }
    var m :| m in s && forall y | y in s :: le(m, y);
    m
  }

  /** `sorted(d.keys())`. */
  function SortedSet<T(!new)>(s: set<T>, le: (T, T) -> bool): (r: seq<T>)
    requires TotalOrder(le)
    ensures |r| == |s|
    ensures forall x :: x in r <==> x in s
  {
    if s == {} then [] else
      var m := Least(s, le);
      [m] + SortedSet(s - {m}, le)
  }

  lemma ConsAscends<T>(m: T, t: seq<T>, le: (T, T) -> bool)
    requires Sorted(t, le) && NoDuplicates(t) && m !in t && forall y :: y in t ==> le(m, y)
    ensures Sorted([m] + t, le) && NoDuplicates([m] + t)
  {
  }

  lemma {:induction false} SortedSetAscends<T(!new)>(s: set<T>, le: (T, T) -> bool)
    requires TotalOrder(le)
    ensures Sorted(SortedSet(s, le), le) && NoDuplicates(SortedSet(s, le))
  {
    if s != {} {
      var m := Least(s, le);
      SortedSetAscends(s - {m}, le);
      ConsAscends(m, SortedSet(s - {m}, le), le);
    }
  }

  /** Whatever order the keys are listed in, sorting them gives the one ascending list. */
  lemma SortedSetUnique<T(!new)>(keys: seq<T>, s: set<T>, le: (T, T) -> bool)
    requires TotalOrder(le) && NoDuplicates(keys) && (forall x :: x in keys <==> x in s)
    ensures Sort(keys, le) == SortedSet(s, le)
  {
    var r := SortedSet(s, le);
    SortedSetAscends(s, le);
    SortCorrect(keys, le);
    SetMultiset(keys, s);
    SetMultiset(r, s);
    SortedUnique(r, Sort(keys, le), le);
  }

  lemma {:induction false} SetMultiset<T(!new)>(keys: seq<T>, s: set<T>)
    requires NoDuplicates(keys) && (forall x :: x in keys <==> x in s)
    ensures multiset(keys) == multiset(s)
  {
    if keys == [] {
      assert s == {};
    } else {
      var k := keys[0];
      assert forall x :: x in keys[1..] ==> x in keys && x != k;
      forall x | x in s - {k} ensures x in keys[1..] {
        var i :| 0 <= i < |keys| && keys[i] == x;
        assert keys[1..][i - 1] == x;
      }
      SetMultiset(keys[1..], s - {k});
      assert keys == [k] + keys[1..];
      assert k in s;
      assert s == (s - {k}) + {k};
    }
  }

  // ---- The orders in use ----

  predicate IntLe(a: int, b: int) { a <= b }

  /** Python string order: code point by code point, a prefix first. */
  predicate StrLe(a: string, b: string) {
    a == [] || (b != [] && (a[0] < b[0] || (a[0] == b[0] && StrLe(a[1..], b[1..]))))
  }

  lemma {:induction false} StrLeTotal(a: string, b: string)
    ensures StrLe(a, b) || StrLe(b, a)
    ensures StrLe(a, b) && StrLe(b, a) ==> a == b
  {
    if a != [] && b != [] && a[0] == b[0] {
      StrLeTotal(a[1..], b[1..]);
      assert a == [a[0]] + a[1..] && b == [b[0]] + b[1..];
    }
  }

  lemma {:induction false} StrLeTransitive(a: string, b: string, c: string)
    requires StrLe(a, b) && StrLe(b, c)
    ensures StrLe(a, c)
  {
    if a != [] && a[0] == b[0] && b[0] == c[0] {
      StrLeTransitive(a[1..], b[1..], c[1..]);
    }
  }

  lemma StrLeIsTotalOrder()
    ensures TotalOrder(StrLe)
  {
    forall a, b ensures Total(StrLe, a, b) && Antisymmetric(StrLe, a, b) { StrLeTotal(a, b); }
    forall a, b, c ensures Transitive(StrLe, a, b, c) {
      if StrLe(a, b) && StrLe(b, c) { StrLeTransitive(a, b, c); }
    }
  }

  /** At the first place where two texts differ, the first has the smaller character or has ended. */
  ghost predicate TextBefore(a: string, b: string) {
    exists i :: 0 <= i <= |a| && i < |b| && a[..i] == b[..i] && (i == |a| || a[i] < b[i])
  }

  lemma BeforeInTail(a: string, b: string)
    requires a != [] && b != [] && a[0] == b[0]
    ensures TextBefore(a, b) ==> TextBefore(a[1..], b[1..])
  {
    if TextBefore(a, b) {
      var i :| 0 <= i <= |a| && i < |b| && a[..i] == b[..i] && (i == |a| || a[i] < b[i]);
      assert i > 0;
      assert a[1..][..i - 1] == a[..i][1..] && b[1..][..i - 1] == b[..i][1..];
    }
  }

  lemma TailInBefore(a: string, b: string)
    requires a != [] && b != [] && a[0] == b[0]
    ensures TextBefore(a[1..], b[1..]) ==> TextBefore(a, b)
  {
    var s, t := a[1..], b[1..];
    if TextBefore(s, t) {
      var i :| 0 <= i <= |s| && i < |t| && s[..i] == t[..i] && (i == |s| || s[i] < t[i]);
      assert a[..i + 1] == [a[0]] + s[..i] && b[..i + 1] == [b[0]] + t[..i];
    }
  }

  lemma SameStart(a: string, b: string, i: nat)
    requires 0 < i <= |a| && i <= |b| && a[..i] == b[..i]
    ensures a[0] == b[0]
  {
    assert a[..i][0] == b[..i][0];
  }

  lemma BeforeAtHead(a: string, b: string)
    requires a == [] || b == [] || a[0] != b[0]
    ensures TextBefore(a, b) <==> b != [] && (a == [] || a[0] < b[0])
  {
    if TextBefore(a, b) {
      var i :| 0 <= i <= |a| && i < |b| && a[..i] == b[..i] && (i == |a| || a[i] < b[i]);
      if i > 0 { SameStart(a, b, i); }
    }
    if b != [] && (a == [] || a[0] < b[0]) { assert a[..0] == b[..0]; }
  }

  lemma {:induction false} StrLeMeans(a: string, b: string)
    ensures StrLe(a, b) <==> a == b || TextBefore(a, b)
  {
    hide TextBefore;
    if a != [] && b != [] && a[0] == b[0] {
      StrLeMeans(a[1..], b[1..]);
      BeforeInTail(a, b);
      TailInBefore(a, b);
      assert a == [a[0]] + a[1..] && b == [b[0]] + b[1..];
    } else {
      BeforeAtHead(a, b);
    }
  }

  // ---- Ascending integers ----

  predicate Ascends(s: seq<int>) { forall i, j :: 0 <= i < j < |s| ==> s[i] < s[j] }

  lemma IntLeIsTotalOrder()
    ensures TotalOrder(IntLe)
  {
    forall a, b ensures Total(IntLe, a, b) && Antisymmetric(IntLe, a, b) {}
    forall a, b, c ensures Transitive(IntLe, a, b, c) {}
  }

  function Ascending(s: set<int>): (r: seq<int>)
    ensures forall t :: t in r <==> t in s
  {
    IntLeIsTotalOrder();
    SortedSet(s, IntLe)
  }

  lemma AscendingAscends(s: set<int>)
    ensures Ascends(Ascending(s))
  {
    IntLeIsTotalOrder();
    SortedSetAscends(s, IntLe);
    var r := Ascending(s);
    forall i, j | 0 <= i < j < |r| ensures r[i] < r[j] { assert IntLe(r[i], r[j]); }
  }

  lemma ConsAscendsInt(x: int, s: seq<int>)
    requires Ascends(s) && forall i :: 0 <= i < |s| ==> x < s[i]
    ensures Ascends([x] + s)
  {
  }

  lemma AscendsIsSorted(s: seq<int>)
    requires Ascends(s)
    ensures Sorted(s, IntLe) && NoDuplicates(s)
  {
  }

  /** The ascending list of a set of integers is unique. */
  lemma AscendingUnique(s: seq<int>, m: set<int>)
    requires Ascends(s) && forall t :: t in s <==> t in m
    ensures s == Ascending(m)
  {
    IntLeIsTotalOrder();
    AscendsIsSorted(s);
    SortIdempotent(s, IntLe);
    SortedSetUnique(s, m, IntLe);
  }
}
