/**
 Orders and sorting.  Go compares strings byte by byte, which on UTF-8 text is the
 order of the code points.  slices.SortFunc promises only some ordered permutation;
 `Sort` is one such permutation, and `OrderedPermutationUnique` says when every
 sort must return the same one.
 */
module Ordering {
  import opened Basics

  /** strings.Compare(a, b) <= 0 */
  predicate Le(a: string, b: string) {
    a == [] || (b != [] && (a[0] < b[0] || (a[0] == b[0] && Le(a[1..], b[1..]))))
  }

  predicate Lt(a: string, b: string) {
    Le(a, b) && a != b
  }

  /** At the first place where a and b differ, a holds the smaller character. */
  ghost predicate SmallerAt(a: string, b: string, i: nat) {
    i < |a| && i < |b| && a[..i] == b[..i] && a[i] < b[i]
  }

  /** Dictionary order: a is a prefix of b, or smaller where they first differ. */
  lemma {:induction false} LeMeaning(a: string, b: string)
    ensures Le(a, b) <==> a <= b || exists i: nat :: SmallerAt(a, b, i)
  {
    if a != [] && b != [] {
      if a[0] == b[0] {
        LeMeaning(a[1..], b[1..]);
        forall i: nat | SmallerAt(a[1..], b[1..], i) ensures SmallerAt(a, b, i + 1) {
          assert a[..i + 1] == [a[0]] + a[1..][..i] && b[..i + 1] == [b[0]] + b[1..][..i];
        }
        forall i: nat | SmallerAt(a, b, i) ensures i > 0 && SmallerAt(a[1..], b[1..], i - 1) {
          assert a[1..][..i - 1] == a[..i][1..] && b[1..][..i - 1] == b[..i][1..];
        }
        assert a <= b <==> a[1..] <= b[1..];
      } else if a[0] < b[0] {
        assert SmallerAt(a, b, 0);
      } else {
        forall i: nat ensures !SmallerAt(a, b, i) {
          if i > 0 && i < |a| && i < |b| { assert a[..i][0] != b[..i][0]; }
        }
      }
    }
  }

  lemma {:induction false} LeTotal(a: string, b: string)
    ensures Le(a, b) || Le(b, a)
    ensures Le(a, b) && Le(b, a) ==> a == b
  {
    if a != [] && b != [] && a[0] == b[0] {
      LeTotal(a[1..], b[1..]);
      assert a == [a[0]] + a[1..] && b == [b[0]] + b[1..];
    }
  }

  lemma {:induction false} LeTransitive(a: string, b: string, c: string)
    requires Le(a, b) && Le(b, c)
    ensures Le(a, c)
  {
    if a != [] && b != [] && c != [] && a[0] == b[0] == c[0] {
      LeTransitive(a[1..], b[1..], c[1..]);
    }
  }

  ghost predicate Preorder<T(!new)>(le: (T, T) -> bool) {
    && (forall x, y :: le(x, y) || le(y, x))
    && (forall x, y, z :: le(x, y) && le(y, z) ==> le(x, z))
  }

  lemma LePreorder()
    ensures Preorder(Le)
  {
    forall x, y ensures Le(x, y) || Le(y, x) { LeTotal(x, y); }
    forall x, y, z | Le(x, y) && Le(y, z) ensures Le(x, z) { LeTransitive(x, y, z); }
  }

  ghost predicate Sorted<T>(s: seq<T>, le: (T, T) -> bool) {
    forall i, j :: 0 <= i < j < |s| ==> le(s[i], s[j])
  }

  /** Ties in the order occur only between equal elements. */
  ghost predicate TieFree<T>(s: seq<T>, le: (T, T) -> bool) {
    forall x, y :: x in s && y in s && le(x, y) && le(y, x) ==> x == y
  }

  ghost predicate OrderedPermutation<T>(s: seq<T>, r: seq<T>, le: (T, T) -> bool) {
    Sorted(r, le) && multiset(r) == multiset(s)
  }

  function Insert<T>(x: T, s: seq<T>, le: (T, T) -> bool): seq<T> {
    if s == [] then [x]
    else if le(x, s[0]) then [x] + s
    else [s[0]] + Insert(x, s[1..], le)
  }

  function Sort<T>(s: seq<T>, le: (T, T) -> bool): seq<T> {
    if s == [] then [] else Insert(s[0], Sort(s[1..], le), le)
  }

  lemma {:induction false} InsertOrdered<T(!new)>(x: T, s: seq<T>, le: (T, T) -> bool)
    requires Preorder(le) && Sorted(s, le)
    ensures Sorted(Insert(x, s, le), le)
    ensures multiset(Insert(x, s, le)) == multiset(s) + multiset{x}
  {
    if s == [] {
    } else {
      assert s == [s[0]] + s[1..];
      if le(x, s[0]) {
      } else {
        var rest := Insert(x, s[1..], le);
        InsertOrdered(x, s[1..], le);
        forall i | 0 <= i < |rest| ensures le(s[0], rest[i]) {
          assert rest[i] in multiset(rest);
          if rest[i] != x {
            assert rest[i] in s[1..];
          }
        }
      }
    }
  }

  lemma {:induction false} SortOrders<T(!new)>(s: seq<T>, le: (T, T) -> bool)
    requires Preorder(le)
    ensures OrderedPermutation(s, Sort(s, le), le)
  {
    if s != [] {
      SortOrders(s[1..], le);
      InsertOrdered(s[0], Sort(s[1..], le), le);
      assert s == [s[0]] + s[1..];
    }
  }

  lemma OrderedHeadsAgree<T(!new)>(a: seq<T>, b: seq<T>, le: (T, T) -> bool)
    requires Sorted(a, le) && Sorted(b, le) && multiset(a) == multiset(b)
    requires Preorder(le) && TieFree(a, le) && a != [] && b != []
    ensures a[0] == b[0] && multiset(a[1..]) == multiset(b[1..])
  {
    assert a[0] in multiset(b) && b[0] in multiset(a);
    var i :| 0 <= i < |b| && b[i] == a[0];
    var j :| 0 <= j < |a| && a[j] == b[0];
    assert le(a[0], a[j]) && le(b[0], b[i]);
    assert a == [a[0]] + a[1..] && b == [b[0]] + b[1..];
    assert a[0] == b[0];
    assert multiset(a[1..]) + multiset{a[0]} == multiset(a);
    assert multiset(b[1..]) + multiset{a[0]} == multiset(b);
    MultisetCancel(multiset(a[1..]), multiset(b[1..]), multiset{a[0]});
  }

  /** Two ordered permutations of the same elements agree once no two different elements tie. */
  lemma {:induction false} OrderedPermutationUnique<T(!new)>(a: seq<T>, b: seq<T>, le: (T, T) -> bool)
    requires Sorted(a, le) && Sorted(b, le) && multiset(a) == multiset(b)
    requires Preorder(le) && TieFree(a, le)
    ensures a == b
  {
    assert |multiset(a)| == |a| && |multiset(b)| == |b|;
    if a != [] {
      OrderedHeadsAgree(a, b, le);
      OrderedPermutationUnique(a[1..], b[1..], le);
      assert a == [a[0]] + a[1..] && b == [b[0]] + b[1..];
    }
  }

  lemma SortIsOrderInsensitive<T(!new)>(a: seq<T>, b: seq<T>, le: (T, T) -> bool)
    requires Preorder(le) && multiset(a) == multiset(b) && TieFree(a, le)
    ensures Sort(a, le) == Sort(b, le)
  {
    SortOrders(a, le);
    SortOrders(b, le);
    assert forall x :: x in Sort(a, le) ==> x in multiset(a);
    OrderedPermutationUnique(Sort(a, le), Sort(b, le), le);
  }

  /** An ordered sequence is left as it is, ties included. */
  lemma {:induction false} SortOfSorted<T>(s: seq<T>, le: (T, T) -> bool)
    requires Sorted(s, le)
    ensures Sort(s, le) == s
  {
    if s != [] {
      SortOfSorted(s[1..], le);
      if |s| > 1 {
        assert le(s[0], s[1]);
      }
    }
  }

  /** Strictly increasing, hence without duplicates. */
  ghost predicate Increasing(s: seq<string>) {
    forall i, j :: 0 <= i < j < |s| ==> Lt(s[i], s[j])
  }

  lemma BelowLast(names: seq<string>)
    requires Increasing(names) && names != []
    ensures var init, last := names[..|names| - 1], names[|names| - 1];
      Increasing(init) && forall x :: x in init ==> Lt(x, last)
  {
  }

  lemma {:induction false} IncreasingCount(names: seq<string>, all: set<string>)
    requires Increasing(names) && forall n :: n in names <==> n in all
    ensures |names| == |all|
    decreases |names|
  {
    if names == [] {
      assert all == {};
    } else {
      var init, last := names[..|names| - 1], names[|names| - 1];
      assert forall n :: n in init ==> n != last;
      IncreasingCount(init, all - {last});
    }
  }

  lemma {:induction false} IncreasingUnique(a: seq<string>, b: seq<string>)
    requires Increasing(a) && Increasing(b)
    requires forall x :: x in a <==> x in b
    ensures a == b
  {
    if a == [] {
      assert forall i :: 0 <= i < |b| ==> b[i] in b;
    } else {
      assert a[0] in a && a[0] in b;
      assert b[0] in a;
      var i :| 0 <= i < |b| && b[i] == a[0];
      var j :| 0 <= j < |a| && a[j] == b[0];
      LeTotal(a[0], b[0]);
      assert a[0] == b[0];
      forall x ensures x in a[1..] <==> x in b[1..] {
        if x in a[1..] {
          var k :| 0 <= k < |a[1..]| && a[1..][k] == x;
          assert x == a[k + 1] && x in a && x != a[0];
          assert x in b;
        }
        if x in b[1..] {
          var k :| 0 <= k < |b[1..]| && b[1..][k] == x;
          assert x == b[k + 1] && x in b && x != b[0];
          assert x in a;
        }
      }
      IncreasingUnique(a[1..], b[1..]);
    }
  }

  /** slices.Compact: drops an element equal to its right neighbour. */
  function Compact(s: seq<string>): seq<string> {
    if |s| <= 1 then s
    else if s[0] == s[1] then Compact(s[1..])
    else [s[0]] + Compact(s[1..])
  }

  lemma {:induction false} CompactSorted(s: seq<string>)
    requires Sorted(s, Le)
    ensures Increasing(Compact(s))
    ensures forall x :: x in Compact(s) <==> x in s
  {
    if |s| > 1 {
      CompactSorted(s[1..]);
      assert s == [s[0]] + s[1..];
      if s[0] != s[1] {
        var rest := Compact(s[1..]);
        forall i | 0 <= i < |rest| ensures Lt(s[0], rest[i]) {
          assert rest[i] in s[1..];
          var k :| 0 <= k < |s[1..]| && s[1..][k] == rest[i];
          assert Le(s[0], s[1]) && Le(s[0], s[k + 1]);
          if k > 0 { assert Le(s[1], s[k + 1]); }
          if s[0] == s[k + 1] { LeTotal(s[0], s[1]); }
        }
      }
    }
  }

  /** slices.Sort followed by slices.Compact. */
  function SortUnique(s: seq<string>): seq<string> {
    Compact(Sort(s, Le))
  }

  lemma SortUniqueMeaning(s: seq<string>)
    ensures Increasing(SortUnique(s))
    ensures forall x :: x in SortUnique(s) <==> x in s
  {
    LePreorder();
    SortOrders(s, Le);
    CompactSorted(Sort(s, Le));
    assert forall x :: x in Sort(s, Le) <==> x in multiset(s);
  }

  /** The result depends on the set of elements alone. */
  lemma SortUniqueDetermined(s: seq<string>, r: seq<string>)
    requires Increasing(r) && forall x :: x in r <==> x in s
    ensures SortUnique(s) == r
  {
    SortUniqueMeaning(s);
    IncreasingUnique(SortUnique(s), r);
  }

  ghost function ToSet<T>(s: seq<T>): set<T> {
    set x | x in s
  }

  /** slices.Sorted over a set of map keys. */
  ghost function SortedOf(s: set<string>): (r: seq<string>)
    ensures Increasing(r)
    ensures forall x :: x in r <==> x in s
  {
    if s == {} then []
    else
      var x :| x in s;
      var r := SortUnique([x] + SortedOf(s - {x}));
      SortUniqueMeaning([x] + SortedOf(s - {x}));
      r
  }

  /** Collects a set in some order, then sorts it. */
  method SortedKeys<V>(m: map<string, V>) returns (r: seq<string>)
    ensures r == SortedOf(m.Keys)
  {
    var rest := m.Keys;
    var keys: seq<string> := [];
    while rest != {}
      invariant rest <= m.Keys
      invariant forall x :: x in keys <==> x in m.Keys - rest
      decreases |rest|
    {
      var x :| x in rest;
      rest := rest - {x};
      keys := keys + [x];
    }
    r := SortUnique(keys);
    SortUniqueDetermined(keys, SortedOf(m.Keys));
  }
}
