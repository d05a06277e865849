/**
 Shared value types.  Go keeps a nil slice or map apart from an empty one, and
 reflect.DeepEqual sees the difference; here None stands for nil.
 */
module Basics {
  datatype Option<+T> = None | Some(value: T)

  type Slice<+T> = Option<seq<T>>

  type Dict = Option<map<string, string>>

  /** The elements that `range` and `len` see: none for a nil slice. */
  function Elems<T>(s: Slice<T>): seq<T> {
    if s.Some? then s.value else []
  }

  function Entries(d: Dict): map<string, string> {
    if d.Some? then d.value else map[]
  }

  /** An empty collection becomes nil; a nonempty one is kept. */
  function NilIfEmpty<T>(s: Slice<T>): Slice<T> {
    if Elems(s) == [] then None else s
  }

  function NilIfEmptyDict(d: Dict): Dict {
    if Entries(d) == map[] then None else d
  }

  /** Indexing a Go map: the zero value "" for a missing key. */
  function Lookup(m: map<string, string>, k: string): string {
    if k in m then m[k] else ""
  }

  function Map<A, B>(s: seq<A>, f: A -> B): (r: seq<B>)
    ensures |r| == |s|
    ensures forall i :: 0 <= i < |s| ==> r[i] == f(s[i])
  {
    seq(|s|, i requires 0 <= i < |s| => f(s[i]))
  }

  /** Positions below n, in order. */
  ghost predicate Positions(at: seq<nat>, n: nat) {
    (forall i, j :: 0 <= i < j < |at| ==> at[i] < at[j]) && forall i :: 0 <= i < |at| ==> at[i] < n
  }

  lemma PositionsNext(at: seq<nat>, n: nat)
    requires Positions(at, n)
    ensures Positions(at, n + 1) && Positions(at + [n], n + 1)
  {
  }

  function Without<A>(s: seq<A>, i: nat): seq<A>
    requires i < |s|
  {
    s[..i] + s[i + 1..]
  }

  lemma MultisetCancel<A>(x: multiset<A>, y: multiset<A>, z: multiset<A>)
    requires x + z == y + z
    ensures x == y
  {
    assert x == (x + z) - z && y == (y + z) - z;
  }

  lemma MultisetWithout<A>(s: seq<A>, i: nat)
    requires i < |s|
    ensures multiset(s) == multiset(Without(s, i)) + multiset{s[i]}
  {
    assert s == s[..i] + ([s[i]] + s[i + 1..]);
  }

  lemma MapWithout<A, B>(s: seq<A>, i: nat, f: A -> B)
    requires i < |s|
    ensures multiset(Map(s, f)) == multiset(Map(Without(s, i), f)) + multiset{f(s[i])}
  {
    MultisetWithout(Map(s, f), i);
    assert Map(Without(s, i), f) == Without(Map(s, f), i);
  }

  lemma FindsEqual<A>(a: seq<A>, b: seq<A>) returns (i: nat)
    requires multiset(a) == multiset(b) && a != []
    ensures i < |b| && b[i] == a[0]
    ensures multiset(Without(a, 0)) == multiset(Without(b, i))
  {
    assert a[0] in multiset(b);
    i :| 0 <= i < |b| && b[i] == a[0];
    MultisetWithout(a, 0);
    MultisetWithout(b, i);
    MultisetCancel(multiset(Without(a, 0)), multiset(Without(b, i)), multiset{a[0]});
  }

  /** A permutation stays a permutation when f is applied to every element. */
  lemma {:induction false} MapMultiset<A, B>(a: seq<A>, b: seq<A>, f: A -> B)
    requires multiset(a) == multiset(b)
    ensures multiset(Map(a, f)) == multiset(Map(b, f))
    decreases |a|
  {
    assert |multiset(a)| == |a| && |multiset(b)| == |b|;
    if a != [] {
      var i := FindsEqual(a, b);
      MapMultiset(Without(a, 0), Without(b, i), f);
      MapWithout(a, 0, f);
      MapWithout(b, i, f);
    }
  }

  /** An injective f loses no multiplicities: equal images mean equal multisets. */
  lemma {:induction false} MapCount<A, B>(s: seq<A>, f: A -> B, x: A)
    requires forall i :: 0 <= i < |s| && f(s[i]) == f(x) ==> s[i] == x
    ensures multiset(Map(s, f))[f(x)] == multiset(s)[x]
    decreases |s|
  {
    if s == [] {
    } else {
      assert s == [s[0]] + s[1..];
      assert Map(s, f) == [f(s[0])] + Map(s[1..], f);
      MapCount(s[1..], f, x);
    }
  }

  lemma InjectiveMultiset<A, B>(a: seq<A>, b: seq<A>, f: A -> B)
    requires forall x, y :: x in a + b && y in a + b && f(x) == f(y) ==> x == y
    requires multiset(Map(a, f)) == multiset(Map(b, f))
    ensures multiset(a) == multiset(b)
  {
    forall x | x in a + b
      ensures multiset(a)[x] == multiset(b)[x]
    {
      assert forall i :: 0 <= i < |a| ==> a[i] in a + b;
      assert forall i :: 0 <= i < |b| ==> b[i] in a + b;
      MapCount(a, f, x);
      MapCount(b, f, x);
    }
    assert forall x :: x in multiset(a) ==> x in a + b;
    assert forall x :: x in multiset(b) ==> x in a + b;
    forall x
      ensures multiset(a)[x] == multiset(b)[x]
    {
      if x in a + b {
      } else {
        assert x !in multiset(a) && x !in multiset(b);
      }
    }
  }
}
