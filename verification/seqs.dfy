/** Sequence helpers shared by the list-shaped collections of the framework. */
module Seqs {

  /** No element occurs twice. */
  ghost predicate Distinct<T>(s: seq<T>) {
    forall i, j :: 0 <= i < j < |s| ==> s[i] != s[j]
  }

  /** Pushing an element that is not there yet keeps a sequence free of repeats. */
  lemma DistinctSnoc<T>(s: seq<T>, x: T)
    requires Distinct(s) && x !in s
    ensures Distinct(s + [x])
  {
    forall i, j | 0 <= i < j < |s| + 1
      ensures (s + [x])[i] != (s + [x])[j]
    {
      if j == |s| {
        assert s[i] in s;
      }
    }
  }

  /** Position of the first occurrence of `x` in `s`, or `|s|` when there is none. */
  function IndexOf<T(==)>(s: seq<T>, x: T): (k: nat)
    ensures k <= |s|
    ensures k < |s| ==> s[k] == x
    ensures forall j :: 0 <= j < k ==> s[j] != x
    ensures k == |s| <==> x !in s
  {
    if s == [] then 0
    else if s[0] == x then 0
    else 1 + IndexOf(s[1..], x)
  }

  /**
   * `List<T>.Remove(x)` / `LinkedList<T>.Remove(x)`: drops the first element equal to `x`,
   * and leaves the sequence as it is when there is none.
   */
  function RemoveFirst<T(==)>(s: seq<T>, x: T): (r: seq<T>)
    ensures x in s ==> r == s[..IndexOf(s, x)] + s[IndexOf(s, x) + 1..]
    ensures x !in s ==> r == s
    ensures x in s ==> |r| == |s| - 1
    ensures x in s ==> multiset(r) == multiset(s) - multiset{x}
  {
    var k := IndexOf(s, x);
    if k == |s| then s
    else
      assert s == s[..k] + [x] + s[k + 1..];
      s[..k] + s[k + 1..]
  }

  /** Removing the head's value removes the head: what makes `RemoveAll`-style loops end empty. */
  lemma RemoveFirstOfHead<T>(s: seq<T>)
    requires s != []
    ensures RemoveFirst(s, s[0]) == s[1..]
  {
  }

  /** Number of occurrences of `x` in `s`. */
  function Count<T(==)>(s: seq<T>, x: T): (n: nat)
    ensures n == multiset(s)[x]
    ensures n <= |s|
  {
    if s == [] then 0
    else
      assert s == [s[0]] + s[1..];
      (if s[0] == x then 1 else 0) + Count(s[1..], x)
  }

  lemma {:induction false} CountAppend<T>(a: seq<T>, b: seq<T>, x: T)
    ensures Count(a + b, x) == Count(a, x) + Count(b, x)
  {
    assert multiset(a + b) == multiset(a) + multiset(b);
  }

  /**
   * Every element equal to `h` dropped, the others kept in order: what `RemoveListener(h)`
   * does to the listener list of a `UnityEvent` or of the signal hub.
   */
  function Without<T(==)>(s: seq<T>, h: T): (r: seq<T>)
    ensures h !in r
    ensures forall x | x in s && x != h :: multiset(r)[x] == multiset(s)[x]
    ensures forall x | x in r :: x in s
    ensures |r| <= |s|
    ensures h !in s ==> r == s
  {
    if s == [] then []
    else
      assert s == [s[0]] + s[1..];
      if s[0] == h then Without(s[1..], h) else [s[0]] + Without(s[1..], h)
  }

  /** Removal distributes over concatenation, so the relative order of the other elements is kept. */
  lemma {:induction false} WithoutAppend<T>(a: seq<T>, b: seq<T>, h: T)
    ensures Without(a + b, h) == Without(a, h) + Without(b, h)
  {
    if a == [] {
      assert a + b == b;
    } else {
      assert (a + b)[0] == a[0] && (a + b)[1..] == a[1..] + b;
      WithoutAppend(a[1..], b, h);
    }
  }

  /** Regrouping appends onto a prefix, for three pieces. */
  lemma AppendAfter3<T>(p: seq<T>, a: seq<T>, b: seq<T>, c: seq<T>)
    ensures p + a + b + c == p + (a + b + c)
  {
  }

  /** Regrouping appends onto a prefix, for four pieces. */
  lemma AppendAfter4<T>(p: seq<T>, a: seq<T>, b: seq<T>, c: seq<T>, d: seq<T>)
    ensures p + a + b + c + d == p + (a + b + c + d)
  {
  }

  /** `List<T>.RemoveAt(k)`: the element at `k` dropped, the others kept in order. */
  function RemoveAt<T>(s: seq<T>, k: nat): (r: seq<T>)
    requires k < |s|
    ensures |r| == |s| - 1
    ensures forall i :: 0 <= i < k ==> r[i] == s[i]
    ensures forall i :: k <= i < |r| ==> r[i] == s[i + 1]
  {
    s[..k] + s[k + 1..]
  }

  /** Dropping an element keeps a sequence free of repeats. */
  lemma DistinctRemoveAt<T>(s: seq<T>, k: nat)
    requires k < |s| && Distinct(s)
    ensures Distinct(RemoveAt(s, k))
  {
    var r := RemoveAt(s, k);
    forall i, j | 0 <= i < j < |r|
      ensures r[i] != r[j]
    {
      var i' := if i < k then i else i + 1;
      var j' := if j < k then j else j + 1;
      assert r[i] == s[i'] && r[j] == s[j'];
    }
  }
}
