/** Order-preserving list operations shared by the clip store, the template
    store and the clipboard listing: list comprehensions that keep the
    elements satisfying a test, removal by id, and search by id. */
module Lists {
  import opened Wrappers

  /** `a` is what remains of `b` after deleting some of its elements:
      the elements of `a` occur in `b` in the same relative order. */
  ghost predicate IsSubsequence<T>(a: seq<T>, b: seq<T>)
    decreases |b|
  {
    |a| <= |b| &&
    (a == [] || (a[0] == b[0] && IsSubsequence(a[1..], b[1..])) || IsSubsequence(a, b[1..]))
  }

  /** The comprehension `[x for x in s if p(x)]`. */
  function Filter<T>(s: seq<T>, p: T -> bool): (r: seq<T>)
    ensures |r| <= |s|
    ensures forall i :: 0 <= i < |r| ==> p(r[i])
    ensures forall x :: x in r ==> x in s
  {
    if s == [] then []
    else if p(s[0]) then [s[0]] + Filter(s[1..], p)
    else Filter(s[1..], p)
  }

  /** Filtering distributes over concatenation. */
  lemma {:induction false} FilterConcat<T>(a: seq<T>, b: seq<T>, p: T -> bool)
    ensures Filter(a + b, p) == Filter(a, p) + Filter(b, p)
  {
    if a == [] {
      assert a + b == b;
    } else {
      assert (a + b)[0] == a[0];
      assert (a + b)[1..] == a[1..] + b;
      FilterConcat(a[1..], b, p);
    }
  }

  /** Filtering one element more of a prefix adds that element when it passes
      the test and nothing otherwise: the step of a loop that builds the
      comprehension. */
  lemma FilterExtend<T>(s: seq<T>, i: nat, p: T -> bool)
    requires i < |s|
    ensures Filter(s[..i + 1], p) == Filter(s[..i], p) + (if p(s[i]) then [s[i]] else [])
  {
    assert s[..i + 1] == s[..i] + [s[i]];
    FilterConcat(s[..i], [s[i]], p);
  }

  /** Every element that passes the test is kept as often as it occurs,
      every other element is dropped. */
  lemma {:induction false} FilterCount<T>(s: seq<T>, p: T -> bool)
    ensures forall x :: multiset(Filter(s, p))[x] == if p(x) then multiset(s)[x] else 0
  {
    if s != [] {
      FilterCount(s[1..], p);
      assert s == [s[0]] + s[1..];
      assert multiset(s) == multiset([s[0]]) + multiset(s[1..]);
      if p(s[0]) {
        assert multiset(Filter(s, p)) == multiset([s[0]]) + multiset(Filter(s[1..], p));
      }
    }
  }

  /** Filtering keeps the relative order of what it keeps. */
  lemma {:induction false} FilterSubsequence<T>(s: seq<T>, p: T -> bool)
    ensures IsSubsequence(Filter(s, p), s)
  {
    if s != [] {
      FilterSubsequence(s[1..], p);
      if p(s[0]) {
        var r := Filter(s, p);
        assert r[0] == s[0] && r[1..] == Filter(s[1..], p);
      }
    }
  }

  /** A list whose every element passes the test is left as it is. */
  lemma {:induction false} FilterAll<T>(s: seq<T>, p: T -> bool)
    requires forall i :: 0 <= i < |s| ==> p(s[i])
    ensures Filter(s, p) == s
  {
    if s != [] {
      FilterAll(s[1..], p);
      assert s == [s[0]] + s[1..];
    }
  }

  /** A list none of whose elements pass the test is filtered away entirely. */
  lemma {:induction false} FilterNone<T>(s: seq<T>, p: T -> bool)
    requires forall i :: 0 <= i < |s| ==> !p(s[i])
    ensures Filter(s, p) == []
  {
    if s != [] {
      FilterNone(s[1..], p);
    }
  }

  /** The comprehension `[x for x in s if idOf(x) != key]`: removal of every
      element with the given id. */
  function RemoveKey<T(!new)>(s: seq<T>, idOf: T -> Option<string>, key: Option<string>): (r: seq<T>)
    ensures IsSubsequence(r, s)
    ensures forall x :: multiset(r)[x] == if idOf(x) == key then 0 else multiset(s)[x]
    ensures (forall i :: 0 <= i < |s| ==> idOf(s[i]) != key) ==> r == s
  {
    var keep: T -> bool := x => idOf(x) != key;
    FilterSubsequence(s, keep);
    FilterCount(s, keep);
    if forall i :: 0 <= i < |s| ==> keep(s[i]) then FilterAll(s, keep); Filter(s, keep)
    else Filter(s, keep)
  }

  /** The index of the first element whose id is `key`, as a scan from the
      front that stops at the first match finds it. */
  function FirstIndexOf<T>(s: seq<T>, idOf: T -> Option<string>, key: Option<string>): (r: Option<nat>)
    ensures r.Some? ==> r.value < |s| && idOf(s[r.value]) == key
    ensures r.Some? ==> forall j :: 0 <= j < r.value ==> idOf(s[j]) != key
    ensures r.None? <==> forall j :: 0 <= j < |s| ==> idOf(s[j]) != key
  {
    if s == [] then None
    else if idOf(s[0]) == key then Some(0)
    else match FirstIndexOf(s[1..], idOf, key)
      case None => None
      case Some(i) => Some(i + 1)
  }
}
