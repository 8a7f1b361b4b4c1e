/** The JavaScript array pipelines the organizer is built from: `filter`, `findIndex`, and a count. */
module Seqs {
  import opened Wrappers

  /** `s.filter(p)`: the elements satisfying `p`, in their original order. */
  function Filter<T(==,!new)>(s: seq<T>, p: T -> bool): (r: seq<T>)
    ensures |r| <= |s|
    ensures forall x :: x in r <==> x in s && p(x)
  {
    if s == [] then [] else (if p(s[0]) then [s[0]] else []) + Filter(s[1..], p)
  }

  /** Filtering distributes over concatenation, so the order of the input is kept. */
  lemma {:induction false} FilterAppend<T(!new)>(a: seq<T>, b: seq<T>, p: T -> bool)
    ensures Filter(a + b, p) == Filter(a, p) + Filter(b, p)
  {
    if a == [] {
      assert a + b == b;
    } else {
      assert (a + b)[1..] == a[1..] + b;
      FilterAppend(a[1..], b, p);
    }
  }

  /** A filter that every element passes is the identity. */
  lemma {:induction false} FilterKeepsAll<T(!new)>(s: seq<T>, p: T -> bool)
    requires forall x :: x in s ==> p(x)
    ensures Filter(s, p) == s
  {
    if s != [] {
      assert forall x :: x in s[1..] ==> x in s;
      FilterKeepsAll(s[1..], p);
    }
  }

  /** `s.findIndex(p)`: the position of the first element satisfying `p`. */
  function FirstIndex<T>(s: seq<T>, p: T -> bool): (r: Option<nat>)
    ensures r.Some? ==> r.value < |s| && p(s[r.value]) && forall j :: 0 <= j < r.value ==> !p(s[j])
    ensures r.None? ==> forall j :: 0 <= j < |s| ==> !p(s[j])
  {
    if s == [] then None
    else if p(s[0]) then Some(0)
    else match FirstIndex(s[1..], p)
      case None => None
      case Some(k) => Some(k + 1)
  }

  /** The number of elements satisfying `p`. */
  function Count<T>(s: seq<T>, p: T -> bool): (n: nat)
    ensures n <= |s|
    ensures n == 0 <==> forall j :: 0 <= j < |s| ==> !p(s[j])
  {
    if s == [] then 0 else (if p(s[0]) then 1 else 0) + Count(s[1..], p)
  }

  lemma {:induction false} CountAppend<T>(a: seq<T>, b: seq<T>, p: T -> bool)
    ensures Count(a + b, p) == Count(a, p) + Count(b, p)
  {
    if a == [] {
      assert a + b == b;
    } else {
      assert (a + b)[1..] == a[1..] + b;
      CountAppend(a[1..], b, p);
    }
  }

  /** Replacing an element by one that `p` classifies the same way moves no first match. */
  lemma {:induction false} FirstIndexUpdate<T>(s: seq<T>, k: nat, x: T, p: T -> bool)
    requires k < |s| && p(x) == p(s[k])
    ensures FirstIndex(s[k := x], p) == FirstIndex(s, p)
  {
    if k > 0 {
      assert s[k := x][1..] == s[1..][k - 1 := x];
      FirstIndexUpdate(s[1..], k - 1, x, p);
    }
  }

  /** Replacing an element by one that `p` classifies the same way keeps the count. */
  lemma {:induction false} CountUpdate<T>(s: seq<T>, k: nat, x: T, p: T -> bool)
    requires k < |s| && p(x) == p(s[k])
    ensures Count(s[k := x], p) == Count(s, p)
  {
    if k > 0 {
      assert s[k := x][1..] == s[1..][k - 1 := x];
      CountUpdate(s[1..], k - 1, x, p);
    }
  }

  /** Removing a matching element lowers the count by one. */
  lemma {:induction false} CountRemove<T>(s: seq<T>, k: nat, p: T -> bool)
    requires k < |s| && p(s[k])
    ensures Count(s[..k] + s[k + 1..], p) == Count(s, p) - 1
  {
    var r := s[..k] + s[k + 1..];
    if k == 0 {
      assert r == s[1..];
    } else {
      var t := s[1..];
      CountRemove(t, k - 1, p);
      assert r[0] == s[0] && r[1..] == t[..k - 1] + t[k..];
    }
  }

  /** Past a prefix with no match, the first match is the first match of the rest. */
  lemma {:induction false} FirstIndexPastPrefix<T>(a: seq<T>, b: seq<T>, p: T -> bool)
    requires forall j :: 0 <= j < |a| ==> !p(a[j])
    requires FirstIndex(b, p).Some?
    ensures FirstIndex(a + b, p) == Some(|a| + FirstIndex(b, p).value)
  {
    if a != [] {
      assert (a + b)[1..] == a[1..] + b;
      FirstIndexPastPrefix(a[1..], b, p);
    } else {
      assert a + b == b;
    }
  }

  /** A sequence with a match has a first match. */
  lemma FirstIndexFound<T>(s: seq<T>, j: nat, p: T -> bool)
    requires j < |s| && p(s[j])
    ensures FirstIndex(s, p).Some? && FirstIndex(s, p).value <= j
  {
  }

  /** Removing one element keeps a match held by any other element. */
  lemma RemoveKeepsMatch<T>(s: seq<T>, k: nat, j: nat, p: T -> bool)
    requires k < |s| && j < |s| && j != k && p(s[j])
    ensures FirstIndex(s[..k] + s[k + 1..], p).Some?
  {
    var r := s[..k] + s[k + 1..];
    var i := if j < k then j else j - 1;
    assert r[i] == s[j];
    FirstIndexFound(r, i, p);
  }

  /** The prefix and suffix around a position hold no match when the whole holds none. */
  lemma CountZeroParts<T>(s: seq<T>, d: nat, p: T -> bool)
    requires d < |s| && Count(s, p) == 0
    ensures Count(s[..d], p) == 0 && Count(s[d + 1..], p) == 0
  {
    var a, b := s[..d], s[d + 1..];
    assert forall j :: 0 <= j < |a| ==> a[j] == s[j];
    assert forall j :: 0 <= j < |b| ==> b[j] == s[d + 1 + j];
  }
}
