/** Sequence operations the data layer is built from: JavaScript's
    Array.prototype.filter, findIndex and find, stated over Dafny sequences. */
module Seqs {

  datatype Option<+T> = None | Some(value: T) {
    /** The value if present, otherwise `default` (the `??` / spread fallback). */
    function GetOr(default: T): T {
      match this
      case Some(v) => v
      case None => default
    }
  }

  /** JavaScript truthiness of an optional string: present and non-empty
      (`undefined`, `null` and `""` are falsy). */
  predicate IsTruthy(o: Option<string>) {
    o.Some? && |o.value| != 0
  }

  /** `r` occurs in `s` in the same relative order (not necessarily contiguously). */
  ghost predicate IsSubsequence<T>(r: seq<T>, s: seq<T>)
    decreases |s|
  {
    r == [] || (s != [] && ((r[0] == s[0] && IsSubsequence(r[1..], s[1..])) || IsSubsequence(r, s[1..])))
  }

  /** `array.filter(p)`: the elements of `s` satisfying `p`, in order. */
  function Filter<T(!new)>(s: seq<T>, p: T -> bool): (r: seq<T>)
    ensures |r| <= |s|
    ensures forall x :: x in r <==> x in s && p(x)
    ensures IsSubsequence(r, s)
  {
    if s == [] then []
    else
      var rest := Filter(s[1..], p);
      assert s == [s[0]] + s[1..];
      if p(s[0]) then
        assert ([s[0]] + rest)[1..] == rest;
        [s[0]] + rest
      else rest
  }

  /** Filter keeps every occurrence of an accepted element and none of a rejected one. */
  lemma {:induction false} FilterMultiplicity<T(!new)>(s: seq<T>, p: T -> bool, x: T)
    ensures multiset(Filter(s, p))[x] == if p(x) then multiset(s)[x] else 0
  {
    if s != [] {
      assert s == [s[0]] + s[1..];
      FilterMultiplicity(s[1..], p, x);
    }
  }


  /** A filter that rejects nothing returns its input unchanged. */
  lemma {:induction false} FilterKeepsAll<T(!new)>(s: seq<T>, p: T -> bool)
    requires forall x :: x in s ==> p(x)
    ensures Filter(s, p) == s
  {
    if s != [] {
      assert s == [s[0]] + s[1..];
      FilterKeepsAll(s[1..], p);
    }
  }

  /** A filter that accepts nothing of `s` returns the empty sequence. */
  lemma FilterKeepsNone<T(!new)>(s: seq<T>, p: T -> bool)
    requires forall x :: x in s ==> !p(x)
    ensures Filter(s, p) == []
  {
    if Filter(s, p) != [] {
      assert Filter(s, p)[0] in Filter(s, p);
    }
  }

  /** Two predicates that agree on the elements of `s` filter it alike. */
  lemma {:induction false} FilterAgrees<T(!new)>(s: seq<T>, p: T -> bool, q: T -> bool)
    requires forall x :: x in s ==> p(x) == q(x)
    ensures Filter(s, p) == Filter(s, q)
  {
    if s != [] {
      assert s == [s[0]] + s[1..];
      FilterAgrees(s[1..], p, q);
    }
  }

  /** Filtering by `p` and then by `q` is one filter by their conjunction `r`. */
  lemma {:induction false} FilterThenFilter<T(!new)>(s: seq<T>, p: T -> bool, q: T -> bool, r: T -> bool)
    requires forall x :: x in s ==> r(x) == (p(x) && q(x))
    ensures Filter(Filter(s, p), q) == Filter(s, r)
  {
    if s != [] {
      assert s == [s[0]] + s[1..];
      FilterThenFilter(s[1..], p, q, r);
      if p(s[0]) {
        assert ([s[0]] + Filter(s[1..], p))[1..] == Filter(s[1..], p);
      }
    }
  }


  /** Filtering twice by the same predicate is filtering once. */
  lemma FilterIdempotent<T(!new)>(s: seq<T>, p: T -> bool)
    ensures Filter(Filter(s, p), p) == Filter(s, p)
  {
    FilterKeepsAll(Filter(s, p), p);
  }

  /** Filtering distributes over appending one element at the end. */
  lemma {:induction false} FilterAppend<T(!new)>(s: seq<T>, x: T, p: T -> bool)
    ensures Filter(s + [x], p) == Filter(s, p) + (if p(x) then [x] else [])
  {
    var tail := if p(x) then [x] else [];
    if s == [] {
      assert [x][1..] == [];
    } else {
      var t := s + [x];
      assert t[0] == s[0] && t[1..] == s[1..] + [x];
      FilterAppend(s[1..], x, p);
      assert Filter(t[1..], p) == Filter(s[1..], p) + tail;
      if p(s[0]) {
        calc {
          Filter(t, p);
          [s[0]] + Filter(t[1..], p);
          [s[0]] + (Filter(s[1..], p) + tail);
          ([s[0]] + Filter(s[1..], p)) + tail;
          Filter(s, p) + tail;
        }
      } else {
        calc {
          Filter(t, p);
          Filter(t[1..], p);
          Filter(s[1..], p) + tail;
          Filter(s, p) + tail;
        }
      }
    }
  }

  /** `array.findIndex(p)`: the index of the first element satisfying `p`, or -1. */
  function IndexOf<T>(s: seq<T>, p: T -> bool): (i: int)
    ensures -1 <= i < |s|
    ensures i == -1 <==> forall k :: 0 <= k < |s| ==> !p(s[k])
    ensures 0 <= i ==> p(s[i]) && forall k :: 0 <= k < i ==> !p(s[k])
  {
    if s == [] then -1
    else if p(s[0]) then 0
    else
      var j := IndexOf(s[1..], p);
      if j == -1 then -1 else j + 1
  }

  /** `r` is what `array.find(p)` returns on `s`: the first element satisfying `p`, or nothing. */
  ghost predicate IsFirstMatch<T>(s: seq<T>, p: T -> bool, r: Option<T>) {
    && (r.None? <==> forall k :: 0 <= k < |s| ==> !p(s[k]))
    && (r.Some? ==> exists i :: 0 <= i < |s| && s[i] == r.value && p(s[i]) && forall k :: 0 <= k < i ==> !p(s[k]))
  }

  /** At most one value is the first match: the description above pins `find` down. */
  lemma FirstMatchUnique<T>(s: seq<T>, p: T -> bool, r1: Option<T>, r2: Option<T>)
    requires IsFirstMatch(s, p, r1) && IsFirstMatch(s, p, r2)
    ensures r1 == r2
  {
    if r1.Some? {
      var i :| 0 <= i < |s| && s[i] == r1.value && p(s[i]) && forall k :: 0 <= k < i ==> !p(s[k]);
      var j :| 0 <= j < |s| && s[j] == r2.value && p(s[j]) && forall k :: 0 <= k < j ==> !p(s[k]);
    }
  }

  /** `array.find(p)`. */
  function Find<T>(s: seq<T>, p: T -> bool): (r: Option<T>)
    ensures IsFirstMatch(s, p, r)
    ensures r.Some? ==> r.value in s && p(r.value)
  {
    var i := IndexOf(s, p);
    if i == -1 then None else Some(s[i])
  }

  /** Only elements before the first match can change without moving it:
      replacing the first match by another element satisfying `p` keeps its index. */
  lemma {:induction false} IndexOfAfterReplace<T>(s: seq<T>, p: T -> bool, x: T)
    requires IndexOf(s, p) != -1 && p(x)
    ensures IndexOf(s[IndexOf(s, p) := x], p) == IndexOf(s, p)
  {
    var k := IndexOf(s, p);
    if k != 0 {
      assert IndexOf(s[1..], p) == k - 1;
      assert s[k := x][1..] == s[1..][k - 1 := x];
      IndexOfAfterReplace(s[1..], p, x);
    }
  }

  /** Searching after appending finds an earlier match first, else the appended element. */
  lemma IndexOfAppend<T>(s: seq<T>, x: T, p: T -> bool)
    ensures IndexOf(s + [x], p) == if IndexOf(s, p) != -1 then IndexOf(s, p) else if p(x) then |s| else -1
  {
    var t := s + [x];
    assert forall k :: 0 <= k < |s| ==> t[k] == s[k];
    assert t[|s|] == x;
  }
}
