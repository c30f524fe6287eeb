/** List idioms the scraper uses over and over: a filtering comprehension,
    de-duplication that keeps the first occurrence, a cap by slicing, and
    the "first candidate that gives something" search. */
module Seqs {

  /** No element occurs twice. */
  predicate Distinct<T(==)>(s: seq<T>) {
    forall i, j :: 0 <= i < j < |s| ==> s[i] != s[j]
  }

  /** `[x for x in s if p(x)]` */
  function Filter<T>(p: T -> bool, s: seq<T>): (r: seq<T>)
    ensures |r| <= |s|
    ensures forall x :: x in r ==> x in s && p(x)
  {
    if s == [] then []
    else (if p(s[0]) then [s[0]] else []) + Filter(p, s[1..])
  }

  /** The comprehension keeps every element that passes, as often as it
      occurs, and nothing else. */
  lemma {:induction false} FilterCount<T>(p: T -> bool, s: seq<T>, x: T)
    ensures multiset(Filter(p, s))[x] == if p(x) then multiset(s)[x] else 0
  {
    if s != [] {
      var head := if p(s[0]) then [s[0]] else [];
      FilterCount(p, s[1..], x);
      assert s == [s[0]] + s[1..];
      assert multiset(s) == multiset([s[0]]) + multiset(s[1..]);
      assert multiset(Filter(p, s)) == multiset(head) + multiset(Filter(p, s[1..]));
    }
  }

  lemma AppendAssoc<T>(a: seq<T>, b: seq<T>, c: seq<T>)
    ensures a + (b + c) == (a + b) + c
  {
  }

  /** Filtering commutes with appending one element at the end: the
      comprehension keeps the order of its input. */
  lemma {:induction false} FilterSnoc<T>(p: T -> bool, s: seq<T>, x: T)
    ensures Filter(p, s + [x]) == Filter(p, s) + (if p(x) then [x] else [])
  {
    var t, tail := s + [x], if p(x) then [x] else [];
    if s == [] {
      assert t == [x];
    } else {
      var head := if p(s[0]) then [s[0]] else [];
      assert t[0] == s[0] && t[1..] == s[1..] + [x];
      FilterSnoc(p, s[1..], x);
      assert Filter(p, t) == head + (Filter(p, s[1..]) + tail);
      AppendAssoc(head, Filter(p, s[1..]), tail);
    }
  }

  /** Filtering keeps exactly the elements that pass. */
  lemma FilterMembers<T>(p: T -> bool, s: seq<T>)
    ensures forall x :: x in Filter(p, s) <==> x in s && p(x)
  {
    forall x | x in s && p(x) ensures x in Filter(p, s) {
      FilterCount(p, s, x);
    }
  }

  /** The index of the first occurrence of `x` in `s`. */
  function FirstIndex<T(==)>(s: seq<T>, x: T): (r: nat)
    requires x in s
    ensures r < |s| && s[r] == x
    ensures forall k :: 0 <= k < r ==> s[k] != x
  {
    if s[0] == x then 0 else 1 + FirstIndex(s[1..], x)
  }

  /** Appending at the end does not move an earlier first occurrence. */
  lemma FirstIndexSnoc<T>(s: seq<T>, y: T, x: T)
    requires x in s
    ensures FirstIndex(s + [y], x) == FirstIndex(s, x)
  {
    var a, b := FirstIndex(s + [y], x), FirstIndex(s, x);
    assert (s + [y])[b] == x;
    assert a <= b;
    assert (s + [y])[a] == s[a];
  }

  /** The de-duplication loop with a `seen` set: the elements of `s` in the
      order of their first occurrence, each once. */
  function Dedup<T(==,!new)>(s: seq<T>): (r: seq<T>)
    ensures Distinct(r)
    ensures forall x :: x in r <==> x in s
    decreases |s|
  {
    if s == [] then []
    else
      var d := Dedup(s[..|s| - 1]);
      assert s == s[..|s| - 1] + [s[|s| - 1]];
      if s[|s| - 1] in d then d else d + [s[|s| - 1]]
  }

  /** De-duplication keeps first-seen order: an element that comes earlier
      in the result was seen first earlier in the input. */
  lemma {:induction false} DedupOrder<T(!new)>(s: seq<T>, i: nat, j: nat)
    requires i < j < |Dedup(s)|
    ensures FirstIndex(s, Dedup(s)[i]) < FirstIndex(s, Dedup(s)[j])
    decreases |s|
  {
    var t, y := s[..|s| - 1], s[|s| - 1];
    assert s == t + [y];
    var d := Dedup(t);
    if j < |d| {
      DedupOrder(t, i, j);
      FirstIndexSnoc(t, y, d[i]);
      FirstIndexSnoc(t, y, d[j]);
    } else {
      assert Dedup(s)[j] == y && y !in t;
      FirstIndexSnoc(t, y, d[i]);
    }
  }

  /** More input only extends the de-duplicated list: what was kept stays
      in place. */
  lemma {:induction false} DedupPrefix<T(!new)>(s: seq<T>, t: seq<T>)
    ensures |Dedup(s)| <= |Dedup(s + t)|
    ensures forall i :: 0 <= i < |Dedup(s)| ==> Dedup(s + t)[i] == Dedup(s)[i]
    decreases |t|
  {
    if t == [] {
      assert s + t == s;
    } else {
      var u := t[..|t| - 1];
      DedupPrefix(s, u);
      assert (s + t)[..|s + t| - 1] == s + u;
    }
  }

  /** Putting a different element in front shifts a first index by one. */
  lemma FirstIndexTail<T>(s: seq<T>, h: T, x: T)
    requires x in s && h != x
    ensures FirstIndex([h] + s, x) == FirstIndex(s, x) + 1
  {
    var t := [h] + s;
    var i := FirstIndex(s, x);
    assert t[i + 1] == x;
    assert forall k :: 1 <= k <= i ==> t[k] == s[k - 1];
    assert FirstIndex(t, x) <= i + 1;
  }

  /** Filtering keeps the relative order of first occurrences. */
  lemma {:induction false} FilterFirstIndex<T>(p: T -> bool, s: seq<T>, x: T, y: T)
    requires x in Filter(p, s) && y in Filter(p, s)
    requires FirstIndex(Filter(p, s), x) < FirstIndex(Filter(p, s), y)
    ensures x in s && y in s && FirstIndex(s, x) < FirstIndex(s, y)
    decreases |s|
  {
    var f := Filter(p, s);
    var h, t := s[0], s[1..];
    var rest := Filter(p, t);
    assert s == [h] + t;
    assert f == (if p(h) then [h] else []) + rest;
    if h == x {
      assert FirstIndex(s, x) == 0;
    } else {
      assert h != y by {
        if p(h) {
          assert f[0] == h;
        }
      }
      assert x in rest && y in rest by {
        assert forall z :: z in f ==> z == h || z in rest;
      }
      if p(h) {
        FirstIndexTail(rest, h, x);
        FirstIndexTail(rest, h, y);
      } else {
        assert f == rest;
      }
      FilterFirstIndex(p, t, x, y);
      FirstIndexTail(t, h, x);
      FirstIndexTail(t, h, y);
    }
  }

  /** `s[:n]`, the cap applied to a list. */
  function Take<T>(s: seq<T>, n: nat): (r: seq<T>)
    ensures |r| == if |s| <= n then |s| else n
    ensures forall i :: 0 <= i < |r| ==> r[i] == s[i]
  {
    if |s| <= n then s else s[..n]
  }

  /** The first of `results` that differs from `empty`, or `fallback` when
      there is none: the "try the candidate paths in order, first one with
      content wins" search. */
  function FirstNonEmpty<T(==)>(results: seq<T>, empty: T, fallback: T): (r: T)
    ensures (r == fallback && forall j :: 0 <= j < |results| ==> results[j] == empty)
         || (exists i :: 0 <= i < |results| && r == results[i] != empty
                         && forall j :: 0 <= j < i ==> results[j] == empty)
  {
    if results == [] then fallback
    else if results[0] != empty then results[0]
    else
      var r := FirstNonEmpty(results[1..], empty, fallback);
      assert forall j :: 1 <= j < |results| ==> results[j] == results[1..][j - 1];
      r
  }
}
