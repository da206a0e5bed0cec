/** Sorting a sequence of prices ascending, or descending when `descending` holds, as the
    language's built-in `sorted(values, reverse=...)` does. */
module Sorting {

  predicate InOrder(a: real, b: real, descending: bool)
  {
    if descending then a >= b else a <= b
  }

  predicate Sorted(s: seq<real>, descending: bool)
  {
    forall i, j :: 0 <= i < j < |s| ==> InOrder(s[i], s[j], descending)
  }

  /** Inserts `x` into the sorted sequence `s`, before the first element it may precede. */
  function Insert(x: real, s: seq<real>, descending: bool): (r: seq<real>)
    requires Sorted(s, descending)
    ensures Sorted(r, descending)
    ensures multiset(r) == multiset(s) + multiset{x}
    ensures |r| == |s| + 1
  {
    if s == [] then [x]
    else if InOrder(x, s[0], descending) then
      PrependSorted(x, s, descending);
      [x] + s
    else
      var rest := Insert(x, s[1..], descending);
      InsertAfterHead(x, s, rest, descending);
      [s[0]] + rest
  }

  /** A sorted sequence stays sorted under a head that may precede all of it. */
  lemma PrependSorted(h: real, t: seq<real>, descending: bool)
    requires Sorted(t, descending) && t != [] && InOrder(h, t[0], descending)
    ensures Sorted([h] + t, descending)
  {
    forall j | 0 <= j < |t| ensures InOrder(h, t[j], descending) {
      if j > 0 {
        assert InOrder(t[0], t[j], descending);
      }
    }
  }

  /** The recursive case of `Insert`: `s[0]` goes before the insertion into `s[1..]`. */
  lemma InsertAfterHead(x: real, s: seq<real>, rest: seq<real>, descending: bool)
    requires Sorted(s, descending) && s != [] && !InOrder(x, s[0], descending)
    requires Sorted(rest, descending) && multiset(rest) == multiset(s[1..]) + multiset{x}
    ensures Sorted([s[0]] + rest, descending)
    ensures multiset([s[0]] + rest) == multiset(s) + multiset{x}
  {
    assert s == [s[0]] + s[1..];
    forall k | 0 <= k < |rest| ensures InOrder(s[0], rest[k], descending) {
      assert rest[k] in multiset(rest);
      if rest[k] != x {
        assert rest[k] in multiset(s[1..]);
        var j :| 0 <= j < |s[1..]| && s[1..][j] == rest[k];
        assert s[1..][j] == s[j + 1];
      }
    }
    var r := [s[0]] + rest;
    forall i, j | 0 <= i < j < |r| ensures InOrder(r[i], r[j], descending) {
      if i > 0 {
        assert r[i] == rest[i - 1] && r[j] == rest[j - 1];
      }
    }
  }

  function Sort(s: seq<real>, descending: bool): (r: seq<real>)
    ensures Sorted(r, descending)
    ensures multiset(r) == multiset(s)
    ensures |r| == |s|
  {
    if s == [] then []
    else
      assert s == [s[0]] + s[1..];
      Insert(s[0], Sort(s[1..], descending), descending)
  }

  /** The head of a sorted permutation of `s` is an extreme of `s`: the largest value when
      sorting descending, the smallest otherwise. */
  lemma HeadIsExtreme(s: seq<real>, descending: bool)
    requires |s| > 0
    ensures Sort(s, descending)[0] in s
    ensures forall y :: y in s ==> InOrder(Sort(s, descending)[0], y, descending)
  {
    var r := Sort(s, descending);
    assert r[0] in multiset(r);
    forall y | y in s
      ensures InOrder(r[0], y, descending)
    {
      assert y in multiset(s);
      var k :| 0 <= k < |r| && r[k] == y;
      if k == 0 {
        assert InOrder(r[0], r[0], descending);
      }
    }
  }

  /** Every element of the sorted sequence comes from `s`. */
  lemma ElementsFromInput(s: seq<real>, descending: bool, k: nat)
    requires k < |s|
    ensures Sort(s, descending)[k] in s
  {
    var r := Sort(s, descending);
    assert r[k] in multiset(r);
  }
}
