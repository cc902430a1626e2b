/**
 * The array operations the core builds on: `filter`, dropping `null`
 * entries, and the search for the first position where a test holds.
 */
module Seqs {
  import opened Wrappers

  /** `Array.prototype.filter`: the elements of `s` that satisfy `p`, in their original order. */
  function Filter<T>(s: seq<T>, p: T -> bool): (r: seq<T>)
    ensures |r| <= |s|
    ensures forall i :: 0 <= i < |r| ==> p(r[i])
    ensures forall i :: 0 <= i < |r| ==> r[i] in s
    ensures forall i :: 0 <= i < |s| ==> (s[i] in r <==> p(s[i]))
  {
    if s == [] then [] else (if p(s[0]) then [s[0]] else []) + Filter(s[1..], p)
  }

  /** Filtering a concatenation filters each part: the kept elements stay in input order. */
  lemma {:induction false} FilterAppend<T>(s: seq<T>, t: seq<T>, p: T -> bool)
    ensures Filter(s + t, p) == Filter(s, p) + Filter(t, p)
  {
    if s == [] {
      assert s + t == t;
    } else {
      assert (s + t)[1..] == s[1..] + t;
      FilterAppend(s[1..], t, p);
    }
  }

  /** Nothing is dropped exactly when every element passes. */
  lemma {:induction false} FilterKeepsAll<T>(s: seq<T>, p: T -> bool)
    ensures |Filter(s, p)| == |s| <==> forall i :: 0 <= i < |s| ==> p(s[i])
  {
    if s != [] {
      FilterKeepsAll(s[1..], p);
      assert forall i :: 1 <= i < |s| ==> s[i] == s[1..][i - 1];
    }
  }

  /** When every element passes, the filter is the input itself. */
  lemma {:induction false} FilterAll<T>(s: seq<T>, p: T -> bool)
    requires forall i :: 0 <= i < |s| ==> p(s[i])
    ensures Filter(s, p) == s
  {
    if s != [] {
      assert forall i :: 0 <= i < |s[1..]| ==> s[1..][i] == s[i + 1];
      FilterAll(s[1..], p);
    }
  }

  /** Two complementary tests split the input: what one keeps plus what the other keeps is everything. */
  lemma {:induction false} FilterComplement<T>(s: seq<T>, p: T -> bool, q: T -> bool)
    requires forall x :: q(x) == !p(x)
    ensures |Filter(s, p)| + |Filter(s, q)| == |s|
  {
    if s != [] {
      FilterComplement(s[1..], p, q);
    }
  }

  /** The first kept element is the earliest element of the input that passes. */
  lemma {:induction false} FilterFirst<T>(s: seq<T>, p: T -> bool)
    ensures Filter(s, p) != [] ==>
      exists i :: 0 <= i < |s| && s[i] == Filter(s, p)[0] && p(s[i]) && forall j :: 0 <= j < i ==> !p(s[j])
  {
    if s == [] {
    } else if p(s[0]) {
      assert Filter(s, p)[0] == s[0];
    } else {
      var t := s[1..];
      assert Filter(s, p) == Filter(t, p);
      FilterFirst(t, p);
      if Filter(t, p) != [] {
        var i :| 0 <= i < |t| && t[i] == Filter(t, p)[0] && p(t[i]) && forall j :: 0 <= j < i ==> !p(t[j]);
        assert s[i + 1] == t[i];
        assert forall j :: 1 <= j < i + 1 ==> s[j] == t[j - 1];
      }
    }
  }

  /** `.filter(x => x !== null)` on a sequence of optional values: the present values, in order. */
  function Somes<T>(s: seq<Option<T>>): (r: seq<T>)
    ensures |r| <= |s|
    ensures forall i :: 0 <= i < |r| ==> Some(r[i]) in s
    ensures forall i :: 0 <= i < |s| ==> s[i].Some? ==> s[i].value in r
  {
    if s == [] then []
    else (if s[0].Some? then [s[0].value] else []) + Somes(s[1..])
  }

  /**
   * The least position in `[from, last]` where `ok` holds, or `None`: how a
   * leftmost or lazy pattern match picks where to stop.
   */
  function First(ok: nat -> bool, from: nat, last: nat): (r: Option<nat>)
    ensures r.Some? ==> from <= r.value <= last && ok(r.value)
    ensures r.Some? ==> forall q :: from <= q < r.value ==> !ok(q)
    ensures r.None? ==> forall q :: from <= q <= last ==> !ok(q)
    decreases last + 1 - from
  {
    if from > last then None
    else if ok(from) then Some(from)
    else First(ok, from + 1, last)
  }
}
