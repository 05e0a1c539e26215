/** Values and sequence facts shared by every part of the model. */
module Basics {

  datatype Option<+T> = None | Some(value: T)

  datatype Result<+T, +E> = Ok(value: T) | Err(error: E)

  function Min(a: int, b: int): int {
    if a <= b then a else b
  }

  function Max(a: int, b: int): int {
    if a <= b then b else a
  }

  /** The elements of `s` that satisfy `p`, in their order. */
  function Filter<T>(p: T -> bool, s: seq<T>): seq<T> {
    if s == [] then []
    else Filter(p, s[..|s| - 1]) + if p(s[|s| - 1]) then [s[|s| - 1]] else []
  }

  lemma {:induction false} FilterAppend<T>(p: T -> bool, s: seq<T>, t: seq<T>)
    ensures Filter(p, s + t) == Filter(p, s) + Filter(p, t)
  {
    if t == [] {
      assert s + t == s;
    } else {
      var init := t[..|t| - 1];
      assert (s + t)[..|s + t| - 1] == s + init;
      FilterAppend(p, s, init);
      assert Filter(p, s + init) + Filter(p, t[|t| - 1..]) == Filter(p, s) + (Filter(p, init) + Filter(p, t[|t| - 1..]));
    }
  }

  lemma {:induction false} FilterOne<T>(p: T -> bool, s: seq<T>, x: T)
    ensures Filter(p, s + [x]) == Filter(p, s) + if p(x) then [x] else []
  {
    assert (s + [x])[..|s|] == s;
  }

  lemma {:induction false} FilterMembers<T>(p: T -> bool, s: seq<T>)
    ensures forall x :: x in Filter(p, s) <==> x in s && p(x)
  {
    if s != [] {
      FilterMembers(p, s[..|s| - 1]);
      assert s == s[..|s| - 1] + [s[|s| - 1]];
    }
  }

  lemma {:induction false} FilterAll<T>(p: T -> bool, s: seq<T>)
    requires forall i :: 0 <= i < |s| ==> p(s[i])
    ensures Filter(p, s) == s
  {
    if s != [] {
      var init := s[..|s| - 1];
      assert forall i :: 0 <= i < |init| ==> init[i] == s[i];
      FilterAll(p, init);
      assert s == init + [s[|s| - 1]];
    }
  }

  lemma {:induction false} FilterNone<T>(p: T -> bool, s: seq<T>)
    requires forall i :: 0 <= i < |s| ==> !p(s[i])
    ensures Filter(p, s) == []
  {
    if s != [] {
      var init := s[..|s| - 1];
      assert forall i :: 0 <= i < |init| ==> init[i] == s[i];
      FilterNone(p, init);
    }
  }

  /** Filtering twice is filtering by the stronger predicate. */
  lemma {:induction false} FilterStronger<T>(weak: T -> bool, strong: T -> bool, s: seq<T>)
    requires forall i :: 0 <= i < |s| && strong(s[i]) ==> weak(s[i])
    ensures Filter(strong, Filter(weak, s)) == Filter(strong, s)
  {
    if s != [] {
      var init, x := s[..|s| - 1], s[|s| - 1];
      assert forall i :: 0 <= i < |init| ==> init[i] == s[i];
      FilterStronger(weak, strong, init);
      FilterOne(strong, Filter(weak, init), x);
      if !weak(x) {
        assert Filter(weak, s) == Filter(weak, init);
        assert !strong(s[|s| - 1]);
      }
    }
  }

  lemma {:induction false} FilterRemoveAt<T>(p: T -> bool, s: seq<T>, i: nat)
    requires i < |s|
    ensures |Filter(p, s)| == |Filter(p, s[..i] + s[i + 1..])| + if p(s[i]) then 1 else 0
  {
    assert s == (s[..i] + [s[i]]) + s[i + 1..];
    FilterAppend(p, s[..i] + [s[i]], s[i + 1..]);
    FilterOne(p, s[..i], s[i]);
    FilterAppend(p, s[..i], s[i + 1..]);
  }

  lemma ConcatAssociates<T>(a: seq<T>, b: seq<T>, c: seq<T>)
    ensures a + (b + c) == a + b + c
  {
  }

  lemma MultisetRemoveAt<T>(s: seq<T>, i: nat)
    requires i < |s|
    ensures multiset(s[..i] + s[i + 1..]) == multiset(s) - multiset{s[i]}
  {
    assert s == s[..i] + ([s[i]] + s[i + 1..]);
  }

  /** How many elements are selected does not depend on their order. */
  lemma {:induction false} FilterCountIgnoresOrder<T>(p: T -> bool, s: seq<T>, t: seq<T>)
    requires multiset(s) == multiset(t)
    ensures |Filter(p, s)| == |Filter(p, t)|
    decreases |s|
  {
    if s == [] {
      assert |multiset(t)| == 0;
    } else {
      var n := |s| - 1;
      assert s[n] in multiset(t);
      var i :| 0 <= i < |t| && t[i] == s[n];
      MultisetRemoveAt(s, n);
      MultisetRemoveAt(t, i);
      FilterCountIgnoresOrder(p, s[..n] + s[n + 1..], t[..i] + t[i + 1..]);
      FilterRemoveAt(p, s, n);
      FilterRemoveAt(p, t, i);
    }
  }
}
