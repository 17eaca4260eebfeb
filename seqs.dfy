/** Order-preserving filtering and counting over sequences: the list
    comprehensions `[x for x in s if p(x)]` and `sum(1 for x in s if p(x))`
    that the draw queries and the rules are built from; and the `dict.get`
    lookup with a default. */
module Seqs {

  /** `d.get(k, dflt)`. */
  function Lookup<K, V>(m: map<K, V>, k: K, dflt: V): V
  {
    if k in m then m[k] else dflt
  }

  /** The elements of `s` that satisfy `p`, in their original order. Defined
      from the end so that a loop appending to a list matches it step by step. */
  function Filter<T(!new)>(p: T -> bool, s: seq<T>): (r: seq<T>)
    ensures |r| <= |s|
    ensures forall x :: x in r <==> x in s && p(x)
    ensures forall i :: 0 <= i < |r| ==> p(r[i])
  {
    if s == [] then []
    else Filter(p, s[..|s| - 1]) + (if p(s[|s| - 1]) then [s[|s| - 1]] else [])
  }

  /** Number of elements of `s` that satisfy `p`. */
  function Count<T(!new)>(p: T -> bool, s: seq<T>): nat
  {
    |Filter(p, s)|
  }

  /** A sequence is its prefix followed by the rest. */
  lemma SplitJoin<T>(s: seq<T>, k: nat)
    requires k <= |s|
    ensures s[..k] + s[k..] == s
  {
  }

  /** Moving the head of `s` to the end of `a` keeps the concatenation. */
  lemma ShiftHead<T>(a: seq<T>, s: seq<T>)
    requires s != []
    ensures (a + [s[0]]) + s[1..] == a + s
  {
    assert s == [s[0]] + s[1..];
  }

  /** One more element at the end: the step every counting loop takes. */
  lemma FilterSnoc<T(!new)>(p: T -> bool, s: seq<T>, x: T)
    ensures Filter(p, s + [x]) == Filter(p, s) + (if p(x) then [x] else [])
  {
    assert (s + [x])[..|s|] == s;
  }

  /** Filtering distributes over concatenation, so the filter keeps the
      relative order of what it keeps. */
  lemma {:induction false} FilterAppend<T(!new)>(p: T -> bool, a: seq<T>, b: seq<T>)
    ensures Filter(p, a + b) == Filter(p, a) + Filter(p, b)
    decreases |b|
  {
    if b == [] {
      assert a + b == a;
    } else {
      var b' := b[..|b| - 1];
      var x := b[|b| - 1];
      assert b == b' + [x];
      assert a + b == (a + b') + [x];
      var tail := if p(x) then [x] else [];
      calc {
        Filter(p, a + b);
        { FilterSnoc(p, a + b', x); }
        Filter(p, a + b') + tail;
        { FilterAppend(p, a, b'); }
        (Filter(p, a) + Filter(p, b')) + tail;
        Filter(p, a) + (Filter(p, b') + tail);
        { FilterSnoc(p, b', x); }
        Filter(p, a) + Filter(p, b);
      }
    }
  }

  /** Nothing is kept when no element satisfies `p`. */
  lemma {:induction false} FilterNone<T(!new)>(p: T -> bool, s: seq<T>)
    requires forall x :: x in s ==> !p(x)
    ensures Filter(p, s) == []
  {
    if s != [] {
      FilterNone(p, s[..|s| - 1]);
    }
  }

  /** Everything is kept when every element satisfies `p`. */
  lemma {:induction false} FilterAll<T(!new)>(p: T -> bool, s: seq<T>)
    requires forall i :: 0 <= i < |s| ==> p(s[i])
    ensures Filter(p, s) == s
  {
    if s != [] {
      var init, x := s[..|s| - 1], s[|s| - 1];
      forall i | 0 <= i < |init|
        ensures p(init[i])
      {
        assert init[i] == s[i];
      }
      FilterAll(p, init);
      assert p(x);
      assert s == init + [x];
    }
  }

  /** A prefix never has more matching elements than the whole sequence. */
  lemma {:induction false} CountPrefix<T(!new)>(p: T -> bool, s: seq<T>, i: nat)
    requires i <= |s|
    ensures Count(p, s[..i]) <= Count(p, s)
  {
    assert s == s[..i] + s[i..];
    FilterAppend(p, s[..i], s[i..]);
  }

  /** Some element satisfies `p` exactly when the count is positive. */
  lemma CountPositive<T(!new)>(p: T -> bool, s: seq<T>)
    ensures Count(p, s) > 0 <==> exists x :: x in s && p(x)
  {
    var f := Filter(p, s);
    if Count(p, s) > 0 {
      assert f[0] in f;
    }
  }

  /** Kept plus dropped elements make up the whole sequence. */
  lemma {:induction false} CountComplement<T(!new)>(p: T -> bool, s: seq<T>)
    ensures Count(p, s) + Count(x => !p(x), s) == |s|
  {
    if s != [] {
      CountComplement(p, s[..|s| - 1]);
    }
  }
}
