/** Byte buffers and the concatenation of a sequence of buffers. */
module Sequences {

  /** One byte of a Node.js `Buffer`. */
  type Byte = bv8

  function Min(a: int, b: int): int
  {
    if a <= b then a else b
  }

  /** `part` occurs in `whole` starting at byte `offset`. */
  ghost predicate SliceAt<T>(whole: seq<T>, offset: int, part: seq<T>)
  {
    0 <= offset && offset + |part| <= |whole| && whole[offset..offset + |part|] == part
  }

  /** Concatenation of `parts` in order, as `Buffer.concat` does. */
  function Flatten<T>(parts: seq<seq<T>>): seq<T>
  {
    if parts == [] then [] else Flatten(parts[..|parts| - 1]) + parts[|parts| - 1]
  }

  /** The first `k` parts are the first `k - 1` parts and then part `k - 1`. */
  lemma FlattenPrefixSnoc<T>(parts: seq<seq<T>>, k: nat)
    requires 0 < k <= |parts|
    ensures Flatten(parts[..k]) == Flatten(parts[..k - 1]) + parts[k - 1]
  {
    assert parts[..k][..k - 1] == parts[..k - 1];
  }

  /** Adjacent slices of one sequence join into one. */
  lemma SliceJoin<T>(s: seq<T>, lo: int, hi: int)
    requires 0 <= lo <= hi <= |s|
    ensures s[..lo] + s[lo..hi] == s[..hi]
  {
  }

  lemma {:induction false} FlattenAppend<T>(a: seq<seq<T>>, b: seq<seq<T>>)
    ensures Flatten(a + b) == Flatten(a) + Flatten(b)
  {
    if b == [] {
      assert a + b == a;
    } else {
      var b' := b[..|b| - 1];
      assert (a + b)[..|a + b| - 1] == a + b';
      FlattenAppend(a, b');
    }
  }

  /** A slice of a slice is a slice of the whole, at the sum of the offsets. */
  lemma SliceAtTrans<T>(whole: seq<T>, outer: int, middle: seq<T>, inner: int, part: seq<T>)
    requires SliceAt(whole, outer, middle) && SliceAt(middle, inner, part)
    ensures SliceAt(whole, outer + inner, part)
  {
    forall k | 0 <= k < |part|
      ensures whole[outer + inner + k] == part[k]
    {
      assert part[k] == middle[inner .. inner + |part|][k] == middle[inner + k];
      assert middle[inner + k] == whole[outer .. outer + |middle|][inner + k];
    }
    assert whole[outer + inner .. outer + inner + |part|] == part;
  }

  /** `f(0, xs[0]) + f(1, xs[1]) + ...`: a per-element result concatenated in element order. */
  function FlatMapIndexed<X, Y>(xs: seq<X>, f: (nat, X) -> seq<Y>): seq<Y>
  {
    if xs == [] then [] else FlatMapIndexed(xs[..|xs| - 1], f) + f(|xs| - 1, xs[|xs| - 1])
  }

  lemma {:induction false} FlatMapIndexedMember<X, Y>(xs: seq<X>, f: (nat, X) -> seq<Y>, y: Y)
    ensures y in FlatMapIndexed(xs, f) <==> exists i :: 0 <= i < |xs| && y in f(i, xs[i])
  {
    if xs != [] {
      var n := |xs| - 1;
      FlatMapIndexedMember(xs[..n], f, y);
      if exists i :: 0 <= i < |xs| && y in f(i, xs[i]) {
        var i :| 0 <= i < |xs| && y in f(i, xs[i]);
        if i < n {
          assert xs[..n][i] == xs[i];
        }
      }
      if exists i :: 0 <= i < n && y in f(i, xs[..n][i]) {
        var i :| 0 <= i < n && y in f(i, xs[..n][i]);
        assert xs[..n][i] == xs[i];
      }
    }
  }
}
