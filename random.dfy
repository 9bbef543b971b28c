/**
 * The random helpers of the TypeScript handler `src/app/api/generate-week/route.ts`.
 * `Math.random()` is replaced by an injected stream of values in [0, 1):
 * the caller supplies `rng`, and each helper reads it from a cursor `k`
 * onwards, one value per call, in the order in which the handler draws.
 * Arithmetic is over exact reals.
 */
module Random {
  import opened Options

  /** A value `Math.random()` can return. */
  type Unit = r: real | 0.0 <= r < 1.0 witness 0.0

  /** The handler's random stream, made a parameter: the i-th value drawn. */
  type Stream = nat -> Unit

  /** `Math.floor(u * (max - min + 1)) + min`: an integer in [min, max]. */
  function RandInt(min: int, max: int, u: Unit): (r: int)
    requires min <= max
    ensures min <= r <= max
  {
    var n := (max - min + 1) as real;
    assert 0.0 <= u * n < n by {
      assert (1.0 - u) * n > 0.0;
    }
    (u * n).Floor + min
  }

  /** Every integer in [min, max] is drawn by some value of the stream. */
  lemma RandIntCoversRange(min: int, max: int, v: int)
    requires min <= v <= max
    ensures exists u: Unit :: RandInt(min, max, u) == v
  {
    var n := (max - min + 1) as real;
    var x := (v - min) as real / n;
    assert 0.0 <= x < 1.0;
    var u: Unit := x;
    assert u * n == (v - min) as real;
    assert RandInt(min, max, u) == v;
  }

  /** `arr[randInt(0, arr.length - 1)]`: an element of a non-empty sequence. */
  function Sample<T>(s: seq<T>, u: Unit): (r: T)
    requires |s| > 0
    ensures r in s
  {
    s[RandInt(0, |s| - 1, u)]
  }

  /** Every element of a non-empty sequence is a possible sample. */
  lemma SampleCoversPool<T>(s: seq<T>, x: T)
    requires x in s
    ensures exists u: Unit :: Sample(s, u) == x
  {
    var i :| 0 <= i < |s| && s[i] == x;
    RandIntCoversRange(0, |s| - 1, i);
    var u: Unit :| RandInt(0, |s| - 1, u) == i;
    assert Sample(s, u) == x;
  }

  /**
   * `arr.find(p)`: the first element satisfying `p`, or None when there is
   * none.
   */
  function Find<T>(s: seq<T>, p: T -> bool): (r: Option<T>)
    ensures r.None? <==> forall i :: 0 <= i < |s| ==> !p(s[i])
    ensures r.Some? ==> exists i :: 0 <= i < |s| && s[i] == r.value && p(s[i]) &&
                                    forall j :: 0 <= j < i ==> !p(s[j])
  {
    if |s| == 0 then None
    else if p(s[0]) then Some(s[0])
    else
      var r := Find(s[1..], p);
      assert forall i :: 1 <= i < |s| ==> s[i] == s[1..][i - 1];
      r
  }

  /**
   * The in-place Fisher-Yates shuffle of a copy of `arr`: for i from the last
   * index down to 1, swap position i with a random position j in [0, i].
   * Returns the shuffled copy and the advanced cursor.
   */
  method Shuffle<T>(arr: seq<T>, rng: Stream, k0: nat) returns (r: seq<T>, k: nat)
    ensures |r| == |arr| && multiset(r) == multiset(arr)
    ensures k == k0 + (if |arr| > 0 then |arr| - 1 else 0)
  {
    var a := new T[|arr|](i requires 0 <= i < |arr| => arr[i]);
    assert a[..] == arr;
    var i := |arr| - 1;
    k := k0;
    while i > 0
      invariant -1 <= i < |arr| && (|arr| > 0 ==> 0 <= i)
      invariant a.Length == |arr|
      invariant multiset(a[..]) == multiset(arr)
      invariant k == k0 + (|arr| - 1 - i)
    {
      var j := RandInt(0, i, rng(k));
      k := k + 1;
      a[i], a[j] := a[j], a[i];
      i := i - 1;
    }
    r := a[..];
  }

  function Min(a: int, b: int): int {
    if a <= b then a else b
  }

  /**
   * Draw `count` elements without replacement: repeatedly splice a random
   * position out of a copy of `arr`, until `count` are drawn or the copy is
   * empty. Every element of `arr` is drawn at most as often as it occurs.
   */
  method SampleManyUnique<T>(arr: seq<T>, count: int, rng: Stream, k0: nat) returns (out: seq<T>, k: nat)
    ensures |out| == if count <= 0 then 0 else Min(count, |arr|)
    ensures multiset(out) <= multiset(arr)
    ensures k == k0 + |out|
  {
    var copy := arr;
    out := [];
    k := k0;
    while |copy| > 0 && |out| < count
      invariant multiset(out) + multiset(copy) == multiset(arr)
      invariant |out| + |copy| == |arr|
      invariant count <= 0 ==> out == []
      invariant count > 0 ==> |out| <= count
      invariant k == k0 + |out|
      decreases |copy|
    {
      var idx := RandInt(0, |copy| - 1, rng(k));
      k := k + 1;
      assert copy == copy[..idx] + [copy[idx]] + copy[idx + 1..];
      out := out + [copy[idx]];
      copy := copy[..idx] + copy[idx + 1..];
    }
  }

  /** Pairwise distinct elements. */
  predicate Distinct<T(==)>(s: seq<T>) {
    forall i, j :: 0 <= i < j < |s| ==> s[i] != s[j]
  }

  /** An element of a sequence without repeats occurs once. */
  lemma {:induction false} DistinctOccursOnce<T>(s: seq<T>, x: T)
    requires Distinct(s)
    ensures multiset(s)[x] <= 1
  {
    if |s| > 0 {
      var t := s[1..];
      assert s == [s[0]] + t;
      assert Distinct(t) by {
        forall i, j | 0 <= i < j < |t| ensures t[i] != t[j] {
          assert t[i] == s[i + 1] && t[j] == s[j + 1];
        }
      }
      DistinctOccursOnce(t, x);
      if x == s[0] {
        assert x !in t by {
          forall i | 0 <= i < |t| ensures t[i] != x { assert t[i] == s[i + 1]; }
        }
      }
    }
  }

  /** A selection without replacement from a sequence without repeats has no repeats. */
  lemma SubBagOfDistinct<T>(out: seq<T>, arr: seq<T>)
    requires Distinct(arr) && multiset(out) <= multiset(arr)
    ensures Distinct(out)
  {
    forall i, j | 0 <= i < j < |out| ensures out[i] != out[j] {
      if out[i] == out[j] {
        var x := out[i];
        assert out == out[..j] + [x] + out[j + 1..];
        assert x in out[..j];
        assert multiset(out)[x] >= 2 by {
          assert multiset(out) == multiset(out[..j]) + multiset{x} + multiset(out[j + 1..]);
        }
        DistinctOccursOnce(arr, x);
        assert false;
      }
    }
  }
}
