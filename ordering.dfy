/**
 * Ordering rows by a real key. The positions 0..n-1 of the rows are sorted
 * by their keys, rows with equal keys keeping their original relative order,
 * as Python's stable `sorted(..., key=...)` promises.
 */
module Ordering {

  /** Every entry of `o` is a position below `n`. */
  predicate InRange(o: seq<nat>, n: nat)
  {
    forall k :: 0 <= k < |o| ==> o[k] < n
  }

  /** `o` lists each position 0..n-1 exactly once. */
  predicate IsPermutation(o: seq<nat>, n: nat)
  {
    && |o| == n
    && InRange(o, n)
    && (forall i :: 0 <= i < n ==> i in o)
    && (forall a, b :: 0 <= a < b < |o| ==> o[a] != o[b])
  }

  /** Position `a` goes before position `b`: a smaller key, or an equal key and an earlier position. */
  predicate Before(keys: seq<real>, a: nat, b: nat)
    requires a < |keys| && b < |keys|
  {
    keys[a] < keys[b] || (keys[a] == keys[b] && a < b)
  }

  /** `o` is in non-decreasing key order, ties in increasing position. */
  predicate StablySorted(keys: seq<real>, o: seq<nat>)
    requires InRange(o, |keys|)
  {
    forall a, b :: 0 <= a < b < |o| ==> Before(keys, o[a], o[b])
  }

  /** Inserts position `i` after every entry whose key is not greater than its own. */
  function InsertIndex(keys: seq<real>, o: seq<nat>, i: nat): (r: seq<nat>)
    requires InRange(o, |keys|) && i < |keys|
    ensures |r| == |o| + 1 && InRange(r, |keys|)
    ensures forall x :: x in r <==> x in o || x == i
  {
    if o == [] then [i]
    else if keys[i] < keys[o[0]] then [i] + o
    else [o[0]] + InsertIndex(keys, o[1..], i)
  }

  /** The first `n` positions, sorted by insertion. */
  function SortPrefix(keys: seq<real>, n: nat): (r: seq<nat>)
    requires n <= |keys|
    ensures |r| == n && InRange(r, |keys|)
    ensures forall x :: x in r <==> 0 <= x < n
  {
    if n == 0 then [] else InsertIndex(keys, SortPrefix(keys, n - 1), n - 1)
  }

  lemma {:induction false} InsertIndexSorted(keys: seq<real>, o: seq<nat>, i: nat)
    requires InRange(o, |keys|) && i < |keys|
    requires StablySorted(keys, o)
    requires forall k :: 0 <= k < |o| ==> o[k] < i
    ensures StablySorted(keys, InsertIndex(keys, o, i))
  {
    if o != [] && keys[o[0]] <= keys[i] {
      var tail := o[1..];
      InsertIndexSorted(keys, tail, i);
      var r := InsertIndex(keys, o, i);
      forall b | 1 <= b < |r| ensures Before(keys, o[0], r[b]) {
        var x := r[b];
        assert x in InsertIndex(keys, tail, i) by { assert r[1..][b - 1] == x; }
        if x != i {
          var j :| 0 <= j < |tail| && tail[j] == x;
          assert o[j + 1] == x;
        }
      }
    }
  }

  lemma {:induction false} SortPrefixSorted(keys: seq<real>, n: nat)
    requires n <= |keys|
    ensures StablySorted(keys, SortPrefix(keys, n))
  {
    if n > 0 {
      var o := SortPrefix(keys, n - 1);
      SortPrefixSorted(keys, n - 1);
      forall k | 0 <= k < |o| ensures o[k] < n - 1 {
        assert o[k] in o;
      }
      InsertIndexSorted(keys, o, n - 1);
    }
  }

  /**
   * The order in which `sorted` visits the positions of `keys`: a
   * permutation of the positions, stably sorted by key.
   */
  function StableOrder(keys: seq<real>): (o: seq<nat>)
    ensures IsPermutation(o, |keys|)
    ensures StablySorted(keys, o)
  {
    SortPrefixSorted(keys, |keys|);
    SortPrefix(keys, |keys|)
  }

  /**
   * Two stably sorted sequences over the same positions are equal, so any
   * stable sort by this key gives exactly `StableOrder`.
   */
  lemma {:induction false} StablySortedUnique(keys: seq<real>, a: seq<nat>, b: seq<nat>)
    requires InRange(a, |keys|) && InRange(b, |keys|)
    requires StablySorted(keys, a) && StablySorted(keys, b)
    requires forall x :: x in a <==> x in b
    ensures a == b
  {
    assert b != [] ==> b[0] in b;
    assert a != [] ==> a[0] in a;
    if a != [] && b != [] {
      var j :| 0 <= j < |b| && b[j] == a[0];
      var i :| 0 <= i < |a| && a[i] == b[0];
      assert Before(keys, b[0], a[0]) || j == 0;
      assert Before(keys, a[0], b[0]) || i == 0;
      forall x ensures x in a[1..] <==> x in b[1..] {
        if x in a[1..] {
          var p :| 1 <= p < |a| && a[p] == x;
          assert Before(keys, a[0], a[p]);
          assert x in b;
          var q :| 0 <= q < |b| && b[q] == x;
          assert q != 0;
          assert b[1..][q - 1] == x;
        }
        if x in b[1..] {
          var q :| 1 <= q < |b| && b[q] == x;
          assert Before(keys, b[0], b[q]);
          assert x in a;
          var p :| 0 <= p < |a| && a[p] == x;
          assert p != 0;
          assert a[1..][p - 1] == x;
        }
      }
      StablySortedUnique(keys, a[1..], b[1..]);
      assert a == [a[0]] + a[1..];
      assert b == [b[0]] + b[1..];
    }
  }

  /** `Before` is transitive. */
  lemma BeforeTrans(keys: seq<real>, a: nat, b: nat, c: nat)
    requires a < |keys| && b < |keys| && c < |keys|
    requires Before(keys, a, b) && Before(keys, b, c)
    ensures Before(keys, a, c)
  {
  }

  /** Neighbours in order is enough for the whole sequence to be in order. */
  lemma {:induction false} AdjacentSorted(keys: seq<real>, o: seq<nat>)
    requires InRange(o, |keys|)
    requires forall k :: 0 <= k < |o| - 1 ==> Before(keys, o[k], o[k + 1])
    ensures StablySorted(keys, o)
  {
    if |o| > 1 {
      AdjacentSorted(keys, o[1..]);
      forall b | 1 <= b < |o| ensures Before(keys, o[0], o[b]) {
        if b > 1 {
          assert Before(keys, o[1], o[b]) by { assert o[1..][0] == o[1] && o[1..][b - 1] == o[b]; }
          BeforeTrans(keys, o[0], o[1], o[b]);
        }
      }
      forall a, b | 1 <= a < b < |o| ensures Before(keys, o[a], o[b]) {
        assert o[1..][a - 1] == o[a] && o[1..][b - 1] == o[b];
      }
    }
  }

  lemma StableOrderUnique(keys: seq<real>, o: seq<nat>)
    requires IsPermutation(o, |keys|) && StablySorted(keys, o)
    ensures o == StableOrder(keys)
  {
    var s := StableOrder(keys);
    forall x ensures x in o <==> x in s {
      if x in o {
        var k :| 0 <= k < |o| && o[k] == x;
      }
      if x in s {
        var k :| 0 <= k < |s| && s[k] == x;
      }
    }
    StablySortedUnique(keys, o, s);
  }

  /** The sum of a sequence of reals. */
  function Sum(v: seq<real>): real
  {
    if v == [] then 0.0 else v[0] + Sum(v[1..])
  }

  lemma {:induction false} SumAppend(v: seq<real>, x: real)
    ensures Sum(v + [x]) == Sum(v) + x
  {
    if v != [] {
      SumAppend(v[1..], x);
      assert (v + [x])[1..] == v[1..] + [x];
    }
  }

  /** Scaling every entry scales the sum. */
  lemma {:induction false} SumScaled(v: seq<real>, w: seq<real>, c: real)
    requires |v| == |w|
    requires forall i :: 0 <= i < |v| ==> w[i] == v[i] * c
    ensures Sum(w) == Sum(v) * c
  {
    if v != [] {
      SumScaled(v[1..], w[1..], c);
    }
  }

  /** The entries of `v` at the positions `o`, in that order. */
  function Pick(v: seq<real>, o: seq<nat>): (r: seq<real>)
    requires InRange(o, |v|)
    ensures |r| == |o| && forall k :: 0 <= k < |o| ==> r[k] == v[o[k]]
  {
    seq(|o|, k requires 0 <= k < |o| => v[o[k]])
  }

  lemma {:induction false} InsertIndexSum(keys: seq<real>, v: seq<real>, o: seq<nat>, i: nat)
    requires |v| == |keys| && InRange(o, |keys|) && i < |keys|
    ensures Sum(Pick(v, InsertIndex(keys, o, i))) == Sum(Pick(v, o)) + v[i]
  {
    var r := InsertIndex(keys, o, i);
    if o == [] {
      assert Pick(v, r) == [v[i]];
    } else if keys[i] < keys[o[0]] {
      assert Pick(v, r)[1..] == Pick(v, o);
    } else {
      InsertIndexSum(keys, v, o[1..], i);
      assert Pick(v, r)[1..] == Pick(v, InsertIndex(keys, o[1..], i));
      assert Pick(v, o)[1..] == Pick(v, o[1..]);
    }
  }

  lemma {:induction false} SortPrefixSum(keys: seq<real>, v: seq<real>, n: nat)
    requires |v| == |keys| && n <= |keys|
    ensures Sum(Pick(v, SortPrefix(keys, n))) == Sum(v[..n])
  {
    if n > 0 {
      SortPrefixSum(keys, v, n - 1);
      InsertIndexSum(keys, v, SortPrefix(keys, n - 1), n - 1);
      assert v[..n] == v[..n - 1] + [v[n - 1]];
      SumAppend(v[..n - 1], v[n - 1]);
    }
  }

  /** Reordering by `StableOrder` loses and adds nothing to a sum. */
  lemma StableOrderSum(keys: seq<real>, v: seq<real>)
    requires |v| == |keys|
    ensures Sum(Pick(v, StableOrder(keys))) == Sum(v)
  {
    SortPrefixSum(keys, v, |keys|);
    assert v[..|v|] == v;
  }
}
