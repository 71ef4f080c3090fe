/** Sequence and map helpers shared by the monitor and the request statistics:
    Python's `xs[start:]` slicing, the "keep only the newest `cap`" idiom
    `if len(xs) > cap: xs = xs[-cap:]`, and the sum of a counter map. */
module Seqs {

  function Min(a: int, b: int): int {
    if a <= b then a else b
  }

  /** The last `n` elements of `s`, or all of `s` when it is shorter. */
  function LastN<T>(s: seq<T>, n: nat): (r: seq<T>)
    ensures |r| == Min(|s|, n)
    ensures r == s[|s| - |r|..]
  {
    if |s| <= n then s else s[|s| - n..]
  }

  /** Python's `s[start:]` for any integer `start`: a negative start counts
      from the end, and an out-of-range start is clamped. */
  function SliceFrom<T>(s: seq<T>, start: int): (r: seq<T>)
    ensures start >= 0 ==> r == s[Min(start, |s|)..]
    ensures start < 0 ==> r == LastN(s, -start)
  {
    var i := if start < 0 then (if start + |s| < 0 then 0 else start + |s|)
             else Min(start, |s|);
    s[i..]
  }

  /** `if len(s) > cap: s = s[-cap:]`, exactly as Python evaluates it for
      every integer `cap`. */
  function KeepLast<T>(s: seq<T>, cap: int): seq<T> {
    if |s| > cap then SliceFrom(s, -cap) else s
  }

  /** For a positive cap the idiom keeps the newest `cap` elements. */
  lemma KeepLastPositive<T>(s: seq<T>, cap: int)
    requires cap >= 1
    ensures KeepLast(s, cap) == LastN(s, cap)
  {
  }

  /** For a cap of 0 the slice `s[-0:]` is `s[0:]`: nothing is dropped. */
  lemma KeepLastZero<T>(s: seq<T>)
    ensures KeepLast(s, 0) == s
  {
  }

  /** For a negative cap the slice `s[-cap:]` drops `-cap` elements from the
      front instead. */
  lemma KeepLastNegative<T>(s: seq<T>, cap: int)
    requires cap < 0
    ensures KeepLast(s, cap) == s[Min(-cap, |s|)..]
  {
  }

  /** Appending one element to the retained window and truncating again gives
      the window of the extended history: the idiom keeps exactly the newest
      `n` elements, oldest first, after every append. */
  lemma LastNAppend<T>(h: seq<T>, x: T, n: int)
    requires n >= 1
    ensures KeepLast(LastN(h, n) + [x], n) == LastN(h + [x], n)
  {
    var w := LastN(h, n);
    if |h| >= n {
      assert w + [x] == (h + [x])[|h| - n..];
      assert (w + [x])[1..] == (h + [x])[|h| + 1 - n..];
    }
  }

  /** Sum of the values of a map. */
  ghost function MapSum<K>(m: map<K, nat>): nat
    decreases |m|
  {
    if m == map[] then 0
    else
      var k :| k in m;
      m[k] + MapSum(m - {k})
  }

  lemma {:induction false} MapSumRemove<K>(m: map<K, nat>, k: K)
    requires k in m
    ensures MapSum(m) == m[k] + MapSum(m - {k})
    decreases |m|
  {
    var j :| j in m && MapSum(m) == m[j] + MapSum(m - {j});
    if j != k {
      assert |m - {j}| < |m| by {
        assert (m - {j}).Keys == m.Keys - {j};
      }
      MapSumRemove(m - {j}, k);
      assert |m - {k}| < |m| by {
        assert (m - {k}).Keys == m.Keys - {k};
      }
      MapSumRemove(m - {k}, j);
      assert m - {j} - {k} == m - {k} - {j};
    }
  }

  /** Raising one counter by one raises the sum by one. */
  lemma MapSumIncrement<K>(m: map<K, nat>, k: K)
    ensures MapSum(m[k := (if k in m then m[k] else 0) + 1]) == MapSum(m) + 1
  {
    var m' := m[k := (if k in m then m[k] else 0) + 1];
    MapSumRemove(m', k);
    assert m' - {k} == m - {k};
    if k in m {
      MapSumRemove(m, k);
    } else {
      assert m - {k} == m;
    }
  }
}
