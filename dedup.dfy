/** First-seen deduplication: keep the first element for each key, in the
    order the keys first appear. Both the search tool's `seen_sources` set and
    Python's dict insertion order follow this rule. */
module Dedup {

  /** The keys of the elements of `xs`. */
  function KeySet<T, K(==)>(xs: seq<T>, key: T -> K): set<K> {
    set i | 0 <= i < |xs| :: key(xs[i])
  }

  /** The keys of `xs`, element by element. */
  function Project<T, K>(xs: seq<T>, key: T -> K): (ks: seq<K>)
    ensures |ks| == |xs|
  {
    seq(|xs|, i requires 0 <= i < |xs| => key(xs[i]))
  }

  /** The elements of `xs` whose key does not occur earlier in `xs`, in order. */
  function FirstSeen<T, K(==)>(xs: seq<T>, key: T -> K): (r: seq<T>)
    ensures |r| <= |xs|
    ensures forall p :: 0 <= p < |r| ==> key(r[p]) in KeySet(xs, key)
    decreases |xs|
  {
    if xs == [] then []
    else
      var init, last := xs[..|xs| - 1], xs[|xs| - 1];
      FirstSeen(init, key) + (if key(last) in KeySet(init, key) then [] else [last])
  }

  /** The position of the first element of `xs` with key `k`. */
  function FirstIndex<T, K(==)>(xs: seq<T>, key: T -> K, k: K): (i: nat)
    requires k in KeySet(xs, key)
    ensures i < |xs| && key(xs[i]) == k
    ensures forall j :: 0 <= j < i ==> key(xs[j]) != k
    decreases |xs|
  {
    var init, last := xs[..|xs| - 1], xs[|xs| - 1];
    assert xs == init + [last];
    if k in KeySet(init, key) then FirstIndex(init, key, k) else |xs| - 1
  }

  /** Unfolding of `FirstSeen` on a prefix one element longer. */
  lemma FirstSeenSnoc<T, K>(xs: seq<T>, key: T -> K, i: nat)
    requires i < |xs|
    ensures FirstSeen(xs[..i + 1], key)
         == FirstSeen(xs[..i], key) + (if key(xs[i]) in KeySet(xs[..i], key) then [] else [xs[i]])
  {
    assert xs[..i + 1][..i] == xs[..i];
  }

  /** Unfolding of `FirstSeen` on one more element. */
  lemma FirstSeenAppend<T, K>(xs: seq<T>, x: T, key: T -> K)
    ensures FirstSeen(xs + [x], key) == FirstSeen(xs, key) + (if key(x) in KeySet(xs, key) then [] else [x])
  {
    assert (xs + [x])[..|xs|] == xs;
  }

  lemma KeySetSnoc<T, K>(xs: seq<T>, key: T -> K)
    requires xs != []
    ensures KeySet(xs, key) == KeySet(xs[..|xs| - 1], key) + {key(xs[|xs| - 1])}
  {
    assert xs == xs[..|xs| - 1] + [xs[|xs| - 1]];
    KeySetConcat(xs[..|xs| - 1], [xs[|xs| - 1]], key);
    assert KeySet([xs[|xs| - 1]], key) == {key(xs[|xs| - 1])};
  }

  lemma KeySetConcat<T, K>(a: seq<T>, b: seq<T>, key: T -> K)
    ensures KeySet(a + b, key) == KeySet(a, key) + KeySet(b, key)
  {
    forall k | k in KeySet(a + b, key) ensures k in KeySet(a, key) + KeySet(b, key) {
      var i :| 0 <= i < |a + b| && key((a + b)[i]) == k;
      if i >= |a| { assert key(b[i - |a|]) == k; }
    }
    forall k | k in KeySet(a, key) ensures k in KeySet(a + b, key) {
      var i :| 0 <= i < |a| && key(a[i]) == k;
      assert (a + b)[i] == a[i];
    }
    forall k | k in KeySet(b, key) ensures k in KeySet(a + b, key) {
      var i :| 0 <= i < |b| && key(b[i]) == k;
      assert (a + b)[|a| + i] == b[i];
    }
  }

  lemma KeySetPair<T, K>(x: T, y: T, key: T -> K)
    ensures KeySet([x, y], key) == {key(x), key(y)}
  {
    assert [x, y][0] == x && [x, y][1] == y;
  }

  /** Every key of `xs` is kept, and no other. */
  lemma {:induction false} FirstSeenKeys<T, K>(xs: seq<T>, key: T -> K)
    ensures KeySet(FirstSeen(xs, key), key) == KeySet(xs, key)
    decreases |xs|
  {
    if xs != [] {
      var init, last := xs[..|xs| - 1], xs[|xs| - 1];
      FirstSeenKeys(init, key);
      KeySetSnoc(xs, key);
      var tail := if key(last) in KeySet(init, key) then [] else [last];
      KeySetConcat(FirstSeen(init, key), tail, key);
      if tail == [] {
        assert KeySet(tail, key) == {};
      } else {
        assert tail[0] == last;
        assert KeySet(tail, key) == {key(last)};
      }
    }
  }

  /** No key is kept twice. */
  lemma {:induction false} FirstSeenDistinct<T, K>(xs: seq<T>, key: T -> K)
    ensures var r := FirstSeen(xs, key);
            forall p, q :: 0 <= p < q < |r| ==> key(r[p]) != key(r[q])
    decreases |xs|
  {
    if xs != [] {
      var init, last := xs[..|xs| - 1], xs[|xs| - 1];
      FirstSeenDistinct(init, key);
      FirstSeenKeys(init, key);
      var prev := FirstSeen(init, key);
      forall p | 0 <= p < |prev| ensures key(prev[p]) in KeySet(init, key) {
        assert prev[p] in prev;
      }
    }
  }

  /** As many elements are kept as there are distinct keys. */
  lemma {:induction false} FirstSeenLength<T, K>(xs: seq<T>, key: T -> K)
    ensures |FirstSeen(xs, key)| == |KeySet(xs, key)|
    decreases |xs|
  {
    if xs != [] {
      var init, last := xs[..|xs| - 1], xs[|xs| - 1];
      FirstSeenLength(init, key);
      KeySetSnoc(xs, key);
    }
  }

  /** Each kept element is the first one with its key, and the kept elements
      appear in the order in which their keys first occur in `xs`. */
  lemma {:induction false} FirstSeenOrder<T, K>(xs: seq<T>, key: T -> K)
    ensures forall p :: 0 <= p < |FirstSeen(xs, key)| ==>
              FirstSeen(xs, key)[p] == xs[FirstIndex(xs, key, key(FirstSeen(xs, key)[p]))]
    ensures forall p, q :: 0 <= p < q < |FirstSeen(xs, key)| ==>
              FirstIndex(xs, key, key(FirstSeen(xs, key)[p])) < FirstIndex(xs, key, key(FirstSeen(xs, key)[q]))
    decreases |xs|
  {
    if xs != [] {
      var init, last := xs[..|xs| - 1], xs[|xs| - 1];
      FirstSeenOrder(init, key);
      var prev := FirstSeen(init, key);
      KeySetSnoc(xs, key);
      // Keys already seen in `init` keep their first index in `xs`.
      forall p | 0 <= p < |prev|
        ensures key(prev[p]) in KeySet(init, key)
        ensures FirstIndex(xs, key, key(prev[p])) == FirstIndex(init, key, key(prev[p])) < |init|
        ensures prev[p] == xs[FirstIndex(xs, key, key(prev[p]))]
      {
        assert prev[p] in prev;
        assert prev[p] == init[FirstIndex(init, key, key(prev[p]))];
        assert xs[FirstIndex(init, key, key(prev[p]))] == init[FirstIndex(init, key, key(prev[p]))];
      }
      if key(last) !in KeySet(init, key) {
        var r := FirstSeen(xs, key);
        assert r == prev + [last];
        assert FirstIndex(xs, key, key(last)) == |xs| - 1;
        forall p | 0 <= p < |r| ensures r[p] == xs[FirstIndex(xs, key, key(r[p]))] {
          if p < |prev| { assert r[p] == prev[p]; }
        }
        forall p, q | 0 <= p < q < |r|
          ensures FirstIndex(xs, key, key(r[p])) < FirstIndex(xs, key, key(r[q]))
        {
          assert r[p] == prev[p];
          if q < |prev| {
            assert r[q] == prev[q];
            assert FirstIndex(init, key, key(prev[p])) < FirstIndex(init, key, key(prev[q]));
          } else {
            assert r[q] == last;
          }
        }
      }
    }
  }
}
