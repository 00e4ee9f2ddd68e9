/**
 * Consecutive slicing of a sequence into groups of a fixed size, as the scripts do with
 * `[s[i:i + n] for i in range(0, len(s), n)]` and with the append-then-clear job buffer.
 */
module Batching {

  /** Concatenation of a sequence of sequences (`itertools.chain`). */
  function Flatten<T>(ss: seq<seq<T>>): (r: seq<T>)
    decreases |ss|
  {
    if ss == [] then [] else ss[0] + Flatten(ss[1..])
  }

  lemma {:induction false} FlattenAppend<T>(ss: seq<seq<T>>, t: seq<T>)
    ensures Flatten(ss + [t]) == Flatten(ss) + t
    decreases |ss|
  {
    if ss == [] {
      assert ss + [t] == [t];
    } else {
      assert (ss + [t])[1..] == ss[1..] + [t];
      FlattenAppend(ss[1..], t);
    }
  }

  lemma {:induction false} FlattenConcat<T>(a: seq<seq<T>>, b: seq<seq<T>>)
    ensures Flatten(a + b) == Flatten(a) + Flatten(b)
    decreases |a|
  {
    if a == [] {
      assert a + b == b;
    } else {
      assert (a + b)[1..] == a[1..] + b;
      FlattenConcat(a[1..], b);
    }
  }

  /** Sum of a sequence of naturals. */
  function Sum(xs: seq<nat>): nat
    decreases |xs|
  {
    if xs == [] then 0 else xs[0] + Sum(xs[1..])
  }

  lemma {:induction false} SumAppend(xs: seq<nat>, x: nat)
    ensures Sum(xs + [x]) == Sum(xs) + x
    decreases |xs|
  {
    if xs == [] {
      assert xs + [x] == [x];
    } else {
      assert (xs + [x])[1..] == xs[1..] + [x];
      SumAppend(xs[1..], x);
    }
  }

  /** Every group but the last holds exactly `n` elements; none is empty or larger than `n`. */
  ghost predicate WellSized<T>(cs: seq<seq<T>>, n: nat) {
    && (forall k :: 0 <= k < |cs| ==> 0 < |cs[k]| <= n)
    && (forall k :: 0 <= k < |cs| - 1 ==> |cs[k]| == n)
  }

  /** The slices `s[i:i + n]` for `i` in `range(0, len(s), n)`. */
  function Chunks<T>(s: seq<T>, n: nat): seq<seq<T>>
    requires n > 0
    decreases |s|
  {
    if |s| == 0 then []
    else if |s| <= n then [s]
    else [s[..n]] + Chunks(s[n..], n)
  }

  /** The groups concatenate back to `s`, and all are full but the last. */
  lemma {:induction false} ChunksSpec<T>(s: seq<T>, n: nat)
    requires n > 0
    ensures Flatten(Chunks(s, n)) == s
    ensures WellSized(Chunks(s, n), n)
    decreases |s|
  {
    if |s| > n {
      var rest := Chunks(s[n..], n);
      ChunksSpec(s[n..], n);
      assert Chunks(s, n) == [s[..n]] + rest;
      assert ([s[..n]] + rest)[1..] == rest;
      assert s[..n] + s[n..] == s;
      forall k | 0 <= k < |rest| + 1 ensures 0 < |Chunks(s, n)[k]| <= n {
        if k > 0 { assert Chunks(s, n)[k] == rest[k - 1]; }
      }
      forall k | 0 <= k < |rest| ensures |Chunks(s, n)[k]| == n {
        if k > 0 { assert Chunks(s, n)[k] == rest[k - 1]; }
      }
    } else if |s| > 0 {
      assert Flatten([s]) == s + Flatten([s][1..]);
      assert s + [] == s;
    }
  }

  /** There are ceil(|s| / n) groups. */
  lemma {:induction false} ChunksCount<T>(s: seq<T>, n: nat)
    requires n > 0
    ensures |s| <= |Chunks(s, n)| * n
    ensures |Chunks(s, n)| > 0 ==> (|Chunks(s, n)| - 1) * n < |s|
    decreases |s|
  {
    if |s| > n {
      ChunksCount(s[n..], n);
      var m := |Chunks(s[n..], n)|;
      assert |Chunks(s, n)| == m + 1;
      assert (m + 1) * n == m * n + n;
    }
  }

  /** Taking one slice off the front leaves the slices of the rest. */
  lemma ChunksStep<T>(s: seq<T>, n: nat)
    requires n > 0 && |s| > 0
    ensures Chunks(s, n) == [s[..if n <= |s| then n else |s|]] + Chunks(s[if n <= |s| then n else |s|..], n)
  {
    if |s| <= n {
      assert s[..|s|] == s;
      assert s[|s|..] == [];
      assert Chunks(s[|s|..], n) == [];
    }
  }

  /** Well-sized groups that concatenate to `s` are exactly `Chunks(s, n)`. */
  lemma {:induction false} ChunksUnique<T>(cs: seq<seq<T>>, s: seq<T>, n: nat)
    requires n > 0
    requires WellSized(cs, n)
    requires Flatten(cs) == s
    ensures cs == Chunks(s, n)
    decreases |cs|
  {
    if cs == [] {
    } else if |cs| == 1 {
      assert Flatten(cs) == cs[0] + Flatten(cs[1..]);
      assert s == cs[0];
    } else {
      assert |cs[0]| == n;
      assert s == cs[0] + Flatten(cs[1..]);
      assert WellSized(cs[1..], n) by {
        forall k | 0 <= k < |cs[1..]| ensures 0 < |cs[1..][k]| <= n { assert cs[1..][k] == cs[k + 1]; }
        forall k | 0 <= k < |cs[1..]| - 1 ensures |cs[1..][k]| == n { assert cs[1..][k] == cs[k + 1]; }
      }
      assert |Flatten(cs[1..])| > 0 by { assert cs[1..][0] == cs[1]; assert Flatten(cs[1..]) == cs[1] + Flatten(cs[2..]); }
      assert s[..n] == cs[0];
      assert s[n..] == Flatten(cs[1..]);
      ChunksUnique(cs[1..], s[n..], n);
    }
  }

  /** Every element of every group is an element of the concatenation. */
  lemma {:induction false} FlattenElement<T>(ss: seq<seq<T>>, k: nat, j: nat)
    requires k < |ss| && j < |ss[k]|
    ensures ss[k][j] in Flatten(ss)
    decreases k
  {
    assert Flatten(ss) == ss[0] + Flatten(ss[1..]);
    if k > 0 {
      assert ss[1..][k - 1] == ss[k];
      FlattenElement(ss[1..], k - 1, j);
    }
  }

  /** The rest of a sequence from position `i`, empty past the end. */
  function From<T>(s: seq<T>, i: nat): seq<T> {
    if i <= |s| then s[i..] else []
  }

  /** One slice off the front of the rest from `i`. */
  lemma ChunksFrom<T>(s: seq<T>, i: nat, hi: nat, n: nat)
    requires n > 0 && i < |s| && hi == (if i + n <= |s| then i + n else |s|)
    ensures Chunks(From(s, i), n) == [s[i..hi]] + Chunks(From(s, i + n), n)
  {
    ChunksStep(From(s, i), n);
    assert From(s, i)[..hi - i] == s[i..hi];
    assert From(s, i)[hi - i..] == From(s, i + n);
  }

  /** The blocks `f(x)` of the elements of `xs`, one after another. */
  function ConcatMap<A, B>(xs: seq<A>, f: A -> seq<B>): seq<B>
    decreases |xs|
  {
    if xs == [] then [] else ConcatMap(xs[..|xs| - 1], f) + f(xs[|xs| - 1])
  }

  /** Where block `i` starts when every block holds `m` elements: `i * m`, built up by addition. */
  function Offset(i: nat, m: nat): nat
  {
    if i == 0 then 0 else Offset(i - 1, m) + m
  }

  lemma {:induction false} OffsetIsProduct(i: nat, m: nat)
    ensures Offset(i, m) == i * m
    decreases i
  {
    if i > 0 {
      OffsetIsProduct(i - 1, m);
      assert i * m == (i - 1) * m + m;
    }
  }

  lemma ConcatMapStep<A, B>(xs: seq<A>, f: A -> seq<B>, k: nat)
    requires k < |xs|
    ensures ConcatMap(xs[..k + 1], f) == ConcatMap(xs[..k], f) + f(xs[k])
  {
    assert xs[..k + 1][..k] == xs[..k];
  }

  /** With blocks of `m` elements, the concatenation holds `Offset(|xs|, m)` elements. */
  lemma {:induction false} ConcatMapLength<A, B>(xs: seq<A>, f: A -> seq<B>, m: nat)
    requires forall k :: 0 <= k < |xs| ==> |f(xs[k])| == m
    ensures |ConcatMap(xs, f)| == Offset(|xs|, m)
    decreases |xs|
  {
    if xs != [] {
      ConcatMapLength(xs[..|xs| - 1], f, m);
    }
  }

  /** With blocks of `m` elements, position `Offset(i, m) + j` is position `j` of block `i`. */
  lemma {:induction false} ConcatMapAt<A, B>(xs: seq<A>, f: A -> seq<B>, m: nat, i: nat, j: nat)
    requires i < |xs| && j < m
    requires forall k :: 0 <= k < |xs| ==> |f(xs[k])| == m
    ensures Offset(i, m) + j < |ConcatMap(xs, f)|
    ensures ConcatMap(xs, f)[Offset(i, m) + j] == f(xs[i])[j]
    decreases |xs|
  {
    var n := |xs|;
    var front := xs[..n - 1];
    var head, last := ConcatMap(front, f), f(xs[n - 1]);
    assert ConcatMap(xs, f) == head + last;
    ConcatMapLength(front, f, m);
    if i < n - 1 {
      ConcatMapAt(front, f, m, i, j);
      assert front[i] == xs[i];
    }
  }

  lemma {:induction false} ConcatMapAppend<A, B>(a: seq<A>, b: seq<A>, f: A -> seq<B>)
    ensures ConcatMap(a + b, f) == ConcatMap(a, f) + ConcatMap(b, f)
    decreases |b|
  {
    if b == [] {
      assert a + b == a;
    } else {
      assert (a + b)[..|a + b| - 1] == a + b[..|b| - 1];
      ConcatMapAppend(a, b[..|b| - 1], f);
    }
  }

  /** Expanding each element to blocks and then each block element further is one expansion by the composite. */
  lemma {:induction false} ConcatMapFuse<A, B, C>(xs: seq<A>, f: A -> seq<B>, g: B -> seq<C>, h: A -> seq<C>)
    requires forall x :: h(x) == ConcatMap(f(x), g)
    ensures ConcatMap(xs, h) == ConcatMap(ConcatMap(xs, f), g)
    decreases |xs|
  {
    if xs != [] {
      var init := xs[..|xs| - 1];
      ConcatMapFuse(init, f, g, h);
      ConcatMapAppend(ConcatMap(init, f), f(xs[|xs| - 1]), g);
    }
  }
}
