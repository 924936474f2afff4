/** Sequence helpers shared by the model: concatenating a sequence of
    sequences, and cutting a sequence into consecutive batches the way
    `for i in range(0, len(s), n): s[i:i + n]` visits it. */
module Seqs {

  function Min(a: int, b: int): int
  {
    if a <= b then a else b
  }

  /** Every element of `ss`, in order. */
  function Flatten<T>(ss: seq<seq<T>>): seq<T>
  {
    if ss == [] then [] else ss[0] + Flatten(ss[1..])
  }

  lemma {:induction false} FlattenAppend<T>(a: seq<seq<T>>, b: seq<seq<T>>)
    ensures Flatten(a + b) == Flatten(a) + Flatten(b)
  {
    if a == [] {
      assert a + b == b;
    } else {
      assert (a + b)[1..] == a[1..] + b;
      FlattenAppend(a[1..], b);
    }
  }

  /** `s` cut into consecutive batches of `n` elements; only the last may be shorter. */
  function Batches<T>(s: seq<T>, n: nat): seq<seq<T>>
    requires n > 0
    decreases |s|
  {
    if s == [] then []
    else if |s| <= n then [s]
    else [s[..n]] + Batches(s[n..], n)
  }

  /** The batches put back together give the whole sequence. */
  lemma {:induction false} FlattenBatches<T>(s: seq<T>, n: nat)
    requires n > 0
    ensures Flatten(Batches(s, n)) == s
  {
    if s == [] {
    } else if |s| <= n {
      assert Flatten([s]) == s + Flatten([s][1..]);
    } else {
      var rest := Batches(s[n..], n);
      FlattenBatches(s[n..], n);
      assert ([s[..n]] + rest)[1..] == rest;
      assert s[..n] + s[n..] == s;
    }
  }

  /** There are just enough batches for `s`, and each holds between 1 and `n` elements. */
  lemma {:induction false} BatchesCount<T>(s: seq<T>, n: nat)
    requires n > 0
    ensures (|Batches(s, n)| - 1) * n < |s| <= |Batches(s, n)| * n
    ensures forall k :: 0 <= k < |Batches(s, n)| ==> 0 < |Batches(s, n)[k]| <= n
  {
    if s == [] || |s| <= n {
    } else {
      var rest := Batches(s[n..], n);
      BatchesCount(s[n..], n);
      assert Batches(s, n) == [s[..n]] + rest;
      assert (|rest| - 1) * n < |s| - n <= |rest| * n;
      assert |rest| * n + n == (|rest| + 1) * n;
      forall k | 0 <= k < |Batches(s, n)|
        ensures 0 < |Batches(s, n)[k]| <= n
      {
        if k > 0 {
          assert Batches(s, n)[k] == rest[k - 1];
        }
      }
    }
  }

  lemma MulPred(k: int, n: int)
    ensures (k - 1) * n + n == k * n
  {
  }

  /** Batch `k` is the slice `s[k*n : k*n + n]`, cut short at the end of `s`. */
  lemma {:induction false} BatchAt<T>(s: seq<T>, n: nat, k: nat)
    requires n > 0
    requires k < |Batches(s, n)|
    ensures k * n < |s|
    ensures Batches(s, n)[k] == s[k * n .. Min(k * n + n, |s|)]
  {
    if |s| <= n {
    } else if k == 0 {
    } else {
      var rest := Batches(s[n..], n);
      assert Batches(s, n) == [s[..n]] + rest;
      assert Batches(s, n)[k] == rest[k - 1];
      BatchAt(s[n..], n, k - 1);
      var lo := (k - 1) * n;
      MulPred(k, n);
      var hi := Min(lo + n, |s| - n);
      assert hi + n == Min(k * n + n, |s|);
      SliceOfSuffix(s, n, lo, hi);
    }
  }

  /** A slice of the suffix after n is the slice of the whole shifted by n. */
  lemma SliceOfSuffix<T>(s: seq<T>, n: nat, lo: nat, hi: nat)
    requires n <= |s| && lo <= hi <= |s| - n
    ensures s[n..][lo .. hi] == s[lo + n .. hi + n]
  {
  }

  /** The first k + 1 batches are the first k followed by the batch starting at i == k * n. */
  lemma BatchesPrefix<T>(s: seq<T>, n: nat, k: nat, i: nat)
    requires n > 0 && i == k * n
    requires k < |Batches(s, n)|
    ensures i < |s|
    ensures Batches(s, n)[..k + 1] == Batches(s, n)[..k] + [s[i .. Min(i + n, |s|)]]
  {
    BatchAt(s, n, k);
    var b := Batches(s, n);
    assert b[..k + 1] == b[..k] + [b[k]];
  }
}
