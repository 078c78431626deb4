/** The index arithmetic of `get_train_batch`: Python slicing of the
    training sample and the batches served between two reshuffles. */
module BatchCursor {
  import opened Sampling

  function Min(a: nat, b: nat): nat {
    if a <= b then a else b
  }

  /** Python `s[lo:hi]` for non-negative bounds: both ends are clamped to
      the length, and an empty range gives an empty slice. */
  function Slice<T>(s: seq<T>, lo: nat, hi: nat): seq<T> {
    var a, b := Min(lo, |s|), Min(hi, |s|);
    if a < b then s[a..b] else []
  }

  /** The batch taken at pointer `p` holds the next records of the sample,
      never more than `ipw` of them, and none once `p` has reached the end. */
  lemma BatchBounds<T>(s: seq<T>, p: nat, ipw: nat)
    ensures |Slice(s, p, p + ipw)| <= ipw
    ensures p >= |s| ==> Slice(s, p, p + ipw) == []
    ensures p <= |s| ==> Slice(s, p, p + ipw) == s[p..Min(p + ipw, |s|)]
    ensures p + ipw <= |s| ==> |Slice(s, p, p + ipw)| == ipw
  {
  }

  /** The batches successive calls return, starting at pointer `p`, up to
      and including the call whose advance passes the end of the sample
      (the call that reshuffles). */
  function PassBatches<T>(s: seq<T>, p: nat, ipw: nat): seq<seq<T>>
    requires 0 < ipw && p <= |s|
    decreases |s| - p
  {
    var batch := Slice(s, p, p + ipw);
    if p + ipw > |s| then [batch] else [batch] + PassBatches(s, p + ipw, ipw)
  }

  lemma DivModStep(x: nat, d: nat)
    requires 0 < d
    ensures (x + d) / d == x / d + 1 && (x + d) % d == x % d
  {
    var q, r := x / d, x % d;
    assert x == q * d + r;
    var q', r' := (x + d) / d, (x + d) % d;
    assert x + d == q' * d + r';
    assert (q + 1 - q') * d == r' - r;
    MultipleInsideZero(q + 1 - q', d);
  }

  lemma MultipleInsideZero(k: int, d: int)
    requires 0 < d && -d < k * d < d
    ensures k == 0
  {
    if k > 0 {
      MulMonotone(k - 1, d);
    }
  }

  lemma MulMonotone(a: nat, d: nat)
    ensures (a + 1) * d >= d
  {
    assert (a + 1) * d == a * d + d;
  }

  lemma DivModSmall(x: nat, d: nat)
    requires x < d
    ensures x / d == 0 && x % d == x
  {
  }

  /** Between two reshuffles the batches cover the rest of the sample
      exactly once, in order. */
  lemma {:induction false} PassCovers<T>(s: seq<T>, p: nat, ipw: nat)
    requires 0 < ipw && p <= |s|
    ensures Flatten(PassBatches(s, p, ipw)) == s[p..]
    decreases |s| - p
  {
    var batch := Slice(s, p, p + ipw);
    BatchBounds(s, p, ipw);
    if p + ipw > |s| {
      FlattenCons(batch, []);
      assert [batch] + [] == [batch];
    } else {
      PassCovers(s, p + ipw, ipw);
      FlattenCons(batch, PassBatches(s, p + ipw, ipw));
      assert s[p..] == s[p..p + ipw] + s[p + ipw..];
    }
  }

  /** There are (remaining / ipw) + 1 batches; all but the last are full and
      the last holds the remainder. */
  lemma {:induction false} PassSizes<T>(s: seq<T>, p: nat, ipw: nat)
    requires 0 < ipw && p <= |s|
    ensures |PassBatches(s, p, ipw)| == (|s| - p) / ipw + 1
    ensures forall i :: 0 <= i < |PassBatches(s, p, ipw)| - 1 ==> |PassBatches(s, p, ipw)[i]| == ipw
    ensures |PassBatches(s, p, ipw)[|PassBatches(s, p, ipw)| - 1]| == (|s| - p) % ipw
    decreases |s| - p
  {
    BatchBounds(s, p, ipw);
    if p + ipw > |s| {
      DivModSmall(|s| - p, ipw);
    } else {
      var rest := PassBatches(s, p + ipw, ipw);
      PassSizes(s, p + ipw, ipw);
      DivModStep(|s| - p - ipw, ipw);
      assert PassBatches(s, p, ipw) == [Slice(s, p, p + ipw)] + rest;
    }
  }

  /** The case worth knowing: when the remaining length is a multiple of
      `ipw`, the call made with the pointer at the end of the sample returns
      an empty batch, and only that call reshuffles. */
  lemma EmptyBatchBeforeReshuffle<T>(s: seq<T>, p: nat, ipw: nat)
    requires 0 < ipw && p <= |s|
    ensures var b := PassBatches(s, p, ipw);
      b[|b| - 1] == [] <==> (|s| - p) % ipw == 0
  {
    PassSizes(s, p, ipw);
  }

  /** With zero images per worker the pointer never moves, every batch is
      empty and the sample is never redrawn. */
  lemma ZeroImagesPerWorker<T>(s: seq<T>, p: nat)
    requires p <= |s|
    ensures Slice(s, p, p + 0) == [] && !(p + 0 > |s|)
  {
  }
}
