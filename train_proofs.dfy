/**
 * What trainStep's forward loop and its two backward passes establish:
 * the KV cache holds every position's key and value, each position's
 * dLogits sums to zero, and the key/value weight gradients are the full
 * triangular sum of cross-position outer products.
 */
module TrainProofs {
  import opened Numeric
  import opened Tensors
  import opened Kernels
  import opened ModelMath
  import opened BackwardMath
  import opened Sums
  import opened TrainMath

  /** One step of the forward loop: forward at position p-1 over the cache so
      far, the loss against the next token, dLogits scaled by 1/n, appended. */
  lemma RunForwardStep(m: MathLib, c: Config, P: seq<Vec>, tokens: seq<nat>, n: nat, p: nat)
    requires Lawful(m) && Supported(c) && Fits(c, P) && TokensFit(c, tokens)
    requires 0 < p <= n <= c.blockSize && n < |tokens|
    ensures var prev := RunForward(m, c, P, tokens, n, p - 1);
      var f := Forward(m, c, P, tokens[p - 1], p - 1, prev.K, prev.V);
      var ce := CrossEntropy(m, f.logits, tokens[p]);
      && |f.cache.layers| == |prev.K| == |prev.V|
      && RunForward(m, c, P, tokens, n, p) == Extend(prev, f.cache, ce.0, VecScale(ce.1, 1.0 / (n as real)))
  {
  }

  /** Entry t of every layer's key and value cache is the key and value of
      the step cache of position t. */
  predicate CacheAligned(run: FwdRun)
  {
    && |run.K| == |run.V|
    && forall li, t :: 0 <= li < |run.K| && 0 <= t < |run.K[li]| ==>
      && t < |run.V[li]| && t < |run.caches| && li < |run.caches[t].layers|
      && run.K[li][t] == run.caches[t].layers[li].k && run.V[li][t] == run.caches[t].layers[li].v
  }

  lemma ExtendKeepsAligned(prev: FwdRun, sc: StepCache, loss: real, dl: Vec)
    requires CacheAligned(prev) && |sc.layers| == |prev.K| == |prev.V|
    requires forall li :: 0 <= li < |prev.K| ==> |prev.K[li]| == |prev.V[li]| == |prev.caches|
    ensures CacheAligned(Extend(prev, sc, loss, dl))
  {
    var r := Extend(prev, sc, loss, dl);
    forall li, t | 0 <= li < |r.K| && 0 <= t < |r.K[li]|
      ensures t < |r.V[li]| && t < |r.caches| && li < |r.caches[t].layers|
      ensures r.K[li][t] == r.caches[t].layers[li].k && r.V[li][t] == r.caches[t].layers[li].v
    {
      if t < |prev.caches| {
        assert r.caches[t] == prev.caches[t];
      }
    }
  }

  lemma {:induction false} AlignedStep(m: MathLib, c: Config, P: seq<Vec>, tokens: seq<nat>, n: nat, p: nat)
    requires Lawful(m) && Supported(c) && Fits(c, P) && TokensFit(c, tokens)
    requires 0 < p <= n <= c.blockSize && n < |tokens|
    ensures CacheAligned(RunForward(m, c, P, tokens, n, p))
    decreases p, 0
  {
    CacheHoldsEveryPosition(m, c, P, tokens, n, p - 1);
    var prev := RunForward(m, c, P, tokens, n, p - 1);
    forall li | 0 <= li < |prev.K| ensures |prev.K[li]| == |prev.V[li]| == |prev.caches| {
    }
    var f := Forward(m, c, P, tokens[p - 1], p - 1, prev.K, prev.V);
    var ce := CrossEntropy(m, f.logits, tokens[p]);
    RunForwardStep(m, c, P, tokens, n, p);
    ExtendKeepsAligned(prev, f.cache, ce.0, VecScale(ce.1, 1.0 / (n as real)));
  }

  /** Each forward call pushes exactly its own key and value: position t of
      every layer's cache holds what the forward call for position t computed. */
  lemma {:induction false} CacheHoldsEveryPosition(m: MathLib, c: Config, P: seq<Vec>, tokens: seq<nat>, n: nat, p: nat)
    requires Lawful(m) && Supported(c) && Fits(c, P) && TokensFit(c, tokens)
    requires p <= n <= c.blockSize && n < |tokens|
    ensures CacheAligned(RunForward(m, c, P, tokens, n, p))
    decreases p, 1
  {
    if p > 0 {
      AlignedStep(m, c, P, tokens, n, p);
    }
  }

  /** Every position's step cache records its token and its position. */
  predicate PositionsRecorded(run: FwdRun, tokens: seq<nat>)
  {
    forall j :: 0 <= j < |run.caches| ==> j < |tokens| && run.caches[j].tokenId == tokens[j] && run.caches[j].posId == j
  }

  lemma ExtendKeepsPositions(prev: FwdRun, sc: StepCache, loss: real, dl: Vec, tokens: seq<nat>)
    requires PositionsRecorded(prev, tokens) && |sc.layers| == |prev.K| == |prev.V|
    requires |prev.caches| < |tokens| && sc.tokenId == tokens[|prev.caches|] && sc.posId == |prev.caches|
    ensures PositionsRecorded(Extend(prev, sc, loss, dl), tokens)
  {
    var r := Extend(prev, sc, loss, dl);
    forall j | 0 <= j < |r.caches| ensures j < |tokens| && r.caches[j].tokenId == tokens[j] && r.caches[j].posId == j {
      if j < |prev.caches| {
        assert r.caches[j] == prev.caches[j];
      }
    }
  }

  lemma {:induction false} PositionsStep(m: MathLib, c: Config, P: seq<Vec>, tokens: seq<nat>, n: nat, p: nat)
    requires Lawful(m) && Supported(c) && Fits(c, P) && TokensFit(c, tokens)
    requires 0 < p <= n <= c.blockSize && n < |tokens|
    ensures PositionsRecorded(RunForward(m, c, P, tokens, n, p), tokens)
    decreases p, 0
  {
    ForwardPositions(m, c, P, tokens, n, p - 1);
    var prev := RunForward(m, c, P, tokens, n, p - 1);
    var f := Forward(m, c, P, tokens[p - 1], p - 1, prev.K, prev.V);
    var ce := CrossEntropy(m, f.logits, tokens[p]);
    RunForwardStep(m, c, P, tokens, n, p);
    assert |prev.caches| == p - 1;
    assert f.cache.tokenId == tokens[p - 1] && f.cache.posId == p - 1;
    ExtendKeepsPositions(prev, f.cache, ce.0, VecScale(ce.1, 1.0 / (n as real)), tokens);
  }

  /** The forward call for position j gets token j at position j. */
  lemma {:induction false} ForwardPositions(m: MathLib, c: Config, P: seq<Vec>, tokens: seq<nat>, n: nat, p: nat)
    requires Lawful(m) && Supported(c) && Fits(c, P) && TokensFit(c, tokens)
    requires p <= n <= c.blockSize && n < |tokens|
    ensures PositionsRecorded(RunForward(m, c, P, tokens, n, p), tokens)
    decreases p, 1
  {
    if p > 0 {
      PositionsStep(m, c, P, tokens, n, p);
    }
  }

  /** Every dLogits the forward loop keeps sums to zero. */
  predicate Balanced(run: FwdRun)
  {
    forall j {:trigger run.dLogits[j]} :: 0 <= j < |run.dLogits| ==> Sum(run.dLogits[j]) == 0.0
  }

  lemma ExtendKeepsBalanced(prev: FwdRun, sc: StepCache, loss: real, dl: Vec)
    requires Balanced(prev) && |sc.layers| == |prev.K| == |prev.V| && Sum(dl) == 0.0
    ensures Balanced(Extend(prev, sc, loss, dl))
  {
    var r := Extend(prev, sc, loss, dl);
    forall j | 0 <= j < |r.dLogits| ensures Sum(r.dLogits[j]) == 0.0 {
      if j < |prev.dLogits| {
        assert r.dLogits[j] == prev.dLogits[j];
      }
    }
  }

  lemma ScaledGradientBalanced(m: MathLib, logits: Vec, target: nat, scale: real)
    requires Lawful(m) && target < |logits|
    ensures Sum(VecScale(CrossEntropy(m, logits, target).1, scale)) == 0.0
  {
    CrossEntropyGradient(m, logits, target);
    SumScale(CrossEntropy(m, logits, target).1, scale);
  }

  lemma {:induction false} BalancedStep(m: MathLib, c: Config, P: seq<Vec>, tokens: seq<nat>, n: nat, p: nat)
    requires Lawful(m) && Supported(c) && Fits(c, P) && TokensFit(c, tokens)
    requires 0 < p <= n <= c.blockSize && n < |tokens|
    ensures Balanced(RunForward(m, c, P, tokens, n, p))
    decreases p, 0
  {
    GradientsSumToZero(m, c, P, tokens, n, p - 1);
    var prev := RunForward(m, c, P, tokens, n, p - 1);
    var f := Forward(m, c, P, tokens[p - 1], p - 1, prev.K, prev.V);
    var ce := CrossEntropy(m, f.logits, tokens[p]);
    ScaledGradientBalanced(m, f.logits, tokens[p], 1.0 / (n as real));
    RunForwardStep(m, c, P, tokens, n, p);
    ExtendKeepsBalanced(prev, f.cache, ce.0, VecScale(ce.1, 1.0 / (n as real)));
  }

  lemma {:induction false} GradientsSumToZero(m: MathLib, c: Config, P: seq<Vec>, tokens: seq<nat>, n: nat, p: nat)
    requires Lawful(m) && Supported(c) && Fits(c, P) && TokensFit(c, tokens)
    requires p <= n <= c.blockSize && n < |tokens|
    ensures Balanced(RunForward(m, c, P, tokens, n, p))
    decreases p, 1
  {
    if p > 0 {
      BalancedStep(m, c, P, tokens, n, p);
    }
  }

  // ------------------------------------------------ the two backward passes

  /** attnWv and attnWk are E x E. */
  lemma SideSlotSize(c: Config, li: nat, side: Side)
    requires li < c.nLayer
    ensures SideSlot(li, side) < NumParams(c.nLayer) && ParamSize(c, SideSlot(li, side)) == c.nEmbd * c.nEmbd
  {
    SlotsOfLayer(c, li);
  }

  /** Entry q of the flat outer product u x^T is u[q / |x|] * x[q % |x|]. */
  lemma OuterEntry(u: Vec, x: Vec, q: nat)
    requires q < |u| * |x|
    ensures q / |x| < |u| && q % |x| < |x| && Outer(u, x)[q] == u[q / |x|] * x[q % |x|]
  {
    DivBound(q, |u|, |x|);
  }

  lemma OuterOfZeros(n: nat, x: Vec, q: nat)
    requires q < n * |x|
    ensures Outer(Zeros(n), x)[q] == 0.0
  {
    OuterEntry(Zeros(n), x, q);
  }

  lemma OuterAddEntry(a: Vec, b: Vec, x: Vec, q: nat)
    requires |a| == |b| && q < |a| * |x|
    ensures q < |Outer(VecAdd(a, b), x)| && Outer(VecAdd(a, b), x)[q] == Outer(a, x)[q] + Outer(b, x)[q]
  {
    OuterEntry(VecAdd(a, b), x, q);
    OuterEntry(a, x, q);
    OuterEntry(b, x, q);
  }

  /** Entry q of outer(dV_pos[t], xNorm1_t) (or of dK), the contribution of
      the pair (pos, t) to attnWv (or attnWk) of layer li; 0 outside the
      triangle t <= pos < n. */
  function PairTerm(c: Config, cg: seq<BackOut>, run: FwdRun, li: nat, side: Side, q: nat, pos: nat, t: nat): real
  {
    if CrossFits(c, cg, |cg|) && RunFits(c, run, |cg|) && li < c.nLayer && t <= pos < |cg| then
      assert LayerBackFits(c, cg[pos].layers[li], pos + 1);
      assert StepCacheAttended(c, run.caches[t], t + 1);
      var o := Outer(Contribution(cg[pos].layers[li], side, t), run.caches[t].layers[li].xNorm1);
      if q < |o| then o[q] else 0.0
    else 0.0
  }

  function Pairs(c: Config, cg: seq<BackOut>, run: FwdRun, li: nat, side: Side, q: nat): (nat, nat) -> real
  {
    (pos: nat, t: nat) => PairTerm(c, cg, run, li, side, q, pos, t)
  }

  /** backward adds into attnWv (attnWk) of layer li the outer product of the
      current position's dV (dK) entry with its xNorm1. */
  lemma ApplySide(c: Config, G: seq<Vec>, sc: StepCache, b: BackOut, seqLen: nat, li: nat, side: Side, lc: LayerCache)
    requires Sized(c, G) && BackOutFits(c, b, seqLen) && li < c.nLayer && CurrentOnly(b.layers[li], lc, seqLen)
    ensures SideSlot(li, side) < |G|
    ensures var o := Outer(Contribution(b.layers[li], side, seqLen - 1), lc.xNorm1);
      |o| == |G[SideSlot(li, side)]|
      && ApplyBackward(c, G, sc, b, seqLen)[SideSlot(li, side)] == VecAdd(G[SideSlot(li, side)], o)
  {
    if side == ValueSide {
      ApplyAtValue(c, G, sc, b, seqLen, li);
    } else {
      ApplyAtKey(c, G, sc, b, seqLen, li);
    }
  }

  /** Pass 1 at position pos adds the diagonal pair (pos, pos). */
  lemma ApplyDiagonal(m: MathLib, c: Config, P: seq<Vec>, run: FwdRun, n: nat, G: seq<Vec>, pos: nat, li: nat, side: Side, q: nat)
    requires Lawful(m) && Supported(c) && Fits(c, P) && c.nLayer > 0 && RunFits(c, run, n)
    requires Sized(c, G) && pos < n && li < c.nLayer && q < c.nEmbd * c.nEmbd
    ensures SideSlot(li, side) < |G| && q < |G[SideSlot(li, side)]|
    ensures ApplyBackward(c, G, run.caches[pos], BackAt(m, c, P, run, n, pos), pos + 1)[SideSlot(li, side)][q]
         == G[SideSlot(li, side)][q] + PairTerm(c, CrossGrads(m, c, P, run, n), run, li, side, q, pos, pos)
  {
    SideSlotSize(c, li, side);
    var b := BackAt(m, c, P, run, n, pos);
    var cg := CrossGrads(m, c, P, run, n);
    assert cg[pos] == b;
    BackwardLayer(m, c, P, run.dLogits[pos], run.caches[pos], run.K, run.V, pos, li);
    ApplySide(c, G, run.caches[pos], b, pos + 1, li, side, run.caches[pos].layers[li]);
  }

  lemma {:induction false} Pass1DiagonalStep(m: MathLib, c: Config, P: seq<Vec>, run: FwdRun, n: nat, G: seq<Vec>, hi: nat, li: nat, side: Side, q: nat)
    requires Lawful(m) && Supported(c) && Fits(c, P) && c.nLayer > 0 && RunFits(c, run, n)
    requires Sized(c, G) && 0 < hi <= n && li < c.nLayer && q < c.nEmbd * c.nEmbd
    ensures SideSlot(li, side) < |G| && q < |G[SideSlot(li, side)]|
    ensures Pass1(m, c, P, run, n, G, hi)[SideSlot(li, side)][q]
         == G[SideSlot(li, side)][q] + SumOf(hi, Diagonal(Pairs(c, CrossGrads(m, c, P, run, n), run, li, side, q)))
    decreases hi, 0
  {
    SideSlotSize(c, li, side);
    var pos := hi - 1;
    var G1 := ApplyBackward(c, G, run.caches[pos], BackAt(m, c, P, run, n, pos), pos + 1);
    var d := Diagonal(Pairs(c, CrossGrads(m, c, P, run, n), run, li, side, q));
    var k := SideSlot(li, side);
    Pass1Peel(m, c, P, run, n, G, hi);
    Pass1Diagonal(m, c, P, run, n, G1, pos, li, side, q);
    DiagonalAt(m, c, P, run, n, G, pos, li, side, q);
    assert Pass1(m, c, P, run, n, G, hi)[k][q] == G1[k][q] + SumOf(pos, d);
    assert SumOf(hi, d) == SumOf(pos, d) + d(pos);
  }

  /** ApplyDiagonal, with the pair written as the diagonal's term. */
  lemma DiagonalAt(m: MathLib, c: Config, P: seq<Vec>, run: FwdRun, n: nat, G: seq<Vec>, pos: nat, li: nat, side: Side, q: nat)
    requires Lawful(m) && Supported(c) && Fits(c, P) && c.nLayer > 0 && RunFits(c, run, n)
    requires Sized(c, G) && pos < n && li < c.nLayer && q < c.nEmbd * c.nEmbd
    ensures SideSlot(li, side) < |G| && q < |G[SideSlot(li, side)]|
    ensures ApplyBackward(c, G, run.caches[pos], BackAt(m, c, P, run, n, pos), pos + 1)[SideSlot(li, side)][q]
         == G[SideSlot(li, side)][q] + Diagonal(Pairs(c, CrossGrads(m, c, P, run, n), run, li, side, q))(pos)
  {
    ApplyDiagonal(m, c, P, run, n, G, pos, li, side, q);
  }

  /** Pass 1 runs backward at position hi-1 first. */
  lemma Pass1Peel(m: MathLib, c: Config, P: seq<Vec>, run: FwdRun, n: nat, G: seq<Vec>, hi: nat)
    requires Lawful(m) && Supported(c) && Fits(c, P) && c.nLayer > 0 && RunFits(c, run, n)
    requires Sized(c, G) && 0 < hi <= n
    ensures Pass1(m, c, P, run, n, G, hi)
         == Pass1(m, c, P, run, n, ApplyBackward(c, G, run.caches[hi - 1], BackAt(m, c, P, run, n, hi - 1), hi), hi - 1)
  {
  }

  /** Pass 1 over positions hi-1 .. 0 adds the diagonal pairs (pos, pos), pos < hi. */
  lemma {:induction false} Pass1Diagonal(m: MathLib, c: Config, P: seq<Vec>, run: FwdRun, n: nat, G: seq<Vec>, hi: nat, li: nat, side: Side, q: nat)
    requires Lawful(m) && Supported(c) && Fits(c, P) && c.nLayer > 0 && RunFits(c, run, n)
    requires Sized(c, G) && hi <= n && li < c.nLayer && q < c.nEmbd * c.nEmbd
    ensures SideSlot(li, side) < |G| && q < |G[SideSlot(li, side)]|
    ensures Pass1(m, c, P, run, n, G, hi)[SideSlot(li, side)][q]
         == G[SideSlot(li, side)][q] + SumOf(hi, Diagonal(Pairs(c, CrossGrads(m, c, P, run, n), run, li, side, q)))
    decreases hi, 1
  {
    SideSlotSize(c, li, side);
    if hi > 0 {
      Pass1DiagonalStep(m, c, P, run, n, G, hi, li, side, q);
    }
  }

  /** Entry q of outer(totalDV, xNorm1_t) (or totalDK) is the sum of the pairs
      (pos, t) over the positions t+1 .. hi-1 it has gathered. */
  lemma {:induction false} OuterTotal(c: Config, cg: seq<BackOut>, run: FwdRun, side: Side, li: nat, t: nat, hi: nat, q: nat)
    requires CrossFits(c, cg, |cg|) && RunFits(c, run, |cg|) && li < c.nLayer && hi <= |cg| && t < |cg|
    requires q < c.nEmbd * c.nEmbd
    ensures StepCacheAttended(c, run.caches[t], t + 1)
    ensures var o := Outer(Total(c, cg, side, li, t, hi), run.caches[t].layers[li].xNorm1);
      q < |o| && o[q] == RangeSum(t + 1, hi, ColumnOf(Pairs(c, cg, run, li, side, q), t))
    decreases hi, 1
  {
    assert StepCacheAttended(c, run.caches[t], t + 1);
    if hi <= t + 1 {
      var x := run.caches[t].layers[li].xNorm1;
      assert LayerCacheFits(c, run.caches[t].layers[li], t + 1);
      assert |x| == c.nEmbd;
      OuterOfZeros(c.nEmbd, x, q);
    } else {
      OuterTotalStep(c, cg, run, side, li, t, hi, q);
    }
  }

  lemma {:induction false} OuterTotalStep(c: Config, cg: seq<BackOut>, run: FwdRun, side: Side, li: nat, t: nat, hi: nat, q: nat)
    requires CrossFits(c, cg, |cg|) && RunFits(c, run, |cg|) && li < c.nLayer && t + 1 < hi <= |cg|
    requires q < c.nEmbd * c.nEmbd
    ensures StepCacheAttended(c, run.caches[t], t + 1)
    ensures var o := Outer(Total(c, cg, side, li, t, hi), run.caches[t].layers[li].xNorm1);
      q < |o| && o[q] == RangeSum(t + 1, hi, ColumnOf(Pairs(c, cg, run, li, side, q), t))
    decreases hi, 0
  {
    assert StepCacheAttended(c, run.caches[t], t + 1);
    var x := run.caches[t].layers[li].xNorm1;
    assert LayerCacheFits(c, run.caches[t].layers[li], t + 1);
    var T := Total(c, cg, side, li, t, hi);
    assert |x| == c.nEmbd && |T| == c.nEmbd;
    var F := ColumnOf(Pairs(c, cg, run, li, side, q), t);
    OuterTotal(c, cg, run, side, li, t, hi - 1, q);
    var a := Total(c, cg, side, li, t, hi - 1);
    assert LayerBackFits(c, cg[hi - 1].layers[li], hi);
    var b := Contribution(cg[hi - 1].layers[li], side, t);
    assert T == VecAdd(a, b);
    OuterAddEntry(a, b, x, q);
    assert F(hi - 1) == Outer(b, x)[q];
    RangeSumLast(t + 1, hi, F);
  }

  /** The pass-2 iteration (li, t) adds the pairs (pos, t), t < pos < n, into
      attnWv (attnWk). */
  lemma Pass2CellSide(c: Config, G: seq<Vec>, cg: seq<BackOut>, run: FwdRun, li: nat, t: nat, side: Side, q: nat)
    requires Sized(c, G) && CrossFits(c, cg, |cg|) && RunFits(c, run, |cg|) && li < c.nLayer && t < |cg|
    requires q < c.nEmbd * c.nEmbd
    ensures SideSlot(li, side) < |G| && q < |G[SideSlot(li, side)]|
    ensures Pass2Cell(c, G, cg, run, li, t)[SideSlot(li, side)][q]
         == G[SideSlot(li, side)][q] + BelowDiagonal(Pairs(c, cg, run, li, side, q), |cg|)(t)
  {
    SideSlotSize(c, li, side);
    if t + 1 < |cg| {
      OuterTotal(c, cg, run, side, li, t, |cg|, q);
    }
  }

  /** The pass-2 iteration (li, t) changes attnWv and attnWk of layer li only. */
  lemma Pass2CellFrame(c: Config, G: seq<Vec>, cg: seq<BackOut>, run: FwdRun, li: nat, t: nat, k: nat)
    requires Sized(c, G) && CrossFits(c, cg, |cg|) && RunFits(c, run, |cg|) && li < c.nLayer && t < |cg|
    requires k < |G| && k != Slot(li, 1) && k != Slot(li, 2)
    ensures Pass2Cell(c, G, cg, run, li, t)[k] == G[k]
  {
  }

  lemma {:induction false} Pass2RowSide(c: Config, G: seq<Vec>, cg: seq<BackOut>, run: FwdRun, li: nat, tc: nat, side: Side, q: nat)
    requires Sized(c, G) && CrossFits(c, cg, |cg|) && RunFits(c, run, |cg|) && li < c.nLayer && tc <= |cg|
    requires q < c.nEmbd * c.nEmbd
    ensures SideSlot(li, side) < |G| && q < |G[SideSlot(li, side)]|
    ensures Pass2Row(c, G, cg, run, li, tc)[SideSlot(li, side)][q]
         == G[SideSlot(li, side)][q] + SumOf(tc, BelowDiagonal(Pairs(c, cg, run, li, side, q), |cg|))
    decreases tc, 1
  {
    SideSlotSize(c, li, side);
    if tc > 0 {
      Pass2RowSideStep(c, G, cg, run, li, tc, side, q);
    }
  }

  lemma {:induction false} Pass2RowSideStep(c: Config, G: seq<Vec>, cg: seq<BackOut>, run: FwdRun, li: nat, tc: nat, side: Side, q: nat)
    requires Sized(c, G) && CrossFits(c, cg, |cg|) && RunFits(c, run, |cg|) && li < c.nLayer && 0 < tc <= |cg|
    requires q < c.nEmbd * c.nEmbd
    ensures SideSlot(li, side) < |G| && q < |G[SideSlot(li, side)]|
    ensures Pass2Row(c, G, cg, run, li, tc)[SideSlot(li, side)][q]
         == G[SideSlot(li, side)][q] + SumOf(tc, BelowDiagonal(Pairs(c, cg, run, li, side, q), |cg|))
    decreases tc, 0
  {
    SideSlotSize(c, li, side);
    Pass2RowSide(c, G, cg, run, li, tc - 1, side, q);
    var G1 := Pass2Row(c, G, cg, run, li, tc - 1);
    var F := BelowDiagonal(Pairs(c, cg, run, li, side, q), |cg|);
    Pass2CellSide(c, G1, cg, run, li, tc - 1, side, q);
    assert Pass2Row(c, G, cg, run, li, tc) == Pass2Cell(c, G1, cg, run, li, tc - 1);
  }

  lemma {:induction false} Pass2RowFrame(c: Config, G: seq<Vec>, cg: seq<BackOut>, run: FwdRun, li: nat, tc: nat, k: nat)
    requires Sized(c, G) && CrossFits(c, cg, |cg|) && RunFits(c, run, |cg|) && li < c.nLayer && tc <= |cg|
    requires k < |G| && k != Slot(li, 1) && k != Slot(li, 2)
    ensures Pass2Row(c, G, cg, run, li, tc)[k] == G[k]
    decreases tc
  {
    if tc > 0 {
      Pass2RowFrame(c, G, cg, run, li, tc - 1, k);
      Pass2CellFrame(c, Pass2Row(c, G, cg, run, li, tc - 1), cg, run, li, tc - 1, k);
    }
  }

  /** Pass 2 over layers 0 .. lc-1 adds, into attnWv (attnWk) of every layer
      li < lc, the pairs (pos, t) with t < pos, grouped by t. */
  lemma {:induction false} Pass2Side(c: Config, G: seq<Vec>, cg: seq<BackOut>, run: FwdRun, lc: nat, li: nat, side: Side, q: nat)
    requires Sized(c, G) && CrossFits(c, cg, |cg|) && RunFits(c, run, |cg|) && lc <= c.nLayer && li < c.nLayer
    requires q < c.nEmbd * c.nEmbd
    ensures SideSlot(li, side) < |G| && q < |G[SideSlot(li, side)]|
    ensures Pass2(c, G, cg, run, lc)[SideSlot(li, side)][q]
         == G[SideSlot(li, side)][q] + (if li < lc then SumOf(|cg|, BelowDiagonal(Pairs(c, cg, run, li, side, q), |cg|)) else 0.0)
    decreases lc, 1
  {
    SideSlotSize(c, li, side);
    if lc > 0 {
      Pass2SideStep(c, G, cg, run, lc, li, side, q);
    }
  }

  lemma {:induction false} Pass2SideStep(c: Config, G: seq<Vec>, cg: seq<BackOut>, run: FwdRun, lc: nat, li: nat, side: Side, q: nat)
    requires Sized(c, G) && CrossFits(c, cg, |cg|) && RunFits(c, run, |cg|) && 0 < lc <= c.nLayer && li < c.nLayer
    requires q < c.nEmbd * c.nEmbd
    ensures SideSlot(li, side) < |G| && q < |G[SideSlot(li, side)]|
    ensures Pass2(c, G, cg, run, lc)[SideSlot(li, side)][q]
         == G[SideSlot(li, side)][q] + (if li < lc then SumOf(|cg|, BelowDiagonal(Pairs(c, cg, run, li, side, q), |cg|)) else 0.0)
    decreases lc, 0
  {
    SideSlotSize(c, li, side);
    Pass2Side(c, G, cg, run, lc - 1, li, side, q);
    var G1 := Pass2(c, G, cg, run, lc - 1);
    var sum := SumOf(|cg|, BelowDiagonal(Pairs(c, cg, run, li, side, q), |cg|));
    Pass2LayerSide(c, G1, cg, run, lc - 1, li, side, q, G[SideSlot(li, side)][q], sum);
  }

  /** The row of pass 2 for layer l adds the pairs of its own attnWv
      (attnWk) and leaves those of the other layers. */
  lemma Pass2LayerSide(c: Config, G1: seq<Vec>, cg: seq<BackOut>, run: FwdRun, l: nat, li: nat, side: Side, q: nat,
                       g: real, sum: real)
    requires Sized(c, G1) && CrossFits(c, cg, |cg|) && RunFits(c, run, |cg|) && l < c.nLayer && li < c.nLayer
    requires q < c.nEmbd * c.nEmbd && SideSlot(li, side) < |G1| && q < |G1[SideSlot(li, side)]|
    requires sum == SumOf(|cg|, BelowDiagonal(Pairs(c, cg, run, li, side, q), |cg|))
    requires G1[SideSlot(li, side)][q] == g + (if li < l then sum else 0.0)
    ensures Pass2Row(c, G1, cg, run, l, |cg|)[SideSlot(li, side)][q] == g + (if li < l + 1 then sum else 0.0)
  {
    if li == l {
      Pass2RowSide(c, G1, cg, run, li, |cg|, side, q);
    } else {
      Pass2RowFrame(c, G1, cg, run, l, |cg|, SideSlot(li, side));
    }
  }

  /** attnWk or attnWv of one of the layers 0 .. lc-1. */
  predicate KeyOrValueSlot(k: nat, lc: nat)
  {
    3 <= k && (k - 3) / 6 < lc && ((k - 3) % 6 == 1 || (k - 3) % 6 == 2)
  }

  /** Pass 2 leaves every parameter but attnWk and attnWv alone. */
  lemma {:induction false} Pass2Frame(c: Config, G: seq<Vec>, cg: seq<BackOut>, run: FwdRun, lc: nat, k: nat)
    requires Sized(c, G) && CrossFits(c, cg, |cg|) && RunFits(c, run, |cg|) && lc <= c.nLayer
    requires k < |G| && !KeyOrValueSlot(k, lc)
    ensures Pass2(c, G, cg, run, lc)[k] == G[k]
    decreases lc
  {
    if lc > 0 {
      Pass2Frame(c, G, cg, run, lc - 1, k);
      SlotInverse(lc - 1, 1);
      SlotInverse(lc - 1, 2);
      Pass2RowFrame(c, Pass2(c, G, cg, run, lc - 1), cg, run, lc - 1, |cg|, k);
    }
  }

  /** The central claim of trainStep: the diagonal pairs of pass 1 and the
      later positions summed in pass 2 together give attnWv (attnWk) of every
      layer the sum, over every position pos of the window and every t <= pos,
      of outer(dV_pos[t], xNorm1_t) (outer(dK_pos[t], xNorm1_t)). */
  lemma TrainStepKeyValueGradients(m: MathLib, c: Config, P: seq<Vec>, tokens: seq<nat>, li: nat, side: Side, q: nat)
    requires TrainPre(m, c, P, tokens) && li < c.nLayer && q < c.nEmbd * c.nEmbd
    ensures SideSlot(li, side) < NumParams(c.nLayer) && ParamSize(c, SideSlot(li, side)) == c.nEmbd * c.nEmbd
    ensures var n, run := Window(c, tokens), TrainRun(m, c, P, tokens);
      TrainGrads(m, c, P, tokens)[SideSlot(li, side)][q]
      == SumOf(n, TriangleRow(Pairs(c, CrossGrads(m, c, P, run, n), run, li, side, q)))
  {
    SideSlotSize(c, li, side);
    var n, run := Window(c, tokens), TrainRun(m, c, P, tokens);
    var cg := CrossGrads(m, c, P, run, n);
    var G0 := ZeroGrads(c);
    var G1 := Pass1(m, c, P, run, n, G0, n);
    Pass1Diagonal(m, c, P, run, n, G0, n, li, side, q);
    Pass2Side(c, G1, cg, run, c.nLayer, li, side, q);
    TriangleSplit(n, Pairs(c, cg, run, li, side, q));
  }

  /** Every other parameter's gradient is pass 1's alone. */
  lemma TrainStepOtherGradients(m: MathLib, c: Config, P: seq<Vec>, tokens: seq<nat>, k: nat)
    requires TrainPre(m, c, P, tokens) && k < NumParams(c.nLayer) && !KeyOrValueSlot(k, c.nLayer)
    ensures var n, run := Window(c, tokens), TrainRun(m, c, P, tokens);
      TrainGrads(m, c, P, tokens)[k] == Pass1(m, c, P, run, n, ZeroGrads(c), n)[k]
  {
    var n, run := Window(c, tokens), TrainRun(m, c, P, tokens);
    Pass2Frame(c, Pass1(m, c, P, run, n, ZeroGrads(c), n), CrossGrads(m, c, P, run, n), run, c.nLayer, k);
  }
}
