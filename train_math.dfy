/**
 * What `trainStep(model, tokens)` computes: the forward pass over the window,
 * the mean loss, and the gradients left by the two backward passes.
 */
module TrainMath {
  import opened Numeric
  import opened Tensors
  import opened Kernels
  import opened ModelMath
  import opened BackwardMath
  import opened Sums

  /** Every token is an index into the vocabulary. */
  predicate TokensFit(c: Config, tokens: seq<nat>)
  {
    forall i :: 0 <= i < |tokens| ==> tokens[i] < c.vocabSize
  }

  /** What trainStep needs: at least one layer, one position and two tokens. */
  ghost predicate TrainPre(m: MathLib, c: Config, P: seq<Vec>, tokens: seq<nat>)
  {
    && Lawful(m) && Supported(c) && Fits(c, P) && c.nLayer > 0 && c.blockSize > 0
    && |tokens| >= 2 && TokensFit(c, tokens)
  }

  /** `Math.min(blockSize, tokens.length - 1)`: the number of predicted positions. */
  function Window(c: Config, tokens: seq<nat>): (n: nat)
    requires c.blockSize > 0 && |tokens| >= 2
    ensures 0 < n <= c.blockSize && n < |tokens|
  {
    MinInt(c.blockSize, |tokens| - 1)
  }

  function EmptyKV(nLayer: nat): (r: seq<seq<Vec>>)
    ensures |r| == nLayer && forall li :: 0 <= li < nLayer ==> r[li] == []
  {
    seq(nLayer, _ => [])
  }

  /** The state of the forward loop: the caches, and per position the step
      cache, the loss and the scaled dLogits. */
  datatype FwdRun = FwdRun(K: seq<seq<Vec>>, V: seq<seq<Vec>>, caches: seq<StepCache>, losses: seq<real>, dLogits: seq<Vec>)

  predicate RunFits(c: Config, run: FwdRun, p: nat)
  {
    && KVFits(c, run.K, run.V) && (forall li :: 0 <= li < c.nLayer ==> |run.K[li]| == p)
    && |run.caches| == p && |run.losses| == p && |run.dLogits| == p
    && forall j :: 0 <= j < p ==> StepCacheAttended(c, run.caches[j], j + 1) && |run.dLogits[j]| == c.vocabSize
  }

  /** A step cache produced with p cached positions in every layer attended over p + 1. */
  lemma AttendedAfterForward(c: Config, sc: StepCache, K: seq<seq<Vec>>, p: nat)
    requires |K| == c.nLayer && forall li :: 0 <= li < c.nLayer ==> |K[li]| == p
    requires StepCacheFits(c, sc, seq(c.nLayer, li requires 0 <= li < c.nLayer => |K[li]| + 1))
    ensures StepCacheAttended(c, sc, p + 1)
  {
    var lens := seq(c.nLayer, li requires 0 <= li < c.nLayer => |K[li]| + 1);
    forall li | 0 <= li < c.nLayer ensures LayerCacheFits(c, sc.layers[li], p + 1) {
      assert lens[li] == p + 1;
    }
  }

  /** The forward loop's state after one more position: the step's keys and
      values pushed onto the cache, its cache, loss and dLogits appended. */
  function Extend(run: FwdRun, sc: StepCache, loss: real, dl: Vec): FwdRun
    requires |sc.layers| == |run.K| == |run.V|
  {
    FwdRun(PushKeys(run.K, sc), PushValues(run.V, sc), run.caches + [sc], run.losses + [loss], run.dLogits + [dl])
  }

  lemma ExtendKeepsFit(c: Config, prev: FwdRun, sc: StepCache, loss: real, dl: Vec, p: nat)
    requires RunFits(c, prev, p) && |dl| == c.vocabSize
    requires StepCacheFits(c, sc, seq(c.nLayer, li requires 0 <= li < c.nLayer => |prev.K[li]| + 1))
    ensures |sc.layers| == |prev.K| == |prev.V|
    ensures RunFits(c, Extend(prev, sc, loss, dl), p + 1)
  {
    var lens := seq(c.nLayer, li requires 0 <= li < c.nLayer => |prev.K[li]| + 1);
    PushKeepsFit(c, prev.K, prev.V, sc, lens);
    AttendedAfterForward(c, sc, prev.K, p);
    var r := Extend(prev, sc, loss, dl);
    forall j | 0 <= j < p + 1 ensures StepCacheAttended(c, r.caches[j], j + 1) && |r.dLogits[j]| == c.vocabSize {
      if j < p {
        assert r.caches[j] == prev.caches[j] && r.dLogits[j] == prev.dLogits[j];
      }
    }
  }

  /** The forward loop after positions 0 .. p-1 of a window of n positions. */
  function RunForward(m: MathLib, c: Config, P: seq<Vec>, tokens: seq<nat>, n: nat, p: nat): (r: FwdRun)
    requires Lawful(m) && Supported(c) && Fits(c, P) && TokensFit(c, tokens)
    requires p <= n <= c.blockSize && n < |tokens|
    ensures RunFits(c, r, p)
    decreases p
  {
    if p == 0 then FwdRun(EmptyKV(c.nLayer), EmptyKV(c.nLayer), [], [], [])
    else PositionStep(m, c, P, tokens, n, RunForward(m, c, P, tokens, n, p - 1), p - 1)
  }

  /** One turn of the forward loop at position p: forward on token p, the
      cross-entropy against token p+1, dLogits scaled by 1/n. */
  function PositionStep(m: MathLib, c: Config, P: seq<Vec>, tokens: seq<nat>, n: nat, prev: FwdRun, p: nat): (r: FwdRun)
    requires Lawful(m) && Supported(c) && Fits(c, P) && TokensFit(c, tokens)
    requires p < n <= c.blockSize && n < |tokens| && RunFits(c, prev, p)
    ensures RunFits(c, r, p + 1)
  {
    var f := Forward(m, c, P, tokens[p], p, prev.K, prev.V);
    var ce := CrossEntropy(m, f.logits, tokens[p + 1]);
    var dl := VecScale(ce.1, 1.0 / (n as real));
    ExtendKeepsFit(c, prev, f.cache, ce.0, dl, p);
    Extend(prev, f.cache, ce.0, dl)
  }

  /** backward at position pos of the finished forward loop. */
  function BackAt(m: MathLib, c: Config, P: seq<Vec>, run: FwdRun, n: nat, pos: nat): (b: BackOut)
    requires Lawful(m) && Supported(c) && Fits(c, P) && c.nLayer > 0 && RunFits(c, run, n) && pos < n
    ensures BackOutFits(c, b, pos + 1)
  {
    Backward(m, c, P, run.dLogits[pos], run.caches[pos], run.K, run.V, pos)
  }

  /** Pass 1: backward at positions hi-1, hi-2, ..., 0, in that order. */
  function Pass1(m: MathLib, c: Config, P: seq<Vec>, run: FwdRun, n: nat, G: seq<Vec>, hi: nat): (r: seq<Vec>)
    requires Lawful(m) && Supported(c) && Fits(c, P) && c.nLayer > 0 && RunFits(c, run, n)
    requires Sized(c, G) && hi <= n
    ensures Sized(c, r)
    decreases hi
  {
    if hi == 0 then G
    else
      var pos := hi - 1;
      Pass1(m, c, P, run, n, ApplyBackward(c, G, run.caches[pos], BackAt(m, c, P, run, n, pos), pos + 1), pos)
  }

  /** `allCrossGrads`: backward's result at every position. */
  function CrossGrads(m: MathLib, c: Config, P: seq<Vec>, run: FwdRun, n: nat): (cg: seq<BackOut>)
    requires Lawful(m) && Supported(c) && Fits(c, P) && c.nLayer > 0 && RunFits(c, run, n)
    ensures CrossFits(c, cg, n)
  {
    seq(n, pos requires 0 <= pos < n => BackAt(m, c, P, run, n, pos))
  }

  predicate CrossFits(c: Config, cg: seq<BackOut>, n: nat)
  {
    |cg| == n && forall pos :: 0 <= pos < n ==> BackOutFits(c, cg[pos], pos + 1)
  }

  /** Which of attnWv (dV) and attnWk (dK) a contribution belongs to. */
  datatype Side = ValueSide | KeySide

  function SideSlot(li: nat, side: Side): nat
  {
    if side == ValueSide then Slot(li, 2) else Slot(li, 1)
  }

  /** dV[t] or dK[t] of one layer's backward. */
  function Contribution(lb: LayerBack, side: Side, t: nat): Vec
    requires t < |lb.dV| && t < |lb.dK|
  {
    if side == ValueSide then lb.dV[t] else lb.dK[t]
  }

  /** `totalDV` (or `totalDK`) of position t after the positions t+1 .. hi-1. */
  function Total(c: Config, cg: seq<BackOut>, side: Side, li: nat, t: nat, hi: nat): (r: Vec)
    requires CrossFits(c, cg, |cg|) && li < c.nLayer && hi <= |cg|
    ensures |r| == c.nEmbd
  {
    if hi <= t + 1 then Zeros(c.nEmbd)
    else
      var lb := cg[hi - 1].layers[li];
      assert LayerBackFits(c, lb, hi);
      VecAdd(Total(c, cg, side, li, t, hi - 1), Contribution(lb, side, t))
  }

  /** One (li, t) iteration of pass 2: with contributions from later
      positions, their sums go through position t's xNorm1 into attnWv and
      attnWk. */
  function Pass2Cell(c: Config, G: seq<Vec>, cg: seq<BackOut>, run: FwdRun, li: nat, t: nat): (r: seq<Vec>)
    requires Sized(c, G) && CrossFits(c, cg, |cg|) && RunFits(c, run, |cg|) && li < c.nLayer && t < |cg|
    ensures Sized(c, r)
  {
    var n := |cg|;
    if t + 1 < n then
      var x := run.caches[t].layers[li].xNorm1;
      assert StepCacheAttended(c, run.caches[t], t + 1);
      assert LayerCacheFits(c, run.caches[t].layers[li], t + 1);
      SlotsOfLayer(c, li);
      var G1 := G[Slot(li, 2) := VecAdd(G[Slot(li, 2)], Outer(Total(c, cg, ValueSide, li, t, n), x))];
      G1[Slot(li, 1) := VecAdd(G1[Slot(li, 1)], Outer(Total(c, cg, KeySide, li, t, n), x))]
    else G
  }

  /** Positions 0 .. tc-1 of layer li in pass 2. */
  function Pass2Row(c: Config, G: seq<Vec>, cg: seq<BackOut>, run: FwdRun, li: nat, tc: nat): (r: seq<Vec>)
    requires Sized(c, G) && CrossFits(c, cg, |cg|) && RunFits(c, run, |cg|) && li < c.nLayer && tc <= |cg|
    ensures Sized(c, r)
  {
    if tc == 0 then G else Pass2Cell(c, Pass2Row(c, G, cg, run, li, tc - 1), cg, run, li, tc - 1)
  }

  /** Layers 0 .. lc-1 of pass 2. */
  function Pass2(c: Config, G: seq<Vec>, cg: seq<BackOut>, run: FwdRun, lc: nat): (r: seq<Vec>)
    requires Sized(c, G) && CrossFits(c, cg, |cg|) && RunFits(c, run, |cg|) && lc <= c.nLayer
    ensures Sized(c, r)
  {
    if lc == 0 then G else Pass2Row(c, Pass2(c, G, cg, run, lc - 1), cg, run, lc - 1, |cg|)
  }

  /** The gradients after `zeroGrad()`. */
  function ZeroGrads(c: Config): (G: seq<Vec>)
    ensures Sized(c, G)
  {
    seq(NumParams(c.nLayer), k requires 0 <= k < NumParams(c.nLayer) => Zeros(ParamSize(c, k)))
  }

  function TrainRun(m: MathLib, c: Config, P: seq<Vec>, tokens: seq<nat>): (r: FwdRun)
    requires TrainPre(m, c, P, tokens)
    ensures RunFits(c, r, Window(c, tokens))
  {
    RunForward(m, c, P, tokens, Window(c, tokens), Window(c, tokens))
  }

  /** trainStep's result: the mean of the per-position losses. */
  function TrainLoss(m: MathLib, c: Config, P: seq<Vec>, tokens: seq<nat>): real
    requires TrainPre(m, c, P, tokens)
  {
    Sum(TrainRun(m, c, P, tokens).losses) / (Window(c, tokens) as real)
  }

  /** The gradients trainStep leaves: zeroGrad, pass 1, pass 2. */
  function TrainGrads(m: MathLib, c: Config, P: seq<Vec>, tokens: seq<nat>): (G: seq<Vec>)
    requires TrainPre(m, c, P, tokens)
    ensures Sized(c, G)
  {
    var n := Window(c, tokens);
    var run := TrainRun(m, c, P, tokens);
    Pass2(c, Pass1(m, c, P, run, n, ZeroGrads(c), n), CrossGrads(m, c, P, run, n), run, c.nLayer)
  }
}
