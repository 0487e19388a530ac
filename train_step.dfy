/**
 * `trainStep(model, tokens)`: the forward loop over the window, the mean
 * loss, zeroGrad, pass 1 (backward at every position, last first) and
 * pass 2 (the cross-position dV and dK sums through each position's
 * xNorm1). The method is proved to return TrainLoss and to leave TrainGrads
 * in the model's gradients; TrainProofs proves what those are.
 */
module TrainStep {
  import opened Numeric
  import opened Tensors
  import opened Kernels
  import opened CpuKernels
  import opened ModelMath
  import opened BackwardMath
  import opened TrainMath
  import opened Model
  import opened TrainProofs

  /** One turn of the forward loop: forward at (tokens[pos], pos), the loss
      against tokens[pos + 1], and dLogits scaled by 1/n. */
  method ForwardPosition(m: MathLib, model: MicroGPT, tokens: seq<nat>, n: nat, kv: KVCache, pos: nat,
                         ghost caches: seq<StepCache>, ghost losses: seq<real>, ghost dLogitsList: seq<Vec>)
    returns (cache: StepCache, loss: real, scaled: Vec)
    requires model.Valid() && Lawful(m) && Supported(model.config) && TokensFit(model.config, tokens)
    requires n <= model.config.blockSize && n < |tokens| && pos < n
    requires FwdRun(kv.keys, kv.values, caches, losses, dLogitsList)
          == RunForward(m, model.config, model.Weights(), tokens, n, pos)
    modifies kv`keys, kv`values
    ensures model.Valid() && model.Weights() == old(model.Weights())
    ensures FwdRun(kv.keys, kv.values, caches + [cache], losses + [loss], dLogitsList + [scaled])
         == RunForward(m, model.config, model.Weights(), tokens, n, pos + 1)
  {
    var tokenId, targetId := tokens[pos], tokens[pos + 1];
    var logits;
    logits, cache := model.Forward(m, tokenId, pos, kv);
    // crossEntropyLoss and scale, by the functions CrossEntropyLossOp and
    // ScaleOp are proved to compute
    var ce := CrossEntropy(m, logits, targetId);
    loss, scaled := ce.0, VecScale(ce.1, 1.0 / (n as real));
    RunForwardStep(m, model.config, model.Weights(), tokens, n, pos + 1);
  }

  /** The forward loop over pos = 0 .. n-1. */
  method ForwardLoop(m: MathLib, model: MicroGPT, tokens: seq<nat>, n: nat, kv: KVCache)
    returns (caches: seq<StepCache>, losses: seq<real>, dLogitsList: seq<Vec>)
    requires model.Valid() && Lawful(m) && Supported(model.config) && TokensFit(model.config, tokens)
    requires n <= model.config.blockSize && n < |tokens| && n > 0
    requires kv.keys == EmptyKV(model.config.nLayer) && kv.values == EmptyKV(model.config.nLayer)
    modifies kv`keys, kv`values
    ensures model.Valid() && model.Weights() == old(model.Weights())
    ensures FwdRun(kv.keys, kv.values, caches, losses, dLogitsList)
         == RunForward(m, model.config, model.Weights(), tokens, n, n)
  {
    ghost var P := model.Weights();
    caches, losses, dLogitsList := [], [], [];
    var pos := 0;
    while pos < n
      invariant 0 <= pos <= n
      invariant model.Weights() == P
      invariant FwdRun(kv.keys, kv.values, caches, losses, dLogitsList) == RunForward(m, model.config, P, tokens, n, pos)
    {
      var cache, loss, scaled := ForwardPosition(m, model, tokens, n, kv, pos, caches, losses, dLogitsList);
      losses := losses + [loss];
      dLogitsList := dLogitsList + [scaled];
      caches := caches + [cache];
      pos := pos + 1;
    }
  }

  lemma SuffixCons<T>(s: seq<T>, i: nat)
    requires i < |s|
    ensures s[i..] == [s[i]] + s[i + 1..]
  {
  }

  /** Pass 1: backward at pos = n-1 down to 0, each result kept in
      allCrossGrads[pos]. */
  method Pass1Loop(m: MathLib, model: MicroGPT, ghost run: FwdRun, n: nat, kv: KVCache,
                   caches: seq<StepCache>, dLogitsList: seq<Vec>)
    returns (allCrossGrads: seq<BackOut>)
    requires model.Valid() && Lawful(m) && Supported(model.config) && model.config.nLayer > 0
    requires RunFits(model.config, run, n)
    requires run.K == kv.keys && run.V == kv.values && run.caches == caches && run.dLogits == dLogitsList
    modifies model.GradBuffers()
    ensures model.Valid() && model.Weights() == old(model.Weights())
    ensures model.Grads() == Pass1(m, model.config, model.Weights(), run, n, old(model.Grads()), n)
    ensures allCrossGrads == CrossGrads(m, model.config, model.Weights(), run, n)
  {
    var c := model.config;
    ghost var P, G0 := model.Weights(), model.Grads();
    ghost var want := CrossGrads(m, c, P, run, n);
    allCrossGrads := [];
    var pos := n;
    while pos > 0
      invariant 0 <= pos <= n
      invariant model.Weights() == P
      invariant Pass1(m, c, P, run, n, model.Grads(), pos) == Pass1(m, c, P, run, n, G0, n)
      invariant allCrossGrads == want[pos..]
    {
      pos := pos - 1;
      assert KVReach(c, kv.keys, kv.values, pos + 1);
      assert StepCacheAttended(c, caches[pos], pos + 1);
      var cross := model.Backward(m, dLogitsList[pos], caches[pos], kv, pos);
      assert cross == BackAt(m, c, P, run, n, pos) == want[pos];
      SuffixCons(want, pos);
      allCrossGrads := [cross] + allCrossGrads;
    }
  }

  /** Position pos > t adds its dV[t] (dK[t]) to the totals of position t. */
  lemma TotalNext(c: Config, cg: seq<BackOut>, li: nat, t: nat, pos: nat)
    requires CrossFits(c, cg, |cg|) && li < c.nLayer && t < pos < |cg|
    ensures li < |cg[pos].layers| && t < |cg[pos].layers[li].dV| && t < |cg[pos].layers[li].dK|
    ensures Total(c, cg, ValueSide, li, t, pos + 1) == VecAdd(Total(c, cg, ValueSide, li, t, pos), cg[pos].layers[li].dV[t])
    ensures Total(c, cg, KeySide, li, t, pos + 1) == VecAdd(Total(c, cg, KeySide, li, t, pos), cg[pos].layers[li].dK[t])
  {
    assert BackOutFits(c, cg[pos], pos + 1) && LayerBackFits(c, cg[pos].layers[li], pos + 1);
  }

  /** One (li, t) iteration of pass 2: the `totalDV` / `totalDK` loop sums
      the dV[t] and dK[t] of every later position, under the source's bounds
      guard, and hasContributions says some later position exists; then
      the sums go through position t's xNorm1 into attnWv and attnWk. */
  method Pass2Step(model: MicroGPT, ghost run: FwdRun, allCrossGrads: seq<BackOut>,
                   caches: seq<StepCache>, li: nat, t: nat)
    requires model.Valid() && li < model.config.nLayer && t < |allCrossGrads|
    requires CrossFits(model.config, allCrossGrads, |allCrossGrads|)
    requires RunFits(model.config, run, |allCrossGrads|) && run.caches == caches
    modifies model.GradBuffers()
    ensures model.Valid() && model.Weights() == old(model.Weights())
    ensures model.Grads() == Pass2Cell(model.config, old(model.Grads()), allCrossGrads, run, li, t)
  {
    var c := model.config;
    var n := |allCrossGrads|;
    SlotsOfLayer(c, li);
    // the dV[t] and dK[t] of every later position, with the bounds guard
    var totalDV, totalDK := Zeros(c.nEmbd), Zeros(c.nEmbd);
    var hasContributions := false;
    var pos := t + 1;
    while pos < n
      invariant t + 1 <= pos <= n
      invariant totalDV == Total(c, allCrossGrads, ValueSide, li, t, pos)
      invariant totalDK == Total(c, allCrossGrads, KeySide, li, t, pos)
      invariant hasContributions <==> t + 1 < pos <= n
    {
      var cg := allCrossGrads[pos];
      assert && t < |cg.layers[li].dV| && t < |cg.layers[li].dK|
             && Total(c, allCrossGrads, ValueSide, li, t, pos + 1) == VecAdd(totalDV, cg.layers[li].dV[t])
             && Total(c, allCrossGrads, KeySide, li, t, pos + 1) == VecAdd(totalDK, cg.layers[li].dK[t])
      by { TotalNext(c, allCrossGrads, li, t, pos); }
      if t < |cg.layers[li].dV| {
        totalDV := VecAdd(totalDV, cg.layers[li].dV[t]);
        totalDK := VecAdd(totalDK, cg.layers[li].dK[t]);
        hasContributions := true;
      }
      pos := pos + 1;
    }
    if hasContributions {
      Propagate(model, run, allCrossGrads, caches, li, t, totalDV, totalDK);
    }
  }

  /** The sums of a position t that has a later position go through its
      xNorm1 (the dW half of linearBackward, an outer product) into
      attnWv, then attnWk: Pass2Cell's update. */
  method Propagate(model: MicroGPT, ghost run: FwdRun, allCrossGrads: seq<BackOut>,
                   caches: seq<StepCache>, li: nat, t: nat, totalDV: Vec, totalDK: Vec)
    requires model.Valid() && li < model.config.nLayer && t + 1 < |allCrossGrads|
    requires CrossFits(model.config, allCrossGrads, |allCrossGrads|)
    requires RunFits(model.config, run, |allCrossGrads|) && run.caches == caches
    requires totalDV == Total(model.config, allCrossGrads, ValueSide, li, t, |allCrossGrads|)
    requires totalDK == Total(model.config, allCrossGrads, KeySide, li, t, |allCrossGrads|)
    modifies model.GradBuffers()
    ensures model.Valid() && model.Weights() == old(model.Weights())
    ensures model.Grads() == Pass2Cell(model.config, old(model.Grads()), allCrossGrads, run, li, t)
  {
    var c := model.config;
    SlotsOfLayer(c, li);
    assert StepCacheAttended(c, caches[t], t + 1);
    assert LayerCacheFits(c, caches[t].layers[li], t + 1);
    var xNorm1 := caches[t].layers[li].xNorm1;
    model.AddIntoGrad(Slot(li, 2), Outer(totalDV, xNorm1));
    model.AddIntoGrad(Slot(li, 1), Outer(totalDK, xNorm1));
  }

  /** Pass 2 for layer li: t = 0 .. n-1. */
  method Pass2Layer(model: MicroGPT, ghost run: FwdRun, allCrossGrads: seq<BackOut>,
                    caches: seq<StepCache>, li: nat)
    requires model.Valid() && li < model.config.nLayer
    requires CrossFits(model.config, allCrossGrads, |allCrossGrads|)
    requires RunFits(model.config, run, |allCrossGrads|) && run.caches == caches
    modifies model.GradBuffers()
    ensures model.Valid() && model.Weights() == old(model.Weights())
    ensures model.Grads() == Pass2Row(model.config, old(model.Grads()), allCrossGrads, run, li, |allCrossGrads|)
  {
    ghost var W0, G0 := model.Weights(), model.Grads();
    var t := 0;
    while t < |allCrossGrads|
      invariant 0 <= t <= |allCrossGrads|
      invariant model.Weights() == W0
      invariant model.Grads() == Pass2Row(model.config, G0, allCrossGrads, run, li, t)
    {
      Pass2Step(model, run, allCrossGrads, caches, li, t);
      t := t + 1;
    }
  }

  /** Pass 2: layers 0 .. nLayer-1. */
  method Pass2Loop(model: MicroGPT, ghost run: FwdRun, allCrossGrads: seq<BackOut>, caches: seq<StepCache>)
    requires model.Valid()
    requires CrossFits(model.config, allCrossGrads, |allCrossGrads|)
    requires RunFits(model.config, run, |allCrossGrads|) && run.caches == caches
    modifies model.GradBuffers()
    ensures model.Valid() && model.Weights() == old(model.Weights())
    ensures model.Grads() == Pass2(model.config, old(model.Grads()), allCrossGrads, run, model.config.nLayer)
  {
    ghost var W0, G0 := model.Weights(), model.Grads();
    var li := 0;
    while li < model.config.nLayer
      invariant 0 <= li <= model.config.nLayer
      invariant model.Weights() == W0
      invariant model.Grads() == Pass2(model.config, G0, allCrossGrads, run, li)
    {
      Pass2Layer(model, run, allCrossGrads, caches, li);
      li := li + 1;
    }
  }

  /** The first half of trainStep: the window n, fresh empty caches, and the
      forward loop over them. */
  method ForwardPhase(m: MathLib, model: MicroGPT, tokens: seq<nat>)
    returns (n: nat, kv: KVCache, caches: seq<StepCache>, losses: seq<real>, dLogitsList: seq<Vec>)
    requires model.Valid() && TrainPre(m, model.config, model.Weights(), tokens)
    ensures fresh(kv)
    ensures model.Valid() && model.Weights() == old(model.Weights())
    ensures n == Window(model.config, tokens)
    ensures FwdRun(kv.keys, kv.values, caches, losses, dLogitsList) == TrainRun(m, model.config, model.Weights(), tokens)
  {
    var c := model.config;
    n := MinInt(c.blockSize, |tokens| - 1);
    kv := new KVCache(c.nLayer);
    assert forall k :: 0 <= k < |model.Parameters()| ==> model.Parameters()[k].Data() == old(model.Parameters()[k].Data());
    assert model.Weights() == old(model.Weights());
    caches, losses, dLogitsList := ForwardLoop(m, model, tokens, n, kv);
  }

  /** The second half of trainStep: zeroGrad, then pass 1 and pass 2 over
      the finished forward loop. */
  method BackwardPhase(m: MathLib, model: MicroGPT, ghost run: FwdRun, n: nat, kv: KVCache,
                       caches: seq<StepCache>, dLogitsList: seq<Vec>)
    requires model.Valid() && Lawful(m) && Supported(model.config) && model.config.nLayer > 0
    requires RunFits(model.config, run, n)
    requires run.K == kv.keys && run.V == kv.values && run.caches == caches && run.dLogits == dLogitsList
    modifies model.GradBuffers()
    ensures model.Valid() && model.Weights() == old(model.Weights())
    ensures model.Grads() == Pass2(model.config, Pass1(m, model.config, model.Weights(), run, n, ZeroGrads(model.config), n),
                                   CrossGrads(m, model.config, model.Weights(), run, n), run, model.config.nLayer)
  {
    model.ZeroGrad();
    var allCrossGrads := Pass1Loop(m, model, run, n, kv, caches, dLogitsList);
    Pass2Loop(model, run, allCrossGrads, caches);
  }

  /** `trainStep(model, tokens)`: the mean loss of the window is returned,
      and the gradients are zeroed once, before pass 1, then hold exactly
      what pass 1 and pass 2 add (TrainGrads); the weights do not change. */
  method TrainStep(m: MathLib, model: MicroGPT, tokens: seq<nat>) returns (avgLoss: real)
    requires model.Valid() && TrainPre(m, model.config, model.Weights(), tokens)
    modifies model.GradBuffers()
    ensures model.Valid() && model.Weights() == old(model.Weights())
    ensures avgLoss == TrainLoss(m, model.config, model.Weights(), tokens)
    ensures model.Grads() == TrainGrads(m, model.config, model.Weights(), tokens)
  {
    var n, kv, caches, losses, dLogitsList := ForwardPhase(m, model, tokens);
    ghost var run := FwdRun(kv.keys, kv.values, caches, losses, dLogitsList);
    avgLoss := Sum(losses) / (n as real);
    BackwardPhase(m, model, run, n, kv, caches, dLogitsList);
  }
}
