/**
 * What `MicroGPT.backward` computes for one position, as functions of the
 * weight snapshot, the step cache and the key/value caches, and how it
 * changes the gradient contents.
 */
module BackwardMath {
  import opened Numeric
  import opened Tensors
  import opened Kernels
  import opened ModelMath

  /** The gradients one layer produces: the gradient for the layer's input,
      its six weight gradients and the per-position dV and dK. */
  datatype LayerBack = LayerBack(
    dX: Vec, dWq: Vec, dWk: Vec, dWv: Vec, dWo: Vec, dFc1: Vec, dFc2: Vec,
    dV: seq<Vec>, dK: seq<Vec>)

  predicate LayerBackFits(c: Config, lb: LayerBack, seqLen: nat)
  {
    var E := c.nEmbd;
    && |lb.dX| == E
    && |lb.dWq| == E * E && |lb.dWk| == E * E && |lb.dWv| == E * E && |lb.dWo| == E * E
    && |lb.dFc1| == 4 * E * E && |lb.dFc2| == E * (4 * E)
    && |lb.dV| == seqLen && |lb.dK| == seqLen && AllLen(lb.dV, E) && AllLen(lb.dK, E)
  }

  /** Through fc2, relu, fc1 and the second rmsNorm, plus the residual. */
  datatype FfnBack = FfnBack(dXAfterAttn: Vec, dFc1: Vec, dFc2: Vec)

  function FfnBackward(c: Config, P: seq<Vec>, li: nat, lc: LayerCache, seqLen: nat, dX: Vec): (r: FfnBack)
    requires Supported(c) && Fits(c, P) && li < c.nLayer && LayerCacheFits(c, lc, seqLen) && |dX| == c.nEmbd
    ensures |r.dXAfterAttn| == c.nEmbd && |r.dFc1| == 4 * c.nEmbd * c.nEmbd && |r.dFc2| == c.nEmbd * (4 * c.nEmbd)
  {
    var E := c.nEmbd;
    assert LayerFits(c, P, li);
    var dFc1Relu := LinearBackX(P[Slot(li, 5)], dX, E, 4 * E);
    var dFc1Out := ReluBackward(dFc1Relu, lc.fc1Out);
    assert 4 * E * E == (4 * E) * E;
    var dXNorm2 := LinearBackX(P[Slot(li, 4)], dFc1Out, 4 * E, E);
    var dXAfterAttnNorm := RmsNormBackward(dXNorm2, lc.xAfterAttn, lc.rms2);
    FfnBack(VecAdd(dX, dXAfterAttnNorm), Outer(dFc1Out, lc.xNorm2), Outer(dX, lc.fc1Relu))
  }

  /** Step 1 of the head loop: dWeights[t] = dAttnOut_h . V[t]_h */
  function DWeights(c: Config, dA: Vec, values: seq<Vec>, h: nat): (r: Vec)
    requires Supported(c) && |dA| == c.nEmbd && AllLen(values, c.nEmbd) && h < c.nHead
    ensures |r| == |values|
  {
    seq(|values|, t requires 0 <= t < |values| => Dot(HeadSlice(c, dA, h), HeadSlice(c, values[t], h)))
  }

  /** Step 3: the scores' gradient of every head, through its softmax. */
  function DScores(c: Config, aw: seq<Vec>, dA: Vec, values: seq<Vec>): (r: seq<Vec>)
    requires Supported(c) && |dA| == c.nEmbd && AllLen(values, c.nEmbd)
    requires |aw| == c.nHead && AllLen(aw, |values|)
    ensures |r| == c.nHead && AllLen(r, |values|)
  {
    seq(c.nHead, h requires 0 <= h < c.nHead => SoftmaxBackward(DWeights(c, dA, values, h), aw[h]))
  }

  /** Step 2: dV[t][i] = attnWeights[head of i][t] * dAttnOut[i] */
  function DValues(c: Config, aw: seq<Vec>, dA: Vec, seqLen: nat): (r: seq<Vec>)
    requires Supported(c) && |dA| == c.nEmbd && |aw| == c.nHead && AllLen(aw, seqLen)
    ensures |r| == seqLen && AllLen(r, c.nEmbd)
  {
    seq(seqLen, t requires 0 <= t < seqLen =>
      seq(c.nEmbd, i requires 0 <= i < c.nEmbd => HeadOf(c, i); aw[i / HeadDim(c)][t] * dA[i]))
  }

  /** Step 4: dQ[i] = sum over t of dScores[head of i][t] * K[t][i] * scaleFactor */
  function DQuery(m: MathLib, c: Config, dS: seq<Vec>, keys: seq<Vec>): (r: Vec)
    requires Lawful(m) && Supported(c) && |dS| == c.nHead && AllLen(dS, |keys|) && AllLen(keys, c.nEmbd)
    ensures |r| == c.nEmbd
  {
    seq(c.nEmbd, i requires 0 <= i < c.nEmbd =>
      HeadOf(c, i);
      Sum(seq(|keys|, t requires 0 <= t < |keys| => dS[i / HeadDim(c)][t] * keys[t][i] * ScaleFactor(m, c))))
  }

  /** Step 5: dK[t][i] = dScores[head of i][t] * Q[i] * scaleFactor */
  function DKeys(m: MathLib, c: Config, dS: seq<Vec>, q: Vec, seqLen: nat): (r: seq<Vec>)
    requires Lawful(m) && Supported(c) && |dS| == c.nHead && AllLen(dS, seqLen) && |q| == c.nEmbd
    ensures |r| == seqLen && AllLen(r, c.nEmbd)
  {
    seq(seqLen, t requires 0 <= t < seqLen =>
      seq(c.nEmbd, i requires 0 <= i < c.nEmbd => HeadOf(c, i); dS[i / HeadDim(c)][t] * q[i] * ScaleFactor(m, c)))
  }

  /** Backward through one block, given the gradient dX of its output and the
      first seqLen cached keys and values of the layer. Q is the current
      position's; of dV and dK only the current position's (the last) goes
      through attnWv and attnWk here. */
  function LayerBackward(m: MathLib, c: Config, P: seq<Vec>, li: nat, lc: LayerCache,
                         keys: seq<Vec>, values: seq<Vec>, dX: Vec): (lb: LayerBack)
    requires Lawful(m) && Supported(c) && Fits(c, P) && li < c.nLayer
    requires |keys| == |values| && |keys| > 0 && AllLen(keys, c.nEmbd) && AllLen(values, c.nEmbd)
    requires LayerCacheFits(c, lc, |keys|) && |dX| == c.nEmbd
    ensures LayerBackFits(c, lb, |keys|) && CurrentOnly(lb, lc, |keys|)
  {
    var E := c.nEmbd;
    var posInSeq := |keys| - 1;
    assert LayerFits(c, P, li);
    var ffn := FfnBackward(c, P, li, lc, |keys|, dX);
    var xAttn := AttnMix(c, lc.attnWeights, values);
    var dAttnOut := LinearBackX(P[Slot(li, 3)], ffn.dXAfterAttn, E, E);
    var dS := DScores(c, lc.attnWeights, dAttnOut, values);
    var dV := DValues(c, lc.attnWeights, dAttnOut, |keys|);
    var dQ := DQuery(m, c, dS, keys);
    var dK := DKeys(m, c, dS, lc.q, |keys|);
    var dXN1q := LinearBackX(P[Slot(li, 0)], dQ, E, E);
    var dXN1k := LinearBackX(P[Slot(li, 1)], dK[posInSeq], E, E);
    var dXN1v := LinearBackX(P[Slot(li, 2)], dV[posInSeq], E, E);
    var dXFromNorm1 := RmsNormBackward(VecAdd(VecAdd(dXN1q, dXN1k), dXN1v), lc.xIn, lc.rms1);
    LayerBack(VecAdd(ffn.dXAfterAttn, dXFromNorm1),
      Outer(dQ, lc.xNorm1), Outer(dK[posInSeq], lc.xNorm1), Outer(dV[posInSeq], lc.xNorm1),
      Outer(ffn.dXAfterAttn, xAttn), ffn.dFc1, ffn.dFc2, dV, dK)
  }

  /** Layer li of a step cache attended over seqLen positions. */
  predicate StepCacheAttended(c: Config, sc: StepCache, seqLen: nat)
  {
    && |sc.tokEmb| == c.nEmbd && |sc.posEmb| == c.nEmbd && sc.rmsInit > 0.0 && |sc.layers| == c.nLayer
    && forall li :: 0 <= li < c.nLayer ==> LayerCacheFits(c, sc.layers[li], seqLen)
  }

  /** The key/value caches reach at least seqLen positions in every layer. */
  predicate KVReach(c: Config, K: seq<seq<Vec>>, V: seq<seq<Vec>>, seqLen: nat)
  {
    KVFits(c, K, V) && forall li :: 0 <= li < c.nLayer ==> seqLen <= |K[li]|
  }

  /** The gradient reaching the output of layer li in backward's reverse
      layer loop: dTop (from lmHead) at the last layer, otherwise the input
      gradient of the layer above. */
  function DXInto(m: MathLib, c: Config, P: seq<Vec>, sc: StepCache, K: seq<seq<Vec>>, V: seq<seq<Vec>>,
                  seqLen: nat, dTop: Vec, li: nat): (r: Vec)
    requires Lawful(m) && Supported(c) && Fits(c, P) && li < c.nLayer && seqLen > 0
    requires StepCacheAttended(c, sc, seqLen) && KVReach(c, K, V, seqLen) && |dTop| == c.nEmbd
    ensures |r| == c.nEmbd
    decreases c.nLayer - li, 0
  {
    if li == c.nLayer - 1 then dTop
    else LayerGrads(m, c, P, sc, K, V, seqLen, dTop, li + 1).dX
  }

  /** The gradients of layer li in backward's reverse layer loop. */
  function LayerGrads(m: MathLib, c: Config, P: seq<Vec>, sc: StepCache, K: seq<seq<Vec>>, V: seq<seq<Vec>>,
                      seqLen: nat, dTop: Vec, li: nat): (lb: LayerBack)
    requires Lawful(m) && Supported(c) && Fits(c, P) && li < c.nLayer && seqLen > 0
    requires StepCacheAttended(c, sc, seqLen) && KVReach(c, K, V, seqLen) && |dTop| == c.nEmbd
    ensures LayerBackFits(c, lb, seqLen) && CurrentOnly(lb, sc.layers[li], seqLen)
    decreases c.nLayer - li, 1
  {
    LayerBackward(m, c, P, li, sc.layers[li], K[li][..seqLen], V[li][..seqLen],
      DXInto(m, c, P, sc, K, V, seqLen, dTop, li))
  }

  /** Of dV and dK, only the current position's (the last) goes through
      attnWv and attnWk inside backward. */
  predicate CurrentOnly(lb: LayerBack, lc: LayerCache, seqLen: nat)
  {
    && 0 < seqLen && |lb.dV| == seqLen && |lb.dK| == seqLen
    && lb.dWv == Outer(lb.dV[seqLen - 1], lc.xNorm1)
    && lb.dWk == Outer(lb.dK[seqLen - 1], lc.xNorm1)
  }

  /** Everything backward produces: the lmHead gradient, every layer's
      gradients (indexed by layer) and the gradient before the initial rmsNorm. */
  datatype BackOut = BackOut(dWlm: Vec, layers: seq<LayerBack>, dXPreNorm: Vec)

  predicate BackOutFits(c: Config, b: BackOut, seqLen: nat)
  {
    && |b.dWlm| == c.vocabSize * c.nEmbd && |b.dXPreNorm| == c.nEmbd && |b.layers| == c.nLayer
    && forall li :: 0 <= li < c.nLayer ==> LayerBackFits(c, b.layers[li], seqLen)
  }

  /** `backward(dLogits, cache, kvKeys, kvValues, posInSeq)`. The source reads the
      output of the last layer, so there is at least one. */
  function Backward(m: MathLib, c: Config, P: seq<Vec>, dLogits: Vec, sc: StepCache,
                    K: seq<seq<Vec>>, V: seq<seq<Vec>>, posInSeq: nat): (b: BackOut)
    requires Lawful(m) && Supported(c) && Fits(c, P) && c.nLayer > 0
    requires StepCacheAttended(c, sc, posInSeq + 1) && KVReach(c, K, V, posInSeq + 1)
    requires |dLogits| == c.vocabSize
    ensures BackOutFits(c, b, posInSeq + 1)
  {
    var E := c.nEmbd;
    var finalX := sc.layers[c.nLayer - 1].x;
    var dXlm := LinearBackX(P[2], dLogits, c.vocabSize, E);
    var seqLen := posInSeq + 1;
    var layers := seq(c.nLayer, li requires 0 <= li < c.nLayer => LayerGrads(m, c, P, sc, K, V, seqLen, dXlm, li));
    var dX := layers[0].dX;
    var xPreNorm := VecAdd(sc.tokEmb, sc.posEmb);
    BackOut(Outer(dLogits, finalX), layers, RmsNormBackward(dX, xPreNorm, sc.rmsInit))
  }

  /** Layer li of backward's result is the li-th step of its reverse layer loop. */
  lemma BackwardLayer(m: MathLib, c: Config, P: seq<Vec>, dLogits: Vec, sc: StepCache,
                      K: seq<seq<Vec>>, V: seq<seq<Vec>>, posInSeq: nat, li: nat)
    requires Lawful(m) && Supported(c) && Fits(c, P) && c.nLayer > 0
    requires StepCacheAttended(c, sc, posInSeq + 1) && KVReach(c, K, V, posInSeq + 1)
    requires |dLogits| == c.vocabSize && li < c.nLayer
    ensures Backward(m, c, P, dLogits, sc, K, V, posInSeq).layers[li]
         == LayerGrads(m, c, P, sc, K, V, posInSeq + 1, LinearBackX(P[2], dLogits, c.vocabSize, c.nEmbd), li)
    ensures CurrentOnly(Backward(m, c, P, dLogits, sc, K, V, posInSeq).layers[li], sc.layers[li], posInSeq + 1)
  {
  }

  /** What backward adds to the gradient of parameter k >= 2. */
  function SlotDelta(c: Config, b: BackOut, seqLen: nat, k: nat): (d: Vec)
    requires BackOutFits(c, b, seqLen) && 2 <= k < NumParams(c.nLayer)
    ensures |d| == ParamSize(c, k)
  {
    if k == 2 then b.dWlm
    else
      var li, j := (k - 3) / 6, (k - 3) % 6;
      assert k == Slot(li, j);
      SlotsOfLayer(c, li);
      var lb := b.layers[li];
      assert LayerBackFits(c, lb, seqLen);
      if j == 0 then lb.dWq else if j == 1 then lb.dWk else if j == 2 then lb.dWv
      else if j == 3 then lb.dWo else if j == 4 then lb.dFc1 else lb.dFc2
  }

  /** The gradient contents after backward's `+=` loops and its two
      embeddingBackward calls: row tokenId of wte and row posId of wpe gain
      dXPreNorm, every other parameter gains its delta. */
  function ApplyBackward(c: Config, G: seq<Vec>, sc: StepCache, b: BackOut, seqLen: nat): (r: seq<Vec>)
    requires Sized(c, G) && BackOutFits(c, b, seqLen)
    ensures Sized(c, r)
  {
    seq(|G|, k requires 0 <= k < |G| =>
      if k == 0 then AddIntoRow(G[0], c.nEmbd, sc.tokenId, b.dXPreNorm)
      else if k == 1 then AddIntoRow(G[1], c.nEmbd, sc.posId, b.dXPreNorm)
      else VecAdd(G[k], SlotDelta(c, b, seqLen, k)))
  }

  /** Parameter k >= 2 gains exactly its delta. */
  lemma ApplyAt(c: Config, G: seq<Vec>, sc: StepCache, b: BackOut, seqLen: nat, k: nat)
    requires Sized(c, G) && BackOutFits(c, b, seqLen) && 2 <= k < |G|
    ensures ApplyBackward(c, G, sc, b, seqLen)[k] == VecAdd(G[k], SlotDelta(c, b, seqLen, k))
  {
  }

  /** The deltas of layer li's six slots are the layer's six weight gradients. */
  lemma SlotDeltaOfLayer(c: Config, b: BackOut, seqLen: nat, li: nat)
    requires BackOutFits(c, b, seqLen) && li < c.nLayer
    ensures SlotDelta(c, b, seqLen, Slot(li, 0)) == b.layers[li].dWq
    ensures SlotDelta(c, b, seqLen, Slot(li, 1)) == b.layers[li].dWk
    ensures SlotDelta(c, b, seqLen, Slot(li, 2)) == b.layers[li].dWv
    ensures SlotDelta(c, b, seqLen, Slot(li, 3)) == b.layers[li].dWo
    ensures SlotDelta(c, b, seqLen, Slot(li, 4)) == b.layers[li].dFc1
    ensures SlotDelta(c, b, seqLen, Slot(li, 5)) == b.layers[li].dFc2
  {
    SlotInverse(li, 0); SlotInverse(li, 1); SlotInverse(li, 2);
    SlotInverse(li, 3); SlotInverse(li, 4); SlotInverse(li, 5);
  }

  lemma SlotDeltaOfValueAndKey(c: Config, b: BackOut, seqLen: nat, li: nat)
    requires BackOutFits(c, b, seqLen) && li < c.nLayer
    ensures SlotDelta(c, b, seqLen, Slot(li, 2)) == b.layers[li].dWv
    ensures SlotDelta(c, b, seqLen, Slot(li, 1)) == b.layers[li].dWk
  {
    SlotInverse(li, 1);
    SlotInverse(li, 2);
  }

  /** backward adds into attnWv of layer li exactly the layer's dWv. */
  lemma ApplyAtValue(c: Config, G: seq<Vec>, sc: StepCache, b: BackOut, seqLen: nat, li: nat)
    requires Sized(c, G) && BackOutFits(c, b, seqLen) && li < c.nLayer
    ensures Slot(li, 2) < |G| && |G[Slot(li, 2)]| == |b.layers[li].dWv|
    ensures ApplyBackward(c, G, sc, b, seqLen)[Slot(li, 2)] == VecAdd(G[Slot(li, 2)], b.layers[li].dWv)
  {
    SlotDeltaOfValueAndKey(c, b, seqLen, li);
    ApplyAt(c, G, sc, b, seqLen, Slot(li, 2));
  }

  /** backward adds into attnWk of layer li exactly the layer's dWk. */
  lemma ApplyAtKey(c: Config, G: seq<Vec>, sc: StepCache, b: BackOut, seqLen: nat, li: nat)
    requires Sized(c, G) && BackOutFits(c, b, seqLen) && li < c.nLayer
    ensures Slot(li, 1) < |G| && |G[Slot(li, 1)]| == |b.layers[li].dWk|
    ensures ApplyBackward(c, G, sc, b, seqLen)[Slot(li, 1)] == VecAdd(G[Slot(li, 1)], b.layers[li].dWk)
  {
    SlotDeltaOfValueAndKey(c, b, seqLen, li);
    ApplyAt(c, G, sc, b, seqLen, Slot(li, 1));
  }

  // ------------------------------------------- backward's += in its order

  /** `grad.data[i] += delta[i]` over gradient k of a snapshot. */
  function AddSlot(c: Config, G: seq<Vec>, k: nat, d: Vec): (r: seq<Vec>)
    requires Sized(c, G) && k < |G| && |d| == ParamSize(c, k)
    ensures Sized(c, r)
  {
    G[k := VecAdd(G[k], d)]
  }

  /** backward's six `+=` loops of layer li, in its order: mlpFc2, mlpFc1,
      attnWo, attnWq, attnWk, attnWv. */
  function AddLayer(c: Config, G: seq<Vec>, b: BackOut, seqLen: nat, li: nat): (r: seq<Vec>)
    requires Sized(c, G) && BackOutFits(c, b, seqLen) && li < c.nLayer
    ensures Sized(c, r)
  {
    var lb := b.layers[li];
    assert LayerBackFits(c, lb, seqLen);
    SlotsOfLayer(c, li);
    var g5 := AddSlot(c, G, Slot(li, 5), lb.dFc2);
    var g4 := AddSlot(c, g5, Slot(li, 4), lb.dFc1);
    var g3 := AddSlot(c, g4, Slot(li, 3), lb.dWo);
    var g0 := AddSlot(c, g3, Slot(li, 0), lb.dWq);
    var g1 := AddSlot(c, g0, Slot(li, 1), lb.dWk);
    AddSlot(c, g1, Slot(li, 2), lb.dWv)
  }

  /** backward's reverse layer loop, from the last layer down to layer li. */
  function AddLayersFrom(c: Config, G: seq<Vec>, b: BackOut, seqLen: nat, li: nat): (r: seq<Vec>)
    requires Sized(c, G) && BackOutFits(c, b, seqLen) && li <= c.nLayer
    ensures Sized(c, r)
    decreases c.nLayer - li
  {
    if li == c.nLayer then G else AddLayer(c, AddLayersFrom(c, G, b, seqLen, li + 1), b, seqLen, li)
  }

  /** Every `+=` of backward in the order it runs them: lmHead, the layers
      from the last to the first, then embeddingBackward into row tokenId of
      wte and row posId of wpe. */
  function BackwardSteps(c: Config, G: seq<Vec>, sc: StepCache, b: BackOut, seqLen: nat): (r: seq<Vec>)
    requires Sized(c, G) && BackOutFits(c, b, seqLen)
    ensures Sized(c, r)
  {
    var g2 := AddSlot(c, G, 2, b.dWlm);
    var gl := AddLayersFrom(c, g2, b, seqLen, 0);
    var gt := gl[0 := AddIntoRow(gl[0], c.nEmbd, sc.tokenId, b.dXPreNorm)];
    gt[1 := AddIntoRow(gt[1], c.nEmbd, sc.posId, b.dXPreNorm)]
  }

  /** One layer's loops add to its own six slots and nowhere else. */
  lemma AddLayerAt(c: Config, G: seq<Vec>, b: BackOut, seqLen: nat, li: nat, k: nat)
    requires Sized(c, G) && BackOutFits(c, b, seqLen) && li < c.nLayer && k < |G|
    ensures AddLayer(c, G, b, seqLen, li)[k] ==
      if Slot(li, 0) <= k < Slot(li, 0) + 6 then VecAdd(G[k], SlotDelta(c, b, seqLen, k)) else G[k]
  {
    SlotDeltaOfLayer(c, b, seqLen, li);
  }

  /** After the layer loop has reached layer li, the slots of layers li and
      above have gained their deltas, the others are untouched. */
  lemma {:induction false} AddLayersFromAt(c: Config, G: seq<Vec>, b: BackOut, seqLen: nat, li: nat, k: nat)
    requires Sized(c, G) && BackOutFits(c, b, seqLen) && li <= c.nLayer && k < |G|
    ensures AddLayersFrom(c, G, b, seqLen, li)[k] ==
      if Slot(li, 0) <= k then VecAdd(G[k], SlotDelta(c, b, seqLen, k)) else G[k]
    decreases c.nLayer - li, 1
  {
    if li < c.nLayer {
      AddLayersFromAtStep(c, G, b, seqLen, li, k);
    }
  }

  lemma {:induction false} AddLayersFromAtStep(c: Config, G: seq<Vec>, b: BackOut, seqLen: nat, li: nat, k: nat)
    requires Sized(c, G) && BackOutFits(c, b, seqLen) && li < c.nLayer && k < |G|
    ensures AddLayersFrom(c, G, b, seqLen, li)[k] ==
      if Slot(li, 0) <= k then VecAdd(G[k], SlotDelta(c, b, seqLen, k)) else G[k]
    decreases c.nLayer - li, 0
  {
    AddLayersFromAt(c, G, b, seqLen, li + 1, k);
    AddLayerAt(c, AddLayersFrom(c, G, b, seqLen, li + 1), b, seqLen, li, k);
  }

  /** The order of backward's `+=` loops does not matter: every parameter
      gains exactly its own delta, as ApplyBackward states. */
  lemma BackwardStepsApply(c: Config, G: seq<Vec>, sc: StepCache, b: BackOut, seqLen: nat)
    requires Sized(c, G) && BackOutFits(c, b, seqLen)
    ensures BackwardSteps(c, G, sc, b, seqLen) == ApplyBackward(c, G, sc, b, seqLen)
  {
    var g2 := AddSlot(c, G, 2, b.dWlm);
    var l := BackwardSteps(c, G, sc, b, seqLen);
    var r := ApplyBackward(c, G, sc, b, seqLen);
    forall k | 0 <= k < |G| ensures l[k] == r[k] {
      AddLayersFromAt(c, g2, b, seqLen, 0, k);
    }
  }
}
