/**
 * The inference visualizer's tracer (runInference and its matrix helpers):
 * the loops of the source, each proved to compute the VisualizerMath
 * function that specifies it.
 */
module VisualizerModel {
  import opened Numeric
  import Kernels
  import opened VisualizerMath

  /** `matMul(a, b)`: a zero matrix filled entry by entry, each entry summed
      by the innermost loop. */
  method MatMul(a: Matrix, b: Matrix) returns (result: Matrix)
    requires MulShapes(a, b)
    ensures result == Product(a, b)
  {
    var m, n, p := |a|, |a[0]|, |b[0]|;
    result := seq(m, _ => seq(p, _ => 0.0));
    for i := 0 to m
      invariant IsMatrix(result, m, p)
      invariant forall i', j :: 0 <= i' < i && 0 <= j < p ==> result[i'][j] == Inner(a, b, i', j, n)
    {
      for j := 0 to p
        invariant IsMatrix(result, m, p)
        invariant forall i', j' :: 0 <= i' < i && 0 <= j' < p ==> result[i'][j'] == Inner(a, b, i', j', n)
        invariant forall j' :: 0 <= j' < j ==> result[i][j'] == Inner(a, b, i, j', n)
      {
        var sum := 0.0;
        for k := 0 to n
          invariant sum == Inner(a, b, i, j, k)
        {
          sum := sum + a[i][k] * b[k][j];
        }
        result := result[i := result[i][j := sum]];
      }
    }
    assert forall i :: 0 <= i < m ==> result[i] == Product(a, b)[i];
  }

  /** `linear(x, w)`: matMul(x, transpose(w)). */
  method Linear(x: Matrix, w: Matrix) returns (r: Matrix)
    requires LinearShapes(x, w)
    ensures r == LinearOut(x, w)
  {
    var wT := VisualizerMath.Transpose(w);
    r := MatMul(x, wT);
  }

  /** The causal-mask loop: every score of a later position is overwritten
      with -1e9. */
  method MaskCausal(scores: Matrix) returns (masked: Matrix)
    requires IsMatrix(scores, |scores|, |scores|)
    ensures masked == Masked(scores)
  {
    var seqLen := |scores|;
    masked := scores;
    for r := 0 to seqLen
      invariant IsMatrix(masked, seqLen, seqLen)
      invariant forall i, j :: 0 <= i < seqLen && 0 <= j < seqLen ==>
        masked[i][j] == if i < r && j > i then MaskValue else scores[i][j]
    {
      for c := 0 to seqLen
        invariant IsMatrix(masked, seqLen, seqLen)
        invariant forall i, j :: 0 <= i < seqLen && 0 <= j < seqLen ==>
          masked[i][j] == if (i < r || (i == r && j < c)) && j > i then MaskValue else scores[i][j]
      {
        if c > r {
          masked := masked[r := masked[r][c := MaskValue]];
        }
      }
    }
    assert forall i :: 0 <= i < seqLen ==> masked[i] == Masked(scores)[i];
  }

  /** One iteration of the heads loop: q, k and v, the scaled and masked
      scores, their row softmax and the weighted sum of the values. */
  method AttentionHead(m: MathLib, x: Matrix, hw: HeadWeights, hs: nat, e: nat, scale: real) returns (h: HeadOut)
    requires Lawful(m) && |x| > 0 && e > 0 && hs > 0 && IsMatrix(x, |x|, e) && HeadShaped(hw, hs, e)
    ensures h == Head(m, x, hw, hs, e, scale)
  {
    var q := Linear(x, hw.query);
    var k := Linear(x, hw.key);
    var v := Linear(x, hw.value);
    var kT := VisualizerMath.Transpose(k);
    var scores := MatMul(q, kT);
    scores := ScaleM(scores, scale);
    scores := MaskCausal(scores);
    var attn := SoftmaxM(m, scores);
    var out := MatMul(attn, v);
    h := HeadOut(q, k, v, attn, out);
  }

  /** The concatenation loop: for every position, the heads' rows pushed
      one after the other. */
  method ConcatHeads(outs: seq<Matrix>, seqLen: nat, hs: nat) returns (c: Matrix)
    requires forall h :: 0 <= h < |outs| ==> IsMatrix(outs[h], seqLen, hs)
    ensures c == Concat(outs, seqLen, hs)
  {
    c := [];
    for r := 0 to seqLen
      invariant |c| == r && forall i :: 0 <= i < r ==> c[i] == Concat(outs, seqLen, hs)[i]
    {
      forall h | 0 <= h < |outs| ensures r < |outs[h]| && |outs[h][r]| == hs {
        assert IsMatrix(outs[h], seqLen, hs);
      }
      var row: seq<real> := [];
      for h := 0 to |outs|
        invariant row == JoinRow(outs, r, h, hs)
      {
        row := row + outs[h][r];
      }
      c := c + [row];
    }
  }

  /** The heads loop: every head of the block run on the normalised
      stream, in order. */
  method RunHeads(m: MathLib, x: Matrix, b: BlockWeights, nHead: nat, e: nat, scale: real) returns (heads: seq<HeadOut>)
    requires Lawful(m) && |x| > 0 && e > 0 && IsMatrix(x, |x|, e)
    requires nHead <= |b.heads| && 0 < HeadSize(b)
    requires forall h :: 0 <= h < nHead ==> HeadShaped(b.heads[h], HeadSize(b), e)
    ensures heads == Heads(m, x, b, e, scale, nHead)
  {
    heads := [];
    for h := 0 to nHead
      invariant heads == Heads(m, x, b, e, scale, h)
    {
      var out := AttentionHead(m, x, b.heads[h], HeadSize(b), e, scale);
      HeadsNext(m, x, b, e, scale, h);
      heads := heads + [out];
    }
  }

  /** The attention half of a layer: RMSNorm 1, the heads, the
      concatenation, the projection and residual 1. */
  method AttentionBlock(m: MathLib, x: Matrix, b: BlockWeights, nHead: nat, e: nat, scale: real) returns (a: AttentionOut)
    requires Lawful(m) && |x| > 0 && e > 0 && IsMatrix(x, |x|, e) && BlockShaped(b, nHead, e)
    ensures a == Attention(m, x, b, nHead, e, scale)
  {
    var preNorm1 := RmsNormM(m, x, b.ln1);
    var heads := RunHeads(m, preNorm1, b, nHead, e, scale);
    var concat := ConcatHeads(Outs(heads), |x|, HeadSize(b));
    MulPositive(nHead, HeadSize(b));
    var projected := Linear(concat, b.proj);
    a := AttentionOut(preNorm1, heads, AddM(x, projected));
  }

  /** The feed-forward half of a layer: RMSNorm 2, the up-projection, ReLU,
      the down-projection and residual 2. */
  method FeedForwardBlock(m: MathLib, x: Matrix, b: BlockWeights, e: nat) returns (f: FeedForwardOut)
    requires Lawful(m) && |x| > 0 && e > 0 && IsMatrix(x, |x|, e)
    requires |b.ln2| >= e && |b.net0| > 0 && IsMatrix(b.net0, |b.net0|, e) && IsMatrix(b.net2, e, |b.net0|)
    ensures f == FeedForward(m, x, b, e)
  {
    var preNorm2 := RmsNormM(m, x, b.ln2);
    var hiddenLin := Linear(preNorm2, b.net0);
    var ffnHidden := ReluM(hiddenLin);
    var ffnOut := Linear(ffnHidden, b.net2);
    f := FeedForwardOut(preNorm2, ffnHidden, ffnOut, AddM(x, ffnOut));
  }

  /** One iteration of the layer loop, with the layer's trace. */
  method TransformerBlock(m: MathLib, x: Matrix, b: BlockWeights, nHead: nat, e: nat, scale: real) returns (t: LayerTrace)
    requires Lawful(m) && |x| > 0 && e > 0 && IsMatrix(x, |x|, e) && BlockShaped(b, nHead, e)
    ensures t == Layer(m, x, b, nHead, e, scale)
  {
    var a := AttentionBlock(m, x, b, nHead, e, scale);
    var f := FeedForwardBlock(m, a.post, b, e);
    t := LayerTrace(a.preNorm1, Qs(a.heads), Ks(a.heads), Vs(a.heads), Attns(a.heads),
                    a.post, f.preNorm2, f.hidden, f.out, f.blockOutput);
  }

  /** The layer loop over config.n_layer blocks. */
  method RunLayers(m: MathLib, x0: Matrix, blocks: seq<BlockWeights>, nHead: nat, e: nat, scale: real, nLayer: nat)
    returns (x: Matrix, layerTraces: seq<LayerTrace>)
    requires Lawful(m) && |x0| > 0 && e > 0 && IsMatrix(x0, |x0|, e)
    requires nLayer <= |blocks| && forall i :: 0 <= i < nLayer ==> BlockShaped(blocks[i], nHead, e)
    ensures Pass(x, layerTraces) == Layers(m, x0, blocks, nHead, e, scale, nLayer)
  {
    var pass := Pass(x0, []);
    for i := 0 to nLayer
      invariant pass == Layers(m, x0, blocks, nHead, e, scale, i)
    {
      pass := NextLayer(m, x0, blocks, nHead, e, scale, nLayer, pass, i);
    }
    x, layerTraces := pass.x, pass.layers;
  }

  /** One iteration of the layer loop: the block's trace is pushed and its
      output becomes the stream. */
  method NextLayer(m: MathLib, x0: Matrix, blocks: seq<BlockWeights>, nHead: nat, e: nat, scale: real, nLayer: nat,
                   pass: Pass, i: nat) returns (next: Pass)
    requires Lawful(m) && |x0| > 0 && e > 0 && IsMatrix(x0, |x0|, e)
    requires nLayer <= |blocks| && forall i :: 0 <= i < nLayer ==> BlockShaped(blocks[i], nHead, e)
    requires i < nLayer && pass == Layers(m, x0, blocks, nHead, e, scale, i)
    ensures next == Layers(m, x0, blocks, nHead, e, scale, i + 1)
  {
    var t := TransformerBlock(m, pass.x, blocks[i], nHead, e, scale);
    next := Pass(t.blockOutput, pass.layers + [t]);
  }

  /** The final norm, the logits of the last position, temperature, top-k
      and the softmax. */
  method ReadoutBlock(m: MathLib, x: Matrix, e: nat, weights: ModelWeights, params: Params) returns (r: ReadoutOut)
    requires Lawful(m) && |x| > 0 && IsMatrix(x, |x|, e)
    requires |weights.lnF| >= e && IsMatrix(weights.lmHead, |weights.lmHead|, e)
    ensures r == Readout(m, x, e, weights, params)
  {
    var finalNorm := RmsNormM(m, x, weights.lnF);
    var lastState := finalNorm[|finalNorm| - 1];
    var logits := Logits(weights.lmHead, lastState);
    logits := Divided(logits, Temperature(params.temperature));
    if 0 < params.topK < |logits| {
      logits := TopK(logits, params.topK);
    }
    r := ReadoutOut(finalNorm, logits, Kernels.Softmax(m, logits));
  }

  /** The greedy choice: a running maximum from -1 at index 0, replaced by
      every strictly larger probability. */
  method ArgMax(probabilities: seq<real>) returns (predictedTokenId: nat)
    ensures predictedTokenId == FirstMax(probabilities)
  {
    var maxProb := -1.0;
    predictedTokenId := 0;
    for i := 0 to |probabilities|
      invariant Best(maxProb, predictedTokenId) == Scan(probabilities, i)
    {
      if probabilities[i] > maxProb {
        maxProb := probabilities[i];
        predictedTokenId := i;
      }
    }
  }

  /** `runInference(tokens, tokenIds, config, weights, params)`. */
  method RunInference(m: MathLib, tokens: seq<string>, tokenIds: seq<int>, config: ModelConfig,
                      weights: ModelWeights, params: Params) returns (trace: InferenceTrace)
    requires Lawful(m) && InferencePre(tokenIds, config, weights)
    ensures trace == Inference(m, tokens, tokenIds, config, weights, params)
  {
    var seqLen := |tokenIds|;
    var scale := AttentionScale(m, config);
    var tokenEmbeddings := TokenEmbeddings(tokenIds, weights);
    var posEmbeddings := weights.positionEmbedding[..seqLen];
    var x := AddM(tokenEmbeddings, posEmbeddings);
    var layerTraces;
    x, layerTraces := RunLayers(m, x, weights.blocks, config.nHead, config.nEmbd, scale, config.nLayer);
    var out := ReadoutBlock(m, x, config.nEmbd, weights, params);
    var predictedTokenId := ArgMax(out.probabilities);
    trace := InferenceTrace(tokens, tokenIds, tokenEmbeddings, posEmbeddings, layerTraces,
                            out.finalNorm, out.logits, out.probabilities, predictedTokenId, "");
  }
}
