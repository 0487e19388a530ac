/**
 * The MicroGPT class: weight tensors with gradients, the per-layer key/value
 * cache, forward, backward, zeroGrad, paramCount and trainStep. Every method
 * is proved to leave the weights and gradients that the functions of
 * ModelMath, BackwardMath and TrainMath describe.
 */
module Model {
  import opened Numeric
  import opened Tensors
  import opened Kernels
  import opened CpuKernels
  import opened ModelMath
  import opened BackwardMath
  import opened TrainMath

  /** The six weights of one transformer block. */
  datatype LayerParams = LayerParams(attnWq: Tensor, attnWk: Tensor, attnWv: Tensor,
                                     attnWo: Tensor, mlpFc1: Tensor, mlpFc2: Tensor)

  /** Weight j of a block, in `parameters()` order. */
  function LayerParam(lp: LayerParams, j: nat): Tensor
  {
    if j == 0 then lp.attnWq else if j == 1 then lp.attnWk else if j == 2 then lp.attnWv
    else if j == 3 then lp.attnWo else if j == 4 then lp.mlpFc1 else lp.mlpFc2
  }

  /** `kvKeys` and `kvValues`: per layer, the keys and values of the positions
      seen so far; forward pushes onto them. */
  class KVCache {
    var keys: seq<seq<Vec>>
    var values: seq<seq<Vec>>

    /** `Array.from({ length: nLayer }, () => [])` for both. */
    constructor (nLayer: nat)
      ensures keys == EmptyKV(nLayer) && values == EmptyKV(nLayer)
    {
      keys := EmptyKV(nLayer);
      values := EmptyKV(nLayer);
    }
  }

  /** A weight tensor as the constructor makes it: requiresGrad, a zero
      gradient of its own shape, and shape and size fixed by its slot. */
  ghost predicate ParamReady(c: Config, t: Tensor, k: nat)
  {
    && t.Valid() && t.requiresGrad && t.grad != null
    && t.shape == ParamShape(c, k) && t.size == ParamSize(c, k) && t.grad.size == ParamSize(c, k)
  }

  /** A fresh weight tensor holding `data`, with a fresh zero gradient. */
  method NewParam(c: Config, k: nat, data: Vec) returns (t: Tensor)
    requires |data| == ParamSize(c, k)
    ensures fresh(t) && fresh(t.buffer) && fresh(t.grad) && fresh(t.grad.buffer)
    ensures ParamReady(c, t, k) && t.Data() == data && t.GradData() == Zeros(ParamSize(c, k))
  {
    var n := |data|;
    var b := new real[n](i requires 0 <= i < n => data[i]);
    t := new Tensor(b, 0, n, ParamShape(c, k), true);
    assert b[0..n] == b[..] == data;
  }

  /** Zeroes the gradient of slot k of a parameter list; every weight and
      every other gradient stays. */
  method ZeroSlot(c: Config, ps: seq<Tensor>, k: nat)
    requires ParamsReady(c, ps) && k < |ps|
    modifies ps[k].grad.buffer
    ensures forall j :: 0 <= j < |ps| ==> ps[j].Data() == old(ps[j].Data())
    ensures forall j :: 0 <= j < |ps| ==>
      ps[j].GradData() == if j == k then Zeros(ParamSize(c, k)) else old(ps[j].GradData())
  {
    assert ParamReady(c, ps[k], k);
    ps[k].ZeroGrad();
    forall j | 0 <= j < |ps| ensures ps[j].Data() == old(ps[j].Data())
      && (j != k ==> ps[j].GradData() == old(ps[j].GradData()))
    {
      assert ParamReady(c, ps[j], j);
    }
  }

  /** `grad.data[i] += delta[i]` over the whole gradient of slot k, as
      backward and the second pass of trainStep do after each
      linearBackward; every weight and every other gradient stays. */
  method AccumulateSlot(c: Config, ps: seq<Tensor>, k: nat, delta: Vec)
    requires ParamsReady(c, ps) && k < |ps| && |delta| == ParamSize(c, k)
    modifies ps[k].grad.buffer
    ensures WeightsOf(c, ps) == old(WeightsOf(c, ps))
    ensures GradsOf(c, ps) == AddSlot(c, old(GradsOf(c, ps)), k, delta)
  {
    ghost var W0, G0 := WeightsOf(c, ps), GradsOf(c, ps);
    assert ParamReady(c, ps[k], k);
    var g := ps[k].grad;
    ghost var g0 := g.Data();
    var i := 0;
    while i < |delta|
      invariant 0 <= i <= |delta|
      invariant forall q :: 0 <= q < g.size ==>
        g.buffer[g.offset + q] == (if q < i then g0[q] + delta[q] else g0[q])
    {
      g.buffer[g.offset + i] := g.buffer[g.offset + i] + delta[i];
      i := i + 1;
    }
    assert g.Data() == VecAdd(g0, delta);
    forall j | 0 <= j < |ps| ensures ps[j].Data() == W0[j]
      && ps[j].GradData() == AddSlot(c, G0, k, delta)[j]
    {
      assert ParamReady(c, ps[j], j);
    }
  }

  /** `embeddingBackward(dOut, table, index)` on slot k (wte or wpe): row
      `index` of its gradient gains dOut; everything else stays. */
  method AccumulateRow(c: Config, ps: seq<Tensor>, k: nat, dOut: Tensor, index: nat)
    requires ParamsReady(c, ps) && k < 2 && dOut.Valid() && dOut.size == c.nEmbd
    requires forall j :: 0 <= j < |ps| ==> dOut.buffer != ps[j].grad.buffer
    modifies ps[k].grad.buffer
    ensures WeightsOf(c, ps) == old(WeightsOf(c, ps))
    ensures GradsOf(c, ps) == old(GradsOf(c, ps))[k := AddIntoRow(old(GradsOf(c, ps))[k], c.nEmbd, index, dOut.Data())]
  {
    ghost var W0, G0 := WeightsOf(c, ps), GradsOf(c, ps);
    ghost var want := G0[k := AddIntoRow(G0[k], c.nEmbd, index, dOut.Data())];
    assert ParamReady(c, ps[k], k);
    assert dOut.buffer != ps[k].grad.buffer;
    EmbeddingBackward(dOut, ps[k], index);
    forall j | 0 <= j < |ps| ensures ps[j].Data() == W0[j] && ps[j].GradData() == want[j] {
      assert ParamReady(c, ps[j], j);
    }
  }

  /** The weight-gradient `+=` loops backward runs for layer li, in its
      order (AddLayer). */
  method AccumulateLayer(c: Config, ps: seq<Tensor>, li: nat, b: BackOut, seqLen: nat)
    requires ParamsReady(c, ps) && li < c.nLayer && BackOutFits(c, b, seqLen)
    modifies GradBufferSet(ps)
    ensures WeightsOf(c, ps) == old(WeightsOf(c, ps))
    ensures GradsOf(c, ps) == AddLayer(c, old(GradsOf(c, ps)), b, seqLen, li)
  {
    var lb := b.layers[li];
    assert LayerBackFits(c, lb, seqLen);
    SlotsOfLayer(c, li);
    GradBuffersIn(ps);
    AccumulateSlot(c, ps, Slot(li, 5), lb.dFc2);
    AccumulateSlot(c, ps, Slot(li, 4), lb.dFc1);
    AccumulateSlot(c, ps, Slot(li, 3), lb.dWo);
    AccumulateSlot(c, ps, Slot(li, 0), lb.dWq);
    AccumulateSlot(c, ps, Slot(li, 1), lb.dWk);
    AccumulateSlot(c, ps, Slot(li, 2), lb.dWv);
  }

  /** Every gradient buffer of the list is in its gradient footprint. */
  lemma GradBuffersIn(ps: seq<Tensor>)
    requires forall j :: 0 <= j < |ps| ==> ps[j].grad != null
    ensures forall j :: 0 <= j < |ps| ==> ps[j].grad.buffer in GradBufferSet(ps)
  {
  }

  /** backward's reverse layer loop of `+=` (AddLayersFrom). */
  method AccumulateLayers(c: Config, ps: seq<Tensor>, b: BackOut, seqLen: nat)
    requires ParamsReady(c, ps) && BackOutFits(c, b, seqLen)
    modifies GradBufferSet(ps)
    ensures WeightsOf(c, ps) == old(WeightsOf(c, ps))
    ensures GradsOf(c, ps) == AddLayersFrom(c, old(GradsOf(c, ps)), b, seqLen, 0)
  {
    ghost var W0, G0 := WeightsOf(c, ps), GradsOf(c, ps);
    var li := c.nLayer;
    while li > 0
      invariant 0 <= li <= c.nLayer
      invariant WeightsOf(c, ps) == W0
      invariant GradsOf(c, ps) == AddLayersFrom(c, G0, b, seqLen, li)
    {
      li := li - 1;
      AccumulateLayerAfter(c, ps, li, b, seqLen, G0);
    }
  }

  /** One turn of that loop: layer li's `+=` after those of the later layers. */
  method AccumulateLayerAfter(c: Config, ps: seq<Tensor>, li: nat, b: BackOut, seqLen: nat, ghost G0: seq<Vec>)
    requires ParamsReady(c, ps) && li < c.nLayer && BackOutFits(c, b, seqLen) && Sized(c, G0)
    requires GradsOf(c, ps) == AddLayersFrom(c, G0, b, seqLen, li + 1)
    modifies GradBufferSet(ps)
    ensures WeightsOf(c, ps) == old(WeightsOf(c, ps))
    ensures GradsOf(c, ps) == AddLayersFrom(c, G0, b, seqLen, li)
  {
    AccumulateLayer(c, ps, li, b, seqLen);
  }

  /** The `+=` part of backward for the gradients b, in its order
      (BackwardSteps): lmHead, the layers, then the two embedding rows. */
  method BackwardStepsOn(c: Config, ps: seq<Tensor>, sc: StepCache, b: BackOut, seqLen: nat)
    requires ParamsReady(c, ps) && BackOutFits(c, b, seqLen)
    modifies GradBufferSet(ps)
    ensures WeightsOf(c, ps) == old(WeightsOf(c, ps))
    ensures GradsOf(c, ps) == BackwardSteps(c, old(GradsOf(c, ps)), sc, b, seqLen)
  {
    AccumulateHeadAndLayers(c, ps, b, seqLen);
    AccumulateRows(c, ps, b.dXPreNorm, sc.tokenId, sc.posId);
  }

  /** lmHead's `+=`, then the layers' from the last to the first. */
  method AccumulateHeadAndLayers(c: Config, ps: seq<Tensor>, b: BackOut, seqLen: nat)
    requires ParamsReady(c, ps) && BackOutFits(c, b, seqLen)
    modifies GradBufferSet(ps)
    ensures WeightsOf(c, ps) == old(WeightsOf(c, ps))
    ensures GradsOf(c, ps) == AddLayersFrom(c, AddSlot(c, old(GradsOf(c, ps)), 2, b.dWlm), b, seqLen, 0)
  {
    GradBuffersIn(ps);
    assert ParamReady(c, ps[2], 2);
    AccumulateSlot(c, ps, 2, b.dWlm);
    AccumulateLayers(c, ps, b, seqLen);
  }

  /** embeddingBackward into row tokenId of wte, then row posId of wpe. */
  method AccumulateRows(c: Config, ps: seq<Tensor>, delta: Vec, tokenId: nat, posId: nat)
    requires ParamsReady(c, ps) && |delta| == c.nEmbd
    modifies GradBufferSet(ps)
    ensures WeightsOf(c, ps) == old(WeightsOf(c, ps))
    ensures var G0 := old(GradsOf(c, ps));
      var gt := G0[0 := AddIntoRow(G0[0], c.nEmbd, tokenId, delta)];
      GradsOf(c, ps) == gt[1 := AddIntoRow(gt[1], c.nEmbd, posId, delta)]
  {
    var dOut := Tensor.From(Flat(delta), false);
    GradBuffersIn(ps);
    AccumulateRow(c, ps, 0, dOut, tokenId);
    AccumulateRow(c, ps, 1, dOut, posId);
  }

  /** The `+=` part of backward for the gradients b leaves ApplyBackward's
      gradient contents. */
  method ApplyBackwardTo(c: Config, ps: seq<Tensor>, sc: StepCache, b: BackOut, seqLen: nat)
    requires ParamsReady(c, ps) && BackOutFits(c, b, seqLen)
    modifies GradBufferSet(ps)
    ensures WeightsOf(c, ps) == old(WeightsOf(c, ps))
    ensures GradsOf(c, ps) == ApplyBackward(c, old(GradsOf(c, ps)), sc, b, seqLen)
  {
    ghost var G0 := GradsOf(c, ps);
    BackwardStepsOn(c, ps, sc, b, seqLen);
    BackwardStepsApply(c, G0, sc, b, seqLen);
  }

  /** The keys (values) the layer caches hold, layer by layer. */
  function KeysOf(lcs: seq<LayerCache>): (ks: seq<Vec>)
    ensures |ks| == |lcs|
  {
    seq(|lcs|, j requires 0 <= j < |lcs| => lcs[j].k)
  }

  function ValuesOf(lcs: seq<LayerCache>): (vs: seq<Vec>)
    ensures |vs| == |lcs|
  {
    seq(|lcs|, j requires 0 <= j < |lcs| => lcs[j].v)
  }

  /** The caches after the first |xs| layers have pushed xs. */
  function Pushed(K: seq<seq<Vec>>, xs: seq<Vec>): (r: seq<seq<Vec>>)
    requires |xs| <= |K|
    ensures |r| == |K|
  {
    seq(|K|, j requires 0 <= j < |K| => if j < |xs| then K[j] + [xs[j]] else K[j])
  }

  lemma PushedStep(K: seq<seq<Vec>>, xs: seq<Vec>, x: Vec)
    requires |xs| < |K|
    ensures Pushed(K, xs + [x]) == Pushed(K, xs)[|xs| := K[|xs|] + [x]]
  {
  }

  lemma LayersAppend(lcs: seq<LayerCache>, lc: LayerCache)
    ensures KeysOf(lcs + [lc]) == KeysOf(lcs) + [lc.k] && ValuesOf(lcs + [lc]) == ValuesOf(lcs) + [lc.v]
  {
  }

  /** Once every layer has pushed, the caches are PushKeys and PushValues of
      the step. */
  lemma PushedAll(K: seq<seq<Vec>>, V: seq<seq<Vec>>, sc: StepCache)
    requires |sc.layers| == |K| == |V|
    ensures Pushed(K, KeysOf(sc.layers)) == PushKeys(K, sc)
    ensures Pushed(V, ValuesOf(sc.layers)) == PushValues(V, sc)
  {
  }

  /** forward's layer loop: each block runs on the previous block's output;
      its key and value are pushed onto the layer's cache before attention,
      which then sees the cached positions and the current one. The weights
      P of the parameter list ps stay as they are. */
  method ForwardLayers(m: MathLib, c: Config, ps: seq<Tensor>, P: seq<Vec>, x0: Vec, kv: KVCache)
    returns (lcs: seq<LayerCache>)
    requires ParamsReady(c, ps) && P == WeightsOf(c, ps)
    requires Lawful(m) && Supported(c) && |x0| == c.nEmbd && KVFits(c, kv.keys, kv.values)
    modifies kv`keys, kv`values
    ensures lcs == LayersUpTo(m, c, P, x0, old(kv.keys), old(kv.values), c.nLayer)
    ensures kv.keys == Pushed(old(kv.keys), KeysOf(lcs)) && kv.values == Pushed(old(kv.values), ValuesOf(lcs))
    ensures WeightsOf(c, ps) == P
  {
    ghost var K0, V0 := kv.keys, kv.values;
    lcs := [];
    assert Pushed(K0, KeysOf(lcs)) == K0 && Pushed(V0, ValuesOf(lcs)) == V0;
    var li := 0;
    while li < c.nLayer
      invariant 0 <= li <= c.nLayer
      invariant lcs == LayersUpTo(m, c, P, x0, K0, V0, li)
      invariant kv.keys == Pushed(K0, KeysOf(lcs)) && kv.values == Pushed(V0, ValuesOf(lcs))
      invariant WeightsOf(c, ps) == P
    {
      lcs := ForwardLayer(m, c, ps, P, x0, kv, li, K0, V0, lcs);
      li := li + 1;
    }
  }

  /** One turn of the layer loop: layer li runs on the previous layer's
      output, after its key and value are pushed onto its caches. */
  method ForwardLayer(m: MathLib, c: Config, ps: seq<Tensor>, P: seq<Vec>, x0: Vec, kv: KVCache, li: nat,
                      ghost K0: seq<seq<Vec>>, ghost V0: seq<seq<Vec>>, lcs: seq<LayerCache>)
    returns (next: seq<LayerCache>)
    requires ParamsReady(c, ps) && P == WeightsOf(c, ps)
    requires Lawful(m) && Supported(c) && |x0| == c.nEmbd && KVFits(c, K0, V0) && li < c.nLayer
    requires lcs == LayersUpTo(m, c, P, x0, K0, V0, li)
    requires kv.keys == Pushed(K0, KeysOf(lcs)) && kv.values == Pushed(V0, ValuesOf(lcs))
    modifies kv`keys, kv`values
    ensures next == LayersUpTo(m, c, P, x0, K0, V0, li + 1)
    ensures kv.keys == Pushed(K0, KeysOf(next)) && kv.values == Pushed(V0, ValuesOf(next))
    ensures WeightsOf(c, ps) == P
  {
    assert kv.keys[li] == K0[li] && kv.values[li] == V0[li];
    LayersUpToStep(m, c, P, x0, K0, V0, li);
    var lc := LayerForward(m, c, P, li, XOut(x0, lcs), kv.keys[li], kv.values[li]);
    PushedStep(K0, KeysOf(lcs), lc.k);
    PushedStep(V0, ValuesOf(lcs), lc.v);
    LayersAppend(lcs, lc);
    PushLayer(c, ps, kv, li, lc.k, lc.v);
    next := lcs + [lc];
  }

  /** `kvKeys[li].push(k)` and `kvValues[li].push(v)`: no weight changes. */
  method PushLayer(c: Config, ps: seq<Tensor>, kv: KVCache, li: nat, k: Vec, v: Vec)
    requires ParamsReady(c, ps) && li < |kv.keys| && li < |kv.values|
    modifies kv`keys, kv`values
    ensures kv.keys == old(kv.keys)[li := old(kv.keys)[li] + [k]]
    ensures kv.values == old(kv.values)[li := old(kv.values)[li] + [v]]
    ensures WeightsOf(c, ps) == old(WeightsOf(c, ps))
  {
    kv.keys := kv.keys[li := kv.keys[li] + [k]];
    kv.values := kv.values[li := kv.values[li] + [v]];
  }

  /** The start of forward: the token and position rows, their sum and its
      rmsNorm. */
  method EmbedInput(m: MathLib, c: Config, wte: Tensor, wpe: Tensor, tokenId: nat, posId: nat)
    returns (tokEmb: Vec, posEmb: Vec, xInitNorm: Vec, rmsInit: real)
    requires ParamReady(c, wte, 0) && ParamReady(c, wpe, 1) && Lawful(m) && Supported(c)
    requires tokenId < c.vocabSize && posId < c.blockSize
    ensures (tokenId + 1) * c.nEmbd <= |wte.Data()| && (posId + 1) * c.nEmbd <= |wpe.Data()|
    ensures tokEmb == RowOf(wte.Data(), c.nEmbd, tokenId)
    ensures posEmb == RowOf(wpe.Data(), c.nEmbd, posId)
    ensures xInitNorm == RmsNorm(m, VecAdd(tokEmb, posEmb), RmsEps)
    ensures rmsInit == Rms(m, VecAdd(tokEmb, posEmb), RmsEps)
  {
    var E := c.nEmbd;
    MulMonotone(tokenId + 1, c.vocabSize, E);
    MulMonotone(posId + 1, c.blockSize, E);
    var te := EmbeddingLookup(wte, tokenId);
    var pe := EmbeddingLookup(wpe, posId);
    ProductOfPair(0, E);
    var x := AddOp(te, pe);
    var xn, rms := RmsNormOp(m, x, RmsEps);
    tokEmb, posEmb, xInitNorm, rmsInit := te.Data(), pe.Data(), xn.Data(), rms;
  }

  /** The embedding step on the parameter list ps, whose weights are P. */
  method EmbedInputOn(m: MathLib, c: Config, ps: seq<Tensor>, P: seq<Vec>, tokenId: nat, posId: nat)
    returns (tokEmb: Vec, posEmb: Vec, xInitNorm: Vec, rmsInit: real)
    requires ParamsReady(c, ps) && P == WeightsOf(c, ps) && Lawful(m) && Supported(c)
    requires tokenId < c.vocabSize && posId < c.blockSize
    ensures (tokenId + 1) * c.nEmbd <= |P[0]| && (posId + 1) * c.nEmbd <= |P[1]|
    ensures tokEmb == RowOf(P[0], c.nEmbd, tokenId)
    ensures posEmb == RowOf(P[1], c.nEmbd, posId)
    ensures xInitNorm == RmsNorm(m, VecAdd(tokEmb, posEmb), RmsEps)
    ensures rmsInit == Rms(m, VecAdd(tokEmb, posEmb), RmsEps)
    ensures WeightsOf(c, ps) == P
  {
    assert ParamReady(c, ps[0], 0) && ParamReady(c, ps[1], 1);
    tokEmb, posEmb, xInitNorm, rmsInit := EmbedInput(m, c, ps[0], ps[1], tokenId, posId);
    forall k | 0 <= k < |ps| ensures ps[k].Data() == P[k] {
      assert ParamReady(c, ps[k], k);
    }
  }

  /** The end of forward: `linear(x, lmHead)`. */
  method LmHeadOn(c: Config, ps: seq<Tensor>, P: seq<Vec>, x: Vec) returns (logits: Vec)
    requires ParamsReady(c, ps) && P == WeightsOf(c, ps) && |x| == c.nEmbd
    ensures logits == Linear(P[2], x, c.vocabSize, c.nEmbd)
    ensures WeightsOf(c, ps) == P
  {
    assert ParamReady(c, ps[2], 2);
    var lmHead := ps[2];
    var xOut := Tensor.From(Flat(x), false);
    ProductOfPair(c.vocabSize, c.nEmbd);
    var out := LinearOp(xOut, lmHead);
    logits := out.Data();
  }

  /** `forward(tokenId, posId, kvKeys, kvValues)` on the parameter list ps:
      the embedding rows, their sum and its rmsNorm, the layer loop (which
      pushes each layer's key and value), and lmHead on the last layer's
      output. Only the caches change. */
  method ForwardOn(m: MathLib, c: Config, ps: seq<Tensor>, tokenId: nat, posId: nat, kv: KVCache)
    returns (logits: Vec, cache: StepCache)
    requires ParamsReady(c, ps) && Lawful(m) && Supported(c) && KVFits(c, kv.keys, kv.values)
    requires tokenId < c.vocabSize && posId < c.blockSize
    modifies kv`keys, kv`values
    ensures ForwardOut(logits, cache) == ModelMath.Forward(m, c, old(WeightsOf(c, ps)), tokenId, posId, old(kv.keys), old(kv.values))
    ensures kv.keys == PushKeys(old(kv.keys), cache) && kv.values == PushValues(old(kv.values), cache)
    ensures WeightsOf(c, ps) == old(WeightsOf(c, ps))
  {
    var P := WeightsOf(c, ps);
    ghost var K0, V0 := kv.keys, kv.values;
    var tokEmb, posEmb, xInitNorm, rmsInit := EmbedInputOn(m, c, ps, P, tokenId, posId);
    var lcs := ForwardLayers(m, c, ps, P, xInitNorm, kv);
    logits := LmHeadOn(c, ps, P, XOut(xInitNorm, lcs));
    cache := StepCache(tokenId, posId, tokEmb, posEmb, xInitNorm, rmsInit, lcs);
    ForwardParts(m, c, P, tokenId, posId, K0, V0, tokEmb, posEmb, xInitNorm, rmsInit, lcs, logits);
    PushedAll(K0, V0, cache);
  }

  // ------------------------------------------------------- parameter lists

  ghost function TensorSet(ps: seq<Tensor>): set<Tensor>
  {
    set k | 0 <= k < |ps| :: ps[k]
  }

  ghost function BufferSet(ps: seq<Tensor>): set<array<real>>
  {
    set k | 0 <= k < |ps| :: ps[k].buffer
  }

  ghost function GradSet(ps: seq<Tensor>): set<Tensor>
  {
    set k | 0 <= k < |ps| && ps[k].grad != null :: ps[k].grad
  }

  ghost function GradBufferSet(ps: seq<Tensor>): set<array<real>>
  {
    set k | 0 <= k < |ps| && ps[k].grad != null :: ps[k].grad.buffer
  }

  /** Every tensor has a gradient, no weight buffer and no other gradient
      buffer is a gradient's buffer, and no two weights share a buffer. */
  ghost predicate BuffersApart(ps: seq<Tensor>)
  {
    && (forall j :: 0 <= j < |ps| ==> ps[j].grad != null)
    && (forall i, j :: 0 <= i < |ps| && 0 <= j < |ps| ==> ps[i].buffer != ps[j].grad.buffer)
    && (forall i, j :: 0 <= i < |ps| && 0 <= j < |ps| && i != j ==> ps[i].buffer != ps[j].buffer)
    && (forall i, j :: 0 <= i < |ps| && 0 <= j < |ps| && i != j ==> ps[i].grad.buffer != ps[j].grad.buffer)
  }

  /** The parameters of a model of configuration c, each ready, the
      gradients apart. */
  ghost predicate ParamsReady(c: Config, ps: seq<Tensor>)
  {
    && |ps| == NumParams(c.nLayer)
    && (forall k :: 0 <= k < |ps| ==> ParamReady(c, ps[k], k))
    && BuffersApart(ps)
  }

  /** The weight contents of a parameter list. */
  function WeightsOf(c: Config, ps: seq<Tensor>): (W: seq<Vec>)
    reads BufferSet(ps)
    requires ParamsReady(c, ps)
    ensures |W| == |ps| && forall k :: 0 <= k < |W| ==> W[k] == ps[k].Data()
    ensures Fits(c, W)
  {
    var W := seq(|ps|, k requires 0 <= k < |ps| && ParamReady(c, ps[k], k)
      reads BufferSet(ps) => ps[k].Data());
    FitsBySize(c, W);
    W
  }

  /** The gradient contents of a parameter list. */
  function GradsOf(c: Config, ps: seq<Tensor>): (G: seq<Vec>)
    reads BufferSet(ps), GradBufferSet(ps)
    requires ParamsReady(c, ps)
    ensures |G| == |ps| && forall k :: 0 <= k < |G| ==> G[k] == ps[k].GradData()
    ensures Sized(c, G)
  {
    seq(|ps|, k requires 0 <= k < |ps| && ParamReady(c, ps[k], k)
      reads BufferSet(ps), GradBufferSet(ps) => ps[k].GradData())
  }

  /** ps holds slots 0 .. |ps|-1 as the constructor leaves them. */
  ghost predicate Built(c: Config, init: seq<Vec>, ps: seq<Tensor>)
    reads BufferSet(ps), GradBufferSet(ps)
  {
    && |ps| <= |init|
    && (forall i :: 0 <= i < |ps| ==> (ParamReady(c, ps[i], i)
          && ps[i].Data() == init[i] && ps[i].GradData() == Zeros(ps[i].size)))
    && BuffersApart(ps)
  }

  lemma BuiltExtend(c: Config, init: seq<Vec>, ps: seq<Tensor>, t: Tensor)
    requires Built(c, init, ps) && |ps| < |init|
    requires ParamReady(c, t, |ps|) && t.Data() == init[|ps|] && t.GradData() == Zeros(t.size)
    requires forall i :: 0 <= i < |ps| ==> (ps[i].grad != null && t.buffer != ps[i].grad.buffer
      && t.grad.buffer != ps[i].buffer && t.grad.buffer != ps[i].grad.buffer && t.buffer != ps[i].buffer)
    ensures Built(c, init, ps + [t])
  {
    var qs := ps + [t];
    forall i | 0 <= i < |qs|
      ensures ParamReady(c, qs[i], i) && qs[i].Data() == init[i] && qs[i].GradData() == Zeros(qs[i].size)
    {
      if i < |ps| {
        assert qs[i] == ps[i];
      }
    }
    ApartExtend(ps, t);
  }

  lemma ApartExtend(ps: seq<Tensor>, t: Tensor)
    requires BuffersApart(ps) && t.grad != null && t.grad.buffer != t.buffer
    requires forall i :: 0 <= i < |ps| ==> (ps[i].grad != null && t.buffer != ps[i].grad.buffer
      && t.grad.buffer != ps[i].buffer && t.grad.buffer != ps[i].grad.buffer && t.buffer != ps[i].buffer)
    ensures BuffersApart(ps + [t])
  {
    var qs := ps + [t];
    forall i, j | 0 <= i < |qs| && 0 <= j < |qs|
      ensures qs[j].grad != null && qs[i].buffer != qs[j].grad.buffer
      ensures i != j ==> qs[i].grad.buffer != qs[j].grad.buffer && qs[i].buffer != qs[j].buffer
    {
      if i < |ps| { assert qs[i] == ps[i]; }
      if j < |ps| { assert qs[j] == ps[j]; }
    }
  }

  /** A complete list leaves the weights `init` and zero gradients. */
  lemma BuiltReady(c: Config, init: seq<Vec>, ps: seq<Tensor>)
    requires Built(c, init, ps) && |ps| == NumParams(c.nLayer) && |init| == |ps|
    ensures ParamsReady(c, ps) && WeightsOf(c, ps) == init && GradsOf(c, ps) == ZeroGrads(c)
  {
    assert ParamsReady(c, ps);
    var G := GradsOf(c, ps);
    forall k | 0 <= k < |ps| ensures G[k] == ZeroGrads(c)[k] {
      assert ParamReady(c, ps[k], k);
    }
  }

  /** The constructor's tensors, one per slot in `parameters()` order, each
      fresh, holding its initial weights and a zero gradient. */
  method NewParams(c: Config, init: seq<Vec>) returns (ps: seq<Tensor>)
    requires Fits(c, init)
    ensures |ps| == NumParams(c.nLayer) && Built(c, init, ps)
    ensures forall i :: 0 <= i < |ps| ==> fresh(ps[i]) && fresh(ps[i].buffer) && fresh(ps[i].grad) && fresh(ps[i].grad.buffer)
  {
    FitsBySize(c, init);
    var np := NumParams(c.nLayer);
    ps := [];
    var k := 0;
    while k < np
      invariant 0 <= k <= np && |ps| == k
      invariant Built(c, init, ps)
      invariant forall i :: 0 <= i < |ps| ==> fresh(ps[i]) && fresh(ps[i].buffer) && fresh(ps[i].grad) && fresh(ps[i].grad.buffer)
    {
      var t := NewParam(c, k, init[k]);
      BuiltExtend(c, init, ps, t);
      ps := ps + [t];
      k := k + 1;
    }
  }

  /** The list `parameters()` builds: the three tables, then every layer's
      six weights in declaration order. */
  function ParamList(wte: Tensor, wpe: Tensor, lmHead: Tensor, layers: seq<LayerParams>): (ps: seq<Tensor>)
    ensures |ps| == NumParams(|layers|)
    ensures ps[0] == wte && ps[1] == wpe && ps[2] == lmHead
  {
    seq(NumParams(|layers|), k requires 0 <= k < NumParams(|layers|) => ListAt(wte, wpe, lmHead, layers, k))
  }

  function ListAt(wte: Tensor, wpe: Tensor, lmHead: Tensor, layers: seq<LayerParams>, k: nat): Tensor
    requires k < NumParams(|layers|)
  {
    if k == 0 then wte else if k == 1 then wpe else if k == 2 then lmHead
    else
      DivBound(k - 3, |layers|, 6);
      LayerParam(layers[(k - 3) / 6], (k - 3) % 6)
  }

  /** Slot (li, j) of the list is weight j of layer li. */
  lemma ParamListSlot(wte: Tensor, wpe: Tensor, lmHead: Tensor, layers: seq<LayerParams>, li: nat, j: nat)
    requires li < |layers| && j < 6
    ensures Slot(li, j) < NumParams(|layers|)
    ensures ParamList(wte, wpe, lmHead, layers)[Slot(li, j)] == LayerParam(layers[li], j)
  {
    SlotInverse(li, j);
  }

  /** The blocks of a flat list of parameters, six per layer. */
  function Blocks(ps: seq<Tensor>, nLayer: nat): (ls: seq<LayerParams>)
    requires |ps| == NumParams(nLayer)
    ensures |ls| == nLayer
  {
    seq(nLayer, li requires 0 <= li < nLayer =>
      LayerParams(ps[Slot(li, 0)], ps[Slot(li, 1)], ps[Slot(li, 2)], ps[Slot(li, 3)], ps[Slot(li, 4)], ps[Slot(li, 5)]))
  }

  lemma BlockAt(ps: seq<Tensor>, nLayer: nat, k: nat)
    requires |ps| == NumParams(nLayer) && 3 <= k < |ps|
    ensures (k - 3) / 6 < nLayer
    ensures LayerParam(Blocks(ps, nLayer)[(k - 3) / 6], (k - 3) % 6) == ps[k]
  {
    var li, j := (k - 3) / 6, (k - 3) % 6;
    DivBound(k - 3, nLayer, 6);
    assert k == Slot(li, j);
    var lp := Blocks(ps, nLayer)[li];
    if j == 0 { assert LayerParam(lp, j) == ps[Slot(li, 0)]; }
    else if j == 1 { assert LayerParam(lp, j) == ps[Slot(li, 1)]; }
    else if j == 2 { assert LayerParam(lp, j) == ps[Slot(li, 2)]; }
    else if j == 3 { assert LayerParam(lp, j) == ps[Slot(li, 3)]; }
    else if j == 4 { assert LayerParam(lp, j) == ps[Slot(li, 4)]; }
    else { assert LayerParam(lp, j) == ps[Slot(li, 5)]; }
  }

  /** Regrouping a flat list into blocks and listing it again gives it back. */
  lemma ParamListOfBlocks(ps: seq<Tensor>, nLayer: nat)
    requires |ps| == NumParams(nLayer)
    ensures ParamList(ps[0], ps[1], ps[2], Blocks(ps, nLayer)) == ps
  {
    var ls := Blocks(ps, nLayer);
    var qs := ParamList(ps[0], ps[1], ps[2], ls);
    forall k | 3 <= k < |ps| ensures qs[k] == ps[k] {
      BlockAt(ps, nLayer, k);
    }
  }

  class MicroGPT {
    const config: Config
    /** token embedding [vocabSize, nEmbd] */
    const wte: Tensor
    /** position embedding [blockSize, nEmbd] */
    const wpe: Tensor
    /** output projection [vocabSize, nEmbd] */
    const lmHead: Tensor
    const layers: seq<LayerParams>

    /** `parameters()`: wte, wpe, lmHead, then each layer's six weights. */
    function Parameters(): (ps: seq<Tensor>)
      ensures |ps| == NumParams(|layers|)
    {
      ParamList(wte, wpe, lmHead, layers)
    }

    ghost function Tensors(): set<Tensor> { TensorSet(Parameters()) }
    ghost function WeightBuffers(): set<array<real>> { BufferSet(Parameters()) }
    ghost function GradTensors(): set<Tensor> { GradSet(Parameters()) }
    ghost function GradBuffers(): set<array<real>> { GradBufferSet(Parameters()) }

    /** Every parameter is ready and every gradient buffer is its own. */
    ghost predicate Valid()
    {
      |layers| == config.nLayer && ParamsReady(config, Parameters())
    }

    /** The weights, in `parameters()` order. */
    function Weights(): (W: seq<Vec>)
      reads WeightBuffers()
      requires Valid()
      ensures Fits(config, W)
    {
      WeightsOf(config, Parameters())
    }

    /** The gradients, in `parameters()` order. */
    function Grads(): (G: seq<Vec>)
      reads WeightBuffers(), GradBuffers()
      requires Valid()
      ensures Sized(config, G)
    {
      GradsOf(config, Parameters())
    }

    /** `new MicroGPT(config)` with the weights `init` the random draws gave,
        in `parameters()` order; every gradient starts at zero. */
    constructor (config: Config, init: seq<Vec>)
      requires Fits(config, init)
      ensures this.config == config && Valid()
      ensures Weights() == init && Grads() == ZeroGrads(config)
      ensures fresh(Tensors()) && fresh(WeightBuffers()) && fresh(GradTensors()) && fresh(GradBuffers())
    {
      var ps := NewParams(config, init);
      this.config := config;
      wte := ps[0];
      wpe := ps[1];
      lmHead := ps[2];
      layers := Blocks(ps, config.nLayer);
      new;
      ParamListOfBlocks(ps, config.nLayer);
      BuiltReady(config, init, ps);
    }

    /** `paramCount()`: the sizes of all parameters added in order, which is
        what `computeParamCount` gives in closed form. */
    method ParamCount() returns (count: nat)
      requires Valid()
      ensures count == SizesUpTo(config, NumParams(config.nLayer))
      ensures count == ComputeParamCount(config)
      ensures Weights() == old(Weights())
    {
      var ps := Parameters();
      count := 0;
      var i := 0;
      while i < |ps|
        invariant 0 <= i <= |ps|
        invariant count == SizesUpTo(config, i)
      {
        assert ParamReady(config, ps[i], i);
        count := count + ps[i].size;
        i := i + 1;
      }
      ParamCountClosedForm(config);
    }

    /** `grad.data[i] += delta[i]` over a whole gradient, as backward and the
        second pass of trainStep do: only gradient k changes. */
    method AddIntoGrad(k: nat, delta: Vec)
      requires Valid() && k < |Parameters()| && |delta| == ParamSize(config, k)
      modifies Parameters()[k].grad.buffer
      ensures Valid() && Weights() == old(Weights())
      ensures Grads() == old(Grads())[k := VecAdd(old(Grads())[k], delta)]
    {
      var ps := Parameters();
      assert ParamReady(config, ps[k], k);
      AccumulateSlot(config, ps, k, delta);
    }

    /** `forward(tokenId, posId, kvKeys, kvValues)` (ForwardOn). */
    method Forward(m: MathLib, tokenId: nat, posId: nat, kv: KVCache) returns (logits: Vec, cache: StepCache)
      requires Valid() && Lawful(m) && Supported(config) && KVFits(config, kv.keys, kv.values)
      requires tokenId < config.vocabSize && posId < config.blockSize
      modifies kv`keys, kv`values
      ensures Valid() && Weights() == old(Weights())
      ensures ForwardOut(logits, cache) == ModelMath.Forward(m, config, Weights(), tokenId, posId, old(kv.keys), old(kv.values))
      ensures kv.keys == PushKeys(old(kv.keys), cache) && kv.values == PushValues(old(kv.values), cache)
    {
      var ps := Parameters();
      ghost var W0 := Weights();
      logits, cache := ForwardOn(m, config, ps, tokenId, posId, kv);
    }

    /** `backward(dLogits, cache, kvKeys, kvValues, posInSeq)`: the gradients
        of one position (with the per-position dV and dK of every layer,
        which the source returns as crossGrads), added into the parameters'
        gradients in backward's order. */
    method Backward(m: MathLib, dLogits: Vec, cache: StepCache, kv: KVCache, posInSeq: nat) returns (cross: BackOut)
      requires Valid() && Lawful(m) && Supported(config) && config.nLayer > 0
      requires StepCacheAttended(config, cache, posInSeq + 1) && KVReach(config, kv.keys, kv.values, posInSeq + 1)
      requires |dLogits| == config.vocabSize
      modifies GradBuffers()
      ensures Valid() && Weights() == old(Weights())
      ensures cross == BackwardMath.Backward(m, config, Weights(), dLogits, cache, kv.keys, kv.values, posInSeq)
      ensures Grads() == ApplyBackward(config, old(Grads()), cache, cross, posInSeq + 1)
    {
      cross := BackwardMath.Backward(m, config, Weights(), dLogits, cache, kv.keys, kv.values, posInSeq);
      ApplyBackwardTo(config, Parameters(), cache, cross, posInSeq + 1);
    }

    /** `zeroGrad()`: every gradient becomes zero; the weights stay. */
    method ZeroGrad()
      requires Valid()
      modifies GradBuffers()
      ensures Valid() && Weights() == old(Weights()) && Grads() == ZeroGrads(config)
    {
      var ps := Parameters();
      var i := 0;
      while i < |ps|
        invariant 0 <= i <= |ps|
        invariant forall j :: 0 <= j < |ps| ==> ps[j].Data() == old(ps[j].Data())
        invariant forall j :: 0 <= j < |ps| ==>
          ps[j].GradData() == if j < i then Zeros(ParamSize(config, j)) else old(ps[j].GradData())
      {
        assert ParamReady(config, ps[i], i);
        assert ps[i].grad.buffer in GradBuffers();
        ZeroSlot(config, ps, i);
        i := i + 1;
      }
    }
  }
}
