/**
 * What MicroGPT computes, as functions of a snapshot of its weights. The
 * parameter tensors are the flat row-major contents listed in `parameters()`
 * order: wte, wpe, lmHead, then per layer attnWq, attnWk, attnWv, attnWo,
 * mlpFc1, mlpFc2. The imperative model (module Model) is proved to compute
 * exactly these functions.
 */
module ModelMath {
  import opened Numeric
  import opened Tensors
  import opened Kernels

  datatype Config = Config(vocabSize: nat, blockSize: nat, nLayer: nat, nHead: nat, nEmbd: nat)

  /** DEFAULT_CONFIG with the given vocabulary size. */
  function DefaultConfig(vocabSize: nat): Config
  {
    Config(vocabSize, 64, 4, 4, 64)
  }

  /** The shapes the forward pass needs: nEmbd splits evenly into heads. */
  predicate Supported(c: Config)
  {
    c.nHead > 0 && c.nEmbd > 0 && c.nEmbd % c.nHead == 0
  }

  /** `nEmbd / nHead` */
  function HeadDim(c: Config): (hd: nat)
    requires Supported(c)
    ensures hd > 0 && c.nHead * hd == c.nEmbd
  {
    c.nEmbd / c.nHead
  }

  /** Entry i of the model width belongs to head i / headDim. */
  lemma HeadOf(c: Config, i: nat)
    requires Supported(c) && i < c.nEmbd
    ensures i / HeadDim(c) < c.nHead
    ensures (i / HeadDim(c)) * HeadDim(c) <= i < (i / HeadDim(c)) * HeadDim(c) + HeadDim(c)
  {
    DivBound(i, c.nHead, HeadDim(c));
  }

  /** Head h covers the entries h * headDim .. h * headDim + headDim - 1. */
  lemma HeadRange(c: Config, h: nat)
    requires Supported(c) && h < c.nHead
    ensures h * HeadDim(c) + HeadDim(c) <= c.nEmbd
  {
    MulMonotone(h + 1, c.nHead, HeadDim(c));
  }

  // ------------------------------------------------------------ parameters

  function NumParams(nLayer: nat): nat { 3 + 6 * nLayer }

  /** Position of weight j (0 attnWq, 1 attnWk, 2 attnWv, 3 attnWo, 4 mlpFc1,
      5 mlpFc2) of layer li in `parameters()`. */
  function Slot(li: nat, j: nat): nat { 3 + 6 * li + j }

  lemma SlotInverse(li: nat, j: nat)
    requires j < 6
    ensures (Slot(li, j) - 3) / 6 == li && (Slot(li, j) - 3) % 6 == j
  {
    DivModRowCol(li, j, 6);
  }

  /** The shape the constructor gives to parameter k. */
  function ParamShape(c: Config, k: nat): (s: seq<nat>)
    ensures |s| == 2
  {
    if k == 0 || k == 2 then [c.vocabSize, c.nEmbd]
    else if k == 1 then [c.blockSize, c.nEmbd]
    else if (k - 3) % 6 < 4 then [c.nEmbd, c.nEmbd]
    else if (k - 3) % 6 == 4 then [4 * c.nEmbd, c.nEmbd]
    else [c.nEmbd, 4 * c.nEmbd]
  }

  /** Number of elements of parameter k. */
  function ParamSize(c: Config, k: nat): (n: nat)
    ensures n == Product(ParamShape(c, k))
  {
    var s := ParamShape(c, k);
    ProductOfPair(s[0], s[1]);
    assert s == [s[0], s[1]];
    s[0] * s[1]
  }

  /** The six weights of layer li have their constructor sizes. */
  predicate LayerFits(c: Config, P: seq<Vec>, li: nat)
  {
    && Slot(li, 5) < |P|
    && |P[Slot(li, 0)]| == c.nEmbd * c.nEmbd
    && |P[Slot(li, 1)]| == c.nEmbd * c.nEmbd
    && |P[Slot(li, 2)]| == c.nEmbd * c.nEmbd
    && |P[Slot(li, 3)]| == c.nEmbd * c.nEmbd
    && |P[Slot(li, 4)]| == 4 * c.nEmbd * c.nEmbd
    && |P[Slot(li, 5)]| == c.nEmbd * (4 * c.nEmbd)
  }

  /** A weight snapshot of the model's shapes. */
  predicate Fits(c: Config, P: seq<Vec>)
  {
    && |P| == NumParams(c.nLayer)
    && |P[0]| == c.vocabSize * c.nEmbd
    && |P[1]| == c.blockSize * c.nEmbd
    && |P[2]| == c.vocabSize * c.nEmbd
    && (forall li :: 0 <= li < c.nLayer ==> LayerFits(c, P, li))
  }

  /** Every parameter has its constructor size. */
  predicate Sized(c: Config, G: seq<Vec>)
  {
    |G| == NumParams(c.nLayer) && forall k :: 0 <= k < |G| ==> |G[k]| == ParamSize(c, k)
  }

  /** Fits says exactly that every parameter has its constructor size. */
  lemma {:induction false} FitsBySize(c: Config, P: seq<Vec>)
    ensures Fits(c, P) <==> Sized(c, P)
  {
    if Sized(c, P) {
      forall li | 0 <= li < c.nLayer ensures LayerFits(c, P, li) {
        forall j | 0 <= j < 6 ensures |P[Slot(li, j)]| == ParamSize(c, Slot(li, j)) {
        }
        SlotsOfLayer(c, li);
      }
    }
    if Fits(c, P) {
      forall k | 3 <= k < |P| ensures |P[k]| == ParamSize(c, k) {
        var li, j := (k - 3) / 6, (k - 3) % 6;
        assert k == Slot(li, j);
        assert LayerFits(c, P, li);
        SlotsOfLayer(c, li);
      }
    }
  }

  lemma SlotsOfLayer(c: Config, li: nat)
    ensures ParamSize(c, Slot(li, 0)) == c.nEmbd * c.nEmbd
    ensures ParamSize(c, Slot(li, 1)) == c.nEmbd * c.nEmbd
    ensures ParamSize(c, Slot(li, 2)) == c.nEmbd * c.nEmbd
    ensures ParamSize(c, Slot(li, 3)) == c.nEmbd * c.nEmbd
    ensures ParamSize(c, Slot(li, 4)) == 4 * c.nEmbd * c.nEmbd == 4 * (c.nEmbd * c.nEmbd)
    ensures ParamSize(c, Slot(li, 5)) == c.nEmbd * (4 * c.nEmbd) == 4 * (c.nEmbd * c.nEmbd)
  {
    SlotInverse(li, 0); SlotInverse(li, 1); SlotInverse(li, 2);
    SlotInverse(li, 3); SlotInverse(li, 4); SlotInverse(li, 5);
  }

  /** Sizes of the first n parameters, added in order (`reduce` in paramCount). */
  function SizesUpTo(c: Config, n: nat): nat
  {
    if n == 0 then 0 else SizesUpTo(c, n - 1) + ParamSize(c, n - 1)
  }

  /** `computeParamCount`: wte + wpe + 12 nEmbd^2 per layer + lmHead. */
  function ComputeParamCount(c: Config): nat
  {
    c.vocabSize * c.nEmbd + c.blockSize * c.nEmbd + c.nLayer * 12 * c.nEmbd * c.nEmbd + c.vocabSize * c.nEmbd
  }

  /** The closed form of computeParamCount is the sum of the parameter sizes. */
  lemma {:induction false} ParamCountClosedForm(c: Config)
    ensures SizesUpTo(c, NumParams(c.nLayer)) == ComputeParamCount(c)
  {
    LayerSizes(c, c.nLayer);
    var E := c.nEmbd;
    assert c.nLayer * 12 * E * E == c.nLayer * (12 * (E * E));
  }

  lemma {:induction false} LayerSizes(c: Config, l: nat)
    ensures SizesUpTo(c, NumParams(l)) == 2 * (c.vocabSize * c.nEmbd) + c.blockSize * c.nEmbd + l * (12 * (c.nEmbd * c.nEmbd))
  {
    if l == 0 {
      assert SizesUpTo(c, 1) == ParamSize(c, 0) == c.vocabSize * c.nEmbd;
      assert SizesUpTo(c, 2) == SizesUpTo(c, 1) + ParamSize(c, 1);
      assert SizesUpTo(c, 3) == SizesUpTo(c, 2) + ParamSize(c, 2);
    } else {
      LayerSizes(c, l - 1);
      LayerBlock(c, l - 1);
      var q := c.nEmbd * c.nEmbd;
      assert (l - 1) * (12 * q) + 12 * q == l * (12 * q);
    }
  }

  /** The six weights of one layer add 12 nEmbd^2 elements. */
  lemma LayerBlock(c: Config, li: nat)
    ensures SizesUpTo(c, NumParams(li + 1)) == SizesUpTo(c, NumParams(li)) + 12 * (c.nEmbd * c.nEmbd)
  {
    SlotsOfLayer(c, li);
    var b := NumParams(li);
    var q := c.nEmbd * c.nEmbd;
    var s0, s1, s2, s3, s4, s5 :=
      ParamSize(c, b), ParamSize(c, b + 1), ParamSize(c, b + 2), ParamSize(c, b + 3), ParamSize(c, b + 4), ParamSize(c, b + 5);
    assert s0 == q && s1 == q && s2 == q && s3 == q && s4 == 4 * q && s5 == 4 * q;
    assert SizesUpTo(c, b + 1) == SizesUpTo(c, b) + s0;
    assert SizesUpTo(c, b + 2) == SizesUpTo(c, b + 1) + s1;
    assert SizesUpTo(c, b + 3) == SizesUpTo(c, b + 2) + s2;
    assert SizesUpTo(c, b + 4) == SizesUpTo(c, b + 3) + s3;
    assert SizesUpTo(c, b + 5) == SizesUpTo(c, b + 4) + s4;
    assert SizesUpTo(c, b + 6) == SizesUpTo(c, b + 5) + s5;
    assert NumParams(li + 1) == b + 6;
  }

  // ------------------------------------------------------------- caches

  /** The intermediate values one layer keeps for the backward pass. */
  datatype LayerCache = LayerCache(
    xIn: Vec, xNorm1: Vec, rms1: real, q: Vec, k: Vec, v: Vec,
    attnWeights: seq<Vec>, attnOut: Vec, xAfterAttn: Vec, xNorm2: Vec, rms2: real,
    fc1Out: Vec, fc1Relu: Vec, x: Vec)

  datatype StepCache = StepCache(
    tokenId: nat, posId: nat, tokEmb: Vec, posEmb: Vec, xInitNorm: Vec, rmsInit: real,
    layers: seq<LayerCache>)

  predicate AllLen(vs: seq<Vec>, n: nat)
  {
    forall t :: 0 <= t < |vs| ==> |vs[t]| == n
  }

  /** A layer cache of the model's widths whose heads attended over seqLen positions. */
  predicate LayerCacheFits(c: Config, lc: LayerCache, seqLen: nat)
  {
    var E := c.nEmbd;
    && |lc.xIn| == E && |lc.xNorm1| == E && lc.rms1 > 0.0
    && |lc.q| == E && |lc.k| == E && |lc.v| == E
    && |lc.attnWeights| == c.nHead && AllLen(lc.attnWeights, seqLen)
    && |lc.attnOut| == E && |lc.xAfterAttn| == E && |lc.xNorm2| == E && lc.rms2 > 0.0
    && |lc.fc1Out| == 4 * E && |lc.fc1Relu| == 4 * E && |lc.x| == E
  }

  /** A step cache of the model's widths; layer li attended over seqLens[li] positions. */
  predicate StepCacheFits(c: Config, sc: StepCache, seqLens: seq<nat>)
  {
    && |sc.tokEmb| == c.nEmbd && |sc.posEmb| == c.nEmbd && |sc.xInitNorm| == c.nEmbd
    && sc.rmsInit > 0.0 && |sc.layers| == c.nLayer && |seqLens| == c.nLayer
    && forall li :: 0 <= li < c.nLayer ==> LayerCacheFits(c, sc.layers[li], seqLens[li])
  }

  /** The key/value cache of every layer holds vectors of width nEmbd, as many
      keys as values. */
  predicate KVFits(c: Config, K: seq<seq<Vec>>, V: seq<seq<Vec>>)
  {
    && |K| == c.nLayer && |V| == c.nLayer
    && forall li :: 0 <= li < c.nLayer ==> |K[li]| == |V[li]| && AllLen(K[li], c.nEmbd) && AllLen(V[li], c.nEmbd)
  }

  /** The number of cached positions of every layer. */
  function CacheLens(K: seq<seq<Vec>>): (r: seq<nat>)
    ensures |r| == |K| && forall li :: 0 <= li < |K| ==> r[li] == |K[li]|
  {
    seq(|K|, li requires 0 <= li < |K| => |K[li]|)
  }

  // ------------------------------------------------------------ attention

  /** 1 / sqrt(headDim) */
  function ScaleFactor(m: MathLib, c: Config): (sf: real)
    requires Lawful(m) && Supported(c)
    ensures sf > 0.0
  {
    1.0 / m.sqrt(HeadDim(c) as real)
  }

  /** The slice of head h. */
  function HeadSlice(c: Config, x: Vec, h: nat): (r: Vec)
    requires Supported(c) && |x| == c.nEmbd && h < c.nHead
    ensures |r| == HeadDim(c)
    ensures var hs := h * HeadDim(c); hs + HeadDim(c) <= c.nEmbd && forall d :: 0 <= d < HeadDim(c) ==> r[d] == x[hs + d]
  {
    HeadRange(c, h);
    x[h * HeadDim(c) .. h * HeadDim(c) + HeadDim(c)]
  }

  /** scores[t] = (qH . keys[t]H) * scaleFactor */
  function Scores(m: MathLib, c: Config, q: Vec, keys: seq<Vec>, h: nat): (r: Vec)
    requires Lawful(m) && Supported(c) && |q| == c.nEmbd && AllLen(keys, c.nEmbd) && h < c.nHead
    ensures |r| == |keys|
  {
    seq(|keys|, t requires 0 <= t < |keys| => Dot(HeadSlice(c, q, h), HeadSlice(c, keys[t], h)) * ScaleFactor(m, c))
  }

  /** Per-head softmax of the scores. */
  function AttnWeights(m: MathLib, c: Config, q: Vec, keys: seq<Vec>): (aw: seq<Vec>)
    requires Lawful(m) && Supported(c) && |q| == c.nEmbd && AllLen(keys, c.nEmbd)
    ensures |aw| == c.nHead && AllLen(aw, |keys|)
  {
    seq(c.nHead, h requires 0 <= h < c.nHead => Softmax(m, Scores(m, c, q, keys, h)))
  }

  /** Entry i of the cached vectors. */
  function Column(vs: seq<Vec>, i: nat): (r: Vec)
    requires forall t :: 0 <= t < |vs| ==> i < |vs[t]|
    ensures |r| == |vs| && forall t :: 0 <= t < |vs| ==> r[t] == vs[t][i]
  {
    seq(|vs|, t requires 0 <= t < |vs| => vs[t][i])
  }

  /** The concatenated head outputs: entry i is the weighted sum of entry i
      of the values, with the weights of the head that owns entry i. */
  function AttnMix(c: Config, aw: seq<Vec>, values: seq<Vec>): (r: Vec)
    requires Supported(c) && |aw| == c.nHead && AllLen(aw, |values|) && AllLen(values, c.nEmbd)
    ensures |r| == c.nEmbd
  {
    seq(c.nEmbd, i requires 0 <= i < c.nEmbd => HeadOf(c, i); Dot(aw[i / HeadDim(c)], Column(values, i)))
  }

  /** With a single cached position (the first token), every head puts all its
      weight on it and the attention output is that position's value. */
  lemma {:induction false} FirstPositionAttendsToItself(m: MathLib, c: Config, q: Vec, k: Vec, v: Vec)
    requires Lawful(m) && Supported(c) && |q| == c.nEmbd && |k| == c.nEmbd && |v| == c.nEmbd
    ensures forall h :: 0 <= h < c.nHead ==> AttnWeights(m, c, q, [k])[h] == [1.0]
    ensures AttnMix(c, AttnWeights(m, c, q, [k]), [v]) == v
  {
    var aw := AttnWeights(m, c, q, [k]);
    forall h | 0 <= h < c.nHead ensures aw[h] == [1.0] {
      SoftmaxSingle(m, Scores(m, c, q, [k], h));
    }
    var r := AttnMix(c, aw, [v]);
    forall i | 0 <= i < c.nEmbd ensures r[i] == v[i] {
      HeadOf(c, i);
      var col := Column([v], i);
      assert Dot(aw[i / HeadDim(c)], col) == Dot([], []) + 1.0 * v[i];
    }
  }

  lemma SoftmaxSingle(m: MathLib, x: Vec)
    requires Lawful(m) && |x| == 1
    ensures Softmax(m, x) == [1.0]
  {
    var e := Exps(m, x, Max(x));
    assert e[..0] == [];
    assert Sum(e) == e[0];
    assert Softmax(m, x)[0] == e[0] / Sum(e) == 1.0;
  }

  // ------------------------------------------------------------- forward

  /** One transformer block on input x, with the layer's cache holding `keys`
      and `values` before this position. */
  function LayerForward(m: MathLib, c: Config, P: seq<Vec>, li: nat, x: Vec, keys: seq<Vec>, values: seq<Vec>): (lc: LayerCache)
    requires Lawful(m) && Supported(c) && Fits(c, P) && li < c.nLayer
    requires |x| == c.nEmbd && |keys| == |values| && AllLen(keys, c.nEmbd) && AllLen(values, c.nEmbd)
    ensures LayerCacheFits(c, lc, |keys| + 1) && lc.xIn == x
  {
    var E := c.nEmbd;
    assert LayerFits(c, P, li);
    var xNorm1 := RmsNorm(m, x, RmsEps);
    var q := Linear(P[Slot(li, 0)], xNorm1, E, E);
    var k := Linear(P[Slot(li, 1)], xNorm1, E, E);
    var v := Linear(P[Slot(li, 2)], xNorm1, E, E);
    var aw := AttnWeights(m, c, q, keys + [k]);
    var xAttn := AttnMix(c, aw, values + [v]);
    var attnOut := Linear(P[Slot(li, 3)], xAttn, E, E);
    var xAfterAttn := VecAdd(attnOut, x);
    var xNorm2 := RmsNorm(m, xAfterAttn, RmsEps);
    assert 4 * E * E == (4 * E) * E;
    var fc1Out := Linear(P[Slot(li, 4)], xNorm2, 4 * E, E);
    var fc1Relu := Relu(fc1Out);
    var fc2Out := Linear(P[Slot(li, 5)], fc1Relu, E, 4 * E);
    LayerCache(x, xNorm1, Rms(m, x, RmsEps), q, k, v, aw, attnOut, xAfterAttn,
      xNorm2, Rms(m, xAfterAttn, RmsEps), fc1Out, fc1Relu, VecAdd(fc2Out, xAfterAttn))
  }

  /** The input of the layer after `lcs`: x0 before the first layer. */
  function XOut(x0: Vec, lcs: seq<LayerCache>): Vec
  {
    if |lcs| == 0 then x0 else lcs[|lcs| - 1].x
  }

  /** Layers 0 .. n-1, each fed the output of the previous one. */
  function LayersUpTo(m: MathLib, c: Config, P: seq<Vec>, x0: Vec, K: seq<seq<Vec>>, V: seq<seq<Vec>>, n: nat): (lcs: seq<LayerCache>)
    requires Lawful(m) && Supported(c) && Fits(c, P) && n <= c.nLayer
    requires |x0| == c.nEmbd && KVFits(c, K, V)
    ensures |lcs| == n && |XOut(x0, lcs)| == c.nEmbd
    ensures forall li :: 0 <= li < n ==> LayerCacheFits(c, lcs[li], |K[li]| + 1)
  {
    if n == 0 then []
    else
      var prev := LayersUpTo(m, c, P, x0, K, V, n - 1);
      var lc := LayerForward(m, c, P, n - 1, XOut(x0, prev), K[n - 1], V[n - 1]);
      AppendLayerFits(c, K, prev, lc);
      prev + [lc]
  }

  lemma LayersUpToStep(m: MathLib, c: Config, P: seq<Vec>, x0: Vec, K: seq<seq<Vec>>, V: seq<seq<Vec>>, li: nat)
    requires Lawful(m) && Supported(c) && Fits(c, P) && li < c.nLayer
    requires |x0| == c.nEmbd && KVFits(c, K, V)
    ensures var prev := LayersUpTo(m, c, P, x0, K, V, li);
      LayersUpTo(m, c, P, x0, K, V, li + 1) == prev + [LayerForward(m, c, P, li, XOut(x0, prev), K[li], V[li])]
  {
  }

  lemma AppendLayerFits(c: Config, K: seq<seq<Vec>>, prev: seq<LayerCache>, lc: LayerCache)
    requires |prev| < |K|
    requires forall li :: 0 <= li < |prev| ==> LayerCacheFits(c, prev[li], |K[li]| + 1)
    requires LayerCacheFits(c, lc, |K[|prev|]| + 1)
    ensures forall li :: 0 <= li < |prev| + 1 ==> LayerCacheFits(c, (prev + [lc])[li], |K[li]| + 1)
  {
    forall li | 0 <= li < |prev| + 1
      ensures LayerCacheFits(c, (prev + [lc])[li], |K[li]| + 1)
    {
      if li < |prev| {
        assert (prev + [lc])[li] == prev[li];
      } else {
        assert (prev + [lc])[li] == lc;
      }
    }
  }

  datatype ForwardOut = ForwardOut(logits: Vec, cache: StepCache)

  /** `forward(tokenId, posId, kvKeys, kvValues)` before its pushes: the logits
      and the cache. */
  function Forward(m: MathLib, c: Config, P: seq<Vec>, tokenId: nat, posId: nat, K: seq<seq<Vec>>, V: seq<seq<Vec>>): (r: ForwardOut)
    requires Lawful(m) && Supported(c) && Fits(c, P) && KVFits(c, K, V)
    requires tokenId < c.vocabSize && posId < c.blockSize
    ensures |r.logits| == c.vocabSize
    ensures StepCacheFits(c, r.cache, seq(c.nLayer, li requires 0 <= li < c.nLayer => |K[li]| + 1))
    ensures r.cache.tokenId == tokenId && r.cache.posId == posId
  {
    var E := c.nEmbd;
    MulMonotone(tokenId + 1, c.vocabSize, E);
    MulMonotone(posId + 1, c.blockSize, E);
    var tokEmb := RowOf(P[0], E, tokenId);
    var posEmb := RowOf(P[1], E, posId);
    var x := VecAdd(tokEmb, posEmb);
    var xInitNorm := RmsNorm(m, x, RmsEps);
    var lcs := LayersUpTo(m, c, P, xInitNorm, K, V, c.nLayer);
    ForwardOut(Linear(P[2], XOut(xInitNorm, lcs), c.vocabSize, E),
      StepCache(tokenId, posId, tokEmb, posEmb, xInitNorm, Rms(m, x, RmsEps), lcs))
  }

  /** Forward from its parts, as the imperative forward assembles it. */
  lemma ForwardParts(m: MathLib, c: Config, P: seq<Vec>, tokenId: nat, posId: nat, K: seq<seq<Vec>>, V: seq<seq<Vec>>,
                     tokEmb: Vec, posEmb: Vec, xInitNorm: Vec, rmsInit: real, lcs: seq<LayerCache>, logits: Vec)
    requires Lawful(m) && Supported(c) && Fits(c, P) && KVFits(c, K, V)
    requires tokenId < c.vocabSize && posId < c.blockSize
    requires (tokenId + 1) * c.nEmbd <= |P[0]| && (posId + 1) * c.nEmbd <= |P[1]|
    requires tokEmb == RowOf(P[0], c.nEmbd, tokenId) && posEmb == RowOf(P[1], c.nEmbd, posId)
    requires xInitNorm == RmsNorm(m, VecAdd(tokEmb, posEmb), RmsEps) && rmsInit == Rms(m, VecAdd(tokEmb, posEmb), RmsEps)
    requires lcs == LayersUpTo(m, c, P, xInitNorm, K, V, c.nLayer)
    requires logits == Linear(P[2], XOut(xInitNorm, lcs), c.vocabSize, c.nEmbd)
    ensures Forward(m, c, P, tokenId, posId, K, V)
         == ForwardOut(logits, StepCache(tokenId, posId, tokEmb, posEmb, xInitNorm, rmsInit, lcs))
  {
  }

  /** The caches after forward's pushes: layer li gains the step's key (or value). */
  function PushKeys(K: seq<seq<Vec>>, sc: StepCache): (r: seq<seq<Vec>>)
    requires |sc.layers| == |K|
    ensures |r| == |K| && forall li :: 0 <= li < |K| ==> r[li] == K[li] + [sc.layers[li].k]
  {
    seq(|K|, li requires 0 <= li < |K| => K[li] + [sc.layers[li].k])
  }

  function PushValues(V: seq<seq<Vec>>, sc: StepCache): (r: seq<seq<Vec>>)
    requires |sc.layers| == |V|
    ensures |r| == |V| && forall li :: 0 <= li < |V| ==> r[li] == V[li] + [sc.layers[li].v]
  {
    seq(|V|, li requires 0 <= li < |V| => V[li] + [sc.layers[li].v])
  }

  /** The pushes keep the caches of the model's widths, one position longer. */
  lemma PushKeepsFit(c: Config, K: seq<seq<Vec>>, V: seq<seq<Vec>>, sc: StepCache, lens: seq<nat>)
    requires KVFits(c, K, V) && StepCacheFits(c, sc, lens)
    ensures KVFits(c, PushKeys(K, sc), PushValues(V, sc))
    ensures forall li :: 0 <= li < c.nLayer ==> |PushKeys(K, sc)[li]| == |K[li]| + 1
  {
    forall li | 0 <= li < c.nLayer
      ensures AllLen(PushKeys(K, sc)[li], c.nEmbd) && AllLen(PushValues(V, sc)[li], c.nEmbd)
    {
      assert LayerCacheFits(c, sc.layers[li], lens[li]);
    }
  }
}
