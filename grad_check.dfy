/**
 * The numerical gradient checker: which indices of a parameter are probed,
 * the parameter names, the forward-only loss, and the perturb / restore
 * loop that compares central differences of that loss with the gradients
 * trainStep leaves.
 */
module GradCheck {
  import opened Numeric
  import opened Tensors
  import opened Kernels
  import opened ModelMath
  import opened TrainMath
  import opened Model
  import opened TrainStep
  import opened TrainProofs

  // ------------------------------------------------------------ sampleIndices

  /** `Math.max(1, Math.floor(total / count))`. With count 0 the source's
      step is not finite, but no index is taken then, as here. */
  function StepOf(total: nat, count: nat): (step: nat)
    ensures step >= 1
  {
    if count == 0 || total / count == 0 then 1 else total / count
  }

  /** The number of multiples of step below total. */
  function Multiples(total: nat, step: nat): nat
    requires step >= 1
  {
    (total + step - 1) / step
  }

  /** k·step lies below total exactly for the first Multiples(total, step) k. */
  lemma MultiplesBelow(k: nat, total: nat, step: nat)
    requires step >= 1
    ensures k * step < total <==> k < Multiples(total, step)
  {
    var a := total + step - 1;
    var q, r := a / step, a % step;
    assert a == q * step + r && 0 <= r < step;
    if k < q {
      MulMonotone(k + 1, q, step);
      assert k * step + step == (k + 1) * step;
    } else {
      MulMonotone(q, k, step);
    }
  }

  /** What `sampleIndices(total, count)` returns: 0, step, 2·step, … while
      below total, and at most count of them. */
  function Sample(total: nat, count: nat): (r: seq<nat>)
    ensures |r| == MinInt(count, Multiples(total, StepOf(total, count)))
    ensures forall i :: 0 <= i < |r| ==> r[i] == i * StepOf(total, count)
  {
    var step := StepOf(total, count);
    var n := MinInt(count, Multiples(total, step));
    seq(n, i requires 0 <= i < n => i * step)
  }

  /** The sample is strictly increasing, stays below total, has at most
      count entries, and stops only at count entries or when the next
      multiple would reach total. */
  lemma {:induction false} SampleBounds(total: nat, count: nat)
    ensures |Sample(total, count)| <= count
    ensures forall i :: 0 <= i < |Sample(total, count)| ==> Sample(total, count)[i] < total
    ensures forall i, j :: 0 <= i < j < |Sample(total, count)| ==> Sample(total, count)[i] < Sample(total, count)[j]
    ensures |Sample(total, count)| == count || |Sample(total, count)| * StepOf(total, count) >= total
  {
    var r, step := Sample(total, count), StepOf(total, count);
    forall i | 0 <= i < |r| ensures r[i] < total {
      MultiplesBelow(i, total, step);
    }
    forall i, j | 0 <= i < j < |r| ensures r[i] < r[j] {
      MulMonotone(i + 1, j, step);
      assert (i + 1) * step == i * step + step;
    }
    MultiplesBelow(|r|, total, step);
  }

  /** `sampleIndices(total, count)`: the loop pushing i while i < total and
      fewer than count indices are taken, i growing by step. */
  method SampleIndices(total: nat, count: nat) returns (indices: seq<nat>)
    ensures indices == Sample(total, count)
  {
    indices := [];
    var step := StepOf(total, count);
    var i := 0;
    while i < total && |indices| < count
      invariant |indices| <= count && i == |indices| * step
      invariant forall j :: 0 <= j < |indices| ==> indices[j] == j * step
      invariant |indices| <= Multiples(total, step)
      decreases count - |indices|
    {
      MultiplesBelow(|indices|, total, step);
      indices := indices + [i];
      i := i + step;
    }
    MultiplesBelow(|indices|, total, step);
  }

  /** The indices probed in a parameter of the given size: all of them up to
      64, otherwise `sampleIndices(size, 32)`. */
  function IndicesToCheck(size: nat): seq<nat>
  {
    if size <= 64 then seq(size, i requires 0 <= i < size => i) else Sample(size, 32)
  }

  /** No index is probed twice and none lies outside the parameter; a
      parameter of at most 64 entries is probed everywhere, a larger one at
      exactly 32 indices. */
  lemma {:induction false} IndicesToCheckCover(size: nat)
    ensures forall i :: 0 <= i < |IndicesToCheck(size)| ==> IndicesToCheck(size)[i] < size
    ensures forall i, j :: 0 <= i < j < |IndicesToCheck(size)| ==> IndicesToCheck(size)[i] < IndicesToCheck(size)[j]
    ensures size <= 64 ==> forall k :: 0 <= k < size ==> k in IndicesToCheck(size)
    ensures size > 64 ==> |IndicesToCheck(size)| == 32
  {
    if size <= 64 {
      var r := IndicesToCheck(size);
      forall k | 0 <= k < size ensures k in r {
        assert r[k] == k;
      }
    } else {
      SampleBounds(size, 32);
      var step := StepOf(size, 32);
      assert step == size / 32;
      assert size == step * 32 + size % 32;
      MulMonotone(31, 32, step);
      assert 31 * step < size;
      MultiplesBelow(31, size, step);
    }
  }

  // ------------------------------------------------------------ getParamNames

  function DigitChar(d: nat): char
    requires d < 10
  {
    "0123456789"[d]
  }

  /** A number written in decimal, as a template literal prints it. */
  function Decimal(n: nat): (s: string)
    ensures |s| > 0 && forall i :: 0 <= i < |s| ==> '0' <= s[i] <= '9'
  {
    if n < 10 then [DigitChar(n)] else Decimal(n / 10) + [DigitChar(n % 10)]
  }

  /** Different numbers are written differently. */
  lemma {:induction false} DecimalInjective(a: nat, b: nat)
    ensures Decimal(a) == Decimal(b) <==> a == b
    decreases a
  {
    if a >= 10 && b >= 10 {
      var da, db := Decimal(a), Decimal(b);
      assert da == Decimal(a / 10) + [DigitChar(a % 10)] && db == Decimal(b / 10) + [DigitChar(b % 10)];
      DecimalInjective(a / 10, b / 10);
      assert a == a / 10 * 10 + a % 10 && b == b / 10 * 10 + b % 10;
      if da == db {
        assert da[..|da| - 1] == Decimal(a / 10) && db[..|db| - 1] == Decimal(b / 10);
      }
    } else if a >= 10 {
      assert |Decimal(a)| >= 2;
    } else if b >= 10 {
      assert |Decimal(b)| >= 2;
    }
  }

  /** The names of a layer's six weights, in `parameters()` order. */
  function WeightKind(j: nat): string
    requires j < 6
  {
    ["attnWq", "attnWk", "attnWv", "attnWo", "mlpFc1", "mlpFc2"][j]
  }

  /** `layer${li}.<kind>` */
  function LayerName(li: nat, j: nat): string
    requires j < 6
  {
    "layer" + Decimal(li) + "." + WeightKind(j)
  }

  /** The name of slot k of `parameters()`. */
  function ParamName(k: nat): string
  {
    if k == 0 then "wte" else if k == 1 then "wpe" else if k == 2 then "lmHead"
    else LayerName((k - 3) / 6, (k - 3) % 6)
  }

  /** The names of all slots of a model with nLayer layers. */
  function ParamNameList(nLayer: nat): (r: seq<string>)
    ensures |r| == NumParams(nLayer) && forall k :: 0 <= k < |r| ==> r[k] == ParamName(k)
  {
    seq(NumParams(nLayer), k requires 0 <= k => ParamName(k))
  }

  /** `getParamNames(config)`: the three tables, then six names per layer. */
  method ParamNames(nLayer: nat) returns (names: seq<string>)
    ensures |names| == NumParams(nLayer)
    ensures forall k :: 0 <= k < |names| ==> names[k] == ParamName(k)
    ensures names == ParamNameList(nLayer)
  {
    names := ["wte", "wpe", "lmHead"];
    for i := 0 to nLayer
      invariant |names| == NumParams(i)
      invariant forall k :: 0 <= k < |names| ==> names[k] == ParamName(k)
    {
      var layer := "layer" + Decimal(i) + ".";
      ghost var before := names;
      names := names + [layer + "attnWq", layer + "attnWk", layer + "attnWv", layer + "attnWo",
                        layer + "mlpFc1", layer + "mlpFc2"];
      forall j | 0 <= j < 6 ensures names[Slot(i, j)] == ParamName(Slot(i, j)) {
        SlotInverse(i, j);
      }
      forall k | 0 <= k < |names| ensures names[k] == ParamName(k) {
        if k >= |before| {
          var j := k - |before|;
          assert k == Slot(i, j);
        }
      }
    }
  }

  /** The name of layer li's weight j is that of slot Slot(li, j), the
      position of the tensor in `parameters()`. */
  lemma NameOfSlot(li: nat, j: nat)
    requires j < 6
    ensures ParamName(Slot(li, j)) == LayerName(li, j)
  {
    SlotInverse(li, j);
  }

  /** Layer names tell the layer and the weight apart: the digits run up
      to the first '.', and the six kinds differ. */
  lemma {:induction false} LayerNamesDistinct(l1: nat, j1: nat, l2: nat, j2: nat)
    requires j1 < 6 && j2 < 6
    ensures LayerName(l1, j1) == LayerName(l2, j2) <==> l1 == l2 && j1 == j2
  {
    var d1, d2 := Decimal(l1), Decimal(l2);
    var s1, s2 := LayerName(l1, j1), LayerName(l2, j2);
    DecimalInjective(l1, l2);
    if |d1| < |d2| {
      assert s1[5 + |d1|] == '.' && s2[5 + |d1|] == d2[|d1|];
    } else if |d2| < |d1| {
      assert s2[5 + |d2|] == '.' && s1[5 + |d2|] == d1[|d2|];
    } else {
      assert s1[5..5 + |d1|] == d1 && s2[5..5 + |d2|] == d2;
      assert s1[6 + |d1|..] == WeightKind(j1) && s2[6 + |d2|..] == WeightKind(j2);
    }
  }

  /** Every parameter gets a name of its own. */
  lemma ParamNamesDistinct(k1: nat, k2: nat)
    requires k1 != k2
    ensures ParamName(k1) != ParamName(k2)
  {
    if k1 >= 3 && k2 >= 3 {
      assert k1 - 3 == (k1 - 3) / 6 * 6 + (k1 - 3) % 6;
      assert k2 - 3 == (k2 - 3) / 6 * 6 + (k2 - 3) % 6;
      LayerNamesDistinct((k1 - 3) / 6, (k1 - 3) % 6, (k2 - 3) / 6, (k2 - 3) % 6);
    } else if k1 >= 3 {
      assert ParamName(k1)[0] == 'l' && ParamName(k1)[1] == 'a';
    } else if k2 >= 3 {
      assert ParamName(k2)[0] == 'l' && ParamName(k2)[1] == 'a';
    }
  }

  // -------------------------------------------------------------- computeLoss

  /** computeLoss's cross-entropy, written out by hand: the target logit
      against the log of the sum of exponentials, both shifted by the
      largest logit. */
  function ManualLoss(m: MathLib, logits: Vec, target: nat): real
    requires Lawful(m) && target < |logits|
  {
    var mx := Max(logits);
    -(logits[target] - mx - m.log(Sum(Exps(m, logits, mx))))
  }

  /** Read with a logarithm that inverts exp and turns quotients into
      differences, the hand-written loss is −log of the softmax probability
      of the target: the cross-entropy crossEntropyLoss computes (there
      with a 1e-10 guard inside the log). */
  lemma ManualLossIsCrossEntropy(m: MathLib, logits: Vec, target: nat)
    requires Lawful(m) && target < |logits|
    requires forall x :: m.log(m.exp(x)) == x
    requires forall a, b :: 0.0 < a && 0.0 < b ==> m.log(a / b) == m.log(a) - m.log(b)
    ensures ManualLoss(m, logits, target) == -m.log(Softmax(m, logits)[target])
  {
    var mx := Max(logits);
    var e := Exps(m, logits, mx);
    SumPositive(e);
    assert Softmax(m, logits)[target] == e[target] / Sum(e);
    assert m.log(e[target]) == logits[target] - mx;
  }

  /** The state of computeLoss's loop: the caches and the losses so far. */
  datatype LossRun = LossRun(K: seq<seq<Vec>>, V: seq<seq<Vec>>, losses: seq<real>)

  /** What computeLoss needs: a vocabulary for every token, one position
      at least, and two tokens (one prediction) at least. */
  ghost predicate LossPre(m: MathLib, c: Config, P: seq<Vec>, tokens: seq<nat>)
  {
    Lawful(m) && Supported(c) && Fits(c, P) && TokensFit(c, tokens) && c.blockSize > 0 && |tokens| >= 2
  }

  /** The caches hold p positions of the model's widths in every layer,
      and there are p losses. */
  predicate LossFits(c: Config, r: LossRun, p: nat)
  {
    KVFits(c, r.K, r.V) && |r.losses| == p && forall li :: 0 <= li < c.nLayer ==> |r.K[li]| == p
  }

  /** computeLoss's loop after positions 0 .. p-1: forward on token p
      against caches that start empty, and the hand-written loss against
      token p+1. */
  function LossForward(m: MathLib, c: Config, P: seq<Vec>, tokens: seq<nat>, n: nat, p: nat): (r: LossRun)
    requires Lawful(m) && Supported(c) && Fits(c, P) && TokensFit(c, tokens)
    requires p <= n <= c.blockSize && n < |tokens|
    ensures LossFits(c, r, p)
    decreases p
  {
    if p == 0 then LossRun(EmptyKV(c.nLayer), EmptyKV(c.nLayer), [])
    else LossStep(m, c, P, tokens, LossForward(m, c, P, tokens, n, p - 1), p - 1)
  }

  /** One turn of computeLoss's loop, at position p. */
  function LossStep(m: MathLib, c: Config, P: seq<Vec>, tokens: seq<nat>, prev: LossRun, p: nat): (r: LossRun)
    requires Lawful(m) && Supported(c) && Fits(c, P) && TokensFit(c, tokens)
    requires p < c.blockSize && p + 1 < |tokens| && LossFits(c, prev, p)
    ensures LossFits(c, r, p + 1)
  {
    var f := Forward(m, c, P, tokens[p], p, prev.K, prev.V);
    PushedFits(c, prev.K, prev.V, f.cache, p);
    LossRun(PushKeys(prev.K, f.cache), PushValues(prev.V, f.cache), prev.losses + [ManualLoss(m, f.logits, tokens[p + 1])])
  }

  /** Pushing the keys and values of a step cache lengthens every layer's
      cache by one and keeps its widths. */
  lemma PushedFits(c: Config, K: seq<seq<Vec>>, V: seq<seq<Vec>>, sc: StepCache, p: nat)
    requires KVFits(c, K, V) && forall li :: 0 <= li < c.nLayer ==> |K[li]| == p
    requires StepCacheFits(c, sc, seq(c.nLayer, li requires 0 <= li < c.nLayer => |K[li]| + 1))
    ensures |sc.layers| == |K| == |V|
    ensures KVFits(c, PushKeys(K, sc), PushValues(V, sc))
    ensures forall li :: 0 <= li < c.nLayer ==> |PushKeys(K, sc)[li]| == p + 1
  {
    PushKeepsFit(c, K, V, sc, seq(c.nLayer, li requires 0 <= li < c.nLayer => |K[li]| + 1));
  }

  /** `computeLoss(model, config, tokens)`: the mean hand-written loss over
      the window n = min(blockSize, tokens.length − 1). */
  function CheckLoss(m: MathLib, c: Config, P: seq<Vec>, tokens: seq<nat>): real
    requires LossPre(m, c, P, tokens)
  {
    var n := Window(c, tokens);
    Sum(LossForward(m, c, P, tokens, n, n).losses) / (n as real)
  }

  /** computeLoss runs forward over the same window as trainStep, from
      fresh empty caches: at every position the caches it attends over are
      those trainStep's forward loop has there, so the logits are the same. */
  lemma {:induction false} SameCachesAsTrainStep(m: MathLib, c: Config, P: seq<Vec>, tokens: seq<nat>, n: nat, p: nat)
    requires Lawful(m) && Supported(c) && Fits(c, P) && TokensFit(c, tokens)
    requires p <= n <= c.blockSize && n < |tokens|
    ensures LossForward(m, c, P, tokens, n, p).K == RunForward(m, c, P, tokens, n, p).K
    ensures LossForward(m, c, P, tokens, n, p).V == RunForward(m, c, P, tokens, n, p).V
    decreases p
  {
    if p > 0 {
      SameCachesAsTrainStep(m, c, P, tokens, n, p - 1);
      RunForwardStep(m, c, P, tokens, n, p);
    }
  }

  /** The loop of `sumExp += Math.exp(logits.data[i] - maxLogit)`. */
  method SumExp(m: MathLib, logits: Vec, maxLogit: real) returns (sumExp: real)
    requires Lawful(m)
    ensures sumExp == Sum(Exps(m, logits, maxLogit))
  {
    ghost var e := Exps(m, logits, maxLogit);
    sumExp := 0.0;
    for i := 0 to |logits|
      invariant sumExp == Sum(e[..i])
    {
      assert e[..i + 1][..i] == e[..i];
      sumExp := sumExp + m.exp(logits[i] - maxLogit);
    }
    assert e[..|logits|] == e;
  }

  /** LossForward one position further, with its parts named. */
  lemma LossForwardStep(m: MathLib, c: Config, P: seq<Vec>, tokens: seq<nat>, n: nat, p: nat)
    requires Lawful(m) && Supported(c) && Fits(c, P) && TokensFit(c, tokens)
    requires p < n <= c.blockSize && n < |tokens|
    ensures var prev := LossForward(m, c, P, tokens, n, p);
      var f := Forward(m, c, P, tokens[p], p, prev.K, prev.V);
      && |f.cache.layers| == |prev.K| == |prev.V|
      && LossForward(m, c, P, tokens, n, p + 1)
         == LossRun(PushKeys(prev.K, f.cache), PushValues(prev.V, f.cache), prev.losses + [ManualLoss(m, f.logits, tokens[p + 1])])
  {
  }

  /** The caches and losses after one more forward step at position p,
      and their sum. */
  lemma LossTurnNext(m: MathLib, c: Config, P: seq<Vec>, tokens: seq<nat>, n: nat, p: nat,
                     K: seq<seq<Vec>>, V: seq<seq<Vec>>, losses: seq<real>, logits: Vec, cache: StepCache)
    requires Lawful(m) && Supported(c) && Fits(c, P) && TokensFit(c, tokens)
    requires p < n <= c.blockSize && n < |tokens|
    requires LossRun(K, V, losses) == LossForward(m, c, P, tokens, n, p)
    requires ForwardOut(logits, cache) == Forward(m, c, P, tokens[p], p, K, V)
    ensures tokens[p + 1] < |logits|
    ensures var losses' := losses + [ManualLoss(m, logits, tokens[p + 1])];
      && LossRun(PushKeys(K, cache), PushValues(V, cache), losses') == LossForward(m, c, P, tokens, n, p + 1)
      && Sum(losses') == Sum(losses) + ManualLoss(m, logits, tokens[p + 1])
  {
    LossForwardStep(m, c, P, tokens, n, p);
    SumSnoc(losses, ManualLoss(m, logits, tokens[p + 1]));
  }

  /** A sum one element longer. */
  lemma SumSnoc(s: seq<real>, x: real)
    ensures Sum(s + [x]) == Sum(s) + x
  {
    assert (s + [x])[..|s|] == s;
  }

  /** The hand-written cross-entropy of computeLoss for one position:
      `-(logits[target] - maxLogit - Math.log(sumExp))`. */
  method HandLoss(m: MathLib, logits: Vec, targetId: nat) returns (loss: real)
    requires Lawful(m) && targetId < |logits|
    ensures loss == ManualLoss(m, logits, targetId)
  {
    var maxLogit := Max(logits);
    var sumExp := SumExp(m, logits, maxLogit);
    var logProb := logits[targetId] - maxLogit - m.log(sumExp);
    loss := -logProb;
  }

  /** One turn of computeLoss's loop: forward at (tokens[pos], pos), then
      the hand-written loss against tokens[pos + 1] added to the total. */
  method LossTurn(m: MathLib, model: MicroGPT, tokens: seq<nat>, n: nat, kv: KVCache, pos: nat,
                  total: real, ghost losses: seq<real>)
    returns (next: real, ghost nextLosses: seq<real>)
    requires model.Valid() && Lawful(m) && Supported(model.config) && TokensFit(model.config, tokens)
    requires n <= model.config.blockSize && n < |tokens| && pos < n
    requires LossRun(kv.keys, kv.values, losses) == LossForward(m, model.config, model.Weights(), tokens, n, pos)
    requires total == Sum(losses)
    modifies kv`keys, kv`values
    ensures model.Weights() == old(model.Weights())
    ensures LossRun(kv.keys, kv.values, nextLosses) == LossForward(m, model.config, model.Weights(), tokens, n, pos + 1)
    ensures next == Sum(nextLosses)
  {
    ghost var K, V := kv.keys, kv.values;
    var logits, cache := model.Forward(m, tokens[pos], pos, kv);
    LossTurnNext(m, model.config, model.Weights(), tokens, n, pos, K, V, losses, logits, cache);
    // the hand-written cross-entropy, by the function HandLoss computes
    var loss := ManualLoss(m, logits, tokens[pos + 1]);
    nextLosses := losses + [loss];
    next := total + loss;
  }

  /** `computeLoss(model, config, tokens)`: fresh empty caches, forward at
      every position of the window, the mean of the hand-written losses.
      The model is not changed. */
  method ComputeLoss(m: MathLib, model: MicroGPT, tokens: seq<nat>) returns (loss: real)
    requires model.Valid() && LossPre(m, model.config, model.Weights(), tokens)
    ensures loss == CheckLoss(m, model.config, model.Weights(), tokens)
  {
    var c := model.config;
    var n := MinInt(c.blockSize, |tokens| - 1);
    ghost var P := model.Weights();
    ghost var buffers := model.WeightBuffers();
    assert forall a :: a in buffers ==> allocated(a);
    var kv := new KVCache(c.nLayer);
    assert model.Weights() == P;
    var total := 0.0;
    ghost var losses: seq<real> := [];
    var pos := 0;
    while pos < n
      invariant 0 <= pos <= n && model.Weights() == P
      invariant LossRun(kv.keys, kv.values, losses) == LossForward(m, c, P, tokens, n, pos)
      invariant total == Sum(losses)
    {
      total, losses := LossTurn(m, model, tokens, n, kv, pos, total, losses);
      pos := pos + 1;
    }
    loss := total / (n as real);
  }

  // ------------------------------------------------------ finite differences

  /** V has the shape of W: as many parameters, each as long. */
  predicate SameShape(V: seq<Vec>, W: seq<Vec>)
  {
    |V| == |W| && forall k :: 0 <= k < |W| ==> |V[k]| == |W[k]|
  }

  /** The weights with entry idx of parameter pi moved by d: what
      `param.data.set(savedWeights[pi])` followed by `param.data[idx] += d`
      leaves when every weight was at its saved value. */
  function Perturbed(W: seq<Vec>, pi: nat, idx: nat, d: real): (r: seq<Vec>)
    requires pi < |W| && idx < |W[pi]|
    ensures SameShape(r, W)
    ensures r[pi][idx] == W[pi][idx] + d
    ensures forall k, j :: 0 <= k < |W| && 0 <= j < |W[k]| && (k != pi || j != idx) ==> r[k][j] == W[k][j]
  {
    W[pi := W[pi][idx := W[pi][idx] + d]]
  }

  /** Setting the saved parameter back undoes the move. */
  lemma PerturbedRestored(W: seq<Vec>, pi: nat, idx: nat, d: real)
    requires pi < |W| && idx < |W[pi]|
    ensures Perturbed(W, pi, idx, d)[pi := W[pi]] == W
  {
  }

  /** A loss, as a function of the weights. */
  type Loss = seq<Vec> --> real

  /** f is defined on every list of weights shaped like W. */
  ghost predicate DefinedAround(f: Loss, W: seq<Vec>)
  {
    forall V :: SameShape(V, W) ==> f.requires(V)
  }

  /** computeLoss on gradCheck's configuration and tokens, as a function
      of the weights. */
  ghost function LossOf(m: MathLib, c: Config, tokens: seq<nat>): Loss
  {
    V requires LossPre(m, c, V, tokens) => CheckLoss(m, c, V, tokens)
  }

  /** computeLoss is defined on every list of weights shaped like weights
      it is defined on, and there it is CheckLoss. */
  lemma LossOfAround(m: MathLib, c: Config, tokens: seq<nat>, W: seq<Vec>)
    requires LossPre(m, c, W, tokens)
    ensures DefinedAround(LossOf(m, c, tokens), W)
    ensures forall V :: SameShape(V, W) ==> LossPre(m, c, V, tokens) && LossOf(m, c, tokens)(V) == CheckLoss(m, c, V, tokens)
  {
    FitsBySize(c, W);
    forall V | SameShape(V, W) ensures LossPre(m, c, V, tokens) {
      FitsBySize(c, V);
    }
  }

  /** The loss as a function of how far entry idx of parameter pi is
      moved. */
  ghost function LossProfile(f: Loss, W: seq<Vec>, pi: nat, idx: nat): real -> real
    requires DefinedAround(f, W) && pi < |W| && idx < |W[pi]|
  {
    d => f(Perturbed(W, pi, idx, d))
  }

  /** `(lossPlus - lossMinus) / (2 * eps)` */
  function Quotient(lossPlus: real, lossMinus: real, eps: real): real
    requires eps != 0.0
  {
    (lossPlus - lossMinus) / (2.0 * eps)
  }

  /** (f(eps) - f(-eps)) / (2·eps) */
  function CentralDifference(f: real -> real, eps: real): real
    requires eps != 0.0
  {
    Quotient(f(eps), f(-eps), eps)
  }

  /** `(lossPlus - lossMinus) / (2 * eps)`: the central difference of the
      loss in entry idx of parameter pi. */
  ghost function NumericalGrad(f: Loss, W: seq<Vec>, pi: nat, idx: nat, eps: real): (r: real)
    requires DefinedAround(f, W) && pi < |W| && idx < |W[pi]| && eps != 0.0
    ensures r == Quotient(f(Perturbed(W, pi, idx, eps)), f(Perturbed(W, pi, idx, -eps)), eps)
  {
    CentralDifference(LossProfile(f, W, pi, idx), eps)
  }

  /** l0 + slope·d + curve·d². */
  function Quadratic(l0: real, slope: real, curve: real, d: real): real
  {
    l0 + slope * d + curve * d * d
  }

  /** Central differences are exact up to the second order: when the loss
      is a quadratic in the probed entry, the numerical gradient is its
      slope there, whatever eps. */
  lemma CentralDifferenceExact(f: real -> real, eps: real, l0: real, slope: real, curve: real)
    requires eps != 0.0
    requires forall d :: f(d) == Quadratic(l0, slope, curve, d)
    ensures CentralDifference(f, eps) == slope
  {
    QuadraticCentral(l0, slope, curve, eps);
  }

  /** The central difference of a quadratic is its slope. */
  lemma QuadraticCentral(l0: real, slope: real, curve: real, eps: real)
    requires eps != 0.0
    ensures Quotient(Quadratic(l0, slope, curve, eps), Quadratic(l0, slope, curve, -eps), eps) == slope
  {
    assert Quadratic(l0, slope, curve, eps) - Quadratic(l0, slope, curve, -eps) == slope * (2.0 * eps);
  }

  // -------------------------------------------------------------- comparison

  /** `1e-8`, the floor of the relative error's denominator. */
  const DenomFloor: real := 0.00000001

  /** `Math.max(|numerical|, |analytical|, 1e-8)`. */
  function Denominator(numerical: real, analytical: real): (d: real)
    ensures d >= DenomFloor && d >= Abs(numerical) && d >= Abs(analytical)
    ensures d == DenomFloor || d == Abs(numerical) || d == Abs(analytical)
  {
    MaxReal(MaxReal(Abs(numerical), Abs(analytical)), DenomFloor)
  }

  /** `|numerical - analytical| / denom`: never negative, at most 2, and
      zero exactly when the two gradients agree. */
  function RelError(numerical: real, analytical: real): (e: real)
    ensures 0.0 <= e <= 2.0
    ensures e == 0.0 <==> numerical == analytical
  {
    var diff, denom := Abs(numerical - analytical), Denominator(numerical, analytical);
    assert diff <= 2.0 * denom;
    assert diff / denom <= 2.0 by { DivBelow(diff, denom, 2.0); }
    diff / denom
  }

  /** A quotient of a positive denominator stays below the bound it
      multiplies. */
  lemma DivBelow(x: real, d: real, b: real)
    requires 0.0 < d && x <= b * d
    ensures x / d <= b
  {
  }

  /** `if (x > max) max = x` over s, from 0. */
  function RunningMax(s: seq<real>): (r: real)
    ensures 0.0 <= r && forall i :: 0 <= i < |s| ==> s[i] <= r
    ensures r == 0.0 || exists i :: 0 <= i < |s| && s[i] == r
    decreases |s|
  {
    if s == [] then 0.0
    else
      var acc := RunningMax(s[..|s| - 1]);
      if s[|s| - 1] > acc then s[|s| - 1] else acc
  }

  /** The running maximum is below t exactly when t is positive and every
      element is below t: `passed` reads the errors through this. */
  lemma RunningMaxBelow(s: seq<real>, t: real)
    ensures RunningMax(s) < t <==> 0.0 < t && forall i :: 0 <= i < |s| ==> s[i] < t
  {
  }

  /** `norm += x * x` over s, from 0; never negative. */
  function SumSquares(s: seq<real>): (r: real)
    ensures 0.0 <= r
    decreases |s|
  {
    if s == [] then 0.0 else SumSquares(s[..|s| - 1]) + s[|s| - 1] * s[|s| - 1]
  }

  // ----------------------------------------------------------- one parameter

  /** The probed indices of parameter pi lie inside it. */
  lemma ProbesInside(c: Config, W: seq<Vec>, pi: nat)
    requires Sized(c, W) && pi < |W|
    ensures forall k :: 0 <= k < |IndicesToCheck(ParamSize(c, pi))| ==> IndicesToCheck(ParamSize(c, pi))[k] < |W[pi]|
  {
    IndicesToCheckCover(ParamSize(c, pi));
  }

  /** The numerical gradient at each index of idxs. */
  ghost function Numericals(f: Loss, W: seq<Vec>, pi: nat, idxs: seq<nat>, eps: real): (r: seq<real>)
    requires DefinedAround(f, W) && pi < |W| && eps != 0.0
    requires forall k :: 0 <= k < |idxs| ==> idxs[k] < |W[pi]|
    ensures |r| == |idxs|
  {
    seq(|idxs|, k requires 0 <= k < |idxs| => NumericalGrad(f, W, pi, idxs[k], eps))
  }

  /** `analyticalGrads[pi][idx]` at each index of idxs. */
  function Analyticals(G: seq<Vec>, pi: nat, idxs: seq<nat>): (r: seq<real>)
    requires pi < |G| && forall k :: 0 <= k < |idxs| ==> idxs[k] < |G[pi]|
    ensures |r| == |idxs|
  {
    seq(|idxs|, k requires 0 <= k < |idxs| => G[pi][idxs[k]])
  }

  /** The relative error of each pair. */
  function RelErrors(nums: seq<real>, anas: seq<real>): (r: seq<real>)
    requires |nums| == |anas|
    ensures |r| == |nums|
  {
    seq(|nums|, k requires 0 <= k < |nums| => RelError(nums[k], anas[k]))
  }

  /** The three running values of the loop over one parameter's indices:
      maxRelError, and analyticalNorm and numericalNorm before their square
      roots are taken. */
  datatype Tally = Tally(maxRelError: real, analyticalSq: real, numericalSq: real)

  /** The tally of a run of (numerical, analytical) pairs. */
  function TallyOf(nums: seq<real>, anas: seq<real>): Tally
    requires |nums| == |anas|
  {
    Tally(RunningMax(RelErrors(nums, anas)), SumSquares(anas), SumSquares(nums))
  }

  /** The loop body on one (numerical, analytical) pair: the larger
      relative error is kept and both squares are added. */
  function TallyNext(t: Tally, numerical: real, analytical: real): Tally
  {
    var e := RelError(numerical, analytical);
    Tally(if e > t.maxRelError then e else t.maxRelError,
          t.analyticalSq + analytical * analytical, t.numericalSq + numerical * numerical)
  }

  /** TallyOf is the left fold of TallyNext. */
  lemma TallyStep(nums: seq<real>, anas: seq<real>, k: nat)
    requires |nums| == |anas| && k < |nums|
    ensures TallyOf(nums[..k + 1], anas[..k + 1]) == TallyNext(TallyOf(nums[..k], anas[..k]), nums[k], anas[k])
  {
    assert anas[..k + 1] == anas[..k] + [anas[k]];
    assert nums[..k + 1] == nums[..k] + [nums[k]];
    TallySnoc(nums[..k], anas[..k], nums[k], anas[k]);
  }

  lemma TallySnoc(nums: seq<real>, anas: seq<real>, x: real, y: real)
    requires |nums| == |anas|
    ensures TallyOf(nums + [x], anas + [y]) == TallyNext(TallyOf(nums, anas), x, y)
  {
    var e, rels := RelError(x, y), RelErrors(nums, anas);
    assert RelErrors(nums + [x], anas + [y]) == rels + [e];
    RunningMaxSnoc(rels, e);
    SumSquaresSnoc(anas, y);
    SumSquaresSnoc(nums, x);
    assert TallyOf(nums + [x], anas + [y]) == Tally(RunningMax(rels + [e]), SumSquares(anas + [y]), SumSquares(nums + [x]));
  }

  lemma RunningMaxSnoc(s: seq<real>, x: real)
    ensures RunningMax(s + [x]) == if x > RunningMax(s) then x else RunningMax(s)
  {
    assert (s + [x])[..|s|] == s;
  }

  lemma SumSquaresSnoc(s: seq<real>, x: real)
    ensures SumSquares(s + [x]) == SumSquares(s) + x * x
  {
    assert (s + [x])[..|s|] == s;
  }

  /** A tally's maxRelError is below t exactly when t is positive and
      every pair's relative error is below t. */
  lemma TallyBelow(nums: seq<real>, anas: seq<real>, t: real)
    requires |nums| == |anas|
    ensures TallyOf(nums, anas).maxRelError < t <==>
      0.0 < t && forall k :: 0 <= k < |nums| ==> RelError(nums[k], anas[k]) < t
  {
    var rels := RelErrors(nums, anas);
    RunningMaxBelow(rels, t);
    assert forall k :: 0 <= k < |nums| ==> rels[k] == RelError(nums[k], anas[k]);
  }

  /** What gradCheck's test of one parameter needs: f defined around the weights,
      weights and gradients of the configuration's sizes. */
  ghost predicate ProbePre(c: Config, f: Loss, W: seq<Vec>, G: seq<Vec>, pi: nat, eps: real)
  {
    DefinedAround(f, W) && Sized(c, W) && Sized(c, G) && pi < |W| && eps != 0.0
  }

  /** The numerical and the analytical gradients at the probed indices of
      parameter pi. */
  ghost function ProbeNumericals(c: Config, f: Loss, W: seq<Vec>, G: seq<Vec>, pi: nat, eps: real): (r: seq<real>)
    requires ProbePre(c, f, W, G, pi, eps)
    ensures |r| == |IndicesToCheck(ParamSize(c, pi))|
  {
    ProbesInside(c, W, pi);
    Numericals(f, W, pi, IndicesToCheck(ParamSize(c, pi)), eps)
  }

  function ProbeAnalyticals(c: Config, G: seq<Vec>, pi: nat): (r: seq<real>)
    requires Sized(c, G) && pi < |G|
    ensures |r| == |IndicesToCheck(ParamSize(c, pi))|
  {
    ProbesInside(c, G, pi);
    Analyticals(G, pi, IndicesToCheck(ParamSize(c, pi)))
  }

  /** The tally after the first k probed indices of parameter pi. */
  ghost function ProbeTally(c: Config, f: Loss, W: seq<Vec>, G: seq<Vec>, pi: nat, eps: real, k: nat): Tally
    requires ProbePre(c, f, W, G, pi, eps) && k <= |IndicesToCheck(ParamSize(c, pi))|
  {
    TallyOf(ProbeNumericals(c, f, W, G, pi, eps)[..k], ProbeAnalyticals(c, G, pi)[..k])
  }

  /** One more probed index: the tally after k + 1 indices is the loop
      body applied to the tally after k and the two gradients at the k-th
      index. */
  lemma ProbeAdvance(c: Config, f: Loss, W: seq<Vec>, G: seq<Vec>, pi: nat, eps: real, k: nat)
    requires ProbePre(c, f, W, G, pi, eps) && k < |IndicesToCheck(ParamSize(c, pi))|
    ensures IndicesToCheck(ParamSize(c, pi))[k] < |W[pi]| && IndicesToCheck(ParamSize(c, pi))[k] < |G[pi]|
    ensures ProbeTally(c, f, W, G, pi, eps, k + 1)
            == TallyNext(ProbeTally(c, f, W, G, pi, eps, k),
                         NumericalGrad(f, W, pi, IndicesToCheck(ParamSize(c, pi))[k], eps),
                         G[pi][IndicesToCheck(ParamSize(c, pi))[k]])
  {
    ProbesInside(c, W, pi);
    ProbesInside(c, G, pi);
    var nums, anas := ProbeNumericals(c, f, W, G, pi, eps), ProbeAnalyticals(c, G, pi);
    TallyStep(nums, anas, k);
  }

  /** Before the first probed index the tally is all zeros. */
  lemma ProbeTallyStart(c: Config, f: Loss, W: seq<Vec>, G: seq<Vec>, pi: nat, eps: real)
    requires ProbePre(c, f, W, G, pi, eps)
    ensures ProbeTally(c, f, W, G, pi, eps, 0) == Tally(0.0, 0.0, 0.0)
  {
    var nums, anas := ProbeNumericals(c, f, W, G, pi, eps), ProbeAnalyticals(c, G, pi);
    assert nums[..0] == [] && anas[..0] == [];
    assert RelErrors([], []) == [];
  }

  /** One entry of `paramErrors`. */
  datatype ParamError = ParamError(name: string, maxRelError: real, analyticalNorm: real, numericalNorm: real)

  /** gradCheck's test of parameter pi: the largest relative error over its
      probed indices, and the norms of both gradients there. */
  ghost function ParamCheck(m: MathLib, c: Config, f: Loss, W: seq<Vec>, G: seq<Vec>, pi: nat, name: string, eps: real): ParamError
    requires ProbePre(c, f, W, G, pi, eps)
  {
    var t := TallyOf(ProbeNumericals(c, f, W, G, pi, eps), ProbeAnalyticals(c, G, pi));
    ParamError(name, t.maxRelError, m.sqrt(t.analyticalSq), m.sqrt(t.numericalSq))
  }

  /** After the last probed index the tally gives the parameter's check. */
  lemma ProbeTallyEnd(m: MathLib, c: Config, f: Loss, W: seq<Vec>, G: seq<Vec>, pi: nat, name: string, eps: real)
    requires ProbePre(c, f, W, G, pi, eps)
    ensures var t := ProbeTally(c, f, W, G, pi, eps, |IndicesToCheck(ParamSize(c, pi))|);
            ParamCheck(m, c, f, W, G, pi, name, eps) == ParamError(name, t.maxRelError, m.sqrt(t.analyticalSq), m.sqrt(t.numericalSq))
  {
    var nums, anas := ProbeNumericals(c, f, W, G, pi, eps), ProbeAnalyticals(c, G, pi);
    assert nums[..|nums|] == nums && anas[..|anas|] == anas;
  }

  /** The relative error at the k-th probed index of parameter pi. */
  ghost function ProbeError(c: Config, f: Loss, W: seq<Vec>, G: seq<Vec>, pi: nat, k: nat, eps: real): real
    requires ProbePre(c, f, W, G, pi, eps) && k < |IndicesToCheck(ParamSize(c, pi))|
  {
    RelError(ProbeNumericals(c, f, W, G, pi, eps)[k], ProbeAnalyticals(c, G, pi)[k])
  }

  /** A parameter's maxRelError is below t exactly when t is positive and
      the relative error at every probed index is below t. */
  lemma ParamCheckBelow(m: MathLib, c: Config, f: Loss, W: seq<Vec>, G: seq<Vec>, pi: nat, name: string, eps: real, t: real)
    requires ProbePre(c, f, W, G, pi, eps)
    ensures ParamCheck(m, c, f, W, G, pi, name, eps).maxRelError < t <==>
      0.0 < t && forall k :: 0 <= k < |IndicesToCheck(ParamSize(c, pi))| ==> ProbeError(c, f, W, G, pi, k, eps) < t
  {
    var nums, anas := ProbeNumericals(c, f, W, G, pi, eps), ProbeAnalyticals(c, G, pi);
    TallyBelow(nums, anas, t);
    assert ParamCheck(m, c, f, W, G, pi, name, eps).maxRelError == TallyOf(nums, anas).maxRelError;
    forall k | 0 <= k < |nums| ensures ProbeError(c, f, W, G, pi, k, eps) == RelError(nums[k], anas[k]) {
    }
  }

  // --------------------------------------------------------------- gradCheck

  /** gradCheck's model: 8 tokens, 8 positions, one layer, two heads,
      width 8. */
  const CheckConfig: Config := Config(8, 8, 1, 2, 8)

  /** gradCheck's fixed token sequence. */
  const CheckTokens: seq<nat> := [0, 1, 2, 3, 1, 2]

  /** What gradCheck returns. */
  datatype GradCheckResult = GradCheckResult(maxRelError: real, paramErrors: seq<ParamError>, passed: bool)

  /** The maxRelError of each entry. */
  function Maxima(errors: seq<ParamError>): (r: seq<real>)
    ensures |r| == |errors|
  {
    seq(|errors|, i requires 0 <= i < |errors| => errors[i].maxRelError)
  }

  /** A prefix one longer is the prefix and the next element. */
  lemma TakeOneMore<T>(s: seq<T>, i: nat)
    requires i < |s|
    ensures s[..i + 1] == s[..i] + [s[i]]
  {
  }

  /** One more entry adds its maxRelError to the maxima. */
  lemma MaximaSnoc(errors: seq<ParamError>, e: ParamError)
    ensures Maxima(errors + [e]) == Maxima(errors) + [e.maxRelError]
  {
    assert forall i :: 0 <= i < |errors| ==> (errors + [e])[i] == errors[i];
  }

  /** What gradCheck's tests of all parameters need. */
  ghost predicate ChecksPre(c: Config, f: Loss, W: seq<Vec>, G: seq<Vec>, eps: real)
  {
    DefinedAround(f, W) && Sized(c, W) && Sized(c, G) && eps != 0.0
  }

  /** `paramErrors`: every parameter checked in `parameters()` order under
      its getParamNames name. */
  ghost function ParamErrorsOf(m: MathLib, c: Config, f: Loss, W: seq<Vec>, G: seq<Vec>, eps: real): (r: seq<ParamError>)
    requires ChecksPre(c, f, W, G, eps)
    ensures |r| == |W|
  {
    seq(|W|, pi requires 0 <= pi < |W| => ParamCheck(m, c, f, W, G, pi, ParamName(pi), eps))
  }

  /** The result: the largest of the parameters' maxima (0 when there are
      none above it), and whether it is below tolerance. */
  ghost function ResultOf(m: MathLib, c: Config, f: Loss, W: seq<Vec>, G: seq<Vec>, eps: real, tolerance: real): GradCheckResult
    requires ChecksPre(c, f, W, G, eps)
  {
    var errors := ParamErrorsOf(m, c, f, W, G, eps);
    var mx := RunningMax(Maxima(errors));
    GradCheckResult(mx, errors, mx < tolerance)
  }

  /** gradCheck passes exactly when tolerance is positive and the relative
      error at every probed entry of every parameter is below it. */
  lemma PassedIffAllBelow(m: MathLib, c: Config, f: Loss, W: seq<Vec>, G: seq<Vec>, eps: real, tolerance: real)
    requires ChecksPre(c, f, W, G, eps)
    ensures ResultOf(m, c, f, W, G, eps, tolerance).passed <==>
      0.0 < tolerance && forall pi, k :: 0 <= pi < |W| && 0 <= k < |IndicesToCheck(ParamSize(c, pi))| ==>
        ProbeError(c, f, W, G, pi, k, eps) < tolerance
  {
    var maxima := Maxima(ParamErrorsOf(m, c, f, W, G, eps));
    RunningMaxBelow(maxima, tolerance);
    assert ResultOf(m, c, f, W, G, eps, tolerance).passed == (RunningMax(maxima) < tolerance);
    forall pi | 0 <= pi < |W|
      ensures maxima[pi] < tolerance <==>
        0.0 < tolerance && forall k :: 0 <= k < |IndicesToCheck(ParamSize(c, pi))| ==> ProbeError(c, f, W, G, pi, k, eps) < tolerance
    {
      assert maxima[pi] == ParamCheck(m, c, f, W, G, pi, ParamName(pi), eps).maxRelError;
      ParamCheckBelow(m, c, f, W, G, pi, ParamName(pi), eps, tolerance);
    }
  }

  /** What gradCheck needs: the math laws, initial weights of gradCheck's
      sizes, and a non-zero eps. */
  ghost predicate CheckPre(m: MathLib, init: seq<Vec>, eps: real)
  {
    Lawful(m) && Fits(CheckConfig, init) && eps != 0.0
  }

  /** gradCheck's model, tokens and weights meet what trainStep and
      computeLoss need. */
  lemma TrainReady(m: MathLib, init: seq<Vec>, eps: real)
    requires CheckPre(m, init, eps)
    ensures TrainPre(m, CheckConfig, init, CheckTokens) && LossPre(m, CheckConfig, init, CheckTokens)
  {
    assert TokensFit(CheckConfig, CheckTokens);
    FitsBySize(CheckConfig, init);
  }

  /** What gradCheck's steps need on any config and tokens: what
      trainStep needs, and a non-zero eps. */
  ghost predicate RunPre(m: MathLib, c: Config, tokens: seq<nat>, init: seq<Vec>, eps: real)
  {
    TrainPre(m, c, init, tokens) && eps != 0.0
  }

  /** ... and so computeLoss is defined and the probes of every parameter
      are too. */
  lemma RunReady(m: MathLib, c: Config, tokens: seq<nat>, init: seq<Vec>, eps: real)
    requires RunPre(m, c, tokens, init, eps)
    ensures LossPre(m, c, init, tokens)
    ensures ChecksPre(c, LossOf(m, c, tokens), init, TrainGrads(m, c, init, tokens), eps)
  {
    FitsBySize(c, init);
    LossOfAround(m, c, tokens, init);
  }

  /** gradCheck's result on the config c, the tokens and the initial
      weights init: the analytical gradients are those trainStep leaves,
      the numerical ones central differences of computeLoss. */
  ghost function GradCheckOn(m: MathLib, c: Config, tokens: seq<nat>, init: seq<Vec>, eps: real, tolerance: real): GradCheckResult
    requires RunPre(m, c, tokens, init, eps)
  {
    RunReady(m, c, tokens, init, eps);
    ResultOf(m, c, LossOf(m, c, tokens), init, TrainGrads(m, c, init, tokens), eps, tolerance)
  }

  /** `gradCheck(eps, tolerance)` on the initial weights init. */
  ghost function GradCheckOf(m: MathLib, init: seq<Vec>, eps: real, tolerance: real): GradCheckResult
    requires CheckPre(m, init, eps)
  {
    TrainReady(m, init, eps);
    GradCheckOn(m, CheckConfig, CheckTokens, init, eps, tolerance)
  }

  // ------------------------------------------------- perturb, probe, restore

  /** `param.data.set(src)` on parameter pi: that weight becomes src and
      every other weight stays. */
  method WriteWeight(model: MicroGPT, pi: nat, src: Vec)
    requires model.Valid() && pi < NumParams(model.config.nLayer) && |src| == ParamSize(model.config, pi)
    modifies model.Parameters()[pi].buffer
    ensures model.Valid() && model.Weights() == old(model.Weights())[pi := src]
  {
    var ps := model.Parameters();
    ghost var W0 := model.Weights();
    assert ParamReady(model.config, ps[pi], pi);
    ps[pi].SetData(src);
    assert ps[pi].Data() == src;
    forall j | 0 <= j < |ps| ensures ps[j].Data() == W0[pi := src][j] {
      assert ParamReady(model.config, ps[j], j);
    }
  }

  /** `param.data[idx] += d` on parameter pi (`-= eps` is d = -eps): that
      one entry moves by d. */
  method NudgeWeight(model: MicroGPT, pi: nat, idx: nat, d: real)
    requires model.Valid() && pi < NumParams(model.config.nLayer) && idx < ParamSize(model.config, pi)
    modifies model.Parameters()[pi].buffer
    ensures model.Valid() && model.Weights() == Perturbed(old(model.Weights()), pi, idx, d)
  {
    var ps := model.Parameters();
    ghost var W0 := model.Weights();
    assert ParamReady(model.config, ps[pi], pi);
    ps[pi].AddAt(idx, d);
    forall j | 0 <= j < |ps| ensures ps[j].Data() == Perturbed(W0, pi, idx, d)[j] {
      assert ParamReady(model.config, ps[j], j);
    }
  }

  /** The numerical gradient of the loss is the difference quotient of
      the two losses at the weights moved by ±eps. */
  lemma NumericalGradOfLoss(m: MathLib, c: Config, tokens: seq<nat>, W: seq<Vec>, pi: nat, idx: nat, eps: real,
                            negEps: real, lossPlus: real, lossMinus: real)
    requires LossPre(m, c, W, tokens) && pi < |W| && idx < |W[pi]| && eps != 0.0 && negEps == -eps
    requires LossPre(m, c, Perturbed(W, pi, idx, eps), tokens) && LossPre(m, c, Perturbed(W, pi, idx, negEps), tokens)
    requires lossPlus == CheckLoss(m, c, Perturbed(W, pi, idx, eps), tokens)
    requires lossMinus == CheckLoss(m, c, Perturbed(W, pi, idx, negEps), tokens)
    ensures DefinedAround(LossOf(m, c, tokens), W)
    ensures NumericalGrad(LossOf(m, c, tokens), W, pi, idx, eps) == Quotient(lossPlus, lossMinus, eps)
  {
    LossOfAround(m, c, tokens, W);
    var f := LossOf(m, c, tokens);
    var plus, minus := Perturbed(W, pi, idx, eps), Perturbed(W, pi, idx, negEps);
    assert lossPlus == f(plus);
    assert lossMinus == f(minus);
    PerturbedNeg(W, pi, idx, eps, negEps);
  }

  /** Perturbed at a negated step, named. */
  lemma PerturbedNeg(W: seq<Vec>, pi: nat, idx: nat, eps: real, negEps: real)
    requires pi < |W| && idx < |W[pi]| && negEps == -eps
    ensures Perturbed(W, pi, idx, negEps) == Perturbed(W, pi, idx, -eps)
  {
  }

  /** computeLoss at weights V, which it leaves as they are. */
  method MeasureLoss(m: MathLib, model: MicroGPT, tokens: seq<nat>, ghost V: seq<Vec>) returns (loss: real)
    requires model.Valid() && model.Weights() == V && LossPre(m, model.config, V, tokens)
    ensures model.Valid() && model.Weights() == V && loss == CheckLoss(m, model.config, V, tokens)
  {
    ghost var bufs := model.WeightBuffers();
    assert forall a :: a in bufs ==> allocated(a);
    loss := ComputeLoss(m, model, tokens);
  }

  /** Saved weights put back, entry idx of parameter pi moved by d, and
      computeLoss run: the loss function at the perturbed weights. */
  method LossAt(m: MathLib, model: MicroGPT, tokens: seq<nat>, savedWeights: seq<Vec>, pi: nat, idx: nat, d: real)
    returns (loss: real)
    requires model.Valid() && LossPre(m, model.config, savedWeights, tokens)
    requires pi < |savedWeights| && idx < |savedWeights[pi]|
    requires model.Weights()[pi := savedWeights[pi]] == savedWeights
    modifies model.Parameters()[pi].buffer
    ensures model.Valid() && model.Weights() == Perturbed(savedWeights, pi, idx, d)
    ensures LossPre(m, model.config, Perturbed(savedWeights, pi, idx, d), tokens)
    ensures loss == CheckLoss(m, model.config, Perturbed(savedWeights, pi, idx, d), tokens)
  {
    LossOfAround(m, model.config, tokens, savedWeights);
    FitsBySize(model.config, savedWeights);
    WriteWeight(model, pi, savedWeights[pi]);
    NudgeWeight(model, pi, idx, d);
    loss := MeasureLoss(m, model, tokens, Perturbed(savedWeights, pi, idx, d));
  }

  /** The body of the loop over indicesToCheck, up to the numerical
      gradient: computeLoss with entry idx raised by eps, then lowered by
      eps, each time from the saved weights, then the saved weights put
      back. */
  method ProbeIndex(m: MathLib, model: MicroGPT, tokens: seq<nat>, savedWeights: seq<Vec>, pi: nat, idx: nat, eps: real)
    returns (numericalGrad: real)
    requires model.Valid() && model.Weights() == savedWeights && LossPre(m, model.config, savedWeights, tokens)
    requires pi < |savedWeights| && idx < |savedWeights[pi]| && eps != 0.0
    modifies model.Parameters()[pi].buffer
    ensures model.Valid() && model.Weights() == savedWeights
    ensures DefinedAround(LossOf(m, model.config, tokens), savedWeights)
    ensures numericalGrad == NumericalGrad(LossOf(m, model.config, tokens), savedWeights, pi, idx, eps)
  {
    FitsBySize(model.config, savedWeights);
    var lossPlus := LossAt(m, model, tokens, savedWeights, pi, idx, eps);
    PerturbedRestored(savedWeights, pi, idx, eps);
    var negEps := -eps;
    var lossMinus := LossAt(m, model, tokens, savedWeights, pi, idx, negEps);
    PerturbedRestored(savedWeights, pi, idx, negEps);
    WriteWeight(model, pi, savedWeights[pi]);
    NumericalGradOfLoss(m, model.config, tokens, savedWeights, pi, idx, eps, negEps, lossPlus, lossMinus);
    numericalGrad := Quotient(lossPlus, lossMinus, eps);
  }

  /** The arithmetic of one turn of the loop over indicesToCheck: both
      squares added, and the larger relative error kept. */
  method Accumulate(maxRelError: real, analyticalNorm: real, numericalNorm: real, numericalGrad: real, analyticalGrad: real)
    returns (maxRelError': real, analyticalNorm': real, numericalNorm': real)
    ensures Tally(maxRelError', analyticalNorm', numericalNorm')
            == TallyNext(Tally(maxRelError, analyticalNorm, numericalNorm), numericalGrad, analyticalGrad)
  {
    analyticalNorm' := analyticalNorm + analyticalGrad * analyticalGrad;
    numericalNorm' := numericalNorm + numericalGrad * numericalGrad;
    var relError := RelError(numericalGrad, analyticalGrad);
    maxRelError' := maxRelError;
    if relError > maxRelError {
      maxRelError' := relError;
    }
  }

  /** One turn of the loop over indicesToCheck: the numerical gradient at
      idx, the analytical one read from the saved gradients, then the
      arithmetic above. */
  method ProbeStep(m: MathLib, model: MicroGPT, tokens: seq<nat>, savedWeights: seq<Vec>, analyticalGrads: seq<Vec>,
                   pi: nat, idx: nat, eps: real, maxRelError: real, analyticalNorm: real, numericalNorm: real)
    returns (maxRelError': real, analyticalNorm': real, numericalNorm': real)
    requires model.Valid() && model.Weights() == savedWeights && LossPre(m, model.config, savedWeights, tokens)
    requires pi < |savedWeights| && pi < |analyticalGrads| && idx < |savedWeights[pi]| && idx < |analyticalGrads[pi]|
    requires eps != 0.0
    modifies model.Parameters()[pi].buffer
    ensures model.Valid() && model.Weights() == savedWeights
    ensures DefinedAround(LossOf(m, model.config, tokens), savedWeights)
    ensures Tally(maxRelError', analyticalNorm', numericalNorm')
            == TallyNext(Tally(maxRelError, analyticalNorm, numericalNorm),
                         NumericalGrad(LossOf(m, model.config, tokens), savedWeights, pi, idx, eps), analyticalGrads[pi][idx])
  {
    ghost var bufs := model.WeightBuffers();
    assert forall a :: a in bufs ==> allocated(a);
    var numericalGrad := ProbeIndex(m, model, tokens, savedWeights, pi, idx, eps);
    var analyticalGrad := analyticalGrads[pi][idx];
    maxRelError', analyticalNorm', numericalNorm' := Accumulate(maxRelError, analyticalNorm, numericalNorm, numericalGrad, analyticalGrad);
  }

  /** Writing a slot's own value back changes nothing. */
  lemma RewriteSame(W: seq<Vec>, pi: nat)
    requires pi < |W|
    ensures W[pi := W[pi]] == W
  {
  }

  /** The loop over indicesToCheck: the tally of all probed indices of
      parameter pi. */
  method ProbeAll(m: MathLib, model: MicroGPT, tokens: seq<nat>, savedWeights: seq<Vec>, analyticalGrads: seq<Vec>,
                  pi: nat, eps: real, indicesToCheck: seq<nat>) returns (maxRelError: real, analyticalNorm: real, numericalNorm: real)
    requires model.Valid() && model.Weights() == savedWeights && LossPre(m, model.config, savedWeights, tokens)
    requires ProbePre(model.config, LossOf(m, model.config, tokens), savedWeights, analyticalGrads, pi, eps)
    requires indicesToCheck == IndicesToCheck(ParamSize(model.config, pi))
    modifies model.Parameters()[pi].buffer
    ensures model.Valid() && model.Weights() == savedWeights
    ensures Tally(maxRelError, analyticalNorm, numericalNorm)
            == ProbeTally(model.config, LossOf(m, model.config, tokens), savedWeights, analyticalGrads, pi, eps, |indicesToCheck|)
  {
    ghost var c := model.config;
    ghost var f := LossOf(m, c, tokens);
    maxRelError, analyticalNorm, numericalNorm := 0.0, 0.0, 0.0;
    ProbeTallyStart(c, f, savedWeights, analyticalGrads, pi, eps);
    for k := 0 to |indicesToCheck|
      invariant model.Valid() && model.Weights() == savedWeights
      invariant Tally(maxRelError, analyticalNorm, numericalNorm) == ProbeTally(c, f, savedWeights, analyticalGrads, pi, eps, k)
    {
      ProbeAdvance(c, f, savedWeights, analyticalGrads, pi, eps, k);
      maxRelError, analyticalNorm, numericalNorm :=
        ProbeStep(m, model, tokens, savedWeights, analyticalGrads, pi, indicesToCheck[k], eps, maxRelError, analyticalNorm, numericalNorm);
    }
  }

  /** One turn of the loop over the parameters: the weights put back, the
      indices chosen, each probed, and the norms' square roots taken. */
  method CheckParam(m: MathLib, model: MicroGPT, tokens: seq<nat>, savedWeights: seq<Vec>, analyticalGrads: seq<Vec>,
                    pi: nat, name: string, eps: real) returns (err: ParamError)
    requires model.Valid() && model.Weights() == savedWeights && LossPre(m, model.config, savedWeights, tokens)
    requires Sized(model.config, analyticalGrads) && pi < |savedWeights| && eps != 0.0
    modifies model.Parameters()[pi].buffer
    ensures model.Valid() && model.Weights() == savedWeights
    ensures ProbePre(model.config, LossOf(m, model.config, tokens), savedWeights, analyticalGrads, pi, eps)
    ensures err == ParamCheck(m, model.config, LossOf(m, model.config, tokens), savedWeights, analyticalGrads, pi, name, eps)
  {
    ghost var c := model.config;
    ghost var f := LossOf(m, c, tokens);
    FitsBySize(c, savedWeights);
    LossOfAround(m, c, tokens, savedWeights);
    assert ProbePre(c, f, savedWeights, analyticalGrads, pi, eps);
    var param := model.Parameters()[pi];
    assert ParamReady(c, param, pi);
    WriteWeight(model, pi, savedWeights[pi]);
    RewriteSame(savedWeights, pi);
    var indicesToCheck := IndicesToCheck(param.size);
    var maxRelError, analyticalNorm, numericalNorm := ProbeAll(m, model, tokens, savedWeights, analyticalGrads, pi, eps, indicesToCheck);
    ProbeTallyEnd(m, c, f, savedWeights, analyticalGrads, pi, name, eps);
    analyticalNorm := m.sqrt(analyticalNorm);
    numericalNorm := m.sqrt(numericalNorm);
    err := ParamError(name, maxRelError, analyticalNorm, numericalNorm);
  }

  /** `paramNames[pi] ?? \`param_${pi}\``. */
  function NameOf(paramNames: seq<string>, pi: nat): string
  {
    if pi < |paramNames| then paramNames[pi] else "param_" + Decimal(pi)
  }

  /** What the loop over the parameters keeps: the entries so far are the
      first pi checks, and globalMaxRelError is the largest of their
      maxima. */
  ghost predicate ChecksSoFar(m: MathLib, c: Config, f: Loss, W: seq<Vec>, G: seq<Vec>, eps: real, pi: nat,
                              paramErrors: seq<ParamError>, globalMax: real)
    requires ChecksPre(c, f, W, G, eps)
  {
    pi <= |W| && paramErrors == ParamErrorsOf(m, c, f, W, G, eps)[..pi] && globalMax == RunningMax(Maxima(paramErrors))
  }

  /** One more entry: the next check appended and the running maximum
      raised to its maxRelError when that is larger. */
  lemma ChecksSoFarNext(m: MathLib, c: Config, f: Loss, W: seq<Vec>, G: seq<Vec>, eps: real, pi: nat,
                        paramErrors: seq<ParamError>, globalMax: real, err: ParamError)
    requires ChecksPre(c, f, W, G, eps) && pi < |W|
    requires ChecksSoFar(m, c, f, W, G, eps, pi, paramErrors, globalMax)
    requires err == ParamCheck(m, c, f, W, G, pi, ParamName(pi), eps)
    ensures ChecksSoFar(m, c, f, W, G, eps, pi + 1, paramErrors + [err],
                        if err.maxRelError > globalMax then err.maxRelError else globalMax)
  {
    var all := ParamErrorsOf(m, c, f, W, G, eps);
    TakeOneMore(all, pi);
    assert all[pi] == err;
    MaximaSnoc(paramErrors, err);
    RunningMaxSnoc(Maxima(paramErrors), err.maxRelError);
  }

  /** After the last parameter the entries and the maximum are the
      result's. */
  lemma ChecksSoFarDone(m: MathLib, c: Config, f: Loss, W: seq<Vec>, G: seq<Vec>, eps: real,
                        paramErrors: seq<ParamError>, globalMax: real, tolerance: real)
    requires ChecksPre(c, f, W, G, eps)
    requires ChecksSoFar(m, c, f, W, G, eps, |W|, paramErrors, globalMax)
    ensures ResultOf(m, c, f, W, G, eps, tolerance) == GradCheckResult(globalMax, paramErrors, globalMax < tolerance)
  {
    var all := ParamErrorsOf(m, c, f, W, G, eps);
    assert all[..|W|] == all;
  }

  /** One turn of the loop over the parameters, from the name to the
      running maximum. */
  method ParamStep(m: MathLib, model: MicroGPT, tokens: seq<nat>, savedWeights: seq<Vec>, analyticalGrads: seq<Vec>,
                   paramNames: seq<string>, pi: nat, eps: real, paramErrors: seq<ParamError>, globalMax: real)
    returns (paramErrors': seq<ParamError>, globalMax': real)
    requires model.Valid() && model.Weights() == savedWeights && LossPre(m, model.config, savedWeights, tokens)
    requires Sized(model.config, analyticalGrads) && pi < |savedWeights| && eps != 0.0
    requires paramNames == ParamNameList(model.config.nLayer)
    requires ChecksPre(model.config, LossOf(m, model.config, tokens), savedWeights, analyticalGrads, eps)
    requires ChecksSoFar(m, model.config, LossOf(m, model.config, tokens), savedWeights, analyticalGrads, eps, pi, paramErrors, globalMax)
    modifies model.WeightBuffers()
    ensures model.Valid() && model.Weights() == savedWeights
    ensures ChecksSoFar(m, model.config, LossOf(m, model.config, tokens), savedWeights, analyticalGrads, eps, pi + 1,
                        paramErrors', globalMax')
  {
    var name := NameOf(paramNames, pi);
    var err := CheckParam(m, model, tokens, savedWeights, analyticalGrads, pi, name, eps);
    ChecksSoFarNext(m, model.config, LossOf(m, model.config, tokens), savedWeights, analyticalGrads, eps, pi, paramErrors, globalMax, err);
    paramErrors' := paramErrors + [err];
    globalMax' := globalMax;
    if err.maxRelError > globalMax {
      globalMax' := err.maxRelError;
    }
  }

  /** The loop over the parameters: every parameter checked, in
      `parameters()` order, and the largest of their maxima. */
  method CheckAll(m: MathLib, model: MicroGPT, tokens: seq<nat>, savedWeights: seq<Vec>, analyticalGrads: seq<Vec>,
                  paramNames: seq<string>, eps: real) returns (paramErrors: seq<ParamError>, globalMaxRelError: real)
    requires model.Valid() && model.Weights() == savedWeights && LossPre(m, model.config, savedWeights, tokens)
    requires Sized(model.config, analyticalGrads) && eps != 0.0
    requires paramNames == ParamNameList(model.config.nLayer)
    modifies model.WeightBuffers()
    ensures model.Valid() && model.Weights() == savedWeights
    ensures ChecksPre(model.config, LossOf(m, model.config, tokens), savedWeights, analyticalGrads, eps)
    ensures ChecksSoFar(m, model.config, LossOf(m, model.config, tokens), savedWeights, analyticalGrads, eps, |savedWeights|,
                        paramErrors, globalMaxRelError)
  {
    ghost var f := LossOf(m, model.config, tokens);
    FitsBySize(model.config, savedWeights);
    LossOfAround(m, model.config, tokens, savedWeights);
    paramErrors, globalMaxRelError := [], 0.0;
    var params := model.Parameters();
    for pi := 0 to |params|
      invariant model.Valid() && model.Weights() == savedWeights
      invariant ChecksSoFar(m, model.config, f, savedWeights, analyticalGrads, eps, pi, paramErrors, globalMaxRelError)
    {
      paramErrors, globalMaxRelError :=
        ParamStep(m, model, tokens, savedWeights, analyticalGrads, paramNames, pi, eps, paramErrors, globalMaxRelError);
    }
  }

  /** Step 2 of gradCheck and its result: every parameter checked, and
      `passed` when the largest maxRelError is below tolerance. */
  method CheckTrained(m: MathLib, model: MicroGPT, tokens: seq<nat>, savedWeights: seq<Vec>, analyticalGrads: seq<Vec>,
                      paramNames: seq<string>, eps: real, tolerance: real) returns (result: GradCheckResult)
    requires model.Valid() && model.Weights() == savedWeights && LossPre(m, model.config, savedWeights, tokens)
    requires Sized(model.config, analyticalGrads) && eps != 0.0
    requires paramNames == ParamNameList(model.config.nLayer)
    modifies model.WeightBuffers()
    ensures ChecksPre(model.config, LossOf(m, model.config, tokens), savedWeights, analyticalGrads, eps)
    ensures result == ResultOf(m, model.config, LossOf(m, model.config, tokens), savedWeights, analyticalGrads, eps, tolerance)
  {
    var paramErrors, globalMaxRelError := CheckAll(m, model, tokens, savedWeights, analyticalGrads, paramNames, eps);
    ChecksSoFarDone(m, model.config, LossOf(m, model.config, tokens), savedWeights, analyticalGrads, eps, paramErrors,
                    globalMaxRelError, tolerance);
    result := GradCheckResult(globalMaxRelError, paramErrors, globalMaxRelError < tolerance);
  }

  /** Step 1 of gradCheck: a model of config c built on the weights
      init, the weights saved, one trainStep on tokens, and the gradients
      it leaves copied out. */
  method TrainedModel(m: MathLib, c: Config, tokens: seq<nat>, init: seq<Vec>)
    returns (model: MicroGPT, savedWeights: seq<Vec>, analyticalGrads: seq<Vec>)
    requires TrainPre(m, c, init, tokens)
    ensures model.Valid() && model.config == c && model.Weights() == savedWeights && savedWeights == init
    ensures fresh(model.WeightBuffers())
    ensures analyticalGrads == TrainGrads(m, c, init, tokens)
  {
    model := new MicroGPT(c, init);
    savedWeights := model.Weights();
    var _ := TrainStep.TrainStep(m, model, tokens);
    analyticalGrads := model.Grads();
  }

  /** gradCheck's steps on the config c and the tokens: the trained model,
      then every parameter probed by central differences. getParamNames
      depends on the config alone, so the names are made first here rather
      than after trainStep. */
  method GradCheckWith(m: MathLib, c: Config, tokens: seq<nat>, init: seq<Vec>, eps: real, tolerance: real)
    returns (result: GradCheckResult)
    requires RunPre(m, c, tokens, init, eps)
    ensures result == GradCheckOn(m, c, tokens, init, eps, tolerance)
  {
    var paramNames := ParamNames(c.nLayer);
    var model, savedWeights, analyticalGrads := TrainedModel(m, c, tokens, init);
    RunReady(m, c, tokens, init, eps);
    result := CheckTrained(m, model, tokens, savedWeights, analyticalGrads, paramNames, eps, tolerance);
  }

  /** `gradCheck(eps, tolerance)`: gradCheck's config and tokens. */
  method RunGradCheck(m: MathLib, init: seq<Vec>, eps: real, tolerance: real) returns (result: GradCheckResult)
    requires CheckPre(m, init, eps)
    ensures result == GradCheckOf(m, init, eps, tolerance)
  {
    TrainReady(m, init, eps);
    result := GradCheckWith(m, CheckConfig, CheckTokens, init, eps, tolerance);
  }
}
