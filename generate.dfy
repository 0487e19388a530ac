/**
 * Autoregressive generation with a trained MicroGPT: start from BOS at
 * position 0, run forward with a growing key/value cache, sample the next
 * token from the softmax of the (temperature-scaled) logits, and stop at
 * BOS or at the position limit. Math.random is the parameter `rand`: the
 * draw of step `pos` is `rand(pos)`.
 */
module Generation {
  import opened Numeric
  import opened Kernels
  import opened ModelMath
  import opened TrainMath
  import opened Model
  import opened CharTokenizers

  // ---- sampleFromProbs ----

  /** The prefix sum `cumSum` after entry i. */
  function CumSum(probs: Vec, i: nat): real
    requires i < |probs|
  {
    Sum(probs[..i + 1])
  }

  /** The first index from i on whose prefix sum reaches r, or the last
      index when none does. */
  function SampleFrom(probs: Vec, r: real, i: nat): int
    requires i <= |probs|
    decreases |probs| - i
  {
    if i == |probs| then |probs| - 1
    else if r <= CumSum(probs, i) then i
    else SampleFrom(probs, r, i + 1)
  }

  function Sample(probs: Vec, r: real): int
  {
    SampleFrom(probs, r, 0)
  }

  /** What SampleFrom finds: the smallest index at or after i whose prefix
      sum reaches r, or else the last index. */
  lemma {:induction false} SampleFromIsFirst(probs: Vec, r: real, i: nat)
    requires i <= |probs|
    ensures var k := SampleFrom(probs, r, i);
      || (i <= k < |probs| && r <= CumSum(probs, k) && forall j :: i <= j < k ==> r > CumSum(probs, j))
      || (k == |probs| - 1 && forall j :: i <= j < |probs| ==> r > CumSum(probs, j))
    decreases |probs| - i
  {
    if i < |probs| && r > CumSum(probs, i) {
      SampleFromIsFirst(probs, r, i + 1);
    }
  }

  /** `sampleFromProbs` returns the smallest i with r <= probs[0] + ... +
      probs[i], and size - 1 when there is none; so it is an index of probs
      whenever probs is not empty. */
  lemma SampleIsFirst(probs: Vec, r: real)
    ensures var k := Sample(probs, r);
      || (0 <= k < |probs| && r <= CumSum(probs, k) && forall j :: 0 <= j < k ==> r > CumSum(probs, j))
      || (k == |probs| - 1 && forall j :: 0 <= j < |probs| ==> r > CumSum(probs, j))
    ensures |probs| > 0 ==> 0 <= Sample(probs, r) < |probs|
  {
    SampleFromIsFirst(probs, r, 0);
  }

  /** `sampleFromProbs(probs)` with the draw r: the running sum loop. */
  method SampleFromProbs(probs: Vec, r: real) returns (i: int)
    ensures i == Sample(probs, r)
  {
    var cumSum := 0.0;
    for k := 0 to |probs|
      invariant cumSum == Sum(probs[..k])
      invariant SampleFrom(probs, r, 0) == SampleFrom(probs, r, k)
    {
      SumPrefixStep(probs, k);
      cumSum := cumSum + probs[k];
      if r <= cumSum {
        return k;
      }
    }
    return |probs| - 1;
  }

  // ---- generate ----

  function MaxInt(a: int, b: int): int { if a >= b then a else b }

  /** `Math.min(maxTokens, blockSize)`: the number of positions available. */
  function Limit(maxTokens: int, blockSize: nat): (n: int)
    ensures n <= blockSize && n <= maxTokens
    ensures n == maxTokens || n == blockSize
  {
    MinInt(maxTokens, blockSize)
  }

  /** The distribution sampled from: softmax of the logits, scaled by
      1 / temperature unless the temperature is exactly 1. */
  function Probabilities(m: MathLib, logits: Vec, temperature: real): (probs: Vec)
    requires Lawful(m) && temperature != 0.0
    ensures |probs| == |logits|
  {
    Softmax(m, if temperature != 1.0 then VecScale(logits, 1.0 / temperature) else logits)
  }

  /** The requirements of one more forward call at position pos. */
  ghost predicate GenPre(m: MathLib, c: Config, W: seq<Vec>, tokenId: nat, pos: nat, K: seq<seq<Vec>>, V: seq<seq<Vec>>)
  {
    && Lawful(m) && Supported(c) && Fits(c, W) && KVFits(c, K, V) && tokenId < c.vocabSize
    && forall li :: 0 <= li < c.nLayer ==> |K[li]| == pos
  }

  /** One turn of the loop: the sampled token and the caches after the
      forward call's pushes. */
  datatype GenStep = GenStep(next: nat, K: seq<seq<Vec>>, V: seq<seq<Vec>>)

  /** The distribution forward at position pos gives, and the caches after
      its pushes. */
  datatype Dist = Dist(probs: Vec, K: seq<seq<Vec>>, V: seq<seq<Vec>>)

  ghost function DistOf(m: MathLib, c: Config, W: seq<Vec>, tokenId: nat, pos: nat, K: seq<seq<Vec>>, V: seq<seq<Vec>>,
                        temperature: real): (d: Dist)
    requires GenPre(m, c, W, tokenId, pos, K, V) && pos < c.blockSize && temperature != 0.0
    ensures |d.probs| == c.vocabSize
  {
    var f := Forward(m, c, W, tokenId, pos, K, V);
    StepFits(m, c, W, tokenId, pos, K, V);
    Dist(Probabilities(m, f.logits, temperature), PushKeys(K, f.cache), PushValues(V, f.cache))
  }

  /** forward at position pos, then sampling with the draw r. */
  ghost function StepOf(m: MathLib, c: Config, W: seq<Vec>, tokenId: nat, pos: nat, K: seq<seq<Vec>>, V: seq<seq<Vec>>,
                        temperature: real, r: real): (s: GenStep)
    requires GenPre(m, c, W, tokenId, pos, K, V) && pos < c.blockSize && temperature != 0.0
    ensures s.next < c.vocabSize && GenPre(m, c, W, s.next, pos + 1, s.K, s.V)
  {
    var d := DistOf(m, c, W, tokenId, pos, K, V, temperature);
    SampleIsFirst(d.probs, r);
    StepFits(m, c, W, tokenId, pos, K, V);
    GenStep(Sample(d.probs, r), d.K, d.V)
  }

  /** The tokens the loop appends from position pos on, after feeding
      tokenId with the caches K and V. */
  ghost function Generated(m: MathLib, c: Config, W: seq<Vec>, bos: nat, limit: int, temperature: real,
                           rand: nat -> real, pos: nat, tokenId: nat, K: seq<seq<Vec>>, V: seq<seq<Vec>>): seq<nat>
    requires GenPre(m, c, W, tokenId, pos, K, V) && limit <= c.blockSize && temperature != 0.0
    decreases limit - pos
  {
    if pos >= limit then []
    else
      var s := StepOf(m, c, W, tokenId, pos, K, V, temperature, rand(pos));
      if s.next == bos then []
      else [s.next] + Generated(m, c, W, bos, limit, temperature, rand, pos + 1, s.next, s.K, s.V)
  }

  /** After a forward call the caches hold one more position each. */
  lemma StepFits(m: MathLib, c: Config, W: seq<Vec>, tokenId: nat, pos: nat, K: seq<seq<Vec>>, V: seq<seq<Vec>>)
    requires Lawful(m) && Supported(c) && Fits(c, W) && KVFits(c, K, V) && tokenId < c.vocabSize && pos < c.blockSize
    requires forall li :: 0 <= li < c.nLayer ==> |K[li]| == pos
    ensures var f := Forward(m, c, W, tokenId, pos, K, V);
      && |f.cache.layers| == |K| == |V|
      && KVFits(c, PushKeys(K, f.cache), PushValues(V, f.cache))
      && forall li :: 0 <= li < c.nLayer ==> |PushKeys(K, f.cache)[li]| == pos + 1
  {
    var f := Forward(m, c, W, tokenId, pos, K, V);
    PushKeepsFit(c, K, V, f.cache, seq(c.nLayer, li requires 0 <= li < c.nLayer => |K[li]| + 1));
  }

  /** The generated tokens: at most one per remaining position, never BOS,
      and every one an index of the logits. */
  lemma {:induction false} GeneratedBounds(m: MathLib, c: Config, W: seq<Vec>, bos: nat, limit: int, temperature: real,
                                           rand: nat -> real, pos: nat, tokenId: nat, K: seq<seq<Vec>>, V: seq<seq<Vec>>)
    requires GenPre(m, c, W, tokenId, pos, K, V) && limit <= c.blockSize && temperature != 0.0
    ensures var g := Generated(m, c, W, bos, limit, temperature, rand, pos, tokenId, K, V);
      && (pos <= limit ==> |g| <= limit - pos)
      && (pos >= limit ==> g == [])
      && forall t :: t in g ==> t != bos && t < c.vocabSize
    decreases limit - pos
  {
    if pos < limit {
      var s := StepOf(m, c, W, tokenId, pos, K, V, temperature, rand(pos));
      if s.next != bos {
        var rest := Generated(m, c, W, bos, limit, temperature, rand, pos + 1, s.next, s.K, s.V);
        GeneratedBounds(m, c, W, bos, limit, temperature, rand, pos + 1, s.next, s.K, s.V);
        var g := [s.next] + rest;
        assert Generated(m, c, W, bos, limit, temperature, rand, pos, tokenId, K, V) == g;
        forall t | t in g ensures t != bos && t < c.vocabSize {
          if t != s.next {
            assert t in rest;
          }
        }
      }
    }
  }

  /** The caches generate starts from fit the model. */
  lemma EmptyFits(c: Config)
    ensures KVFits(c, EmptyKV(c.nLayer), EmptyKV(c.nLayer))
    ensures forall li :: 0 <= li < c.nLayer ==> |EmptyKV(c.nLayer)[li]| == 0
  {
  }

  /** Generated one position further on. */
  lemma GeneratedUnfold(m: MathLib, c: Config, W: seq<Vec>, bos: nat, limit: int, temperature: real,
                        rand: nat -> real, pos: nat, tokenId: nat, K: seq<seq<Vec>>, V: seq<seq<Vec>>)
    requires GenPre(m, c, W, tokenId, pos, K, V) && pos < limit <= c.blockSize && temperature != 0.0
    ensures var s := StepOf(m, c, W, tokenId, pos, K, V, temperature, rand(pos));
      Generated(m, c, W, bos, limit, temperature, rand, pos, tokenId, K, V)
      == if s.next == bos then [] else [s.next] + Generated(m, c, W, bos, limit, temperature, rand, pos + 1, s.next, s.K, s.V)
  {
  }

  /** Nothing is generated once the positions are used up. */
  lemma GeneratedEnd(m: MathLib, c: Config, W: seq<Vec>, bos: nat, limit: int, temperature: real,
                     rand: nat -> real, pos: nat, tokenId: nat, K: seq<seq<Vec>>, V: seq<seq<Vec>>)
    requires GenPre(m, c, W, tokenId, pos, K, V) && limit <= c.blockSize && temperature != 0.0
    ensures pos >= limit ==> Generated(m, c, W, bos, limit, temperature, rand, pos, tokenId, K, V) == []
  {
  }

  /** The distribution of one turn of generate's loop: forward at pos
      (pushing onto the caches), the temperature and the softmax. */
  method NextDistribution(m: MathLib, model: MicroGPT, ghost W: seq<Vec>, tokenId: nat, pos: nat, kv: KVCache,
                          temperature: real) returns (probs: Vec)
    requires model.Valid() && model.Weights() == W && GenPre(m, model.config, W, tokenId, pos, kv.keys, kv.values)
    requires pos < model.config.blockSize && temperature != 0.0
    modifies kv`keys, kv`values
    ensures model.Valid() && model.Weights() == W
    ensures DistOf(m, model.config, W, tokenId, pos, old(kv.keys), old(kv.values), temperature) == Dist(probs, kv.keys, kv.values)
  {
    var logits, cache := model.Forward(m, tokenId, pos, kv);
    probs := Probabilities(m, logits, temperature);
  }

  /** One turn of generate's loop: the distribution, then the draw. */
  method Turn(m: MathLib, model: MicroGPT, ghost W: seq<Vec>, tokenId: nat, pos: nat, kv: KVCache, temperature: real,
              r: real) returns (next: nat)
    requires model.Valid() && model.Weights() == W && GenPre(m, model.config, W, tokenId, pos, kv.keys, kv.values)
    requires pos < model.config.blockSize && temperature != 0.0
    modifies kv`keys, kv`values
    ensures model.Valid() && model.Weights() == W
    ensures StepOf(m, model.config, W, tokenId, pos, old(kv.keys), old(kv.values), temperature, r) == GenStep(next, kv.keys, kv.values)
  {
    ghost var bufs := model.WeightBuffers();
    assert forall a :: a in bufs ==> allocated(a);
    var probs := NextDistribution(m, model, W, tokenId, pos, kv, temperature);
    var i := SampleFromProbs(probs, r);
    assert model.Weights() == W;
    SampleIsFirst(probs, r);
    next := i;
  }

  /** The loop body of generate: one turn, and the loop's account of what
      is still to come, one position further on (or finished at BOS). */
  method GenerateTurn(m: MathLib, model: MicroGPT, ghost W: seq<Vec>, ghost bos: nat, ghost limit: int, temperature: real,
                      rand: nat -> real, pos: nat, tokenId: nat, kv: KVCache, ghost generated: seq<nat>, ghost total: seq<nat>)
    returns (next: nat)
    requires model.Valid() && model.Weights() == W && pos < limit <= model.config.blockSize && temperature != 0.0
    requires GenPre(m, model.config, W, tokenId, pos, kv.keys, kv.values)
    requires generated + Generated(m, model.config, W, bos, limit, temperature, rand, pos, tokenId, kv.keys, kv.values) == total
    modifies kv`keys, kv`values
    ensures model.Valid() && model.Weights() == W
    ensures next == bos ==> generated == total
    ensures next != bos ==> GenPre(m, model.config, W, next, pos + 1, kv.keys, kv.values)
    ensures next != bos ==>
              generated + [next] + Generated(m, model.config, W, bos, limit, temperature, rand, pos + 1, next, kv.keys, kv.values)
              == total
  {
    ghost var c := model.config;
    ghost var s := StepOf(m, c, W, tokenId, pos, kv.keys, kv.values, temperature, rand(pos));
    GeneratedUnfold(m, c, W, bos, limit, temperature, rand, pos, tokenId, kv.keys, kv.values);
    ghost var rest := if s.next == bos then [] else Generated(m, c, W, bos, limit, temperature, rand, pos + 1, s.next, s.K, s.V);
    assert generated + (if s.next == bos then [] else [s.next] + rest) == total;
    next := Turn(m, model, W, tokenId, pos, kv, temperature, rand(pos));
    assert next == s.next && kv.keys == s.K && kv.values == s.V;
    if next != bos {
      AppendOne(generated, next, rest);
    }
  }

  lemma AppendOne(a: seq<nat>, x: nat, rest: seq<nat>)
    ensures a + ([x] + rest) == a + [x] + rest
  {
  }

  /** `generate(model, tokenizer, maxTokens, temperature)`: the tokens are
      what Generated gives from BOS at position 0 with empty caches, and
      the text is their decoding. */
  method Generate(m: MathLib, model: MicroGPT, tokenizer: CharTokenizer, maxTokens: int, temperature: real,
                  rand: nat -> real) returns (text: string, generated: seq<nat>)
    requires model.Valid() && Lawful(m) && Supported(model.config) && tokenizer.Valid()
    requires tokenizer.bosToken < model.config.vocabSize && temperature != 0.0
    ensures generated == Generated(m, model.config, model.Weights(), tokenizer.bosToken,
                             Limit(maxTokens, model.config.blockSize), temperature, rand, 0, tokenizer.bosToken,
                             EmptyKV(model.config.nLayer), EmptyKV(model.config.nLayer))
    ensures text == tokenizer.Decode(generated)
  {
    var c := model.config;
    var limit := Limit(maxTokens, c.blockSize);
    var kv := new KVCache(c.nLayer);
    var tokenId := tokenizer.bosToken;
    generated := [];
    EmptyFits(c);
    ghost var W := model.Weights();
    ghost var bos := tokenizer.bosToken;
    ghost var total := Generated(m, c, W, bos, limit, temperature, rand, 0, tokenId, kv.keys, kv.values);
    var pos := 0;
    while pos < limit
      invariant model.Valid() && model.Weights() == W
      invariant GenPre(m, c, W, tokenId, pos, kv.keys, kv.values)
      invariant generated + Generated(m, c, W, bos, limit, temperature, rand, pos, tokenId, kv.keys, kv.values) == total
      decreases limit - pos
    {
      var next := GenerateTurn(m, model, W, bos, limit, temperature, rand, pos, tokenId, kv, generated, total);
      if next == tokenizer.bosToken {
        break;
      }
      generated := generated + [next];
      tokenId := next;
      pos := pos + 1;
    }
    if pos >= limit {
      GeneratedEnd(m, c, W, bos, limit, temperature, rand, pos, tokenId, kv.keys, kv.values);
    }
    text := tokenizer.Decode(generated);
  }

  /** What generate returns: at most min(maxTokens, blockSize) characters,
      all from the vocabulary; the tokens never include BOS. */
  lemma GenerateOutput(m: MathLib, model: MicroGPT, tokenizer: CharTokenizer, maxTokens: int, temperature: real,
                       rand: nat -> real)
    requires model.Valid() && Lawful(m) && Supported(model.config) && tokenizer.Valid()
    requires tokenizer.bosToken < model.config.vocabSize && temperature != 0.0
    ensures var g := Generated(m, model.config, model.Weights(), tokenizer.bosToken,
                         Limit(maxTokens, model.config.blockSize), temperature, rand, 0, tokenizer.bosToken,
                         EmptyKV(model.config.nLayer), EmptyKV(model.config.nLayer));
      && |g| <= MaxInt(0, Limit(maxTokens, model.config.blockSize))
      && (forall t :: t in g ==> t != tokenizer.bosToken && t < model.config.vocabSize)
      && |tokenizer.Decode(g)| <= |g|
      && (forall x :: x in tokenizer.Decode(g) ==> x in tokenizer.idxToChar)
  {
    EmptyFits(model.config);
    GeneratedBounds(m, model.config, model.Weights(), tokenizer.bosToken,
                    Limit(maxTokens, model.config.blockSize), temperature, rand, 0, tokenizer.bosToken,
                    EmptyKV(model.config.nLayer), EmptyKV(model.config.nLayer));
  }
}
