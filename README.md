# microgpt-brain, modelled in Dafny

microgpt-brain trains a tiny character-level GPT in the browser. A
worker takes a `train` request and checks the text and the configuration.
It builds a character tokenizer and a `MicroGPT` model (token and position
embeddings, `nLayer` blocks of multi-head causal self-attention and a ReLU
MLP, RMSNorm without learned gains, an LM head). Then it runs Adam over
`trainStep` on the one document, posting `ready`, `progress`, and then
`complete` or `timeout`. A `generate` request samples text from the trained
model. Three satellite pieces are modelled too:

- the numerical gradient checker;
- the bridge that converts the engine's weights for the inference visualizer;
- the visualizer's own forward pass and tokenizer.

This project models that core and proves what the code promises about it.

- **Tensors** (`tensor.dfy`). A `Tensor` is a class over a shared buffer
  (offset and size), so `row(i)` is a view that writes through to its
  parent, as `subarray` is. `reshape` shares the buffer, `clone` copies it,
  and strides are row-major.
- **Kernels** (`kernels.dfy`, `cpu_kernels.dfy`). The CPU kernels are
  methods over tensors: loops with invariants, each proved to produce a
  row-major specification function. The properties are lemmas about those
  functions: matmul and its backward as products with a transpose, softmax
  as a distribution, the backward passes as linear maps, cross-entropy's
  gradient summing to zero.
- **Model** (`model_math.dfy`, `backward_math.dfy`, `model.dfy`).
  - `forward` and `backward` are pure functions of a weight snapshot.
  - The class `MicroGPT` holds the parameter tensors. Its methods append to
    the KV cache and add into the gradient buffers, and are proved equal to
    those functions.
  - `parameters()` order, `paramCount` and `computeParamCount` are tied
    together.
- **trainStep** (`train_math.dfy`, `train_step.dfy`, `train_proofs.dfy`,
  `sums.dfy`).
  - The method is proved to return the mean loss and to leave exactly
    `TrainGrads` in the gradients.
  - The forward loop fills the caches with one key and value per position,
    and every scaled `dLogits` sums to zero.
  - Pass 1 (the diagonal terms) and pass 2 (the terms below the diagonal)
    together give every attnWk/attnWv gradient entry as the full triangular
    sum over pairs t ≤ pos that the two-pass design describes. Pass 2 leaves
    every other parameter as pass 1 left it.
- **Adam** (`optimizer.dfy`): the linear learning-rate decay, the moment
  updates, the bias-corrected step and the step counter.
- **generate** (`generate.dfy`): sampling by cumulative probability, the
  stop at BOS or at the position limit, and the decoding of the output.
- **Tokenizer** (`char_tokenizer.dfy`): the sorted distinct characters plus
  BOS, encode and decode, and `encodeDoc`.
- **gradCheck** (`grad_check.dfy`):
  - the sampled indices and the parameter names;
  - the forward-only loss;
  - the perturb/restore loop, which leaves the weights as saved;
  - the relative error and the `passed` verdict.
- **Weight bridge** (`weight_bridge.dfy`): the flat-to-nested reshapes and
  the per-head row slices. The bridged weights meet the visualizer's needs,
  and its unit norms are the engine's norms.
- **Validators** (`sanitize.dfy`): text sanitising, the model-config
  whitelist, the Adam-config check and the memory estimate.
- **Worker** (`worker.dfy`). The module state is a class, and posted
  messages go to an outbox sequence. The train loop is proved to post the
  right messages. Its losses are trainStep's losses along the Adam
  trajectory, which starts from the initial weights and zero moments.
- **Visualizer** (`visualizer_math.dfy`, `visualizer.dfy`,
  `visualizer_tokenizer.dfy`): `runInference`'s loops proved against a
  functional specification (causal mask, softmax rows, head concatenation,
  temperature clamp, top-k, first-maximum prediction), and its tokenizer's
  round trip.

Modelling choices that apply throughout:

- Float32 values are `real`.
- `Math.exp`, `Math.sqrt` and `Math.log` are the fields of a `MathLib`
  value, constrained only by the positivity laws the code relies on.
- The initial weights (`Tensor.randn`) and the draws of `Math.random` are
  parameters.
- The worker's step durations and stop requests are input functions.

The memory estimate of `estimateMemoryMB` sizes the position embedding by
the vocabulary, where `computeParamCount` uses the block size. The two
agree only when the vocabulary size equals the block size
(`Sanitize.EstimateIsParamCount`).

## Model

| member | source | states |
|---|---|---|
| `Tensors.ProductOfPair` | src/engine/tensor.ts:42 | the shape product of a one-axis shape is its length and of a two-axis shape the product of both |
| `Tensors.Strides` | src/engine/tensor.ts:31-39 | there is one stride per axis |
| `Tensors.StridesRowMajor` | src/engine/tensor.ts:31-39 | strides are row-major: the last is 1, each is the next one times the next axis, and the first times the first axis is the element count |
| `Tensors.StridesTail` | src/engine/tensor.ts:31-39 | the first stride is the product of the later axes, and the remaining strides are the strides of the shape without its first axis |
| `Tensors.FlatIndexInRange` | src/engine/tensor.ts:81-87 | an in-bounds index tuple maps to an offset in [0, product(shape)) |
| `Tensors.FlatIndexInjective` | src/engine/tensor.ts:81-87 | two in-bounds index tuples with the same offset are equal, so distinct elements never share a slot |
| `Tensors.ComputeStrides` | src/engine/tensor.ts:31-39 | the backward loop returns `Strides(shape)`, with the row-major facts restated on its result |
| `Tensors.Clamp` | src/engine/tensor.ts:101 | `subarray`'s position clamping: the result is within [0, len] and equals the position when it is already in range |
| `Tensors.Tensor.constructor` | src/engine/tensor.ts:13-21 | the tensor keeps its buffer, shape and flag; with `requiresGrad` it owns a fresh zero gradient of the same shape, otherwise none |
| `Tensors.Tensor.Zeros` | src/engine/tensor.ts:41-44 | a fresh buffer of exactly product(shape) elements, all 0, with no gradient |
| `Tensors.Tensor.Ones` | src/engine/tensor.ts:46-50 | a fresh buffer of exactly product(shape) elements, all 1, with no gradient |
| `Tensors.Tensor.From` | src/engine/tensor.ts:64-78 | a flat array gives shape [n] and the same contents; rows give shape [rows, cols] and the row-major flattening of the rows |
| `Tensors.Tensor.Index` | src/engine/tensor.ts:81-87 | the offset is the sum of index times stride over the given indices; surplus indices, which JS reads as NaN, give no offset |
| `Tensors.Tensor.Get` | src/engine/tensor.ts:89-91 | the element at the index tuple's offset, or nothing when the offset is outside the view (JS `undefined`) |
| `Tensors.Tensor.Set` | src/engine/tensor.ts:93-95 | exactly the addressed element of the buffer becomes the value and every other element is unchanged; an out-of-range write changes nothing |
| `Tensors.Tensor.Row` | src/engine/tensor.ts:98-103 | the result is a view on the same buffer at offset i*cols with clamped bounds; for an in-range row its elements are `data[i*cols+j]` |
| `Tensors.ViewsAgree` | src/engine/tensor.ts:98-103 | a view on the parent's buffer sees the parent's element at the same position, so writes through a row view show in the parent |
| `Tensors.Tensor.Clone` | src/engine/tensor.ts:106-108 | a fresh buffer with equal contents, equal shape and flag, and a fresh zero gradient iff the flag is set; later writes cannot reach the original |
| `Tensors.Tensor.ZeroGrad` | src/engine/tensor.ts:111-115 | every gradient element becomes 0, nothing else in the gradient's buffer changes, the data is unchanged, and nothing happens without a gradient |
| `Tensors.Tensor.Fill` | src/engine/tensor.ts:118-120 | every element of the view becomes the value and the rest of the shared buffer is unchanged |
| `Tensors.Tensor.Reshape` | src/engine/tensor.ts:123-129 | fails iff product(newShape) differs from the size; otherwise a new tensor over the same buffer window with the new shape, and a fresh zero gradient iff `requiresGrad` |
| `Kernels.MatMulAt` | src/engine/tensor-ops-cpu.ts:9-26 | entry (i, j) of the [M, N] product is row i of A dotted with column j of B |
| `Kernels.MatMulBackAAt` | src/engine/tensor-ops-cpu.ts:40-49 | entry (i, k) of dA is row i of dOut dotted with row k of B |
| `Kernels.MatMulBackBAt` | src/engine/tensor-ops-cpu.ts:51-60 | entry (k, j) of dB is column k of A dotted with column j of dOut |
| `Kernels.MatMulBackAIsProduct` | src/engine/tensor-ops-cpu.ts:40-49 | dA equals the matrix product dOut . Bᵀ |
| `Kernels.MatMulBackBIsProduct` | src/engine/tensor-ops-cpu.ts:51-60 | dB equals the matrix product Aᵀ . dOut |
| `Kernels.LinearIsMatMul` | src/engine/tensor-ops-cpu.ts:65-80 | linear is the matrix product of W with x taken as a one-column matrix |
| `Kernels.LinearBackXIsTransposed` | src/engine/tensor-ops-cpu.ts:93-100 | dX equals Wᵀ . dOut |
| `Kernels.LinearBackXAdditive` | src/engine/tensor-ops-cpu.ts:93-100 | dX is additive in dOut |
| `Kernels.LinearBackWAdditive` | src/engine/tensor-ops-cpu.ts:102-107 | dW = dOut ⊗ x is additive in dOut |
| `Kernels.Exps` | src/engine/tensor-ops-cpu.ts:122-126 | every shifted exponential is positive |
| `Kernels.Softmax` | src/engine/tensor-ops-cpu.ts:113-132 | one output per input, each positive |
| `Kernels.SoftmaxSumsToOne` | src/engine/tensor-ops-cpu.ts:113-132 | a non-empty softmax output sums to 1 |
| `Kernels.SoftmaxBelowOne` | src/engine/tensor-ops-cpu.ts:113-132 | with two or more inputs every softmax output is below 1 |
| `Kernels.DivideIsScale` | src/engine/tensor-ops-cpu.ts:128-130 | the normalising division is scaling by the reciprocal of the exp-sum |
| `Kernels.SoftmaxBackwardSumsToZero` | src/engine/tensor-ops-cpu.ts:135-150 | the softmax backward of any dOut sums to 0 when the softmax output sums to 1 |
| `Kernels.SumGated` | src/engine/tensor-ops-cpu.ts:139-148 | Σ s[i]·(d[i] − c) = d·s − c·Σ s |
| `Kernels.Rms` | src/engine/tensor-ops-cpu.ts:155-159 | the rms is positive for a non-empty vector and positive eps |
| `Kernels.RmsNorm` | src/engine/tensor-ops-cpu.ts:153-165 | one output per input, with out[i]·rms = x[i] |
| `Kernels.RmsNormScales` | src/engine/tensor-ops-cpu.ts:153-165 | rmsNorm is scaling by 1/rms |
| `Kernels.RmsCubeScale` | src/engine/tensor-ops-cpu.ts:177-180 | the denominator n·rms³ is positive |
| `Kernels.RmsNormBackwardAdditive` | src/engine/tensor-ops-cpu.ts:168-183 | the rmsNorm backward is additive in dOut |
| `Kernels.Relu` | src/engine/tensor-ops-cpu.ts:186-192 | one output per input, each non-negative and either the input or 0 |
| `Kernels.ReluIsSelfGated` | src/engine/tensor-ops-cpu.ts:186-201 | relu(x) is reluBackward(x, x), and relu is idempotent |
| `Kernels.ReluBackwardGate` | src/engine/tensor-ops-cpu.ts:195-201 | for a non-zero dOut[i], reluBackward passes dOut[i] iff input[i] > 0 |
| `Kernels.CrossEntropy` | src/engine/tensor-ops-cpu.ts:222-230 | dLogits equals the softmax at every index except the target, where it is one less |
| `Kernels.CrossEntropyGradient` | src/engine/tensor-ops-cpu.ts:222-230 | dLogits sums to 0; with two or more logits the target entry is negative and all others positive; a single logit gives [0] |
| `Kernels.AddIntoRow` | src/engine/tensor-ops-cpu.ts:244-251 | the delta is added into row `index` only, and every other element is unchanged |
| `CpuKernels.RowColDot` | src/engine/tensor-ops-cpu.ts:17-21 | the `sum` loop returns row i of A dotted with column j of B |
| `CpuKernels.MatmulRow` | src/engine/tensor-ops-cpu.ts:16-23 | after the `j` loop for row i, the output agrees with the product up to the end of row i |
| `CpuKernels.Matmul` | src/engine/tensor-ops-cpu.ts:9-26 | a fresh [M, N] tensor holding exactly `MatMul` of the operands |
| `CpuKernels.RowRowDot` | src/engine/tensor-ops-cpu.ts:43-46 | the `sum` loop returns row i of dOut dotted with row k of B |
| `CpuKernels.ColColDot` | src/engine/tensor-ops-cpu.ts:54-57 | the `sum` loop returns column k of A dotted with column j of dOut |
| `CpuKernels.BackARow` | src/engine/tensor-ops-cpu.ts:42-48 | after the `k` loop for row i, dA agrees with dOut . Bᵀ up to the end of row i |
| `CpuKernels.MatmulBackwardA` | src/engine/tensor-ops-cpu.ts:37-49 | a fresh [M, K] dA holding exactly `MatMulBackA` |
| `CpuKernels.BackBRow` | src/engine/tensor-ops-cpu.ts:53-59 | after the `j` loop for row k, dB agrees with Aᵀ . dOut up to the end of row k |
| `CpuKernels.MatmulBackwardB` | src/engine/tensor-ops-cpu.ts:38-60 | a fresh [K, N] dB holding exactly `MatMulBackB` |
| `CpuKernels.MatmulBackward` | src/engine/tensor-ops-cpu.ts:29-63 | fresh dA [M, K] = dOut . Bᵀ and dB [K, N] = Aᵀ . dOut |
| `CpuKernels.RowVecDot` | src/engine/tensor-ops-cpu.ts:72-76 | the `sum` loop returns row i of W dotted with x |
| `CpuKernels.LinearOp` | src/engine/tensor-ops-cpu.ts:66-80 | a fresh [outDim] tensor with out[i] = row i of W dotted with x |
| `CpuKernels.ColVecDot` | src/engine/tensor-ops-cpu.ts:95-98 | the `sum` loop returns column j of W dotted with dOut |
| `CpuKernels.OuterRow` | src/engine/tensor-ops-cpu.ts:104-106 | after the `j` loop for row i, dW agrees with dOut ⊗ x up to the end of row i |
| `CpuKernels.OuterOp` | src/engine/tensor-ops-cpu.ts:102-107 | a fresh [outDim, inDim] dW with dW[i·inDim + j] = dOut[i]·x[j] |
| `CpuKernels.LinearBackwardOp` | src/engine/tensor-ops-cpu.ts:83-110 | fresh dX = Wᵀ . dOut of length inDim and fresh dW = dOut ⊗ x |
| `CpuKernels.RunningMax` | src/engine/tensor-ops-cpu.ts:117-120 | the running-maximum loop returns the largest element |
| `CpuKernels.ExpsInto` | src/engine/tensor-ops-cpu.ts:122-126 | the buffer holds the shifted exponentials and the returned sum is their sum |
| `CpuKernels.DivideAll` | src/engine/tensor-ops-cpu.ts:128-130 | every element is divided by the sum |
| `CpuKernels.SoftmaxOp` | src/engine/tensor-ops-cpu.ts:113-132 | a fresh [n] tensor holding exactly `Softmax` of the input |
| `CpuKernels.GateInto` | src/engine/tensor-ops-cpu.ts:146-148 | out[i] = s[i]·(dOut[i] − dot) for every i |
| `CpuKernels.SoftmaxBackwardOp` | src/engine/tensor-ops-cpu.ts:135-150 | a fresh tensor with dInput[i] = s[i]·(dOut[i] − dOut·s) |
| `CpuKernels.RmsNormOp` | src/engine/tensor-ops-cpu.ts:153-165 | returns the rms and a fresh tensor with x[i]/rms |
| `CpuKernels.DotOf` | src/engine/tensor-ops-cpu.ts:173-176 | the `dotXdOut` loop returns x·dOut |
| `CpuKernels.RmsNormBackwardOp` | src/engine/tensor-ops-cpu.ts:168-183 | a fresh tensor with dOut[i]/rms − x[i]·(x·dOut)/(n·rms³) |
| `CpuKernels.RmsBackOp` | src/engine/tensor-ops-cpu.ts:177-182 | the output loop writes dOut[i]/rms − x[i]·dot/(n·rms³) |
| `CpuKernels.ReluOp` | src/engine/tensor-ops-cpu.ts:186-192 | a fresh tensor of x's shape holding `Relu(x)` |
| `CpuKernels.ReluBackwardOp` | src/engine/tensor-ops-cpu.ts:195-201 | a fresh tensor of the input's shape with dOut[i] where input[i] > 0 and 0 elsewhere |
| `CpuKernels.AddOp` | src/engine/tensor-ops-cpu.ts:204-210 | a fresh tensor of a's shape holding the elementwise sum |
| `CpuKernels.ScaleOp` | src/engine/tensor-ops-cpu.ts:213-219 | a fresh tensor of x's shape holding every entry times s |
| `CpuKernels.CrossEntropyLossOp` | src/engine/tensor-ops-cpu.ts:222-230 | the loss and a fresh dLogits equal to `CrossEntropy`: the softmax with one subtracted at the target |
| `CpuKernels.EmbeddingLookup` | src/engine/tensor-ops-cpu.ts:233-241 | a fresh copy of row `index` of the table |
| `CpuKernels.RowAdded` | src/engine/tensor-ops-cpu.ts:248-250 | a buffer that has the delta added in row `index` and every other element unchanged is `AddIntoRow` |
| `CpuKernels.EmbeddingBackward` | src/engine/tensor-ops-cpu.ts:244-251 | the gradient gains the delta in row `index` only, the rest of its buffer is unchanged, and there is no effect without a gradient |
| `CharTokenizers.Insert` | src/engine/tokenizer.ts:12 | inserting a new character into a strictly sorted list keeps it strictly sorted, adds exactly that character, and grows it by one |
| `CharTokenizers.SortedUnique` | src/engine/tokenizer.ts:12 | two strictly sorted lists with the same characters are equal, so the vocabulary is determined by the text's character set |
| `CharTokenizers.SortedDistinct` | src/engine/tokenizer.ts:12 | `[...new Set(text)].sort()`: strictly sorted, and holding exactly the characters of the text |
| `CharTokenizers.CharTokenizer.constructor` | src/engine/tokenizer.ts:11-20 | the vocabulary is the text's characters, strictly sorted; `charToIdx(idxToChar[i]) = i`; bosToken is the vocabulary length |
| `CharTokenizers.CharTokenizer.IndexOf` | src/engine/tokenizer.ts:15-17 | an index from charToIdx is below bosToken and names its character |
| `CharTokenizers.CharTokenizer.VocabSize` | src/engine/tokenizer.ts:22-24 | vocabSize = bosToken + 1 |
| `CharTokenizers.CharTokenizer.Encode` | src/engine/tokenizer.ts:26-35 | the loop returns the indices of the in-vocabulary characters, in order |
| `CharTokenizers.CharTokenizer.EncodingBounds` | src/engine/tokenizer.ts:26-35 | the encoding is no longer than the text, and every index is below bosToken |
| `CharTokenizers.CharTokenizer.Decode` | src/engine/tokenizer.ts:37-42 | the output is no longer than the indices, and every output character is in the vocabulary |
| `CharTokenizers.CharTokenizer.DecodeAppend` | src/engine/tokenizer.ts:37-42 | decoding distributes over concatenation |
| `CharTokenizers.CharTokenizer.DecodeEncoding` | src/engine/tokenizer.ts:26-42 | decode(encode(s)) is s with its out-of-vocabulary characters removed |
| `CharTokenizers.CharTokenizer.EncodingOfVocabulary` | src/engine/tokenizer.ts:11-42 | a text made of vocabulary characters, such as the construction text, loses nothing: one index per character, and decoding gives the text back |
| `CharTokenizers.CharTokenizer.EncodeDoc` | src/engine/tokenizer.ts:45-47 | [bos] ++ encode(s) ++ [bos], so it has length ≥ 2 and starts and ends with bos |
| `CharTokenizers.CharTokenizer.DecodeDocument` | src/engine/tokenizer.ts:37-47 | decoding a wrapped document drops both BOS tokens and gives the in-vocabulary text back |
| `Optimizer.PowBelowOne` | src/engine/optimizer.ts:54-55 | βᵗ lies in [0, 1) for β in [0, 1) and t ≥ 1, so both bias corrections are positive |
| `Optimizer.LrFirstStep` | src/engine/optimizer.ts:41 | the first step uses the full learning rate |
| `Optimizer.LrBounds` | src/engine/optimizer.ts:41 | from the first step on, lrT lies in [0, lr] |
| `Optimizer.LrNonIncreasing` | src/engine/optimizer.ts:41 | lrT never grows from one step to a later one |
| `Optimizer.LrZeroAfter` | src/engine/optimizer.ts:41 | lrT is 0 once t − 1 ≥ maxSteps |
| `Optimizer.MomentVNonNegative` | src/engine/optimizer.ts:53 | the second moment stays ≥ 0 when β2 ∈ [0, 1] |
| `Optimizer.DeltaAtZeroRate` | src/engine/optimizer.ts:56 | with lrT = 0 the weight update is 0 |
| `Optimizer.AdamParam` | src/engine/optimizer.ts:51-57 | the update of one parameter keeps the three buffers aligned and the weight count unchanged |
| `Optimizer.AdamAll` | src/engine/optimizer.ts:43-58 | step t updates every parameter with its own gradient at the rate `LrAt(t)` |
| `Optimizer.AdamParamAt` | src/engine/optimizer.ts:52-56 | element k: m' = β1·m + (1−β1)·g, v' = β2·v + (1−β2)·g² ≥ 0, and p' = p − lrT·m̂/(√v̂ + eps) from the new moments |
| `Optimizer.ZeroRateKeepsWeights` | src/engine/optimizer.ts:52-56 | a zero rate moves the moments but leaves every weight where it is |
| `Optimizer.StepTarget` | src/engine/optimizer.ts:44-45 | a parameter without a gradient keeps its state; one with a gradient gets the Adam update, of the same size |
| `Optimizer.AdamOptimizer.constructor` | src/engine/optimizer.ts:30-35 | t = 0, and one fresh zero m buffer and one fresh zero v buffer per parameter, each of that parameter's size |
| `Optimizer.AdamOptimizer.UpdateParam` | src/engine/optimizer.ts:47-57 | the inner loop leaves the parameter's weights, m and v equal to the Adam update, and the rest of the shared weight buffer unchanged |
| `Optimizer.AdamOptimizer.UpdateElement` | src/engine/optimizer.ts:52-56 | one turn of the inner loop updates element i of the three buffers, and only it |
| `Optimizer.AdamOptimizer.States` | src/engine/optimizer.ts:26-27 | one state per parameter: its weights with its m and v buffers |
| `Optimizer.AdamOptimizer.Targets` | src/engine/optimizer.ts:43-58 | the target of every parameter at this step |
| `Optimizer.AdamOptimizer.StepParam` | src/engine/optimizer.ts:44-57 | one turn of the outer loop brings parameter pi to its target and leaves the others as they were |
| `Optimizer.AdamOptimizer.StepAll` | src/engine/optimizer.ts:43-58 | the outer loop brings every parameter to its target, in order |
| `Optimizer.AdamOptimizer.Step` | src/engine/optimizer.ts:37-59 | t grows by exactly 1; every parameter is at `StepTarget` for the new t and its rate; parameters without a gradient are unchanged; nothing outside each parameter's view changes |
| `Generation.SampleFromIsFirst` | src/engine/generate.ts:13-18 | from entry i on, the sampler stops at the first index whose prefix sum reaches r, or returns size − 1 when none does |
| `Generation.SampleIsFirst` | src/engine/generate.ts:11-19 | the sample is the smallest i with r ≤ Σ_{j≤i} probs[j], otherwise size − 1, and it lies in [0, size) when size > 0 |
| `Generation.SampleFromProbs` | src/engine/generate.ts:11-19 | the running-sum loop returns exactly `Sample(probs, r)` |
| `Generation.Limit` | src/engine/generate.ts:40 | `Math.min(maxTokens, blockSize)`: at most both bounds and equal to one of them |
| `Generation.Probabilities` | src/engine/generate.ts:44-48 | one probability per logit (the softmax of the logits, divided by the temperature when it is not 1) |
| `Generation.DistOf` | src/engine/generate.ts:41-48 | the distribution of one forward call has one entry per vocabulary index |
| `Generation.StepOf` | src/engine/generate.ts:41-49 | one turn samples an index inside the vocabulary and leaves caches that hold one more position, ready for the next position |
| `Generation.StepFits` | src/engine/generate.ts:41 | after a forward call at position pos every layer's cache holds pos + 1 entries, all of the model's width |
| `Generation.GeneratedBounds` | src/engine/generate.ts:40-55 | from position pos at most limit − pos tokens are generated, none of them BOS, all inside the vocabulary |
| `Generation.EmptyFits` | src/engine/generate.ts:34-35 | the empty per-layer caches generation starts from fit the model and are empty |
| `Generation.GeneratedUnfold` | src/engine/generate.ts:40-55 | one more position: stop with nothing more when BOS is sampled, otherwise the sampled token followed by the rest |
| `Generation.GeneratedEnd` | src/engine/generate.ts:40 | nothing is generated once the positions are used up |
| `Generation.NextDistribution` | src/engine/generate.ts:41-48 | the probabilities are those of `DistOf` and the caches grew by its pushes; the weights are unchanged |
| `Generation.Turn` | src/engine/generate.ts:41-49 | one turn of the loop returns `StepOf`'s token and caches; the weights are unchanged |
| `Generation.GenerateTurn` | src/engine/generate.ts:41-54 | a sampled BOS ends the output as it stands; any other token is appended and the rest still follows from position pos + 1 |
| `Generation.Generate` | src/engine/generate.ts:25-58 | starting from BOS at position 0 with empty caches, the tokens are exactly `Generated`, and the text is their decoding |
| `Generation.GenerateOutput` | src/engine/generate.ts:40-57 | at most min(maxTokens, blockSize) tokens, none of them BOS, all in the vocabulary; the text is no longer and holds only vocabulary characters |
| `ModelMath.HeadDim` | src/engine/model.ts:164 | headDim = nEmbd / nHead is positive and nHead·headDim = nEmbd |
| `ModelMath.HeadOf` | src/engine/model.ts:197-202 | entry i of the model width lies in head i / headDim, inside that head's slice |
| `ModelMath.HeadRange` | src/engine/model.ts:197-202 | the slice of head h ends within nEmbd |
| `ModelMath.SlotInverse` | src/engine/model.ts:129-138 | slot 3 + 6·li + j of `parameters()` decodes back to layer li and weight j |
| `ModelMath.ParamShape` | src/engine/model.ts:92-126 | every parameter has a two-axis shape |
| `ModelMath.ParamSize` | src/engine/model.ts:92-126 | a parameter's size is the product of its constructor shape |
| `ModelMath.FitsBySize` | src/engine/model.ts:92-126 | a weight snapshot fits the model iff every parameter has its constructor size |
| `ModelMath.SlotsOfLayer` | src/engine/model.ts:111-118 | Wq, Wk, Wv and Wo have E² elements, mlpFc1 and mlpFc2 4E² each |
| `ModelMath.ParamCountClosedForm` | src/engine/model.ts:537-545 | the sizes of all 3 + 6·nLayer parameters add up to `computeParamCount` = 2·vs·E + blockSize·E + 12·nLayer·E² |
| `ModelMath.LayerSizes` | src/engine/model.ts:537-545 | the parameters before layer l add up to 2·vs·E + blockSize·E + 12·l·E² |
| `ModelMath.LayerBlock` | src/engine/model.ts:541-542 | the six weights of one layer add 12·E² elements |
| `ModelMath.CacheLens` | src/engine/model.ts:205 | the number of cached positions of every layer |
| `ModelMath.ScaleFactor` | src/engine/model.ts:207 | 1/√headDim is positive |
| `ModelMath.HeadSlice` | src/engine/model.ts:201-202 | qH[d] = q[h·headDim + d] for every d of the head, inside the model width |
| `ModelMath.Scores` | src/engine/model.ts:205-215 | one score per cached key |
| `ModelMath.AttnWeights` | src/engine/model.ts:197-220 | one weight vector per head, each with one entry per cached position |
| `ModelMath.Column` | src/engine/model.ts:225-227 | entry t is element i of cached vector t |
| `ModelMath.AttnMix` | src/engine/model.ts:222-232 | the concatenated attention output has width nEmbd |
| `ModelMath.FirstPositionAttendsToItself` | src/engine/model.ts:197-232 | with one cached position every head's weights are [1], and the attention output is that position's value |
| `ModelMath.SoftmaxSingle` | src/engine/tensor-ops-cpu.ts:113-132 | the softmax of one score is [1] |
| `ModelMath.LayerForward` | src/engine/model.ts:177-255 | one layer's cache has the model's widths, attention over one more position than was cached, and its input as `xIn` |
| `ModelMath.LayersUpTo` | src/engine/model.ts:177-256 | n layers, each fed the previous output, each attending over its cache plus the new position |
| `ModelMath.LayersUpToStep` | src/engine/model.ts:177-256 | one more layer is the previous layers plus the layer forward of their output |
| `ModelMath.AppendLayerFits` | src/engine/model.ts:251-255 | pushing a fitting layer cache keeps every layer cache fitting |
| `ModelMath.Forward` | src/engine/model.ts:157-269 | the logits have length vocabSize; the cache records tokenId and posId, and layer li attended over its cache length + 1 positions |
| `ModelMath.ForwardParts` | src/engine/model.ts:166-268 | the embedding rows, the initial rmsNorm, the layers and the lmHead projection, assembled as forward does, are `Forward` |
| `ModelMath.PushKeys` | src/engine/model.ts:190 | every layer's key cache gains exactly the step's key at its end |
| `ModelMath.PushValues` | src/engine/model.ts:191 | every layer's value cache gains exactly the step's value at its end |
| `ModelMath.PushKeepsFit` | src/engine/model.ts:189-191 | after the pushes the caches still have the model's widths and each holds one more position |
| `BackwardMath.FfnBackward` | src/engine/model.ts:318-334 | the FFN backward gives a width-nEmbd gradient after attention and fc1/fc2 gradients of their weights' sizes |
| `BackwardMath.DWeights` | src/engine/model.ts:371-379 | one attention-weight gradient per cached position |
| `BackwardMath.DScores` | src/engine/model.ts:388-390 | one score gradient per head and cached position |
| `BackwardMath.DValues` | src/engine/model.ts:381-386 | one dV vector of width nEmbd per attended position |
| `BackwardMath.DQuery` | src/engine/model.ts:392-397 | dQ has width nEmbd |
| `BackwardMath.DKeys` | src/engine/model.ts:399-404 | one dK vector of width nEmbd per attended position |
| `BackwardMath.LayerBackward` | src/engine/model.ts:314-428 | one layer's gradients have their weights' sizes and posInSeq + 1 dV and dK rows, and the Wv/Wk gradients are the outer products of the current position's dV/dK with its xNorm1 only |
| `BackwardMath.DXInto` | src/engine/model.ts:311-428 | the gradient entering layer li from above has width nEmbd |
| `BackwardMath.LayerGrads` | src/engine/model.ts:314-428 | layer li's gradients in the reverse layer loop fit the model, with the current-position-only Wv/Wk gradients |
| `BackwardMath.Backward` | src/engine/model.ts:281-439 | the result is nLayer layers of gradients, each with posInSeq + 1 dV and dK vectors of length nEmbd, an lmHead gradient and the gradient before the initial rmsNorm |
| `BackwardMath.BackwardLayer` | src/engine/model.ts:311-428 | layer li of the result is the li-th step of the reverse loop fed by the lmHead's dX, and its Wv/Wk gradients use the current position only |
| `BackwardMath.SlotDelta` | src/engine/model.ts:305-420 | what backward adds to each parameter from lmHead on has that parameter's size |
| `BackwardMath.ApplyBackward` | src/engine/model.ts:305-436 | the gradients after backward keep their constructor sizes |
| `BackwardMath.ApplyAt` | src/engine/model.ts:305-420 | every parameter from lmHead on gains exactly its delta |
| `BackwardMath.SlotDeltaOfLayer` | src/engine/model.ts:323-420 | the deltas of layer li's six slots are its Wq, Wk, Wv, Wo, fc1 and fc2 gradients |
| `BackwardMath.SlotDeltaOfValueAndKey` | src/engine/model.ts:416-420 | the deltas of the Wv and Wk slots are the layer's dWv and dWk |
| `BackwardMath.ApplyAtValue` | src/engine/model.ts:419-420 | backward adds into attnWv of layer li exactly dV[pos] ⊗ xNorm1 |
| `BackwardMath.ApplyAtKey` | src/engine/model.ts:416-417 | backward adds into attnWk of layer li exactly dK[pos] ⊗ xNorm1 |
| `BackwardMath.AddSlot` | src/engine/model.ts:307-309 | `grad.data[i] += delta[i]` keeps every gradient at its size |
| `BackwardMath.AddLayer` | src/engine/model.ts:323-420 | one layer's accumulations keep every gradient at its size |
| `BackwardMath.AddLayersFrom` | src/engine/model.ts:314-428 | the reverse layer loop keeps every gradient at its size |
| `BackwardMath.BackwardSteps` | src/engine/model.ts:305-436 | the statement-by-statement accumulation keeps every gradient at its size |
| `BackwardMath.AddLayerAt` | src/engine/model.ts:323-420 | one layer's loops add its deltas to its own six slots and leave every other gradient unchanged |
| `BackwardMath.AddLayersFromAt` | src/engine/model.ts:314-428 | after the loop from the last layer down to layer li, the slots of those layers have gained their deltas and all earlier ones are unchanged |
| `BackwardMath.BackwardStepsApply` | src/engine/model.ts:305-436 | the statement-by-statement accumulation (lmHead, then the layers in reverse, then wte and wpe) equals adding every delta at once |
| `Model.KVCache.constructor` | src/engine/model.ts:460-461 | one empty key list and one empty value list per layer |
| `Model.NewParam` | src/engine/model.ts:97-99 | a fresh weight tensor of the parameter's constructor shape holding the given weights, with a fresh zero gradient |
| `Model.ZeroSlot` | src/engine/model.ts:147-149 | the gradient of parameter k becomes zero; every weight and every other gradient is unchanged |
| `Model.AccumulateSlot` | src/engine/model.ts:307-309 | `grad.data[i] += delta[i]` over parameter k: the gradients become `AddSlot`, and the weights are unchanged |
| `Model.AccumulateRow` | src/engine/model.ts:435-436 | embeddingBackward into wte or wpe adds the delta into one row of that gradient only; the weights are unchanged |
| `Model.AccumulateLayer` | src/engine/model.ts:323-420 | one layer's `+=` loops leave the gradients at `AddLayer`, and the weights unchanged |
| `Model.GradBuffersIn` | src/engine/model.ts:129-138 | every parameter's gradient buffer is in the list's gradient footprint |
| `Model.AccumulateLayers` | src/engine/model.ts:314-428 | the reverse layer loop leaves the gradients at `AddLayersFrom(…, 0)`, and the weights unchanged |
| `Model.AccumulateLayerAfter` | src/engine/model.ts:314-428 | one turn of the reverse loop adds layer li after all later layers |
| `Model.BackwardStepsOn` | src/engine/model.ts:305-436 | every `+=` of backward, in the source's order, leaves the gradients at `BackwardSteps`, and the weights unchanged |
| `Model.AccumulateHeadAndLayers` | src/engine/model.ts:305-428 | lmHead's `+=`, then the layers' from the last to the first |
| `Model.AccumulateRows` | src/engine/model.ts:435-436 | embeddingBackward into row tokenId of wte, then row posId of wpe, and nothing else |
| `Model.ApplyBackwardTo` | src/engine/model.ts:305-436 | backward's accumulation equals adding every delta at once (`ApplyBackward`), with the weights unchanged |
| `Model.KeysOf` | src/engine/model.ts:251-255 | one key per layer cache |
| `Model.ValuesOf` | src/engine/model.ts:251-255 | one value per layer cache |
| `Model.Pushed` | src/engine/model.ts:189-191 | pushing into the first layers keeps one cache per layer |
| `Model.PushedStep` | src/engine/model.ts:189-191 | one more push appends to exactly the next layer's cache |
| `Model.LayersAppend` | src/engine/model.ts:251-255 | the keys and values of one more layer cache are the old ones plus its k and v |
| `Model.PushedAll` | src/engine/model.ts:189-191 | the pushes of all layers are `PushKeys` and `PushValues` |
| `Model.ForwardLayers` | src/engine/model.ts:177-256 | the layer loop returns `LayersUpTo` over all layers, has pushed each layer's k and v into its own cache, and leaves the weights unchanged |
| `Model.ForwardLayer` | src/engine/model.ts:178-255 | one turn of the layer loop adds layer li's cache and its pushes |
| `Model.PushLayer` | src/engine/model.ts:190-191 | `kvKeys[li].push(k)` and `kvValues[li].push(v)` change only layer li's caches, by exactly one entry each, and no weight |
| `Model.EmbedInput` | src/engine/model.ts:166-173 | tokEmb is row tokenId of wte, posEmb row posId of wpe, and xInitNorm and rmsInit are the rmsNorm of their sum |
| `Model.EmbedInputOn` | src/engine/model.ts:166-173 | the same embedding step read from the parameter list, with the weights unchanged |
| `Model.LmHeadOn` | src/engine/model.ts:259 | the logits are `linear(x, lmHead)`, with the weights unchanged |
| `Model.ForwardOn` | src/engine/model.ts:157-269 | forward returns exactly `ModelMath.Forward` of the weights and the caches, appends one key and one value to every layer's cache, and changes no weight |
| `Model.WeightsOf` | src/engine/model.ts:129-138 | one weight vector per parameter, each that parameter's contents, of the model's shapes |
| `Model.GradsOf` | src/engine/model.ts:129-138 | one gradient vector per parameter, each that parameter's gradient, of the constructor sizes |
| `Model.BuiltExtend` | src/engine/model.ts:92-126 | appending a fresh parameter with its initial weights and a zero gradient keeps the list as the constructor leaves it |
| `Model.ApartExtend` | src/engine/model.ts:97-123 | appending a parameter whose buffers are new keeps every buffer of the list distinct |
| `Model.BuiltReady` | src/engine/model.ts:92-126 | a complete list holds the initial weights and all-zero gradients |
| `Model.NewParams` | src/engine/model.ts:92-126 | 3 + 6·nLayer fresh parameters with fresh buffers, holding the initial weights and zero gradients |
| `Model.ParamList` | src/engine/model.ts:129-138 | `parameters()` has 3 + 6·nLayer entries, starting wte, wpe, lmHead |
| `Model.ParamListSlot` | src/engine/model.ts:131-136 | entry 3 + 6·li + j of `parameters()` is weight j (Wq, Wk, Wv, Wo, Fc1, Fc2) of layer li |
| `Model.Blocks` | src/engine/model.ts:109-125 | a flat list of 3 + 6·nLayer parameters regroups into nLayer blocks |
| `Model.BlockAt` | src/engine/model.ts:109-125 | entry k ≥ 3 of the flat list is weight (k − 3) % 6 of block (k − 3) / 6 |
| `Model.ParamListOfBlocks` | src/engine/model.ts:129-138 | regrouping a flat list into blocks and listing it again gives it back |
| `Model.MicroGPT.Parameters` | src/engine/model.ts:129-138 | `parameters()` returns 3 + 6·nLayer tensors |
| `Model.MicroGPT.Weights` | src/engine/model.ts:129-138 | the weights, in `parameters()` order, have the constructor's shapes |
| `Model.MicroGPT.Grads` | src/engine/model.ts:129-138 | the gradients, in `parameters()` order, have the constructor's sizes |
| `Model.MicroGPT.constructor` | src/engine/model.ts:92-126 | a valid model of the configuration holding the given initial weights, with every gradient zero and every tensor and buffer fresh |
| `Model.MicroGPT.ParamCount` | src/engine/model.ts:141-143 | `paramCount()` is the sum of the parameter sizes and equals `computeParamCount` of the configuration; the weights are unchanged |
| `Model.MicroGPT.AddIntoGrad` | src/engine/model.ts:521-529 | parameter k's gradient gains the delta; every other gradient and every weight is unchanged |
| `Model.MicroGPT.Forward` | src/engine/model.ts:157-269 | the logits and cache are `ModelMath.Forward` of the weights; every layer's cache gains exactly one key and one value; the weights are unchanged |
| `Model.MicroGPT.Backward` | src/engine/model.ts:281-439 | returns `BackwardMath.Backward` (nLayer rows of posInSeq + 1 dV and dK vectors), only adds into the gradients (`ApplyBackward`), and leaves the weights unchanged |
| `Model.MicroGPT.ZeroGrad` | src/engine/model.ts:146-150 | every gradient becomes zero and the weights are unchanged |
| `Sums.TriangleSplit` | src/engine/model.ts:446-451 | the diagonal terms plus the terms below the diagonal, summed column by column, equal the sum over every pair t ≤ pos, row by row |
| `TrainMath.Window` | src/engine/model.ts:457 | n = min(blockSize, tokens.length − 1) is positive, at most blockSize and below the token count |
| `TrainMath.EmptyKV` | src/engine/model.ts:460-461 | nLayer empty caches |
| `TrainMath.AttendedAfterForward` | src/engine/model.ts:205-220 | a step cache made with p cached positions in every layer attended over p + 1 |
| `TrainMath.ExtendKeepsFit` | src/engine/model.ts:472-477 | recording one more position keeps the run's caches, losses and dLogits of the model's widths |
| `TrainMath.RunForward` | src/engine/model.ts:468-478 | after positions 0 .. p − 1 the run holds p step caches, losses and dLogits, and every layer's cache holds p keys and values |
| `TrainMath.PositionStep` | src/engine/model.ts:469-477 | one turn of the forward loop records exactly one more position |
| `TrainMath.BackAt` | src/engine/model.ts:486 | backward at position pos gives pos + 1 dV and dK vectors per layer |
| `TrainMath.Pass1` | src/engine/model.ts:482-488 | the gradients after backward at positions hi − 1 down to 0 keep their sizes |
| `TrainMath.CrossGrads` | src/engine/model.ts:484-488 | `allCrossGrads[pos]` is backward's result at pos, with pos + 1 dV and dK entries per layer |
| `TrainMath.Total` | src/engine/model.ts:497-514 | `totalDV`/`totalDK` of position t has width nEmbd |
| `TrainMath.Pass2Cell` | src/engine/model.ts:497-529 | one (layer, t) cell of pass 2 keeps every gradient at its size |
| `TrainMath.Pass2Row` | src/engine/model.ts:496-530 | positions 0 .. tc − 1 of layer li in pass 2 keep every gradient at its size |
| `TrainMath.Pass2` | src/engine/model.ts:493-531 | layers 0 .. lc − 1 of pass 2 keep every gradient at its size |
| `TrainMath.ZeroGrads` | src/engine/model.ts:146-150 | the gradients after zeroGrad have the constructor sizes |
| `TrainMath.TrainRun` | src/engine/model.ts:468-478 | the forward loop over the whole window |
| `TrainMath.TrainGrads` | src/engine/model.ts:483-531 | zeroGrad, then pass 1, then pass 2 leave gradients of the constructor sizes |
| `TrainProofs.RunForwardStep` | src/engine/model.ts:468-477 | position p − 1 of the loop calls forward with token p − 1 at position p − 1 over the caches so far, scores it against token p and keeps dLogits scaled by 1/n |
| `TrainProofs.ExtendKeepsAligned` | src/engine/model.ts:472-477 | pushing a step cache keeps every layer's key and value cache as long as the list of step caches |
| `TrainProofs.AlignedStep` | src/engine/model.ts:468-478 | each turn of the forward loop keeps the caches aligned with the positions seen |
| `TrainProofs.CacheHoldsEveryPosition` | src/engine/model.ts:468-478 | after p positions every layer's KV cache holds exactly one key and one value per position |
| `TrainProofs.ExtendKeepsPositions` | src/engine/model.ts:469-472 | a step cache for token tokens[p] at position p keeps the record of positions |
| `TrainProofs.PositionsStep` | src/engine/model.ts:468-478 | each turn of the forward loop records the right token and position |
| `TrainProofs.ForwardPositions` | src/engine/model.ts:468-478 | step cache j of the loop holds token j at position j |
| `TrainProofs.ExtendKeepsBalanced` | src/engine/model.ts:475-476 | pushing a dLogits that sums to zero keeps every kept dLogits summing to zero |
| `TrainProofs.ScaledGradientBalanced` | src/engine/model.ts:473-476 | the cross-entropy gradient scaled by 1/n sums to zero |
| `TrainProofs.BalancedStep` | src/engine/model.ts:468-478 | each turn of the forward loop keeps every dLogits summing to zero |
| `TrainProofs.GradientsSumToZero` | src/engine/model.ts:468-478 | every dLogits the forward loop keeps sums to zero |
| `TrainProofs.SideSlotSize` | src/engine/model.ts:521-528 | attnWv and attnWk of layer li are parameters of nEmbd × nEmbd entries |
| `TrainProofs.OuterEntry` | src/engine/model.ts:521-528 | entry q of the flat outer product u xᵀ is u[q / \|x\|] · x[q mod \|x\|] |
| `TrainProofs.OuterOfZeros` | src/engine/model.ts:497-498 | the outer product of a zero vector is zero everywhere |
| `TrainProofs.OuterAddEntry` | src/engine/model.ts:508-511 | the outer product is additive in its left factor, entry by entry |
| `TrainProofs.ApplySide` | src/engine/model.ts:486 | applying backward at a position adds to attnWv (attnWk) exactly the outer product of that position's own dV (dK) with its xNorm1 |
| `TrainProofs.ApplyDiagonal` | src/engine/model.ts:485-487 | backward at position pos adds the diagonal pair (pos, pos) to each attnWv/attnWk entry |
| `TrainProofs.DiagonalAt` | src/engine/model.ts:485-487 | the same step, with the pair written as term pos of the diagonal |
| `TrainProofs.Pass1Peel` | src/engine/model.ts:485 | pass 1 runs backward at position hi − 1 first, then over the positions below it |
| `TrainProofs.Pass1DiagonalStep` | src/engine/model.ts:485-488 | one step of the induction: pass 1 over hi positions adds the diagonal pairs below hi |
| `TrainProofs.Pass1Diagonal` | src/engine/model.ts:482-488 | pass 1 over positions hi − 1 .. 0 adds to each attnWv/attnWk entry the sum of the diagonal pairs (pos, pos), pos < hi |
| `TrainProofs.OuterTotal` | src/engine/model.ts:497-521 | the outer product of totalDV (totalDK) of position t with xNorm1[t] is, entry by entry, the sum of the pairs (pos, t) for t < pos < hi |
| `TrainProofs.OuterTotalStep` | src/engine/model.ts:502-514 | one step of that induction over the inner loop |
| `TrainProofs.Pass2CellSide` | src/engine/model.ts:496-529 | iteration (li, t) of pass 2 adds to attnWv/attnWk of layer li the column-t sum of the pairs below the diagonal |
| `TrainProofs.Pass2CellFrame` | src/engine/model.ts:496-529 | iteration (li, t) of pass 2 changes attnWv and attnWk of layer li only |
| `TrainProofs.Pass2RowSide` | src/engine/model.ts:496-530 | positions 0 .. tc − 1 of layer li add the below-diagonal pairs of columns 0 .. tc − 1 |
| `TrainProofs.Pass2RowSideStep` | src/engine/model.ts:496-530 | one step of that induction |
| `TrainProofs.Pass2RowFrame` | src/engine/model.ts:496-530 | the inner loop of layer li changes no parameter but attnWv and attnWk of li |
| `TrainProofs.Pass2Side` | src/engine/model.ts:493-531 | after layers 0 .. lc − 1 of pass 2, each attnWv/attnWk entry of layer li < lc has gained the full below-diagonal sum, and layers ≥ lc nothing |
| `TrainProofs.Pass2SideStep` | src/engine/model.ts:493-531 | one step of that induction |
| `TrainProofs.Pass2LayerSide` | src/engine/model.ts:494-530 | one layer of pass 2 moves layer l from "not yet" to "done" and leaves the others' sums as they were |
| `TrainProofs.Pass2Frame` | src/engine/model.ts:493-531 | pass 2 leaves every parameter but attnWk and attnWv untouched |
| `TrainProofs.TrainStepKeyValueGradients` | src/engine/model.ts:446-451 | after trainStep each attnWv/attnWk gradient entry is the full triangular sum over all pairs t ≤ pos of dV[pos][t] (dK[pos][t]) times xNorm1[t] — what the two-pass comment promises |
| `TrainProofs.TrainStepOtherGradients` | src/engine/model.ts:482-531 | every other parameter's gradient after trainStep is pass 1's alone |
| `TrainStep.ForwardPosition` | src/engine/model.ts:469-477 | one turn of the forward loop leaves the KV cache, caches, losses and dLogitsList equal to RunForward at pos + 1, weights unchanged |
| `TrainStep.ForwardLoop` | src/engine/model.ts:468-478 | the forward loop from empty caches leaves them equal to RunForward over the whole window |
| `TrainStep.Pass1Loop` | src/engine/model.ts:484-488 | the gradients become Pass1 of the old gradients and allCrossGrads is backward's result at every position |
| `TrainStep.TotalNext` | src/engine/model.ts:502-513 | position pos > t adds its dV[t] and dK[t] to position t's totals |
| `TrainStep.Pass2Step` | src/engine/model.ts:497-529 | one (li, t) iteration of pass 2 leaves the gradients equal to Pass2Cell |
| `TrainStep.Propagate` | src/engine/model.ts:518-529 | with complete totals, adding the dW of the totals through xNorm1[t] into attnWv and attnWk gives Pass2Cell |
| `TrainStep.Pass2Layer` | src/engine/model.ts:494-530 | pass 2 for layer li leaves the gradients equal to Pass2Row over every position |
| `TrainStep.Pass2Loop` | src/engine/model.ts:493-531 | pass 2 leaves the gradients equal to Pass2 over every layer |
| `TrainStep.ForwardPhase` | src/engine/model.ts:456-478 | n is the window and the fresh KV cache and lists equal TrainRun |
| `TrainStep.BackwardPhase` | src/engine/model.ts:483-531 | zeroGrad, pass 1 and pass 2 leave Pass2 of Pass1 of zero gradients, weights unchanged |
| `TrainStep.TrainStep` | src/engine/model.ts:452-534 | trainStep returns TrainLoss (the mean per-position loss), leaves TrainGrads in the gradients and changes no weight |
| `GradCheck.StepOf` | src/engine/grad-check.ts:170 | the stride `max(1, floor(total / count))` is at least 1 |
| `GradCheck.MultiplesBelow` | src/engine/grad-check.ts:171 | k · step lies below total exactly for the first Multiples(total, step) values of k |
| `GradCheck.Sample` | src/engine/grad-check.ts:168-175 | the sampled list is 0, step, 2·step, … and stops at count entries or at total, whichever comes first |
| `GradCheck.SampleBounds` | src/engine/grad-check.ts:168-175 | at most count indices, all below total, strictly increasing, and fewer than count only when the stride has passed total |
| `GradCheck.SampleIndices` | src/engine/grad-check.ts:168-175 | the loop returns exactly Sample(total, count) |
| `GradCheck.IndicesToCheckCover` | src/engine/grad-check.ts:74-76 | the probed indices lie inside the parameter and increase; a parameter of at most 64 entries is probed everywhere, a larger one at 32 indices |
| `GradCheck.Decimal` | src/engine/grad-check.ts:161 | a number renders as a non-empty run of decimal digits |
| `GradCheck.DecimalInjective` | src/engine/grad-check.ts:161 | two numbers render alike exactly when they are equal |
| `GradCheck.ParamNameList` | src/engine/grad-check.ts:157-166 | one name per parameter slot, name k being slot k's |
| `GradCheck.ParamNames` | src/engine/grad-check.ts:157-166 | getParamNames returns ParamNameList: wte, wpe, lmHead, then six `layer${i}.…` names per layer |
| `GradCheck.NameOfSlot` | src/engine/grad-check.ts:159-163 | the name of layer li's weight j is `layer${li}.` followed by the weight's kind |
| `GradCheck.LayerNamesDistinct` | src/engine/grad-check.ts:160-163 | two layer names agree exactly when layer and weight agree |
| `GradCheck.ParamNamesDistinct` | src/engine/grad-check.ts:157-166 | different slots get different names |
| `GradCheck.ManualLossIsCrossEntropy` | src/engine/grad-check.ts:144-151 | with a log that inverts exp, the hand-written loss is −log of the softmax probability of the target |
| `GradCheck.LossForward` | src/engine/grad-check.ts:140-152 | after p positions computeLoss's loop keeps caches and losses of the model's widths |
| `GradCheck.LossStep` | src/engine/grad-check.ts:141-151 | one turn of the loop records one more position |
| `GradCheck.PushedFits` | src/engine/grad-check.ts:141 | forward's push keeps every layer's cache at p + 1 entries |
| `GradCheck.SameCachesAsTrainStep` | src/engine/grad-check.ts:133-141 | computeLoss builds the same KV caches as trainStep's forward loop |
| `GradCheck.SumExp` | src/engine/grad-check.ts:146-149 | the loop sums the shifted exponentials |
| `GradCheck.LossForwardStep` | src/engine/grad-check.ts:140-152 | LossForward one position further, with its forward call and loss named |
| `GradCheck.LossTurnNext` | src/engine/grad-check.ts:140-152 | one turn's caches and loss are LossForward's at pos + 1 |
| `GradCheck.SumSnoc` | src/engine/grad-check.ts:151 | adding a loss to the total adds it to the sum |
| `GradCheck.HandLoss` | src/engine/grad-check.ts:145-151 | the hand-written loss of one position |
| `GradCheck.LossTurn` | src/engine/grad-check.ts:140-152 | one turn of computeLoss's loop leaves the caches and losses equal to LossForward at pos + 1 and the total equal to their sum, weights unchanged |
| `GradCheck.ComputeLoss` | src/engine/grad-check.ts:130-155 | computeLoss returns CheckLoss, the mean hand-written loss over the window |
| `GradCheck.Perturbed` | src/engine/grad-check.ts:80-81 | moving entry idx of parameter pi by d changes that entry only |
| `GradCheck.PerturbedRestored` | src/engine/grad-check.ts:89-90 | setting the saved parameter back undoes the move |
| `GradCheck.LossOfAround` | src/engine/grad-check.ts:82 | the loss is defined at every weight list of the saved shape and is computeLoss's value there |
| `GradCheck.NumericalGrad` | src/engine/grad-check.ts:79-92 | the numerical gradient is the quotient of the losses at +eps and −eps |
| `GradCheck.CentralDifferenceExact` | src/engine/grad-check.ts:92 | on a quadratic the central difference equals the slope |
| `GradCheck.QuadraticCentral` | src/engine/grad-check.ts:92 | the quotient of a quadratic's values at ±eps is its slope |
| `GradCheck.Denominator` | src/engine/grad-check.ts:99 | the denominator is the largest of \|numerical\|, \|analytical\| and 1e-8 |
| `GradCheck.RelError` | src/engine/grad-check.ts:98-100 | the relative error lies in [0, 2] and is 0 exactly when the gradients agree |
| `GradCheck.RunningMax` | src/engine/grad-check.ts:102-104 | the running maximum from 0 is an upper bound of every error and is 0 or one of them |
| `GradCheck.RunningMaxBelow` | src/engine/grad-check.ts:102-104 | the maximum is below t exactly when t is positive and every error is below t |
| `GradCheck.SumSquares` | src/engine/grad-check.ts:95-96 | a sum of squares is never negative |
| `GradCheck.ProbesInside` | src/engine/grad-check.ts:74-78 | the probed indices lie inside the parameter |
| `GradCheck.TallyStep` | src/engine/grad-check.ts:78-105 | the tally of k + 1 pairs is the loop body applied to the tally of k |
| `GradCheck.TallySnoc` | src/engine/grad-check.ts:78-105 | the tally of one more pair is the loop body applied to it |
| `GradCheck.RunningMaxSnoc` | src/engine/grad-check.ts:102-104 | one more error replaces the maximum exactly when it is larger |
| `GradCheck.SumSquaresSnoc` | src/engine/grad-check.ts:95-96 | one more value adds its square |
| `GradCheck.TallyBelow` | src/engine/grad-check.ts:102-104 | a tally's maxRelError is below t exactly when every relative error is |
| `GradCheck.ProbeAdvance` | src/engine/grad-check.ts:78-105 | the tally after k + 1 probed indices is the loop body applied at index k |
| `GradCheck.ProbeTallyStart` | src/engine/grad-check.ts:69-71 | before the first index the tally is all zeros |
| `GradCheck.ProbeTallyEnd` | src/engine/grad-check.ts:107-115 | after the last index the tally gives the parameter's entry: maxRelError and the square roots of the sums of squares |
| `GradCheck.ParamCheckBelow` | src/engine/grad-check.ts:98-115 | a parameter's maxRelError is below t exactly when every probed index's relative error is |
| `GradCheck.MaximaSnoc` | src/engine/grad-check.ts:110-119 | one more entry adds its maxRelError to the list of maxima |
| `GradCheck.PassedIffAllBelow` | src/engine/grad-check.ts:117-126 | `passed` holds exactly when tolerance is positive and every probed index of every parameter has relative error below tolerance |
| `GradCheck.TrainReady` | src/engine/grad-check.ts:34-43 | the fixed config and tokens meet trainStep's and computeLoss's needs |
| `GradCheck.RunReady` | src/engine/grad-check.ts:46-56 | the loss and the trainStep gradients are defined for gradCheck's test of every parameter |
| `GradCheck.WriteWeight` | src/engine/grad-check.ts:67 | `param.data.set(saved)` replaces parameter pi's values and nothing else |
| `GradCheck.NudgeWeight` | src/engine/grad-check.ts:81 | `param.data[idx] += d` leaves the weights Perturbed by d at (pi, idx) |
| `GradCheck.NumericalGradOfLoss` | src/engine/grad-check.ts:79-92 | the quotient of the measured losses is the numerical gradient of the loss |
| `GradCheck.PerturbedNeg` | src/engine/grad-check.ts:86 | perturbing by the negated step is perturbing by −eps |
| `GradCheck.MeasureLoss` | src/engine/grad-check.ts:82 | computeLoss at weights V leaves V and returns CheckLoss there |
| `GradCheck.LossAt` | src/engine/grad-check.ts:80-87 | restoring, nudging and measuring gives the loss at the perturbed weights |
| `GradCheck.ProbeIndex` | src/engine/grad-check.ts:79-92 | the probe returns NumericalGrad and leaves the saved weights in place |
| `GradCheck.Accumulate` | src/engine/grad-check.ts:95-104 | one loop body: the tally advanced by one pair |
| `GradCheck.ProbeStep` | src/engine/grad-check.ts:78-105 | one probed index advances the tally and restores the weights |
| `GradCheck.RewriteSame` | src/engine/grad-check.ts:67 | writing a parameter's own values back changes nothing |
| `GradCheck.ProbeAll` | src/engine/grad-check.ts:78-105 | the loop over the probed indices ends with the tally of all of them, weights as saved |
| `GradCheck.CheckParam` | src/engine/grad-check.ts:65-115 | the entry for parameter pi is ParamCheck: its name, maxRelError and both norms |
| `GradCheck.ChecksSoFarNext` | src/engine/grad-check.ts:110-119 | one more parameter extends paramErrors and raises the global maximum when larger |
| `GradCheck.ChecksSoFarDone` | src/engine/grad-check.ts:122-126 | after every parameter the result is (globalMax, paramErrors, globalMax < tolerance) |
| `GradCheck.ParamStep` | src/engine/grad-check.ts:64-120 | one turn of the loop over parameters keeps the weights and the running result |
| `GradCheck.CheckAll` | src/engine/grad-check.ts:63-120 | the loop over parameters leaves paramErrors and globalMaxRelError for all of them, weights as saved |
| `GradCheck.CheckTrained` | src/engine/grad-check.ts:59-126 | the second half of gradCheck returns ResultOf on the saved weights and trainStep gradients |
| `GradCheck.TrainedModel` | src/engine/grad-check.ts:46-56 | a fresh model with the given initial weights, those weights saved and TrainGrads as the analytical gradients |
| `GradCheck.GradCheckWith` | src/engine/grad-check.ts:32-127 | gradCheck on a given config and tokens returns GradCheckOn |
| `GradCheck.RunGradCheck` | src/engine/grad-check.ts:32-127 | gradCheck(eps, tolerance) on the fixed tiny config and tokens returns GradCheckOf |
| `Sanitize.StripNul` | src/lib/sanitize.ts:15 | removing NUL keeps every other character and no NUL, and never lengthens the text |
| `Sanitize.AfterFirstGt` | src/lib/sanitize.ts:18 | the index just past the first '>' |
| `Sanitize.StripTags` | src/lib/sanitize.ts:18 | removing `<[^>]*>` matches never lengthens the text and adds no character |
| `Sanitize.NoTagRemains` | src/lib/sanitize.ts:18 | after stripping, no '<' is followed anywhere later by a '>' |
| `Sanitize.StripTagsWithoutOpen` | src/lib/sanitize.ts:18 | text without a '<' is left as it is |
| `Sanitize.SanitizeText` | src/lib/sanitize.ts:9-30 | a non-string is rejected; an accepted text is non-empty, at most 50000 characters, free of NUL and of complete tags |
| `Sanitize.SanitizeTextAccepts` | src/lib/sanitize.ts:9-30 | a string is accepted exactly when the stripped text has 1 .. 50000 characters, and the result is that text |
| `Sanitize.CheckBounds` | src/lib/sanitize.ts:73-79 | the config passes exactly when nLayer and nHead lie in 1 .. 8, nEmbd in 16 .. 256 and divisible by nHead (JavaScript `%`), blockSize in 16 .. 128; it is returned unchanged |
| `Sanitize.FirstBadKeyOk` | src/lib/sanitize.ts:48-57 | the key loop passes exactly when all four allowed keys are present as finite numbers |
| `Sanitize.FirstForbiddenOk` | src/lib/sanitize.ts:60-64 | the own-key loop passes exactly when no own key is `__proto__`, `constructor` or `prototype` |
| `Sanitize.ModelConfigAccepts` | src/lib/sanitize.ts:33-80 | validateModelConfig accepts exactly an object with the four finite keys, no forbidden own key and in-range values, and returns those four values |
| `Sanitize.KeyChecksComeFirst` | src/lib/sanitize.ts:48-57 | an object missing a key or holding a non-finite one fails with that error before any other check |
| `Sanitize.FirstBadKeyErr` | src/lib/sanitize.ts:49-55 | the key loop only ever fails with a missing or non-finite key |
| `Sanitize.ForbiddenKeyRejected` | src/lib/sanitize.ts:60-64 | a forbidden own key is rejected whatever the other values are |
| `Sanitize.ValidateModelConfig` | src/lib/sanitize.ts:33-80 | the two loops and the range checks return ModelConfigResult |
| `Sanitize.ValidateAdamConfig` | src/lib/sanitize.ts:83-106 | accepted exactly for an object whose lr is a finite number in (0, 0.05] and maxSteps a finite number in [1, 2000]; returns those two |
| `Sanitize.EstimateIsParamCount` | src/lib/sanitize.ts:109-115 | the estimate is 16 bytes per parameter of computeParamCount when the block size equals the vocabulary size (the estimate sizes wpe by the vocabulary) |
| `VisualizerModel.MatMul` | src/engine/visualizer-model.ts:4-19 | the triple loop returns the matrix product |
| `VisualizerModel.Linear` | src/engine/visualizer-model.ts:45-52 | `linear(x, w)` is x times the transpose of w |
| `VisualizerModel.MaskCausal` | src/engine/visualizer-model.ts:117-121 | the mask loop sets every entry above the diagonal to −1e9 and keeps the rest |
| `VisualizerModel.AttentionHead` | src/engine/visualizer-model.ts:96-130 | one head's q, k, v, masked softmax scores and output are Head's |
| `VisualizerModel.ConcatHeads` | src/engine/visualizer-model.ts:134-141 | row r of the concatenation is the heads' rows r, one after another |
| `VisualizerModel.RunHeads` | src/engine/visualizer-model.ts:95-131 | the head loop returns every head's trace in order |
| `VisualizerModel.AttentionBlock` | src/engine/visualizer-model.ts:86-148 | the attention half of a block returns Attention |
| `VisualizerModel.FeedForwardBlock` | src/engine/visualizer-model.ts:151-162 | the feed-forward half of a block returns FeedForward |
| `VisualizerModel.TransformerBlock` | src/engine/visualizer-model.ts:83-175 | one iteration of the layer loop returns the layer's trace and output |
| `VisualizerModel.RunLayers` | src/engine/visualizer-model.ts:82-176 | the layer loop returns the final state and every layer's trace, as Layers specifies |
| `VisualizerModel.NextLayer` | src/engine/visualizer-model.ts:83-175 | one more layer takes Layers at i to Layers at i + 1 |
| `VisualizerModel.ReadoutBlock` | src/engine/visualizer-model.ts:179-207 | final norm, logits of the last position, temperature, top-k and softmax return Readout |
| `VisualizerModel.ArgMax` | src/engine/visualizer-model.ts:210-217 | the scan returns the first index of the largest probability |
| `VisualizerModel.RunInference` | src/engine/visualizer-model.ts:59-233 | runInference returns the trace Inference specifies |
| `VisualizerMath.Product` | src/engine/visualizer-model.ts:4-19 | the product has \|a\| rows of b[0].length entries, entry (i, j) being the sum of a[i][k] · b[k][j] |
| `VisualizerMath.Column` | src/engine/visualizer-model.ts:12-14 | the first n entries of column j |
| `VisualizerMath.InnerIsDot` | src/engine/visualizer-model.ts:12-14 | the inner loop's sum is the dot product of row i with column j |
| `VisualizerMath.Transpose` | src/engine/visualizer-model.ts:40-42 | the transpose has one row per column and entry (i, j) equal to w[j][i] |
| `VisualizerMath.TransposeTwice` | src/engine/visualizer-model.ts:40-42 | transposing twice gives the matrix back |
| `VisualizerMath.LinearOut` | src/engine/visualizer-model.ts:45-52 | `linear(x, w)` has one row per row of x and one column per row of w |
| `VisualizerMath.LinearIsDot` | src/engine/visualizer-model.ts:45-52 | entry (i, j) of `linear(x, w)` is the dot product of x[i] with w[j] |
| `VisualizerMath.AddM` | src/engine/visualizer-model.ts:21-23 | the entrywise sum over the shape of a |
| `VisualizerMath.ScaleM` | src/engine/visualizer-model.ts:114 | every row scaled by the attention scale |
| `VisualizerMath.ReluM` | src/engine/visualizer-model.ts:156 | `Math.max(0, val)` applied to every row, the engine's relu |
| `VisualizerMath.RmsRow` | src/engine/visualizer-model.ts:26-30 | a non-empty row is the engine's rmsNorm (eps 1e-5) times the weight, entry by entry |
| `VisualizerMath.RmsNormM` | src/engine/visualizer-model.ts:25-31 | rmsNorm row by row |
| `VisualizerMath.RmsNormUnitGains` | src/engine/visualizer-model.ts:25-31 | with unit weights the visualizer's rmsNorm is the engine's |
| `VisualizerMath.SoftmaxM` | src/engine/visualizer-model.ts:54-56 | softmax2D is the engine's softmax on every row |
| `VisualizerMath.SoftmaxRows` | src/engine/visualizer-model.ts:33-38 | every non-empty row of softmax2D sums to 1 with entries in (0, 1] |
| `VisualizerMath.Masked` | src/engine/visualizer-model.ts:117-121 | the mask keeps the square shape |
| `VisualizerMath.MaskedRow` | src/engine/visualizer-model.ts:117-121 | row r keeps its entries up to column r and holds −1e9 after it |
| `VisualizerMath.Head` | src/engine/visualizer-model.ts:96-130 | q, k and v are seqLen × headSize, the attention weights seqLen × seqLen, the output seqLen × headSize |
| `VisualizerMath.HeadAttention` | src/engine/visualizer-model.ts:117-124 | every row of a head's masked attention weights sums to 1 |
| `VisualizerMath.Heads` | src/engine/visualizer-model.ts:95-131 | one trace per head |
| `VisualizerMath.HeadsNext` | src/engine/visualizer-model.ts:95-131 | the heads up to k + 1 are the heads up to k followed by head k |
| `VisualizerMath.JoinRow` | src/engine/visualizer-model.ts:136-139 | row r of k heads joined has k · headSize entries |
| `VisualizerMath.JoinRowAt` | src/engine/visualizer-model.ts:136-139 | entry h · headSize + d of the joined row is head h's entry d |
| `VisualizerMath.Concat` | src/engine/visualizer-model.ts:134-141 | the concatenation is seqLen × (nHead · headSize) |
| `VisualizerMath.ConcatAt` | src/engine/visualizer-model.ts:134-141 | entry (r, h · headSize + d) of the concatenation is head h's entry (r, d) |
| `VisualizerMath.Outs` | src/engine/visualizer-model.ts:130 | headOutputs, one per head |
| `VisualizerMath.Attention` | src/engine/visualizer-model.ts:86-148 | the attention half keeps the seqLen × nEmbd shape and traces every head |
| `VisualizerMath.Project` | src/engine/visualizer-model.ts:144-147 | the projected attention added to the residual stream keeps its shape |
| `VisualizerMath.Layer` | src/engine/visualizer-model.ts:83-175 | a block's output keeps the shape of its input and its trace holds nHead q, k, v and score matrices |
| `VisualizerMath.Qs` | src/engine/visualizer-model.ts:103 | qHeads, one per head |
| `VisualizerMath.Ks` | src/engine/visualizer-model.ts:104 | kHeads, one per head |
| `VisualizerMath.Vs` | src/engine/visualizer-model.ts:105 | vHeads, one per head |
| `VisualizerMath.Attns` | src/engine/visualizer-model.ts:125 | scoresHeads, one per head |
| `VisualizerMath.FeedForward` | src/engine/visualizer-model.ts:151-162 | the feed-forward half keeps the seqLen × nEmbd shape |
| `VisualizerMath.Layers` | src/engine/visualizer-model.ts:82-176 | after n layers the stream keeps its shape and n traces were recorded |
| `VisualizerMath.Logits` | src/engine/visualizer-model.ts:182-187 | logit i is lm_head row i dotted with the last position's state |
| `VisualizerMath.Temperature` | src/engine/visualizer-model.ts:193 | the divisor is never below 1e-5 and equals the temperature when that is at least 1e-5 |
| `VisualizerMath.InsertDesc` | src/engine/visualizer-model.ts:199 | insertion keeps descending order and adds exactly the new value |
| `VisualizerMath.SortDesc` | src/engine/visualizer-model.ts:199 | the sorted copy is in descending order and a permutation of the logits |
| `VisualizerMath.TopK` | src/engine/visualizer-model.ts:197-204 | logits below the k-th largest become −1e9, the others stay |
| `VisualizerMath.SampledLogits` | src/engine/visualizer-model.ts:193-204 | temperature and top-k keep the logit count |
| `VisualizerMath.Divided` | src/engine/visualizer-model.ts:194 | every logit divided by the temperature |
| `VisualizerMath.Count` | src/engine/visualizer-model.ts:203 | a count of entries is at most the length |
| `VisualizerMath.CountAppend` | src/engine/visualizer-model.ts:203 | counting is additive over concatenation |
| `VisualizerMath.CountPerm` | src/engine/visualizer-model.ts:199-203 | counting depends only on the multiset of entries |
| `VisualizerMath.CountPrefix` | src/engine/visualizer-model.ts:199-203 | k leading entries that pass give a count of at least k |
| `VisualizerMath.CountSuffix` | src/engine/visualizer-model.ts:199-203 | when every entry from k on fails, the count is at most k |
| `VisualizerMath.SortedCounts` | src/engine/visualizer-model.ts:199-200 | in a descending list, at least k entries are ≥ the k-th and fewer than k are > it |
| `VisualizerMath.TopKSurvivors` | src/engine/visualizer-model.ts:197-204 | top-k keeps at least k logits (ties included) and fewer than k lie strictly above the cutoff |
| `VisualizerMath.ScanFindsFirstMax` | src/engine/visualizer-model.ts:210-217 | the scan from −1 finds the first index of the largest value above −1, or stays at 0 |
| `VisualizerMath.FirstMaxOfDistribution` | src/engine/visualizer-model.ts:210-217 | on positive probabilities the prediction is an index of the largest one and no earlier index reaches it |
| `VisualizerMath.TokenEmbeddings` | src/engine/visualizer-model.ts:71 | row i is the embedding of token id i |
| `VisualizerMath.InputStream` | src/engine/visualizer-model.ts:71-77 | the embedded sequence is seqLen × nEmbd |
| `VisualizerMath.Inference` | src/engine/visualizer-model.ts:59-233 | the trace has nLayer layers, a seqLen × nEmbd final norm and one logit and probability per lm_head row |
| `VisualizerMath.Readout` | src/engine/visualizer-model.ts:179-207 | the final norm keeps the shape and there is one logit and probability per lm_head row |
| `VisualizerMath.InferencePrediction` | src/engine/visualizer-model.ts:207-217 | the probabilities sum to 1 and the predicted id is the first index of the largest probability |
| `VisualizerTokenizer.Tokenizer.constructor` | src/engine/visualizer-tokenizer.ts:6-14 | stoi sends every entry to its last index in chars and itos sends every index to its entry |
| `VisualizerTokenizer.Tokenizer.Encode` | src/engine/visualizer-tokenizer.ts:16-18 | one id per character, each `stoi[c] \|\| 0` |
| `VisualizerTokenizer.Tokenizer.EncodeInRange` | src/engine/visualizer-tokenizer.ts:16-18 | every encoded id indexes chars |
| `VisualizerTokenizer.Tokenizer.IdOfKnown` | src/engine/visualizer-tokenizer.ts:11-17 | a known character is encoded to an index that holds it |
| `VisualizerTokenizer.Tokenizer.EntryOutside` | src/engine/visualizer-tokenizer.ts:20-22 | ids outside chars decode to nothing |
| `VisualizerTokenizer.Tokenizer.DecodeEncode` | src/engine/visualizer-tokenizer.ts:16-22 | decoding the encoding of a text whose characters are all entries gives the text back |
| `WeightBridge.Rows` | src/engine/weight-bridge.ts:25-35 | rows start .. end − 1 of a flat matrix form an (end − start) × cols nested matrix |
| `WeightBridge.RowsAreFlatRows` | src/engine/weight-bridge.ts:25-35 | row i of the slice is flat row start + i |
| `WeightBridge.RowsAt` | src/engine/weight-bridge.ts:29-31 | entry (i, c) of the slice is data[(start + i) · cols + c] |
| `WeightBridge.SliceRows` | src/engine/weight-bridge.ts:25-35 | the loops return Rows(data, cols, startRow, endRow) |
| `WeightBridge.Reshape2D` | src/engine/weight-bridge.ts:12-22 | reshape2D returns all rows of the flat matrix |
| `WeightBridge.LinearAgrees` | src/engine/weight-bridge.ts:12-22 | the visualizer's linear on a reshaped weight is the engine's linear on the flat one |
| `WeightBridge.Ones` | src/engine/weight-bridge.ts:69 | `new Array(n).fill(1.0)` holds n ones |
| `WeightBridge.HeadRowsFit` | src/engine/weight-bridge.ts:84-86 | head h's rows h · headSize .. (h + 1) · headSize − 1 are headSize rows inside the nEmbd × nEmbd projection |
| `WeightBridge.BridgedHead` | src/engine/weight-bridge.ts:84-91 | a head's query, key and value matrices are headSize × nEmbd |
| `WeightBridge.BridgedBlock` | src/engine/weight-bridge.ts:72-106 | a bridged block has the shapes the visualizer needs for nHead heads of width nEmbd |
| `WeightBridge.Bridged` | src/engine/weight-bridge.ts:57-115 | one bridged block per layer |
| `WeightBridge.HeadSlices` | src/engine/weight-bridge.ts:84-91 | row d of head h's query matrix is row h · headSize + d of the engine's attnWq |
| `WeightBridge.ExtractWeights` | src/engine/weight-bridge.ts:57-115 | extractWeights returns Bridged of the model's weights |
| `WeightBridge.BridgeWeights` | src/engine/weight-bridge.ts:58-114 | the body of extractWeights on the weights it reads returns Bridged |
| `WeightBridge.ExtractBlock` | src/engine/weight-bridge.ts:72-106 | one layer of the map, with its heads loop, returns BridgedBlock |
| `WeightBridge.ExtractedChars` | src/engine/weight-bridge.ts:40-44 | one entry per vocabulary id: the character for each character id and '' for BOS |
| `WeightBridge.ExtractModelConfig` | src/engine/weight-bridge.ts:38-54 | the visualizer config copies the five sizes and carries ExtractedChars |
| `WeightBridge.TokenizersAgree` | src/engine/weight-bridge.ts:38-44 | a visualizer tokenizer built from the extracted chars encodes every vocabulary character and decodes every id as the engine's tokenizer does |
| `WeightBridge.BridgeRuns` | src/engine/weight-bridge.ts:57-115 | bridged weights meet runInference's shape needs for any in-vocabulary sequence of at most blockSize ids |
| `WeightBridge.BridgedNormsAreEngineNorms` | src/engine/weight-bridge.ts:68-75 | with the unit gains the visualizer's rmsNorm is the engine's rmsNorm |
| `Worker.ValidateAccepts` | src/worker/training.worker.ts:50-65 | a request passes validateTrainInput exactly when the text has at most 50000 characters, nLayer and nHead lie in 1 .. 8, nEmbd in 16 .. 256 and divisible by nHead, lr in (0, 0.05] and maxSteps in [1, 2000]; blockSize and the other Adam fields are never looked at |
| `Worker.ConfigOf` | src/worker/training.worker.ts:89 | the model config is the request's with the tokenizer's vocabulary size, and an accepted request gives a supported config with at least one layer |
| `Worker.StepLimitGuard` | src/worker/training.worker.ts:103 | the loop guard `step < maxSteps` on a real maxSteps is a comparison with a whole step limit |
| `Worker.StepLimitBounds` | src/worker/training.worker.ts:64 | an accepted request runs at least 1 and at most 2000 iterations |
| `Worker.YieldsEveryTenth` | src/worker/training.worker.ts:128-130 | the loop yields after step exactly when step % 10 == 0 |
| `Worker.StopSeenArrived` | src/worker/training.worker.ts:104-130 | the stop flag is seen at step exactly when a stop arrived at some earlier yielding step |
| `Worker.RunFromNext` | src/worker/training.worker.ts:103-131 | the loop goes on past a step that saw no stop and was not slow |
| `Worker.RunFromTimedOut` | src/worker/training.worker.ts:112-117 | a slow step ends the loop, posting `timeout` with step + 1 |
| `Worker.RunFromLeft` | src/worker/training.worker.ts:103-104 | leaving at the loop head, by the guard or by the flag, posts `complete` with finalLoss 0 |
| `Worker.StopSeenNext` | src/worker/training.worker.ts:104-130 | the flag seen at step + 1 is the flag at step or a stop that arrived at a yield after step |
| `Worker.RunFromShape` | src/worker/training.worker.ts:103-131 | the loop ends after at most the limit steps, every completed step saw no stop and was not slow, and the end kind says why it stopped |
| `Worker.Progresses` | src/worker/training.worker.ts:119-125 | progress message i carries step i + 1, the loss of that step and maxSteps |
| `Worker.ProgressesSnoc` | src/worker/training.worker.ts:119-125 | one more loss appends one progress message |
| `Worker.TrainMessagesShape` | src/worker/training.worker.ts:92-137 | an accepted request posts `ready` first, one `progress` per completed step, then exactly one `timeout` (for a slow step) or `complete`, and no error |
| `Worker.DocTokensFit` | src/worker/training.worker.ts:100 | the document's tokens are all inside the vocabulary |
| `Worker.TrainOnce` | src/worker/training.worker.ts:108-110 | zeroGrad, trainStep and optimizer.step return trainStep's loss and take the weights and moments one Adam step along trainStep's gradients |
| `Worker.Update` | src/worker/training.worker.ts:110 | optimizer.step takes the states one Adam step along the gradients |
| `Worker.StepTo` | src/worker/training.worker.ts:110 | optimizer.step leaves every parameter's state at its target and increments t |
| `Worker.StepInputsFit` | src/worker/training.worker.ts:110 | trainStep's gradients are as long as the parameters Adam steps |
| `Worker.StatesFit` | src/worker/training.worker.ts:99 | the optimizer's states have the parameters' sizes |
| `Worker.StepTargets` | src/worker/training.worker.ts:110 | the next states are Adam's targets for each parameter |
| `Worker.StepInputs` | src/worker/training.worker.ts:108-110 | the weights, moments and trainStep gradients are ready for Adam's step |
| `Worker.StatesAre` | src/worker/training.worker.ts:110 | states that agree one by one with T are T |
| `Worker.Gradients` | src/worker/training.worker.ts:108-109 | zeroGrad and trainStep return TrainLoss and leave TrainGrads, weights and moments unchanged |
| `Worker.MomentsAllocated` | src/worker/training.worker.ts:99 | the moment buffers exist |
| `Worker.MomentsApart` | src/worker/training.worker.ts:99 | the moment and weight buffers are apart from the gradient buffers |
| `Worker.FirstMoments` | src/engine/optimizer.ts:24-35 | the first moments, one vector per parameter |
| `Worker.SecondMoments` | src/engine/optimizer.ts:24-35 | the second moments, one vector per parameter |
| `Worker.Zip` | src/engine/optimizer.ts:24-35 | state k holds weight k and both moments k |
| `Worker.Datas` | src/engine/optimizer.ts:24-35 | the weights of a list of states |
| `Worker.Start` | src/engine/optimizer.ts:24-35 | a new optimizer's states hold the weights and zero moments |
| `Worker.AlongLonger` | src/worker/training.worker.ts:103-131 | a pairing survives one more state |
| `Worker.AlongSnoc` | src/worker/training.worker.ts:103-131 | a pairing extends by one state and its loss |
| `Worker.ChainSnoc` | src/worker/training.worker.ts:103-131 | a chain of Adam steps extends by one step |
| `Worker.Extend` | src/worker/training.worker.ts:108-110 | one training iteration extends the trajectory of states |
| `Worker.ZipStep` | src/worker/training.worker.ts:108-110 | an iteration relates the zipped states to the next ones |
| `Worker.DatasZip` | src/engine/optimizer.ts:24-35 | the weights of zipped states are the weights |
| `Worker.StatesNow` | src/engine/optimizer.ts:24-35 | the optimizer's states are the model's weights zipped with the moments |
| `Worker.StatesOf` | src/engine/optimizer.ts:24-35 | with known moments, the states are the weights zipped with them |
| `Worker.MomentsOutside` | src/worker/training.worker.ts:99 | no moment buffer is a gradient buffer |
| `Worker.FreshMomentsFit` | src/worker/training.worker.ts:99 | moment buffers made after the model fit its parameters |
| `Worker.Worker.constructor` | src/worker/training.worker.ts:9-11 | the worker loads with no model, no tokenizer, no stop and nothing posted |
| `Worker.Worker.Stop` | src/worker/training.worker.ts:77-79 | a `stop` message sets the flag and changes nothing else |
| `Worker.Worker.HandleTrain` | src/worker/training.worker.ts:83-145 | a rejected request posts one error and keeps the old model; an accepted one installs a fresh model and tokenizer trained along the Adam trajectory, posts TrainMessages and leaves the last state's weights |
| `Worker.Worker.Accept` | src/worker/training.worker.ts:88-137 | the accepted path: fresh model and tokenizer, the messages and the final weights of the trajectory |
| `Worker.Worker.Install` | src/worker/training.worker.ts:88-90 | the module state takes the new tokenizer, model, messages and flag |
| `Worker.Worker.HandleGenerate` | src/worker/training.worker.ts:147-165 | with no model or tokenizer one `Model not trained yet` error is posted; otherwise the decoded text of generate is posted |
| `Worker.Train` | src/worker/training.worker.ts:88-137 | the training run of an accepted request: messages, losses and the trajectory of states ending at the model's weights |
| `Worker.NewModel` | src/worker/training.worker.ts:88-100 | a fresh tokenizer over the text's characters, a model of ConfigOf with the initial weights, and the document's tokens |
| `Worker.NewTraining` | src/worker/training.worker.ts:99 | a fresh optimizer at t = 0 whose states are the weights with zero moments |
| `Worker.NewOptimizer` | src/worker/training.worker.ts:99 | `new AdamOptimizer(model.parameters(), adamConfig)` starts from zero moments |
| `Worker.FreshStates` | src/engine/optimizer.ts:24-35 | zero moments are the states a new optimizer starts from |
| `Worker.TrainLoop` | src/worker/training.worker.ts:103-137 | the loop posts one progress per completed step and the end message RunFrom gives, and its states follow the Adam trajectory |
| `Worker.LoopStarts` | src/worker/training.worker.ts:103 | nothing posted, no flag, one state at the first loop head |
| `Worker.LoopNext` | src/worker/training.worker.ts:119-130 | an iteration that was not slow posts its progress and passes its states on |
| `Worker.LoopTimesOut` | src/worker/training.worker.ts:112-117 | a slow iteration ends the loop with its timeout, its loss unposted |
| `Worker.LoopLeaves` | src/worker/training.worker.ts:103-104 | leaving at the loop head completes |
| `Worker.Round` | src/worker/training.worker.ts:104-130 | one turn of the loop either ends it with the right messages or hands on to the next turn |
| `Worker.Iteration` | src/worker/training.worker.ts:106-130 | one training iteration: its loss, its next states and whether it was slow or saw a stop |
| `Worker.GenerateText` | src/worker/training.worker.ts:155 | the text is the tokenizer's decoding of generate's tokens |

## Left out

- Float32 storage is modelled as `real`. Nothing models rounding, overflow to Infinity, or NaN. So no claim is numeric: the agreement of gradCheck's finite differences with the analytical gradients is not proved, nor the initial loss of about ln V, nor a falling loss. `GradCheck.QuadraticCentral` states the exact-arithmetic fact behind gradCheck.
- `Math.exp`, `Math.sqrt` and `Math.log` are uninterpreted functions. The model assumes only their positivity, plus a log law where `GradCheck.ManualLossIsCrossEntropy` states it.
- `Tensor.randn` (Box–Muller over `Math.random`) is not modelled. The initial weights are an arbitrary parameter of the right sizes. The `Math.random` draws of sampling are a parameter `rand`.
- The GPU device probe and the WebGPU kernels are not part of this model. Training never uses them. The backend wrappers only delegate to the CPU kernels, and the React UI and its hooks are not modelled.
- Worker message plumbing is not modelled: `postMessage`, `onmessage` dispatch, `performance.now` and the `setTimeout` yield. Messages are appended to an outbox, step durations are an input function, and a stop request is an input `stopAfter(step)` taken in at the yields every tenth step. A `train` request that arrives while another is training, re-entering through the yield, is not modelled.
- `Worker.Worker.HandleTrain`: requires `req.blockSize > 0` and beta1, beta2 in [0, 1), eps > 0. The source checks neither. With blockSize 0 it trains on an empty window and posts NaN losses; with beta = 1 the bias correction divides by zero. Both have no counterpart over the reals.
- `Worker.Worker.Accept`: the same two requirements as HandleTrain.
- `Worker.Train`: the same two requirements as HandleTrain.
- `Worker.NewModel`: requires `req.blockSize > 0`, as HandleTrain does.
- `Optimizer.AdamOptimizer.constructor`: requires beta1, beta2 in [0, 1), eps > 0 and maxSteps > 0. The source divides by `1 - beta^t`, by `sqrt(vHat) + eps` and by maxSteps, and gives NaN or Infinity outside these ranges.
- `TrainMath.Window`: requires `blockSize > 0` and at least two tokens. With n = 0 the source returns NaN from `trainStep`; for an empty token list `n` is −1 and the loops do not run.
- `TrainStep.TrainStep`: requires what `TrainMath.Window` requires, and at least one layer.
- `Model.MicroGPT.Forward`: the model's operations require nHead > 0 and nEmbd divisible by nHead. The worker's validator enforces both. A `MicroGPT` built directly with a fractional `nEmbd / nHead` is not modelled.
- `Model.MicroGPT.Backward`: requires `nLayer > 0`. The source reads `cache.layers[cache.layers.length - 1]` and throws when there are no layers.
- `CpuKernels.RmsNormOp`: requires a non-empty input. For an empty one the source computes `sqrt(0 / 0 + eps)`, which is NaN.
- `Generation.Generate`: requires `temperature != 0`. The source divides the logits by the temperature unless it is exactly 1.
- `Worker.Worker.HandleGenerate`: requires `temperature != 0`, for the same reason.
- `Worker.GenerateText`: requires `temperature != 0`, for the same reason.
- `Sanitize.SanitizeText`: lengths count Dafny characters. JavaScript's `.length` counts UTF-16 code units, so a text with characters outside the Basic Multilingual Plane is measured shorter here.
- `Worker.ValidateAccepts`: the same character-versus-code-unit difference in the text-length check.
- `VisualizerTokenizer.Tokenizer.Encode`: `text.split('')` splits into UTF-16 code units, and the model splits into characters. The two differ only for characters outside the Basic Multilingual Plane.
- `CharTokenizers.SortedDistinct`: orders characters by code point. JavaScript's default `sort()` compares UTF-16 code units, and the two orders differ between astral characters and U+E000–U+FFFF. `new Set(text)` iterates by code point, which is what the model does.
- `Worker.ConfigOf`: configuration fields are `int` and the Adam fields `real`. JSON numbers in the request may be fractional, and the source's checks would pass a fractional `nLayer` such as 1.5.
- `ModelMath.ParamCountClosedForm`: `computeParamCount`'s default vocabulary size of 50, used when the config has none, is not modelled; the model always passes the vocabulary size.
- `TrainProofs.TrainStepOtherGradients`: states the gradients as the code computes them.
  - Pass 2 keeps only the `dW` of `linearBackward` and discards its `dX` (model.ts:518-529).
  - So the summed cross-position dK[t] and dV[t] never reach position t's residual stream, the lower layers, `wte` or `wpe`. Those gradients are pass 1's alone, as this lemma proves.
  - The comments at model.ts:277-279 and 446-451 suggest the contributions are propagated further. The full backpropagated gradient would need the derivative of the whole forward pass, which this model does not define. The difference is stated here but not proved.
- The error messages' rendered text is not modelled. Errors are a datatype naming the failed check.
- Pure presentation helpers of the UI (loss-chart downsampling and the like) are not modelled.
