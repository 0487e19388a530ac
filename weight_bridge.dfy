/**
 * The bridge from the training engine to the inference visualizer: the
 * engine's flat row-major weights become the visualizer's nested matrices,
 * with the per-head query/key/value matrices cut out of the engine's
 * [nEmbd, nEmbd] projections, and unit gains for the norms (the engine's
 * RMSNorm has no learned weights).
 */
module WeightBridge {
  import opened Numeric
  import Kernels
  import ModelMath
  import Model
  import CharTokenizers
  import VisualizerTokenizer
  import opened VisualizerMath

  // ------------------------------------------------------- flat to nested

  /** Rows start..end-1 of a flat matrix with `cols` columns, nested: each
      one the engine's row of the flat matrix. */
  function Rows(data: Vec, cols: nat, start: nat, end: nat): (r: Matrix)
    requires start <= end && end * cols <= |data|
    ensures IsMatrix(r, end - start, cols)
    decreases end - start
  {
    if start == end then []
    else
      MulMonotone(end - 1, end, cols);
      Rows(data, cols, start, end - 1) + [RowOf(data, cols, end - 1)]
  }

  /** Row i of the nested slice is flat row start + i. */
  lemma {:induction false} RowsAreFlatRows(data: Vec, cols: nat, start: nat, end: nat, i: nat)
    requires start <= end && end * cols <= |data| && i < end - start
    ensures (start + i + 1) * cols <= |data| && Rows(data, cols, start, end)[i] == RowOf(data, cols, start + i)
    decreases end - start
  {
    MulMonotone(end - 1, end, cols);
    if i < end - 1 - start {
      RowsAreFlatRows(data, cols, start, end - 1, i);
    }
  }

  /** Entry (i, c) of the nested slice is data[(start + i) * cols + c]. */
  lemma RowsAt(data: Vec, cols: nat, start: nat, end: nat, i: nat, c: nat)
    requires start <= end && end * cols <= |data| && i < end - start && c < cols
    ensures (start + i) * cols + c < |data|
    ensures Rows(data, cols, start, end)[i][c] == data[(start + i) * cols + c]
  {
    RowsAreFlatRows(data, cols, start, end, i);
  }

  /** `sliceRows(data, cols, startRow, endRow)`: the nested loops pushing
      data[r * cols + c]. */
  method SliceRows(data: Vec, cols: nat, startRow: nat, endRow: nat) returns (result: Matrix)
    requires startRow <= endRow && endRow * cols <= |data|
    ensures result == Rows(data, cols, startRow, endRow)
  {
    result := [];
    for r := startRow to endRow
      invariant result == Rows(data, cols, startRow, r)
    {
      MulMonotone(r, endRow, cols);
      MulMonotone(r + 1, endRow, cols);
      assert (r + 1) * cols == r * cols + cols;
      var row: seq<real> := [];
      for c := 0 to cols
        invariant row == data[r * cols .. r * cols + c]
      {
        row := row + [data[r * cols + c]];
      }
      result := result + [row];
    }
  }

  /** `reshape2D(data, rows, cols)`: all rows of the flat matrix. */
  method Reshape2D(data: Vec, rows: nat, cols: nat) returns (result: Matrix)
    requires rows * cols <= |data|
    ensures result == Rows(data, cols, 0, rows)
  {
    result := SliceRows(data, cols, 0, rows);
  }

  /** On weights cut out of a flat [outDim, inDim] matrix, the visualizer's
      `linear` of one position computes what the engine's `linear` does. */
  lemma LinearAgrees(w: Vec, x: Vec, outDim: nat, inDim: nat)
    requires outDim > 0 && inDim > 0 && |w| == outDim * inDim && |x| == inDim
    ensures LinearShapes([x], Rows(w, inDim, 0, outDim))
    ensures LinearOut([x], Rows(w, inDim, 0, outDim))[0] == Kernels.Linear(w, x, outDim, inDim)
  {
    var rows := Rows(w, inDim, 0, outDim);
    var l := LinearOut([x], rows);
    forall j | 0 <= j < outDim ensures l[0][j] == Kernels.Linear(w, x, outDim, inDim)[j] {
      LinearIsDot([x], rows, 0, j);
      RowsAreFlatRows(w, inDim, 0, outDim, j);
      DotSymmetric(x, rows[j]);
    }
  }

  // ------------------------------------------------------ extractWeights

  /** `new Array(n).fill(1.0)` */
  function Ones(n: nat): (r: Vec)
    ensures |r| == n && forall i :: 0 <= i < n ==> r[i] == 1.0
  {
    seq(n, _ => 1.0)
  }

  lemma HeadRowsFit(c: ModelMath.Config, h: nat)
    requires ModelMath.Supported(c) && h < c.nHead
    ensures h * ModelMath.HeadDim(c) <= (h + 1) * ModelMath.HeadDim(c)
    ensures (h + 1) * ModelMath.HeadDim(c) - h * ModelMath.HeadDim(c) == ModelMath.HeadDim(c)
    ensures (h + 1) * ModelMath.HeadDim(c) * c.nEmbd <= c.nEmbd * c.nEmbd
  {
    var hd := ModelMath.HeadDim(c);
    assert (h + 1) * hd == h * hd + hd;
    MulMonotone(h + 1, c.nHead, hd);
    MulMonotone((h + 1) * hd, c.nEmbd, c.nEmbd);
  }

  /** Head h's query, key and value: rows h * headSize up to (h + 1) *
      headSize of the engine's projections. */
  function BridgedHead(c: ModelMath.Config, W: seq<Vec>, li: nat, h: nat): (hw: HeadWeights)
    requires ModelMath.Supported(c) && ModelMath.Fits(c, W) && li < c.nLayer && h < c.nHead
    ensures HeadShaped(hw, ModelMath.HeadDim(c), c.nEmbd)
  {
    assert ModelMath.LayerFits(c, W, li);
    var hd := ModelMath.HeadDim(c);
    HeadRowsFit(c, h);
    HeadWeights(
      Rows(W[ModelMath.Slot(li, 0)], c.nEmbd, h * hd, (h + 1) * hd),
      Rows(W[ModelMath.Slot(li, 1)], c.nEmbd, h * hd, (h + 1) * hd),
      Rows(W[ModelMath.Slot(li, 2)], c.nEmbd, h * hd, (h + 1) * hd))
  }

  /** Layer li's weights in the visualizer's form. */
  function BridgedBlock(c: ModelMath.Config, W: seq<Vec>, li: nat): (b: BlockWeights)
    requires ModelMath.Supported(c) && ModelMath.Fits(c, W) && li < c.nLayer
    ensures BlockShaped(b, c.nHead, c.nEmbd)
  {
    assert ModelMath.LayerFits(c, W, li);
    var e := c.nEmbd;
    var b := BlockWeights(
      Ones(e), Ones(e),
      Rows(W[ModelMath.Slot(li, 3)], e, 0, e),
      seq(c.nHead, h requires 0 <= h < c.nHead => BridgedHead(c, W, li, h)),
      Rows(W[ModelMath.Slot(li, 4)], e, 0, 4 * e),
      Rows(W[ModelMath.Slot(li, 5)], 4 * e, 0, e));
    assert HeadSize(b) == ModelMath.HeadDim(c);
    b
  }

  /** `extractWeights(model)` as a function of the engine's configuration
      and weight snapshot (wte, wpe, lmHead, then six weights per layer). */
  function Bridged(c: ModelMath.Config, W: seq<Vec>): (w: ModelWeights)
    requires ModelMath.Supported(c) && ModelMath.Fits(c, W)
    ensures |w.blocks| == c.nLayer
    ensures forall li :: 0 <= li < c.nLayer ==> w.blocks[li] == BridgedBlock(c, W, li)
  {
    var e := c.nEmbd;
    ModelWeights(
      Rows(W[0], e, 0, c.vocabSize),
      Rows(W[1], e, 0, c.blockSize),
      Ones(e),
      Rows(W[2], e, 0, c.vocabSize),
      seq(c.nLayer, li requires 0 <= li < c.nLayer => BridgedBlock(c, W, li)))
  }

  /** Row d of head h's query matrix is row h * headSize + d of the engine's
      attnWq (and likewise for keys and values): the heads partition the
      engine's projection rows in order. */
  lemma HeadSlices(c: ModelMath.Config, W: seq<Vec>, li: nat, h: nat, d: nat)
    requires ModelMath.Supported(c) && ModelMath.Fits(c, W) && li < c.nLayer
    requires h < c.nHead && d < ModelMath.HeadDim(c)
    ensures h * ModelMath.HeadDim(c) + d < c.nEmbd
    ensures (h * ModelMath.HeadDim(c) + d + 1) * c.nEmbd <= |W[ModelMath.Slot(li, 0)]|
    ensures Bridged(c, W).blocks[li].heads[h].query[d]
         == RowOf(W[ModelMath.Slot(li, 0)], c.nEmbd, h * ModelMath.HeadDim(c) + d)
  {
    var hd := ModelMath.HeadDim(c);
    assert ModelMath.LayerFits(c, W, li);
    HeadRowsFit(c, h);
    RowsAreFlatRows(W[ModelMath.Slot(li, 0)], c.nEmbd, h * hd, (h + 1) * hd, d);
    MulBelow(h, c.nHead, hd, d);
  }

  /** The engine's weight tensors read through the model object, then
      bridged. */
  method ExtractWeights(model: Model.MicroGPT) returns (w: ModelWeights)
    requires model.Valid() && ModelMath.Supported(model.config)
    ensures w == Bridged(model.config, model.Weights())
  {
    ghost var buffers := model.WeightBuffers();
    assert forall a :: a in buffers ==> allocated(a);
    w := BridgeWeights(model.config, model.Weights());
  }

  /** The body of extractWeights on the weights it reads. */
  method BridgeWeights(c: ModelMath.Config, W: seq<Vec>) returns (w: ModelWeights)
    requires ModelMath.Supported(c) && ModelMath.Fits(c, W)
    ensures w == Bridged(c, W)
  {
    var e := c.nEmbd;
    var tokenEmbedding := Reshape2D(W[0], c.vocabSize, e);
    var positionEmbedding := Reshape2D(W[1], c.blockSize, e);
    var lmHead := Reshape2D(W[2], c.vocabSize, e);
    var lnF := Ones(e);
    var blocks: seq<BlockWeights> := [];
    for li := 0 to c.nLayer
      invariant |blocks| == li && forall j :: 0 <= j < li ==> blocks[j] == BridgedBlock(c, W, j)
    {
      var b := ExtractBlock(c, W, li);
      blocks := blocks + [b];
    }
    w := ModelWeights(tokenEmbedding, positionEmbedding, lnF, lmHead, blocks);
  }

  /** One layer of `model.layers.map(...)`, with its heads loop. */
  method ExtractBlock(c: ModelMath.Config, W: seq<Vec>, li: nat) returns (b: BlockWeights)
    requires ModelMath.Supported(c) && ModelMath.Fits(c, W) && li < c.nLayer
    ensures b == BridgedBlock(c, W, li)
  {
    assert ModelMath.LayerFits(c, W, li);
    var e := c.nEmbd;
    var headSize := ModelMath.HeadDim(c);
    var projWeight := Reshape2D(W[ModelMath.Slot(li, 3)], e, e);
    var heads: seq<HeadWeights> := [];
    for h := 0 to c.nHead
      invariant |heads| == h && forall j :: 0 <= j < h ==> heads[j] == BridgedHead(c, W, li, j)
    {
      HeadRowsFit(c, h);
      var startRow, endRow := h * headSize, (h + 1) * headSize;
      var query := SliceRows(W[ModelMath.Slot(li, 0)], e, startRow, endRow);
      var key := SliceRows(W[ModelMath.Slot(li, 1)], e, startRow, endRow);
      var value := SliceRows(W[ModelMath.Slot(li, 2)], e, startRow, endRow);
      heads := heads + [HeadWeights(query, key, value)];
    }
    var net0 := Reshape2D(W[ModelMath.Slot(li, 4)], 4 * e, e);
    var net2 := Reshape2D(W[ModelMath.Slot(li, 5)], e, 4 * e);
    b := BlockWeights(Ones(e), Ones(e), projWeight, heads, net0, net2);
  }

  // --------------------------------------------------- extractModelConfig

  /** The visualizer's `chars`: entry i is `tokenizer.decode([i])`, which is
      the i-th vocabulary character, and '' for the BOS index. */
  function ExtractedChars(tok: CharTokenizers.CharTokenizer): (chars: seq<string>)
    requires tok.Valid()
    ensures |chars| == tok.VocabSize()
    ensures forall i :: 0 <= i < tok.bosToken ==> chars[i] == [tok.idxToChar[i]]
    ensures chars[tok.bosToken] == ""
  {
    seq(tok.VocabSize(), i requires 0 <= i < tok.VocabSize() => tok.Decode([i]))
  }

  /** `extractModelConfig(config, tokenizer)`. */
  method ExtractModelConfig(c: ModelMath.Config, tok: CharTokenizers.CharTokenizer) returns (mc: ModelConfig)
    requires tok.Valid()
    ensures mc == ModelConfig(c.nEmbd, c.nHead, c.nLayer, c.vocabSize, c.blockSize, ExtractedChars(tok))
  {
    var chars: seq<string> := [];
    for i := 0 to tok.VocabSize()
      invariant |chars| == i && forall j :: 0 <= j < i ==> chars[j] == tok.Decode([j])
    {
      var decoded := tok.Decode([i]);
      chars := chars + [decoded];
    }
    mc := ModelConfig(c.nEmbd, c.nHead, c.nLayer, c.vocabSize, c.blockSize, chars);
  }

  /** The visualizer's tokenizer built from the exported chars agrees with
      the engine's tokenizer: every vocabulary character gets its engine
      index, and every index up to BOS decodes to the engine's decoding. */
  lemma TokenizersAgree(tok: CharTokenizers.CharTokenizer, vt: VisualizerTokenizer.Tokenizer)
    requires tok.Valid() && vt.Valid() && vt.chars == ExtractedChars(tok)
    ensures forall x :: x in tok.idxToChar ==> vt.IdOf(x) == tok.charToIdx[x]
    ensures forall i :: 0 <= i <= tok.bosToken ==> vt.EntryOf(i) == tok.Decode([i])
  {
    forall x | x in tok.idxToChar ensures vt.IdOf(x) == tok.charToIdx[x] {
      var j :| 0 <= j < |tok.idxToChar| && tok.idxToChar[j] == x;
      assert vt.chars[j] == [x];
      var k := vt.stoi[[x]];
      assert VisualizerTokenizer.LastIndexOf(vt.chars, [x], k, |vt.chars|);
      assert k < tok.bosToken;
      assert [tok.idxToChar[k]] == [x];
      assert k == j;
    }
  }

  /** The bridge's output is something the visualizer can run: for the
      exported configuration, every non-empty sequence of in-vocabulary ids
      that fits the context meets runInference's precondition. */
  lemma BridgeRuns(c: ModelMath.Config, W: seq<Vec>, chars: seq<string>, ids: seq<int>)
    requires ModelMath.Supported(c) && ModelMath.Fits(c, W)
    requires 0 < |ids| <= c.blockSize && forall i :: 0 <= i < |ids| ==> 0 <= ids[i] < c.vocabSize
    ensures InferencePre(ids, ModelConfig(c.nEmbd, c.nHead, c.nLayer, c.vocabSize, c.blockSize, chars), Bridged(c, W))
  {
  }

  /** The bridged norms have unit gains, so on the bridged weights the
      visualizer's rmsNorm is the engine's rmsNorm. */
  lemma BridgedNormsAreEngineNorms(m: MathLib, c: ModelMath.Config, W: seq<Vec>, li: nat, x: Matrix, i: nat)
    requires Lawful(m) && ModelMath.Supported(c) && ModelMath.Fits(c, W) && li < c.nLayer
    requires IsMatrix(x, |x|, c.nEmbd) && i < |x|
    ensures RmsNormM(m, x, Bridged(c, W).blocks[li].ln1)[i] == Kernels.RmsNorm(m, x[i], Kernels.RmsEps)
    ensures RmsNormM(m, x, Bridged(c, W).lnF)[i] == Kernels.RmsNorm(m, x[i], Kernels.RmsEps)
  {
    RmsNormUnitGains(m, x, Ones(c.nEmbd), i);
  }
}
