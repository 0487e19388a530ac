/**
 * The training worker: the train request's validation, the message
 * sequence handleTrain posts while it trains step by step, the stop flag,
 * and handleGenerate's guard. Posted messages are appended to an outbox.
 * The duration of each step and the stop requests that arrive during the
 * yield after a step are inputs.
 */
module Worker {
  import opened Numeric
  import opened ModelMath
  import opened TrainMath
  import opened Model
  import opened CharTokenizers
  import opened Tensors
  import Optimizer
  import TrainStep
  import Generation
  import Sanitize

  /** `SECURITY_LIMITS.maxStepDurationMs` */
  const MaxStepDurationMs: real := 30000.0

  /** A `train` request: the text, the fields of modelConfig and adamConfig. */
  datatype TrainRequest = TrainRequest(text: string, nLayer: int, nHead: int, nEmbd: int, blockSize: int,
                                       adam: Optimizer.AdamConfig)

  /** Why validateTrainInput throws (the rendered messages are not modelled). */
  datatype InputError =
    | TextTooLong(length: nat)
    | LayersOutOfRange(nLayer: int)
    | HeadsOutOfRange(nHead: int)
    | EmbdOutOfRange(nEmbd: int)
    | NotDivisible(nEmbd: int, nHead: int)
    | LrOutOfRange(lr: real)
    | StepsOutOfRange(maxSteps: real)

  datatype ErrorKind = BadInput(reason: InputError) | NotTrained

  /** The messages the worker posts. */
  datatype Message =
    | Ready(paramCount: nat, vocabSize: nat)
    | Progress(step: nat, loss: real, totalSteps: real)
    | Complete(finalLoss: real)
    | Timeout(step: nat)
    | Error(error: ErrorKind)
    | Generated(text: string)

  /** `validateTrainInput`: the first check that fails, in the source's
      order; None when the request is accepted. When `%` is reached both
      operands are positive, so JavaScript's remainder and Dafny's agree. */
  function ValidateTrainInput(req: TrainRequest): Sanitize.Option<InputError>
  {
    if |req.text| > Sanitize.MaxInputTextLength then Sanitize.Some(TextTooLong(|req.text|))
    else if req.nLayer < 1 || req.nLayer > 8 then Sanitize.Some(LayersOutOfRange(req.nLayer))
    else if req.nHead < 1 || req.nHead > 8 then Sanitize.Some(HeadsOutOfRange(req.nHead))
    else if req.nEmbd < 16 || req.nEmbd > 256 then Sanitize.Some(EmbdOutOfRange(req.nEmbd))
    else if req.nEmbd % req.nHead != 0 then Sanitize.Some(NotDivisible(req.nEmbd, req.nHead))
    else if req.adam.lr <= 0.0 || req.adam.lr > 0.05 then Sanitize.Some(LrOutOfRange(req.adam.lr))
    else if req.adam.maxSteps < 1.0 || req.adam.maxSteps > 2000.0 then Sanitize.Some(StepsOutOfRange(req.adam.maxSteps))
    else Sanitize.None
  }

  /** The accepted requests, stated as ranges. */
  predicate InputOk(req: TrainRequest)
  {
    && |req.text| <= Sanitize.MaxInputTextLength
    && 1 <= req.nLayer <= 8 && 1 <= req.nHead <= 8 && 16 <= req.nEmbd <= 256
    && req.nEmbd % req.nHead == 0
    && 0.0 < req.adam.lr <= 0.05 && 1.0 <= req.adam.maxSteps <= 2000.0
  }

  /** A request passes validation exactly when every range holds; blockSize,
      the betas and eps are not looked at. */
  lemma ValidateAccepts(req: TrainRequest)
    ensures ValidateTrainInput(req).None? <==> InputOk(req)
    ensures forall b: int, a: Optimizer.AdamConfig :: a.lr == req.adam.lr && a.maxSteps == req.adam.maxSteps ==>
      ValidateTrainInput(req.(blockSize := b, adam := a)) == ValidateTrainInput(req)
  {
  }

  /** The configuration handleTrain builds: the request's sizes with the
      tokenizer's vocabulary size. */
  function ConfigOf(req: TrainRequest, vocabSize: nat): (c: Config)
    requires InputOk(req) && req.blockSize >= 0
    ensures Supported(c) && c.nLayer > 0 && c.vocabSize == vocabSize
  {
    Config(vocabSize, req.blockSize as nat, req.nLayer as nat, req.nHead as nat, req.nEmbd as nat)
  }

  /** The number of loop iterations `for (step = 0; step < maxSteps; step++)`
      allows: the least whole number not below maxSteps (0 when maxSteps is
      not positive). */
  function StepLimit(maxSteps: real): nat
  {
    if maxSteps <= 0.0 then 0
    else if maxSteps.Floor as real == maxSteps then maxSteps.Floor
    else maxSteps.Floor + 1
  }

  /** The loop guard `step < maxSteps` is `step < StepLimit(maxSteps)`. */
  lemma StepLimitGuard(maxSteps: real, step: nat)
    ensures step < StepLimit(maxSteps) <==> (step as real) < maxSteps
  {
    if maxSteps > 0.0 {
      var f := maxSteps.Floor;
      assert f as real <= maxSteps < f as real + 1.0;
      if (step as real) < maxSteps {
        assert step < f + 1;
      }
    }
  }

  /** An accepted request runs at least one and at most 2000 iterations. */
  lemma StepLimitBounds(req: TrainRequest)
    requires InputOk(req)
    ensures 1 <= StepLimit(req.adam.maxSteps) <= 2000
  {
    StepLimitGuard(req.adam.maxSteps, 0);
    StepLimitGuard(req.adam.maxSteps, 2000);
  }

  /** `step % 10 === 0`: the loop yields after this step. */
  function YieldsAfter(step: nat): bool
  {
    if step < 10 then step == 0 else YieldsAfter(step - 10)
  }

  lemma {:induction false} YieldsEveryTenth(step: nat)
    ensures YieldsAfter(step) <==> step % 10 == 0
  {
    if step >= 10 {
      YieldsEveryTenth(step - 10);
    }
  }

  /** Whether stopRequested is set at the head of iteration `step`: a stop
      is only taken in during the yield after an iteration k with
      `k % 10 == 0`; stopAfter(k) says one arrived then. */
  function StopSeen(stopAfter: nat -> bool, step: nat): bool
  {
    step > 0 && (StopSeen(stopAfter, step - 1) || (YieldsAfter(step - 1) && stopAfter(step - 1)))
  }

  /** The flag is set exactly when a stop arrived at some earlier yield. */
  lemma {:induction false} StopSeenArrived(stopAfter: nat -> bool, step: nat)
    ensures StopSeen(stopAfter, step) <==> exists k: nat :: k < step && k % 10 == 0 && stopAfter(k)
  {
    if step > 0 {
      StopSeenArrived(stopAfter, step - 1);
      YieldsEveryTenth(step - 1);
      if StopSeen(stopAfter, step) && !StopSeen(stopAfter, step - 1) {
        var k: nat := step - 1;
        assert k < step && k % 10 == 0 && stopAfter(k);
      }
      if exists k: nat :: k < step && k % 10 == 0 && stopAfter(k) {
        var k: nat :| k < step && k % 10 == 0 && stopAfter(k);
        if k < step - 1 {
          assert StopSeen(stopAfter, step - 1);
        }
      }
    }
  }

  /** How the training loop ends, with the number of completed steps. */
  datatype LoopEnd = Finished(steps: nat) | Stopped(steps: nat) | TimedOut(steps: nat)

  /** The loop from iteration `step` on: the guard, then the stop flag,
      then the step's duration decide whether it goes on. */
  function RunFrom(limit: nat, duration: nat -> real, stopAfter: nat -> bool, step: nat): LoopEnd
    decreases limit - step
  {
    if step >= limit then Finished(step)
    else if StopSeen(stopAfter, step) then Stopped(step)
    else if duration(step) > MaxStepDurationMs then TimedOut(step)
    else RunFrom(limit, duration, stopAfter, step + 1)
  }

  /** The number of training iterations a loop that ends with e runs:
      a timed-out iteration trains before its duration is looked at. */
  function Iterations(e: LoopEnd): nat
  {
    if e.TimedOut? then e.steps + 1 else e.steps
  }

  /** The loop goes on past a step that saw no stop and was not slow. */
  lemma RunFromNext(limit: nat, duration: nat -> real, stopAfter: nat -> bool, step: nat)
    requires step < limit && !StopSeen(stopAfter, step) && duration(step) <= MaxStepDurationMs
    ensures RunFrom(limit, duration, stopAfter, step) == RunFrom(limit, duration, stopAfter, step + 1)
  {
  }

  /** A slow step ends the loop with its timeout. */
  lemma RunFromTimedOut(limit: nat, duration: nat -> real, stopAfter: nat -> bool, step: nat)
    requires step < limit && !StopSeen(stopAfter, step) && duration(step) > MaxStepDurationMs
    ensures RunFrom(limit, duration, stopAfter, step) == TimedOut(step)
    ensures EndMessage(RunFrom(limit, duration, stopAfter, step)) == Timeout(step + 1)
  {
  }

  /** Leaving the loop at its head, by the guard or by the flag, completes. */
  lemma RunFromLeft(limit: nat, duration: nat -> real, stopAfter: nat -> bool, step: nat)
    requires step >= limit || StopSeen(stopAfter, step)
    ensures RunFrom(limit, duration, stopAfter, step).steps == step
    ensures EndMessage(RunFrom(limit, duration, stopAfter, step)) == Complete(0.0)
  {
  }

  /** The flag at the next loop head: set already, or a stop arrived in
      this step's yield. */
  lemma StopSeenNext(stopAfter: nat -> bool, step: nat)
    ensures StopSeen(stopAfter, step + 1) == (StopSeen(stopAfter, step) || (YieldsAfter(step) && stopAfter(step)))
  {
  }

  /** Every iteration run to the end saw no stop and took no longer than
      the limit; the loop stops at the first head where the flag is set,
      times out at the first slow step, or runs all `limit` iterations. */
  lemma {:induction false} RunFromShape(limit: nat, duration: nat -> real, stopAfter: nat -> bool, step: nat)
    requires step <= limit
    ensures var e := RunFrom(limit, duration, stopAfter, step);
      && step <= e.steps <= limit
      && (forall j :: step <= j < e.steps ==> !StopSeen(stopAfter, j) && duration(j) <= MaxStepDurationMs)
      && (e.Finished? ==> e.steps == limit)
      && (e.Stopped? ==> e.steps < limit && StopSeen(stopAfter, e.steps))
      && (e.TimedOut? ==> e.steps < limit && !StopSeen(stopAfter, e.steps) && duration(e.steps) > MaxStepDurationMs)
    decreases limit - step
  {
    if step < limit && !StopSeen(stopAfter, step) && duration(step) <= MaxStepDurationMs {
      RunFromShape(limit, duration, stopAfter, step + 1);
    }
  }

  /** The progress messages of the completed steps: step i + 1 carries
      the i-th loss, and every one carries maxSteps as totalSteps. */
  function Progresses(losses: seq<real>, totalSteps: real): (ps: seq<Message>)
    ensures |ps| == |losses|
    ensures forall i :: 0 <= i < |losses| ==> ps[i] == Progress(i + 1, losses[i], totalSteps)
  {
    if losses == [] then []
    else Progresses(losses[..|losses| - 1], totalSteps) + [Progress(|losses|, losses[|losses| - 1], totalSteps)]
  }

  /** One more loss appends one progress message. */
  lemma ProgressesSnoc(losses: seq<real>, loss: real, totalSteps: real)
    ensures Progresses(losses + [loss], totalSteps) == Progresses(losses, totalSteps) + [Progress(|losses| + 1, loss, totalSteps)]
  {
    assert (losses + [loss])[..|losses|] == losses;
  }

  lemma AppendAssoc<T>(a: seq<T>, b: seq<T>, c: seq<T>)
    ensures (a + b) + c == a + (b + c)
  {
  }

  /** The message that ends a train: timeout for the step that ran too
      long, complete otherwise (a stopped loop completes too). */
  function EndMessage(e: LoopEnd): Message
  {
    if e.TimedOut? then Timeout(e.steps + 1) else Complete(0.0)
  }

  /** Everything an accepted train request posts. */
  function TrainMessages(paramCount: nat, vocabSize: nat, totalSteps: real, e: LoopEnd, losses: seq<real>): seq<Message>
    requires |losses| == e.steps
  {
    [Ready(paramCount, vocabSize)] + Progresses(losses, totalSteps) + [EndMessage(e)]
  }

  /** Ready comes first and only once, the progress steps are 1 .. k in
      order, and the last message is the only timeout or complete; no
      error is posted. */
  lemma TrainMessagesShape(paramCount: nat, vocabSize: nat, totalSteps: real, e: LoopEnd, losses: seq<real>)
    requires |losses| == e.steps
    ensures var msgs := TrainMessages(paramCount, vocabSize, totalSteps, e, losses);
      && |msgs| == e.steps + 2
      && msgs[0] == Ready(paramCount, vocabSize)
      && (forall i :: 1 <= i <= e.steps ==> msgs[i] == Progress(i, losses[i - 1], totalSteps))
      && (e.TimedOut? <==> msgs[|msgs| - 1] == Timeout(e.steps + 1))
      && (!e.TimedOut? <==> msgs[|msgs| - 1] == Complete(0.0))
      && (forall i :: 0 <= i < |msgs| ==> !msgs[i].Error? && (msgs[i].Ready? <==> i == 0))
      && (forall i :: 0 <= i < |msgs| ==> ((msgs[i].Timeout? || msgs[i].Complete?) <==> i == |msgs| - 1))
  {
    var ps := Progresses(losses, totalSteps);
    var msgs := TrainMessages(paramCount, vocabSize, totalSteps, e, losses);
    forall i | 1 <= i <= e.steps ensures msgs[i] == ps[i - 1] && msgs[i].Progress? {
    }
  }

  /** The document's tokens are all inside the vocabulary. */
  lemma DocTokensFit(tok: CharTokenizer, c: Config, text: string)
    requires tok.Valid() && c.vocabSize == tok.VocabSize()
    ensures TokensFit(c, [tok.bosToken] + tok.Encoding(text) + [tok.bosToken])
  {
    tok.EncodingBounds(text);
    var enc := tok.Encoding(text);
    var tokens := [tok.bosToken] + enc + [tok.bosToken];
    forall i | 0 <= i < |tokens| ensures tokens[i] < c.vocabSize {
      if 0 < i < |tokens| - 1 {
        assert tokens[i] == enc[i - 1] && enc[i - 1] in enc;
      }
    }
  }

  /** The model and the optimizer are ready for another iteration on
      tokens. */
  ghost predicate Training(m: MathLib, model: MicroGPT, opt: Optimizer.AdamOptimizer, tokens: seq<nat>)
    reads model.WeightBuffers(), opt.Moments()
  {
    model.Valid() && opt.Valid() && opt.Fits(model.Parameters()) && TrainPre(m, model.config, model.Weights(), tokens)
  }

  /** One training iteration: `model.zeroGrad()`, `trainStep(model, tokens)`,
      `optimizer.step(model.parameters())`. The loss is that of the weights
      the iteration started from, and the weights and moments of every
      parameter become what Adam's next step makes of them with the
      gradients trainStep computes from those weights. */
  method TrainOnce(m: MathLib, model: MicroGPT, opt: Optimizer.AdamOptimizer, tokens: seq<nat>,
                   ghost W: seq<Vec>, ghost M: seq<Vec>, ghost V: seq<Vec>, ghost t: nat) returns (loss: real)
    requires Training(m, model, opt, tokens) && model.Weights() == W && MomentsAre(opt, M, V) && opt.t == t
    modifies model.GradBuffers(), model.WeightBuffers(), opt`t, opt.Moments()
    ensures Training(m, model, opt, tokens) && opt.t == t + 1
    ensures loss == TrainLoss(m, model.config, W, tokens)
    ensures |W| == |M| == |V|
    ensures AdamNext(m, opt.config, t, Zip(W, M, V), TrainGrads(m, model.config, W, tokens),
                     opt.States(model.Parameters()))
  {
    MomentsApart(model, opt);
    MomentsAllocated(opt);
    loss := Gradients(m, model, opt, tokens, M, V);
    Update(m, model, opt, tokens, W, M, V);
  }

  /** `optimizer.step(model.parameters())` once the gradients G are in
      place: every parameter's weights and moments become what Adam's
      next step makes of them. */
  method Update(m: MathLib, model: MicroGPT, opt: Optimizer.AdamOptimizer, tokens: seq<nat>,
                ghost W: seq<Vec>, ghost M: seq<Vec>, ghost V: seq<Vec>)
    requires Training(m, model, opt, tokens) && model.Weights() == W && MomentsAre(opt, M, V)
    requires model.Grads() == TrainGrads(m, model.config, W, tokens)
    modifies model.WeightBuffers(), opt`t, opt.Moments()
    ensures Training(m, model, opt, tokens) && opt.t == old(opt.t) + 1 && |W| == |M| == |V|
    ensures AdamNext(m, opt.config, old(opt.t), Zip(W, M, V), TrainGrads(m, model.config, W, tokens),
                     opt.States(model.Parameters()))
  {
    ghost var G := TrainGrads(m, model.config, W, tokens);
    StepInputs(m, model, opt, tokens, W, M, V, G);
    ghost var T := Optimizer.AdamAll(m, opt.config, opt.t + 1, Zip(W, M, V), G);
    StepTargets(m, model, opt, tokens, W, M, V, G, T);
    StepTo(m, model, opt, tokens, T);
  }

  /** `optimizer.step(model.parameters())` when T is what it makes of
      every parameter. */
  method StepTo(m: MathLib, model: MicroGPT, opt: Optimizer.AdamOptimizer, tokens: seq<nat>,
                ghost T: seq<Optimizer.ParamState>)
    requires Training(m, model, opt, tokens) && |T| == |model.Parameters()|
    requires forall k :: 0 <= k < |model.Parameters()| ==>
      T[k] == Optimizer.StepTarget(m, opt.config, opt.t + 1, Optimizer.LrAt(opt.config, opt.t + 1),
                                   model.Parameters()[k], opt.StateOf(model.Parameters()[k], k))
    modifies model.WeightBuffers(), opt`t, opt.Moments()
    ensures Training(m, model, opt, tokens) && opt.t == old(opt.t) + 1
    ensures opt.States(model.Parameters()) == T
  {
    opt.Step(m, model.Parameters());
    StatesAre(opt, model.Parameters(), T);
  }

  lemma StepInputsFit(c: Config, S: seq<Optimizer.ParamState>, G: seq<Vec>)
    requires Sized(c, G) && |S| == NumParams(c.nLayer)
    requires forall k :: 0 <= k < |S| ==> Optimizer.StateFits(S[k]) && |S[k].data| == ParamSize(c, k)
    ensures |G| == |S| && forall k :: 0 <= k < |S| ==> Optimizer.StateFits(S[k]) && |G[k]| >= |S[k].data|
  {
  }

  /** The optimizer's view of every parameter fits the parameter and the
      gradient the model has for it. */
  lemma StatesFit(model: MicroGPT, opt: Optimizer.AdamOptimizer)
    requires model.Valid() && opt.Valid() && opt.Fits(model.Parameters())
    ensures var S := opt.States(model.Parameters());
      && |S| == NumParams(model.config.nLayer)
      && forall k :: 0 <= k < |S| ==> Optimizer.StateFits(S[k]) && |S[k].data| == ParamSize(model.config, k)
  {
    var ps := model.Parameters();
    var S := opt.States(ps);
    forall k | 0 <= k < |S| ensures Optimizer.StateFits(S[k]) && |S[k].data| == ParamSize(model.config, k) {
      assert ParamReady(model.config, ps[k], k);
      assert Optimizer.NonNegative(opt.v[k][..]);
    }
  }

  /** With trainStep's gradients in place, T is what step sets every
      parameter to. */
  lemma StepTargets(m: MathLib, model: MicroGPT, opt: Optimizer.AdamOptimizer, tokens: seq<nat>,
                    W: seq<Vec>, M: seq<Vec>, V: seq<Vec>, G: seq<Vec>, T: seq<Optimizer.ParamState>)
    requires Training(m, model, opt, tokens) && model.Weights() == W && MomentsAre(opt, M, V)
    requires model.Grads() == G && |W| == |M| == |V| && AdamNext(m, opt.config, opt.t, Zip(W, M, V), G, T)
    ensures |T| == |model.Parameters()|
    ensures forall k :: 0 <= k < |model.Parameters()| ==>
      T[k] == Optimizer.StepTarget(m, opt.config, opt.t + 1, Optimizer.LrAt(opt.config, opt.t + 1),
                                   model.Parameters()[k], opt.StateOf(model.Parameters()[k], k))
  {
    StatesOf(model, opt, M, V);
    var ps := model.Parameters();
    forall k | 0 <= k < |ps|
      ensures T[k] == Optimizer.StepTarget(m, opt.config, opt.t + 1, Optimizer.LrAt(opt.config, opt.t + 1),
                                           ps[k], opt.StateOf(ps[k], k))
    {
      assert ParamReady(model.config, ps[k], k);
      assert model.Grads()[k] == ps[k].GradData();
    }
  }

  /** Adam's step t + 1 applies to the states S and the gradients G. */
  ghost predicate AdamReady(m: MathLib, cfg: Optimizer.AdamConfig, S: seq<Optimizer.ParamState>, G: seq<Vec>)
  {
    && Lawful(m) && Optimizer.Sound(cfg) && |G| == |S|
    && forall k :: 0 <= k < |S| ==> Optimizer.StateFits(S[k]) && |G[k]| >= |S[k].data|
  }

  /** T is what Adam's step t + 1 makes of the states S with the
      gradients G. */
  ghost predicate AdamNext(m: MathLib, cfg: Optimizer.AdamConfig, t: nat, S: seq<Optimizer.ParamState>,
                           G: seq<Vec>, T: seq<Optimizer.ParamState>)
  {
    AdamReady(m, cfg, S, G) && T == Optimizer.AdamAll(m, cfg, t + 1, S, G)
  }

  /** The states of a training model and trainStep's gradients are ready
      for Adam's next step. */
  lemma StepInputs(m: MathLib, model: MicroGPT, opt: Optimizer.AdamOptimizer, tokens: seq<nat>,
                   W: seq<Vec>, M: seq<Vec>, V: seq<Vec>, G: seq<Vec>)
    requires Training(m, model, opt, tokens) && model.Weights() == W && MomentsAre(opt, M, V)
    requires G == TrainGrads(m, model.config, W, tokens)
    ensures |W| == |M| == |V| && AdamReady(m, opt.config, Zip(W, M, V), G)
  {
    StatesOf(model, opt, M, V);
    StatesFit(model, opt);
    StepInputsFit(model.config, Zip(W, M, V), G);
  }

  /** States that match T one by one are T. */
  lemma StatesAre(opt: Optimizer.AdamOptimizer, ps: seq<Tensor>, T: seq<Optimizer.ParamState>)
    requires opt.Fits(ps) && |T| == |ps|
    requires forall k :: 0 <= k < |ps| ==> opt.StateOf(ps[k], k) == T[k]
    ensures opt.States(ps) == T
  {
  }

  /** `model.zeroGrad()` then `trainStep(model, tokens)`: only the
      gradients change, to trainStep's. */
  method Gradients(m: MathLib, model: MicroGPT, ghost opt: Optimizer.AdamOptimizer, tokens: seq<nat>,
                   ghost M: seq<Vec>, ghost V: seq<Vec>) returns (loss: real)
    requires model.Valid() && TrainPre(m, model.config, model.Weights(), tokens)
    requires opt.Fits(model.Parameters()) && MomentsAre(opt, M, V)
    modifies model.GradBuffers()
    ensures model.Valid() && model.Weights() == old(model.Weights())
    ensures MomentsAre(opt, M, V) && opt.t == old(opt.t)
    ensures loss == TrainLoss(m, model.config, model.Weights(), tokens)
    ensures model.Grads() == TrainGrads(m, model.config, model.Weights(), tokens)
  {
    MomentsOutside(model, opt);
    model.ZeroGrad();
    loss := TrainStep.TrainStep(m, model, tokens);
    forall k | 0 <= k < |opt.m| ensures opt.m[k][..] == M[k] && opt.v[k][..] == V[k] {
      assert unchanged(opt.m[k], opt.v[k]);
    }
  }

  /** The moment buffers exist in the current heap. */
  lemma MomentsAllocated(opt: Optimizer.AdamOptimizer)
    ensures forall a :: a in opt.Moments() ==> allocated(a)
  {
    forall a | a in opt.Moments() ensures allocated(a) {
      if a in set i | 0 <= i < |opt.m| :: opt.m[i] {
        var i :| 0 <= i < |opt.m| && a == opt.m[i];
      } else {
        var i :| 0 <= i < |opt.v| && a == opt.v[i];
      }
    }
  }

  /** No gradient buffer of the model is a moment buffer or a weight
      buffer. */
  lemma MomentsApart(model: MicroGPT, opt: Optimizer.AdamOptimizer)
    requires model.Valid() && opt.Fits(model.Parameters())
    ensures (opt.Moments() + Optimizer.WeightBuffers(model.Parameters())) !! model.GradBuffers()
  {
    var ps := model.Parameters();
    forall a | a in model.GradBuffers()
      ensures a !in opt.Moments() && a !in Optimizer.WeightBuffers(ps)
    {
      var k :| 0 <= k < |ps| && ps[k].grad != null && a == ps[k].grad.buffer;
      assert forall j :: 0 <= j < |ps| ==> a != opt.m[j] && a != opt.v[j] && a != ps[j].buffer;
    }
  }

  /** The first and the second moments, one vector per parameter. */
  ghost function FirstMoments(opt: Optimizer.AdamOptimizer): (M: seq<Vec>)
    reads opt.Moments()
    ensures |M| == |opt.m| && forall k :: 0 <= k < |opt.m| ==> M[k] == opt.m[k][..]
  {
    seq(|opt.m|, k requires 0 <= k < |opt.m| reads opt.Moments() => opt.m[k][..])
  }

  ghost function SecondMoments(opt: Optimizer.AdamOptimizer): (V: seq<Vec>)
    reads opt.Moments()
    ensures |V| == |opt.v| && forall k :: 0 <= k < |opt.v| ==> V[k] == opt.v[k][..]
  {
    seq(|opt.v|, k requires 0 <= k < |opt.v| reads opt.Moments() => opt.v[k][..])
  }

  /** The moment buffers hold M and V. */
  ghost predicate MomentsAre(opt: Optimizer.AdamOptimizer, M: seq<Vec>, V: seq<Vec>)
    reads opt.Moments()
  {
    && |M| == |opt.m| && |V| == |opt.v| == |opt.m|
    && (forall k :: 0 <= k < |opt.m| ==> opt.m[k][..] == M[k])
    && (forall k :: 0 <= k < |opt.m| ==> opt.v[k][..] == V[k])
  }

  /** The parameters' states as values: the weights and the two moments. */
  ghost function Zip(W: seq<Vec>, M: seq<Vec>, V: seq<Vec>): (S: seq<Optimizer.ParamState>)
    requires |W| == |M| == |V|
    ensures |S| == |W| && forall k :: 0 <= k < |W| ==> S[k] == Optimizer.ParamState(W[k], M[k], V[k])
  {
    seq(|W|, k requires 0 <= k < |W| => Optimizer.ParamState(W[k], M[k], V[k]))
  }

  /** The weights of states S. */
  ghost function Datas(S: seq<Optimizer.ParamState>): (W: seq<Vec>)
    ensures |W| == |S| && forall k :: 0 <= k < |S| ==> W[k] == S[k].data
  {
    seq(|S|, k requires 0 <= k < |S| => S[k].data)
  }

  /** The states a new optimizer gives weights W: both moments zero. */
  ghost function Start(W: seq<Vec>): (S: seq<Optimizer.ParamState>)
    ensures Datas(S) == W
    ensures |S| == |W| && forall k :: 0 <= k < |W| ==> S[k].m == S[k].v == Zeros(|W[k]|)
  {
    seq(|W|, k requires 0 <= k < |W| => Optimizer.ParamState(W[k], Zeros(|W[k]|), Zeros(|W[k]|)))
  }

  /** S1 is what a training iteration makes of the states S0: trainStep's
      gradients at the weights of S0, then Adam's step t + 1. */
  ghost predicate StepsTo(m: MathLib, c: Config, cfg: Optimizer.AdamConfig, t: nat, tokens: seq<nat>,
                          S0: seq<Optimizer.ParamState>, S1: seq<Optimizer.ParamState>)
  {
    TrainPre(m, c, Datas(S0), tokens) && AdamNext(m, cfg, t, S0, TrainGrads(m, c, Datas(S0), tokens), S1)
  }

  /** Every element of xs after the first is related by R to the one
      before, the k-th pair with the count t0 + k. */
  ghost predicate Chain<T>(R: (nat, T, T) -> bool, t0: nat, xs: seq<T>)
  {
    forall k :: 0 <= k < |xs| - 1 ==> Linked(R, t0, xs, k)
  }

  /** Element k + 1 of xs is related by R to element k, with the count t0 + k. */
  ghost predicate Linked<T>(R: (nat, T, T) -> bool, t0: nat, xs: seq<T>, k: nat)
    requires k < |xs| - 1
  {
    R(t0 + k, xs[k], xs[k + 1])
  }

  /** A training iteration, as a relation between the states before and
      after it and Adam's step count before it. */
  ghost function Iterate(m: MathLib, c: Config, cfg: Optimizer.AdamConfig, tokens: seq<nat>)
    : (nat, seq<Optimizer.ParamState>, seq<Optimizer.ParamState>) -> bool
  {
    (t: nat, S0: seq<Optimizer.ParamState>, S1: seq<Optimizer.ParamState>) => StepsTo(m, c, cfg, t, tokens, S0, S1)
  }

  /** Every state after the first is what a training iteration makes of
      the one before, the first of them with Adam's step t0 + 1. */
  ghost predicate Trajectory(m: MathLib, c: Config, cfg: Optimizer.AdamConfig, t0: nat, tokens: seq<nat>,
                             states: seq<seq<Optimizer.ParamState>>)
  {
    Chain(Iterate(m, c, cfg, tokens), t0, states)
  }

  /** losses[k] is trainStep's loss at the weights of states[k]. */
  ghost predicate LossesAlong(m: MathLib, c: Config, tokens: seq<nat>, states: seq<seq<Optimizer.ParamState>>,
                              losses: seq<real>)
  {
    Along(LossOf(m, c, tokens), states, losses)
  }

  /** loss is trainStep's loss at the weights of states S. */
  ghost function LossOf(m: MathLib, c: Config, tokens: seq<nat>): (seq<Optimizer.ParamState>, real) -> bool
  {
    (S: seq<Optimizer.ParamState>, loss: real) => TrainPre(m, c, Datas(S), tokens) && loss == TrainLoss(m, c, Datas(S), tokens)
  }

  /** ys is shorter than xs, and P relates each element of ys to the
      element of xs at the same index. */
  ghost predicate Along<T, U>(P: (T, U) -> bool, xs: seq<T>, ys: seq<U>)
  {
    |ys| < |xs| && forall k :: 0 <= k < |ys| ==> Paired(P, xs, ys, k)
  }

  /** P relates ys[k] to xs[k]. */
  ghost predicate Paired<T, U>(P: (T, U) -> bool, xs: seq<T>, ys: seq<U>, k: nat)
    requires k < |ys| && k < |xs|
  {
    P(xs[k], ys[k])
  }

  /** Along with one more element of xs. */
  lemma AlongLonger<T, U>(P: (T, U) -> bool, xs: seq<T>, ys: seq<U>, z: T)
    requires Along(P, xs, ys)
    ensures Along(P, xs + [z], ys)
  {
    var xs' := xs + [z];
    forall k | 0 <= k < |ys| ensures Paired(P, xs', ys, k) {
      assert Paired(P, xs, ys, k) && xs'[k] == xs[k];
    }
  }

  /** Along one element longer on both sides, the new y paired with the
      last old x. */
  lemma AlongSnoc<T, U>(P: (T, U) -> bool, xs: seq<T>, ys: seq<U>, x: T, y: U, z: T)
    requires Along(P, xs, ys) && |ys| + 1 == |xs| && xs[|ys|] == x && P(x, y)
    ensures Along(P, xs + [z], ys + [y])
  {
    var xs', ys' := xs + [z], ys + [y];
    forall k | 0 <= k < |ys'| ensures Paired(P, xs', ys', k) {
      if k < |ys| {
        assert Paired(P, xs, ys, k) && xs'[k] == xs[k] && ys'[k] == ys[k];
      } else {
        assert xs'[k] == x && ys'[k] == y;
      }
    }
  }

  /** A chain one element longer. */
  lemma ChainSnoc<T>(R: (nat, T, T) -> bool, t0: nat, xs: seq<T>, t: nat, y: T, x: T)
    requires Chain(R, t0, xs) && |xs| > 0 && t0 + |xs| == t + 1 && xs[|xs| - 1] == y && R(t, y, x)
    ensures Chain(R, t0, xs + [x])
  {
    var ys := xs + [x];
    forall k | 0 <= k < |ys| - 1 ensures Linked(R, t0, ys, k) {
      if k < |xs| - 1 {
        assert Linked(R, t0, xs, k) && ys[k] == xs[k] && ys[k + 1] == xs[k + 1];
      } else {
        assert ys[k] == y && ys[k + 1] == x;
      }
    }
  }

  /** A trajectory ending in the states of weights W and moments M, V,
      one iteration longer. */
  lemma Extend(m: MathLib, c: Config, cfg: Optimizer.AdamConfig, t0: nat, tokens: seq<nat>,
               states: seq<seq<Optimizer.ParamState>>, t: nat, W: seq<Vec>, M: seq<Vec>, V: seq<Vec>,
               S: seq<Optimizer.ParamState>)
    requires Trajectory(m, c, cfg, t0, tokens, states) && |states| > 0 && t0 + |states| == t + 1
    requires |W| == |M| == |V|
    requires states[|states| - 1] == Zip(W, M, V) && TrainPre(m, c, W, tokens)
    requires AdamNext(m, cfg, t, Zip(W, M, V), TrainGrads(m, c, W, tokens), S)
    ensures Trajectory(m, c, cfg, t0, tokens, states + [S])
    ensures Datas(states[|states| - 1]) == W
  {
    DatasZip(W, M, V);
    ZipStep(m, c, cfg, t, tokens, W, M, V, S);
    ChainSnoc(Iterate(m, c, cfg, tokens), t0, states, t, Zip(W, M, V), S);
  }

  /** Adam's step t + 1 from the states of W, M and V, with trainStep's
      gradients at W, is a training iteration. */
  lemma ZipStep(m: MathLib, c: Config, cfg: Optimizer.AdamConfig, t: nat, tokens: seq<nat>,
                W: seq<Vec>, M: seq<Vec>, V: seq<Vec>, S: seq<Optimizer.ParamState>)
    requires |W| == |M| == |V| && Datas(Zip(W, M, V)) == W && TrainPre(m, c, W, tokens)
    requires AdamNext(m, cfg, t, Zip(W, M, V), TrainGrads(m, c, W, tokens), S)
    ensures Iterate(m, c, cfg, tokens)(t, Zip(W, M, V), S)
  {
    assert StepsTo(m, c, cfg, t, tokens, Zip(W, M, V), S);
  }

  /** The weights of the states zipped from W, M and V are W. */
  lemma DatasZip(W: seq<Vec>, M: seq<Vec>, V: seq<Vec>)
    requires |W| == |M| == |V|
    ensures Datas(Zip(W, M, V)) == W
  {
    assert forall k :: 0 <= k < |W| ==> Datas(Zip(W, M, V))[k] == W[k];
  }

  /** The moments as values, and the weights the states hold. */
  lemma StatesNow(model: MicroGPT, opt: Optimizer.AdamOptimizer) returns (M: seq<Vec>, V: seq<Vec>)
    requires model.Valid() && opt.Fits(model.Parameters())
    ensures MomentsAre(opt, M, V) && |model.Weights()| == |M| == |V|
    ensures opt.States(model.Parameters()) == Zip(model.Weights(), M, V)
    ensures Datas(opt.States(model.Parameters())) == model.Weights()
  {
    M, V := FirstMoments(opt), SecondMoments(opt);
    StatesOf(model, opt, M, V);
    assert Datas(Zip(model.Weights(), M, V)) == model.Weights();
  }

  lemma StatesOf(model: MicroGPT, opt: Optimizer.AdamOptimizer, M: seq<Vec>, V: seq<Vec>)
    requires model.Valid() && opt.Fits(model.Parameters()) && MomentsAre(opt, M, V)
    ensures |model.Weights()| == |M| == |V|
    ensures opt.States(model.Parameters()) == Zip(model.Weights(), M, V)
  {
  }

  lemma MomentsOutside(model: MicroGPT, opt: Optimizer.AdamOptimizer)
    requires model.Valid() && opt.Fits(model.Parameters())
    ensures forall k :: 0 <= k < |opt.m| ==>
      allocated(opt.m[k]) && allocated(opt.v[k]) && opt.m[k] !in model.GradBuffers() && opt.v[k] !in model.GradBuffers()
  {
    MomentsApart(model, opt);
    MomentsAllocated(opt);
    assert forall k :: 0 <= k < |opt.m| ==> opt.m[k] in opt.Moments() && opt.v[k] in opt.Moments();
  }

  /** Moment buffers made after the model fit its parameters. */
  lemma FreshMomentsFit(model: MicroGPT, opt: Optimizer.AdamOptimizer)
    requires model.Valid() && opt.Valid() && |opt.m| == |model.Parameters()|
    requires forall i :: 0 <= i < |opt.m| ==> opt.m[i].Length == model.Parameters()[i].size
    requires opt.Moments() !! (model.WeightBuffers() + model.GradBuffers())
    ensures opt.Fits(model.Parameters())
  {
    var ps := model.Parameters();
    forall i | 0 <= i < |ps| ensures ps[i].Valid() && ps[i].grad != null {
      assert ParamReady(model.config, ps[i], i);
    }
    forall i, j | 0 <= i < |ps| && 0 <= j < |ps|
      ensures ps[i].buffer != opt.m[j] && ps[i].buffer != opt.v[j]
      ensures ps[i].grad.buffer != opt.m[j] && ps[i].grad.buffer != opt.v[j]
      ensures ps[i].grad.size >= ps[i].size
    {
      assert ParamReady(model.config, ps[i], i);
      assert ps[i].buffer in model.WeightBuffers();
      assert ps[i].grad.buffer in model.GradBuffers();
      assert opt.m[j] in opt.Moments() && opt.v[j] in opt.Moments();
    }
  }

  /** The tokens `generate(model, tokenizer, maxTokens, temperature)`
      samples: from BOS at position 0 with empty caches. */
  ghost function GenerateOf(m: MathLib, c: Config, W: seq<Vec>, bos: nat, maxTokens: int, temperature: real,
                            rand: nat -> real): seq<nat>
    requires Lawful(m) && Supported(c) && Fits(c, W) && bos < c.vocabSize && temperature != 0.0
  {
    Generation.EmptyFits(c);
    Generation.Generated(m, c, W, bos, Generation.Limit(maxTokens, c.blockSize), temperature, rand, 0, bos,
                         EmptyKV(c.nLayer), EmptyKV(c.nLayer))
  }

  /** A trained model and the tokenizer it was built from. */
  ghost predicate Trained(model: MicroGPT, tok: CharTokenizer)
  {
    model.Valid() && Supported(model.config) && tok.Valid() && model.config.vocabSize == tok.VocabSize()
  }

  /** What an accepted request leaves: the tokenizer of its text, a model
      of its sizes over that vocabulary, the document `encodeDoc(text)`,
      and the run the loop made from the weights init gives. */
  ghost predicate TrainedOn(m: MathLib, req: TrainRequest, init: Config -> seq<Vec>,
                            duration: nat -> real, stopAfter: nat -> bool,
                            tok: CharTokenizer, mdl: MicroGPT, tokens: seq<nat>, stop: bool,
                            losses: seq<real>, states: seq<seq<Optimizer.ParamState>>)
  {
    && InputOk(req) && req.blockSize > 0 && Trained(mdl, tok)
    && (forall x :: x in tok.idxToChar <==> x in req.text)
    && mdl.config == ConfigOf(req, tok.VocabSize())
    && tokens == [tok.bosToken] + tok.Encoding(req.text) + [tok.bosToken]
    && LoopRan(m, mdl.config, req.adam, tokens, 0, Start(init(mdl.config)),
               req.adam.maxSteps, duration, stopAfter, stop, losses, states)
  }

  /** The worker's module-scope state. */
  class Worker {
    var model: MicroGPT?
    var tokenizer: CharTokenizer?
    var stopRequested: bool
    /** the messages posted so far, oldest first */
    var outbox: seq<Message>

    /** The model and the tokenizer are set together, by a train request
        that passed validation. */
    ghost predicate Valid()
      reads this
    {
      (model == null <==> tokenizer == null) && (model != null ==> Trained(model, tokenizer))
    }

    /** The worker as it loads: nothing trained, no stop, nothing posted. */
    constructor ()
      ensures Valid() && model == null && tokenizer == null && !stopRequested && outbox == []
    {
      model := null;
      tokenizer := null;
      stopRequested := false;
      outbox := [];
    }

    /** A `stop` message. */
    method Stop()
      modifies this`stopRequested
      ensures stopRequested
    {
      stopRequested := true;
    }

    /** `handleTrain(msg)`. The stop flag is reset first. A rejected request
        posts one error and leaves the model and the tokenizer alone. An
        accepted one builds a tokenizer of the text and a model of its
        configuration with the weights init gives, posts ready, and trains
        on encodeDoc(text) as TrainMessages says: every posted loss is
        trainStep's loss at the weights an iteration started from, every
        iteration takes the parameters' states one Adam step on, and the
        model is left with the weights of the last state. */
    method HandleTrain(m: MathLib, req: TrainRequest, init: Config -> seq<Vec>,
                       duration: nat -> real, stopAfter: nat -> bool)
      returns (ghost tokens: seq<nat>, ghost losses: seq<real>, ghost states: seq<seq<Optimizer.ParamState>>)
      requires Valid() && Lawful(m) && req.blockSize > 0 && Optimizer.Sound(req.adam)
      requires forall c :: Fits(c, init(c))
      modifies this
      ensures Valid()
      ensures ValidateTrainInput(req).Some? ==>
        && outbox == old(outbox) + [Error(BadInput(ValidateTrainInput(req).value))]
        && model == old(model) && tokenizer == old(tokenizer) && !stopRequested
      ensures ValidateTrainInput(req).None? ==>
        && model != null && tokenizer != null && fresh(model) && fresh(tokenizer)
        && TrainedOn(m, req, init, duration, stopAfter, tokenizer, model, tokens, stopRequested, losses, states)
        && outbox == old(outbox) + TrainMessages(ComputeParamCount(model.config), tokenizer.VocabSize(), req.adam.maxSteps,
                                                 RunFrom(StepLimit(req.adam.maxSteps), duration, stopAfter, 0), losses)
        && model.Weights() == Datas(states[|states| - 1])
    {
      stopRequested := false;
      var rejected := ValidateTrainInput(req);
      if rejected.Some? {
        outbox := outbox + [Error(BadInput(rejected.value))];
        tokens, losses, states := [], [], [];
        return;
      }
      ValidateAccepts(req);
      tokens, losses, states := Accept(m, req, init, duration, stopAfter);
    }

    /** A request that passed validation, from a cleared stop flag: train,
        then set the model and the tokenizer, post the messages and keep
        the stop flag the loop left. */
    method Accept(m: MathLib, req: TrainRequest, init: Config -> seq<Vec>,
                  duration: nat -> real, stopAfter: nat -> bool)
      returns (ghost tokens: seq<nat>, ghost losses: seq<real>, ghost states: seq<seq<Optimizer.ParamState>>)
      requires Valid() && Lawful(m) && req.blockSize > 0 && Optimizer.Sound(req.adam)
      requires forall c :: Fits(c, init(c))
      requires InputOk(req)
      modifies this
      ensures Valid()
      ensures model != null && tokenizer != null && fresh(model) && fresh(tokenizer)
      ensures TrainedOn(m, req, init, duration, stopAfter, tokenizer, model, tokens, stopRequested, losses, states)
      ensures outbox == old(outbox) + TrainMessages(ComputeParamCount(model.config), tokenizer.VocabSize(),
                                                    req.adam.maxSteps,
                                                    RunFrom(StepLimit(req.adam.maxSteps), duration, stopAfter, 0), losses)
      ensures model.Weights() == Datas(states[|states| - 1])
    {
      var tok, mdl, toks, posted, stop;
      tok, mdl, toks, posted, stop, losses, states := Train(m, req, init, duration, stopAfter);
      tokens := toks;
      Install(tok, mdl, posted, stop);
    }

    /** The worker keeps the trained pair, posts what training posted and
        keeps the flag the loop left. */
    method Install(tok: CharTokenizer, mdl: MicroGPT, posted: seq<Message>, stop: bool)
      requires mdl.Valid()
      modifies this
      ensures tokenizer == tok && model == mdl && outbox == old(outbox) + posted && stopRequested == stop
      ensures mdl.Weights() == old(mdl.Weights())
    {
      tokenizer, model, outbox, stopRequested := tok, mdl, outbox + posted, stop;
    }

    /** `handleGenerate(msg)`: with nothing trained, the error "Model not
        trained yet"; otherwise the text generate gives. */
    method HandleGenerate(m: MathLib, maxTokens: int, temperature: real, rand: nat -> real)
      returns (ghost generated: seq<nat>)
      requires Valid() && Lawful(m) && temperature != 0.0
      modifies this`outbox
      ensures Valid()
      ensures old(model == null || tokenizer == null) ==> outbox == old(outbox) + [Error(NotTrained)]
      ensures old(model != null && tokenizer != null) ==>
        && generated == old(GenerateOf(m, model.config, model.Weights(), tokenizer.bosToken, maxTokens, temperature, rand))
        && outbox == old(outbox) + [Generated(old(tokenizer.Decode(generated)))]
    {
      if model == null || tokenizer == null {
        generated := [];
        outbox := outbox + [Error(NotTrained)];
      } else {
        var text;
        ghost var W := model.Weights();
        text, generated := GenerateText(m, model, tokenizer, maxTokens, temperature, rand, W);
        outbox := outbox + [Generated(text)];
      }
    }
  }

  /** The body of handleTrain after validation: the tokenizer and the
      model it builds, the messages it posts, in order, the stop flag it
      leaves, and the states and losses of the run, the model ending with
      the weights of the last state. */
  method Train(m: MathLib, req: TrainRequest, init: Config -> seq<Vec>, duration: nat -> real, stopAfter: nat -> bool)
    returns (tok: CharTokenizer, mdl: MicroGPT, tokens: seq<nat>, posted: seq<Message>, stop: bool,
             ghost losses: seq<real>, ghost states: seq<seq<Optimizer.ParamState>>)
    requires InputOk(req) && Lawful(m) && req.blockSize > 0 && Optimizer.Sound(req.adam)
    requires forall c :: Fits(c, init(c))
    ensures fresh(tok) && fresh(mdl)
    ensures TrainedOn(m, req, init, duration, stopAfter, tok, mdl, tokens, stop, losses, states)
    ensures posted == TrainMessages(ComputeParamCount(mdl.config), tok.VocabSize(), req.adam.maxSteps,
                                    RunFrom(StepLimit(req.adam.maxSteps), duration, stopAfter, 0), losses)
    ensures mdl.Weights() == Datas(states[|states| - 1])
  {
    tok, mdl, tokens := NewModel(req, init);
    var count := mdl.ParamCount();
    ghost var S0 := Start(init(mdl.config));
    var opt := NewTraining(m, mdl, tokens, req.adam, init(mdl.config));
    var loop;
    loop, stop, losses, states := TrainLoop(m, mdl, opt, tokens, req.adam.maxSteps, duration, stopAfter, 0, S0);

    ghost var _, _ := StatesNow(mdl, opt);
    posted := [Ready(count, tok.VocabSize())] + loop;
    AppendAssoc([Ready(count, tok.VocabSize())], Progresses(losses, req.adam.maxSteps),
                [EndMessage(RunFrom(StepLimit(req.adam.maxSteps), duration, stopAfter, 0))]);
  }

  /** The tokenizer of the text, the model of the request's sizes with the
      tokenizer's vocabulary and the weights init gives, and
      `encodeDoc(text)`. */
  method NewModel(req: TrainRequest, init: Config -> seq<Vec>)
    returns (tok: CharTokenizer, mdl: MicroGPT, tokens: seq<nat>)
    requires InputOk(req) && req.blockSize > 0 && forall c :: Fits(c, init(c))
    ensures fresh(tok) && fresh(mdl) && fresh(mdl.WeightBuffers()) && fresh(mdl.GradBuffers()) && Trained(mdl, tok)
    ensures forall x :: x in tok.idxToChar <==> x in req.text
    ensures mdl.config == ConfigOf(req, tok.VocabSize()) && mdl.Weights() == init(mdl.config)
    ensures tokens == [tok.bosToken] + tok.Encoding(req.text) + [tok.bosToken]
    ensures |tokens| >= 2 && TokensFit(mdl.config, tokens) && mdl.config.nLayer > 0 && mdl.config.blockSize > 0
  {
    tok := new CharTokenizer(req.text);
    tokens := tok.EncodeDoc(req.text);
    var config := ConfigOf(req, tok.VocabSize());
    DocTokensFit(tok, config, req.text);
    mdl := new MicroGPT(config, init(config));
  }

  /** `new AdamOptimizer(model.parameters(), adamConfig)`: ready for the
      first iteration on tokens, the weights as they were. */
  method NewTraining(m: MathLib, mdl: MicroGPT, tokens: seq<nat>, adam: Optimizer.AdamConfig, ghost W0: seq<Vec>)
    returns (opt: Optimizer.AdamOptimizer)
    requires mdl.Valid() && Lawful(m) && Optimizer.Sound(adam) && Supported(mdl.config) && mdl.Weights() == W0
    requires mdl.config.nLayer > 0 && mdl.config.blockSize > 0 && |tokens| >= 2 && TokensFit(mdl.config, tokens)
    ensures fresh(opt) && fresh(opt.Moments()) && opt.config == adam && opt.t == 0
    ensures Training(m, mdl, opt, tokens) && mdl.Weights() == W0
    ensures opt.States(mdl.Parameters()) == Start(W0)
  {
    opt := NewOptimizer(mdl, adam);
  }

  /** `new AdamOptimizer(model.parameters(), adamConfig)`: zero moments
      that fit the parameters; the weights are left as they were. */
  method NewOptimizer(mdl: MicroGPT, adam: Optimizer.AdamConfig) returns (opt: Optimizer.AdamOptimizer)
    requires mdl.Valid() && Optimizer.Sound(adam)
    ensures fresh(opt) && fresh(opt.Moments()) && opt.config == adam && opt.t == 0
    ensures opt.Valid() && opt.Fits(mdl.Parameters()) && mdl.Weights() == old(mdl.Weights())
    ensures opt.States(mdl.Parameters()) == Start(mdl.Weights())
  {
    ghost var bufs := mdl.WeightBuffers() + mdl.GradBuffers();
    assert forall a :: a in bufs ==> allocated(a);
    opt := new Optimizer.AdamOptimizer(mdl.Parameters(), adam);
    FreshMomentsFit(mdl, opt);
    FreshStates(mdl, opt);
  }

  /** Zero moments are the states a new optimizer starts from. */
  lemma FreshStates(mdl: MicroGPT, opt: Optimizer.AdamOptimizer)
    requires mdl.Valid() && opt.Fits(mdl.Parameters())
    requires forall i :: 0 <= i < |mdl.Parameters()| ==>
      opt.m[i][..] == Zeros(mdl.Parameters()[i].size) && opt.v[i][..] == Zeros(mdl.Parameters()[i].size)
    ensures opt.States(mdl.Parameters()) == Start(mdl.Weights())
  {
    var M, V := StatesNow(mdl, opt);
    var ps, W := mdl.Parameters(), mdl.Weights();
    forall k | 0 <= k < |W| ensures Zip(W, M, V)[k] == Start(W)[k] {
      assert ParamReady(mdl.config, ps[k], k);
    }
  }

  /** The for-loop of handleTrain, from a cleared stop flag: the messages
      it posts, in order, ending with the timeout or complete message, the
      stop flag it leaves, the losses it posts and the parameters' states
      it passes through, each iteration's from the one before. */
  method TrainLoop(m: MathLib, mdl: MicroGPT, opt: Optimizer.AdamOptimizer, tokens: seq<nat>, maxSteps: real,
                   duration: nat -> real, stopAfter: nat -> bool, ghost t0: nat, ghost S0: seq<Optimizer.ParamState>)
    returns (posted: seq<Message>, stop: bool, ghost losses: seq<real>, ghost states: seq<seq<Optimizer.ParamState>>)
    requires Training(m, mdl, opt, tokens) && opt.t == t0 && opt.States(mdl.Parameters()) == S0
    modifies mdl.GradBuffers(), mdl.WeightBuffers(), opt`t, opt.Moments()
    ensures Training(m, mdl, opt, tokens)
    ensures LoopRan(m, mdl.config, opt.config, tokens, t0, S0, maxSteps, duration, stopAfter, stop, losses, states)
    ensures posted == Progresses(losses, maxSteps) + [EndMessage(RunFrom(StepLimit(maxSteps), duration, stopAfter, 0))]
    ensures states[|states| - 1] == opt.States(mdl.Parameters())
  {
    ghost var limit := StepLimit(maxSteps);
    posted, stop, losses, states := [], false, [], [S0];
    var step: nat := 0;
    LoopStarts(m, mdl.config, opt.config, tokens, t0, S0, maxSteps, duration, stopAfter);
    while (step as real) < maxSteps
      invariant Training(m, mdl, opt, tokens)
      invariant Looping(m, mdl.config, opt.config, tokens, t0, S0, maxSteps, duration, stopAfter,
                        step, posted, stop, losses, states)
      invariant opt.t == t0 + step && |states| == step + 1 && states[step] == opt.States(mdl.Parameters())
      decreases limit - step
    {
      StepLimitGuard(maxSteps, step);
      if stop {
        break;
      }
      var slow;
      slow, posted, stop, losses, states :=
        Round(m, mdl, opt, tokens, maxSteps, duration, stopAfter, t0, S0, step, posted, losses, states);
      if slow {
        return;
      }
      step := step + 1;
    }
    StepLimitGuard(maxSteps, step);
    LoopLeaves(m, mdl.config, opt.config, tokens, t0, S0, maxSteps, duration, stopAfter,
               step, posted, stop, losses, states);
    posted := posted + [Complete(0.0)];
  }

  /** The loop's record after `step` iterations that did not leave it, from
      states S0 at Adam's step t0: the flag, the messages and losses posted
      and the states passed, agreeing with the run RunFrom describes. */
  ghost predicate Looping(m: MathLib, c: Config, cfg: Optimizer.AdamConfig, tokens: seq<nat>, t0: nat,
                          S0: seq<Optimizer.ParamState>, maxSteps: real, duration: nat -> real,
                          stopAfter: nat -> bool, step: nat, posted: seq<Message>, stop: bool,
                          losses: seq<real>, states: seq<seq<Optimizer.ParamState>>)
  {
    && step <= StepLimit(maxSteps)
    && RunFrom(StepLimit(maxSteps), duration, stopAfter, step) == RunFrom(StepLimit(maxSteps), duration, stopAfter, 0)
    && stop == StopSeen(stopAfter, step)
    && |losses| == step && posted == Progresses(losses, maxSteps)
    && |states| == step + 1 && states[0] == S0
    && Trajectory(m, c, cfg, t0, tokens, states) && LossesAlong(m, c, tokens, states, losses)
  }

  /** The loop's record once it has ended as RunFrom says: one loss per
      iteration that posted one, each the loss of the states it started
      from; one more state than iterations run, each from the one before;
      the flag as the last loop head saw it. */
  ghost predicate LoopRan(m: MathLib, c: Config, cfg: Optimizer.AdamConfig, tokens: seq<nat>, t0: nat,
                          S0: seq<Optimizer.ParamState>, maxSteps: real, duration: nat -> real,
                          stopAfter: nat -> bool, stop: bool, losses: seq<real>,
                          states: seq<seq<Optimizer.ParamState>>)
  {
    var e := RunFrom(StepLimit(maxSteps), duration, stopAfter, 0);
    && |losses| == e.steps && stop == StopSeen(stopAfter, e.steps)
    && |states| == Iterations(e) + 1 && states[0] == S0
    && Trajectory(m, c, cfg, t0, tokens, states) && LossesAlong(m, c, tokens, states, losses)
  }

  /** Nothing posted, no flag, one state: the record at the first loop head. */
  lemma LoopStarts(m: MathLib, c: Config, cfg: Optimizer.AdamConfig, tokens: seq<nat>, t0: nat,
                   S0: seq<Optimizer.ParamState>, maxSteps: real, duration: nat -> real, stopAfter: nat -> bool)
    ensures Looping(m, c, cfg, tokens, t0, S0, maxSteps, duration, stopAfter, 0, [], false, [], [S0])
  {
    assert Along(LossOf(m, c, tokens), [S0], []);
  }

  /** An iteration that was not slow posts its loss and passes its states. */
  lemma LoopNext(m: MathLib, c: Config, cfg: Optimizer.AdamConfig, tokens: seq<nat>, t0: nat,
                 S0: seq<Optimizer.ParamState>, maxSteps: real, duration: nat -> real, stopAfter: nat -> bool,
                 step: nat, posted: seq<Message>, stop: bool, losses: seq<real>,
                 states: seq<seq<Optimizer.ParamState>>, loss: real, next: bool, S: seq<Optimizer.ParamState>)
    requires Looping(m, c, cfg, tokens, t0, S0, maxSteps, duration, stopAfter, step, posted, stop, losses, states)
    requires step < StepLimit(maxSteps)
    requires RunFrom(StepLimit(maxSteps), duration, stopAfter, step)
             == RunFrom(StepLimit(maxSteps), duration, stopAfter, step + 1)
    requires next == StopSeen(stopAfter, step + 1)
    requires Trajectory(m, c, cfg, t0, tokens, states + [S])
    requires TrainPre(m, c, Datas(states[step]), tokens) && loss == TrainLoss(m, c, Datas(states[step]), tokens)
    ensures Looping(m, c, cfg, tokens, t0, S0, maxSteps, duration, stopAfter, step + 1,
                    posted + [Progress(step + 1, loss, maxSteps)], next, losses + [loss], states + [S])
  {
    ProgressesSnoc(losses, loss, maxSteps);
    assert LossOf(m, c, tokens)(states[step], loss);
    AlongSnoc(LossOf(m, c, tokens), states, losses, states[step], loss, S);
  }

  /** A slow iteration ends the loop with its timeout, its loss unposted. */
  lemma LoopTimesOut(m: MathLib, c: Config, cfg: Optimizer.AdamConfig, tokens: seq<nat>, t0: nat,
                     S0: seq<Optimizer.ParamState>, maxSteps: real, duration: nat -> real, stopAfter: nat -> bool,
                     step: nat, posted: seq<Message>, stop: bool, losses: seq<real>,
                     states: seq<seq<Optimizer.ParamState>>, S: seq<Optimizer.ParamState>)
    requires Looping(m, c, cfg, tokens, t0, S0, maxSteps, duration, stopAfter, step, posted, stop, losses, states)
    requires RunFrom(StepLimit(maxSteps), duration, stopAfter, step) == TimedOut(step)
    requires Trajectory(m, c, cfg, t0, tokens, states + [S])
    ensures LoopRan(m, c, cfg, tokens, t0, S0, maxSteps, duration, stopAfter, stop, losses, states + [S])
    ensures posted + [Timeout(step + 1)]
            == Progresses(losses, maxSteps) + [EndMessage(RunFrom(StepLimit(maxSteps), duration, stopAfter, 0))]
  {
    AlongLonger(LossOf(m, c, tokens), states, losses, S);
  }

  /** Leaving at the loop head, by the guard or by the flag, completes. */
  lemma LoopLeaves(m: MathLib, c: Config, cfg: Optimizer.AdamConfig, tokens: seq<nat>, t0: nat,
                   S0: seq<Optimizer.ParamState>, maxSteps: real, duration: nat -> real, stopAfter: nat -> bool,
                   step: nat, posted: seq<Message>, stop: bool, losses: seq<real>,
                   states: seq<seq<Optimizer.ParamState>>)
    requires Looping(m, c, cfg, tokens, t0, S0, maxSteps, duration, stopAfter, step, posted, stop, losses, states)
    requires step >= StepLimit(maxSteps) || stop
    ensures LoopRan(m, c, cfg, tokens, t0, S0, maxSteps, duration, stopAfter, stop, losses, states)
    ensures posted + [Complete(0.0)]
            == Progresses(losses, maxSteps) + [EndMessage(RunFrom(StepLimit(maxSteps), duration, stopAfter, 0))]
  {
    RunFromLeft(StepLimit(maxSteps), duration, stopAfter, step);
  }

  /** One pass of the for-loop's body after the stop check: an iteration,
      then either the timeout that ends the loop, or the progress message
      and the loop's record one iteration further. */
  method Round(m: MathLib, mdl: MicroGPT, opt: Optimizer.AdamOptimizer, tokens: seq<nat>, maxSteps: real,
               duration: nat -> real, stopAfter: nat -> bool, ghost t0: nat, ghost S0: seq<Optimizer.ParamState>,
               step: nat, posted: seq<Message>, ghost losses: seq<real>, ghost states: seq<seq<Optimizer.ParamState>>)
    returns (slow: bool, posted': seq<Message>, stop': bool, ghost losses': seq<real>,
             ghost states': seq<seq<Optimizer.ParamState>>)
    requires Training(m, mdl, opt, tokens) && step < StepLimit(maxSteps)
    requires Looping(m, mdl.config, opt.config, tokens, t0, S0, maxSteps, duration, stopAfter,
                     step, posted, false, losses, states)
    requires opt.t == t0 + step && states[step] == opt.States(mdl.Parameters())
    modifies mdl.GradBuffers(), mdl.WeightBuffers(), opt`t, opt.Moments()
    ensures Training(m, mdl, opt, tokens)
    ensures slow ==>
      && LoopRan(m, mdl.config, opt.config, tokens, t0, S0, maxSteps, duration, stopAfter, stop', losses', states')
      && posted' == Progresses(losses', maxSteps) + [EndMessage(RunFrom(StepLimit(maxSteps), duration, stopAfter, 0))]
      && states'[|states'| - 1] == opt.States(mdl.Parameters())
    ensures !slow ==>
      && Looping(m, mdl.config, opt.config, tokens, t0, S0, maxSteps, duration, stopAfter,
                 step + 1, posted', stop', losses', states')
      && opt.t == t0 + step + 1 && states'[step + 1] == opt.States(mdl.Parameters())
  {
    var loss, next;
    ghost var S;
    loss, slow, next, S := Iteration(m, mdl, opt, tokens, StepLimit(maxSteps), duration, stopAfter, step, t0, states);
    if slow {
      LoopTimesOut(m, mdl.config, opt.config, tokens, t0, S0, maxSteps, duration, stopAfter,
                   step, posted, false, losses, states, S);
      posted', stop', losses', states' := posted + [Timeout(step + 1)], false, losses, states + [S];
    } else {
      LoopNext(m, mdl.config, opt.config, tokens, t0, S0, maxSteps, duration, stopAfter,
               step, posted, false, losses, states, loss, next, S);
      posted', stop', losses', states' := posted + [Progress(step + 1, loss, maxSteps)], next, losses + [loss], states + [S];
    }
  }

  /** The body of the loop for an iteration whose head saw no stop: train
      once, time the step, and take in a stop that arrived during the yield
      after it. The loss is that of the states the iteration started from,
      and the trajectory grows by the states it ends in. */
  method Iteration(m: MathLib, mdl: MicroGPT, opt: Optimizer.AdamOptimizer, tokens: seq<nat>, ghost limit: nat,
                   duration: nat -> real, stopAfter: nat -> bool, step: nat,
                   ghost t0: nat, ghost states: seq<seq<Optimizer.ParamState>>)
    returns (loss: real, slow: bool, stop: bool, ghost S: seq<Optimizer.ParamState>)
    requires Training(m, mdl, opt, tokens) && step < limit && !StopSeen(stopAfter, step)
    requires Trajectory(m, mdl.config, opt.config, t0, tokens, states) && |states| == step + 1
    requires opt.t == t0 + step && states[step] == opt.States(mdl.Parameters())
    modifies mdl.GradBuffers(), mdl.WeightBuffers(), opt`t, opt.Moments()
    ensures Training(m, mdl, opt, tokens) && opt.t == t0 + step + 1
    ensures S == opt.States(mdl.Parameters()) && Trajectory(m, mdl.config, opt.config, t0, tokens, states + [S])
    ensures TrainPre(m, mdl.config, Datas(states[step]), tokens)
    ensures loss == TrainLoss(m, mdl.config, Datas(states[step]), tokens)
    ensures slow ==> RunFrom(limit, duration, stopAfter, step) == TimedOut(step)
                     && EndMessage(RunFrom(limit, duration, stopAfter, step)) == Timeout(step + 1)
    ensures !slow ==> RunFrom(limit, duration, stopAfter, step) == RunFrom(limit, duration, stopAfter, step + 1)
                      && stop == StopSeen(stopAfter, step + 1)
  {
    ghost var M, V := StatesNow(mdl, opt);
    ghost var W := mdl.Weights();
    ghost var t := opt.t;
    assert states[step] == Zip(W, M, V);
    loss := TrainOnce(m, mdl, opt, tokens, W, M, V, t);
    S := opt.States(mdl.Parameters());
    Extend(m, mdl.config, opt.config, t0, tokens, states, t, W, M, V, S);
    slow := duration(step) > MaxStepDurationMs;
    stop := false;
    if slow {
      RunFromTimedOut(limit, duration, stopAfter, step);
    } else {
      RunFromNext(limit, duration, stopAfter, step);
      StopSeenNext(stopAfter, step);
      // the yield after every tenth step, where a stop message is taken in
      stop := YieldsAfter(step) && stopAfter(step);
    }
  }

  /** `generate(model, tokenizer, maxTokens, temperature)` on a trained
      model: the decoded tokens GenerateOf samples. */
  method GenerateText(m: MathLib, model: MicroGPT, tok: CharTokenizer, maxTokens: int, temperature: real,
                      rand: nat -> real, ghost W: seq<Vec>) returns (text: string, ghost generated: seq<nat>)
    requires Trained(model, tok) && Lawful(m) && temperature != 0.0 && model.Weights() == W
    ensures generated == GenerateOf(m, model.config, W, tok.bosToken, maxTokens, temperature, rand)
    ensures text == tok.Decode(generated)
  {
    ghost var bufs := model.WeightBuffers();
    assert forall a :: a in bufs ==> allocated(a);
    var gen;
    text, gen := Generation.Generate(m, model, tok, maxTokens, temperature, rand);
    generated := gen;
  }
}
