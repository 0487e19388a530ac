/**
 * `AdamOptimizer`: Adam with bias correction and a linearly decaying
 * learning rate, updating the parameters' weight buffers and its own moment
 * buffers in place.
 */
module Optimizer {
  import opened Numeric
  import opened Tensors

  datatype AdamConfig = AdamConfig(lr: real, beta1: real, beta2: real, eps: real, maxSteps: real)

  /** `DEFAULT_ADAM` */
  function DefaultAdam(): AdamConfig
  {
    AdamConfig(0.01, 0.85, 0.99, 0.00000001, 1000.0)
  }

  /** The ranges in which the update is a real number: the decay rates
      below 1 (so the bias corrections never divide by zero), a positive
      eps and a positive step budget. */
  predicate Sound(cfg: AdamConfig)
  {
    0.0 <= cfg.beta1 < 1.0 && 0.0 <= cfg.beta2 < 1.0 && cfg.eps > 0.0 && cfg.maxSteps > 0.0
  }

  /** `Math.pow(b, n)` for a whole exponent. */
  function Pow(b: real, n: nat): real
  {
    if n == 0 then 1.0 else b * Pow(b, n - 1)
  }

  /** A power of a rate in [0, 1) with a positive exponent stays in [0, 1),
      so `1 - Math.pow(beta, t)` is positive. */
  lemma {:induction false} PowBelowOne(b: real, n: nat)
    requires 0.0 <= b < 1.0 && n >= 1
    ensures 0.0 <= Pow(b, n) < 1.0
  {
    if n > 1 {
      PowBelowOne(b, n - 1);
      var q := Pow(b, n - 1);
      MulBelowOne(b, q);
      assert 0.0 <= b * q < 1.0;
      assert Pow(b, n) == b * q;
      assert 0.0 <= Pow(b, n);
      assert Pow(b, n) < 1.0;
    } else {
      assert Pow(b, 1) == b * Pow(b, 0);
    }
  }

  lemma MulBelowOne(a: real, b: real)
    requires 0.0 <= a < 1.0 && 0.0 <= b < 1.0
    ensures 0.0 <= a * b < 1.0
  {
    assert a * b <= b;
  }

  /** `lrT = lr * Math.max(0, 1 - (t - 1) / maxSteps)` */
  function LrAt(cfg: AdamConfig, t: nat): real
    requires cfg.maxSteps > 0.0
  {
    cfg.lr * MaxReal(0.0, 1.0 - ((t as real) - 1.0) / cfg.maxSteps)
  }

  /** The first step uses the full learning rate. */
  lemma LrFirstStep(cfg: AdamConfig)
    requires cfg.maxSteps > 0.0
    ensures LrAt(cfg, 1) == cfg.lr
  {
  }

  /** From the first step on, the rate lies in [0, lr]. */
  lemma LrBounds(cfg: AdamConfig, t: nat)
    requires cfg.maxSteps > 0.0 && cfg.lr >= 0.0 && t >= 1
    ensures 0.0 <= LrAt(cfg, t) <= cfg.lr
  {
    QuotientNonNegative((t as real) - 1.0, cfg.maxSteps);
    var f := MaxReal(0.0, 1.0 - ((t as real) - 1.0) / cfg.maxSteps);
    ScaleWithin(cfg.lr, f);
  }

  lemma ScaleWithin(a: real, f: real)
    requires a >= 0.0 && 0.0 <= f <= 1.0
    ensures 0.0 <= a * f <= a
  {
  }

  /** The rate never grows from one step to a later one. */
  lemma LrNonIncreasing(cfg: AdamConfig, t1: nat, t2: nat)
    requires cfg.maxSteps > 0.0 && cfg.lr >= 0.0 && t1 <= t2
    ensures LrAt(cfg, t2) <= LrAt(cfg, t1)
  {
    var d1, d2 := ((t1 as real) - 1.0) / cfg.maxSteps, ((t2 as real) - 1.0) / cfg.maxSteps;
    assert d1 <= d2 by {
      assert (t1 as real) - 1.0 <= (t2 as real) - 1.0;
    }
    var f1, f2 := MaxReal(0.0, 1.0 - d1), MaxReal(0.0, 1.0 - d2);
    assert f2 <= f1;
    assert cfg.lr * f2 <= cfg.lr * f1;
  }

  /** Once t - 1 reaches maxSteps (for a whole maxSteps: once t exceeds
      it) the rate is 0. */
  lemma LrZeroAfter(cfg: AdamConfig, t: nat)
    requires cfg.maxSteps > 0.0 && (t as real) - 1.0 >= cfg.maxSteps
    ensures LrAt(cfg, t) == 0.0
  {
    var d := ((t as real) - 1.0) / cfg.maxSteps;
    assert d >= 1.0 by {
      assert d * cfg.maxSteps == (t as real) - 1.0;
    }
  }

  /** `beta1 * m + (1 - beta1) * g` */
  function MomentM(beta1: real, m: real, g: real): real
  {
    beta1 * m + (1.0 - beta1) * g
  }

  /** `beta2 * v + (1 - beta2) * g * g` */
  function MomentV(beta2: real, v: real, g: real): real
  {
    beta2 * v + (1.0 - beta2) * g * g
  }

  /** The second moment stays non-negative: a convex mix of a
      non-negative value and a square. */
  lemma MomentVNonNegative(beta2: real, v: real, g: real)
    requires 0.0 <= beta2 <= 1.0 && v >= 0.0
    ensures MomentV(beta2, v, g) >= 0.0
  {
    assert g * g >= 0.0;
    assert (1.0 - beta2) * (g * g) >= 0.0;
  }

  /** `lrT * mHat / (Math.sqrt(vHat) + eps)` with the bias-corrected
      moments `mHat = m / (1 - beta1^t)` and `vHat = v / (1 - beta2^t)`. */
  function AdamDelta(lib: MathLib, cfg: AdamConfig, t: nat, lrT: real, m: real, v: real): real
    requires Lawful(lib) && Sound(cfg) && t >= 1 && v >= 0.0
  {
    PowBelowOne(cfg.beta1, t);
    PowBelowOne(cfg.beta2, t);
    var mHat := m / (1.0 - Pow(cfg.beta1, t));
    var vHat := v / (1.0 - Pow(cfg.beta2, t));
    QuotientNonNegative(v, 1.0 - Pow(cfg.beta2, t));
    lrT * mHat / (lib.sqrt(vHat) + cfg.eps)
  }

  lemma QuotientNonNegative(x: real, d: real)
    requires x >= 0.0 && d > 0.0
    ensures x / d >= 0.0
  {
  }

  /** With a zero rate the update is zero. */
  lemma DeltaAtZeroRate(lib: MathLib, cfg: AdamConfig, t: nat, m: real, v: real)
    requires Lawful(lib) && Sound(cfg) && t >= 1 && v >= 0.0
    ensures AdamDelta(lib, cfg, t, 0.0, m, v) == 0.0
  {
    PowBelowOne(cfg.beta1, t);
    PowBelowOne(cfg.beta2, t);
    QuotientNonNegative(v, 1.0 - Pow(cfg.beta2, t));
    var mHat := m / (1.0 - Pow(cfg.beta1, t));
    var d := lib.sqrt(v / (1.0 - Pow(cfg.beta2, t))) + cfg.eps;
    assert d > 0.0;
    assert 0.0 * mHat / d == 0.0;
  }

  predicate NonNegative(s: seq<real>)
  {
    forall i :: 0 <= i < |s| ==> s[i] >= 0.0
  }

  /** What the optimizer holds for one parameter: its weights and its two
      moment buffers. */
  datatype ParamState = ParamState(data: Vec, m: Vec, v: Vec)

  predicate StateFits(s: ParamState)
  {
    |s.m| == |s.data| && |s.v| == |s.data| && NonNegative(s.v)
  }

  /** One parameter's update at step t with rate lrT and gradient g: the
      moments first, then the weights from the new moments. */
  function AdamParam(lib: MathLib, cfg: AdamConfig, t: nat, lrT: real, s: ParamState, g: Vec): (r: ParamState)
    requires Lawful(lib) && Sound(cfg) && t >= 1 && StateFits(s) && |g| >= |s.data|
    ensures StateFits(r) && |r.data| == |s.data|
  {
    var n := |s.data|;
    var m1 := seq(n, i requires 0 <= i < n => MomentM(cfg.beta1, s.m[i], g[i]));
    var v1 := seq(n, i requires 0 <= i < n => MomentV(cfg.beta2, s.v[i], g[i]));
    assert NonNegative(v1) by {
      forall i | 0 <= i < n ensures v1[i] >= 0.0 {
        MomentVNonNegative(cfg.beta2, s.v[i], g[i]);
      }
    }
    ParamState(seq(n, i requires 0 <= i < n => s.data[i] - AdamDelta(lib, cfg, t, lrT, m1[i], v1[i])), m1, v1)
  }

  /** Step t applied to every parameter, each with its own gradient. */
  function AdamAll(lib: MathLib, cfg: AdamConfig, t: nat, S: seq<ParamState>, G: seq<Vec>): (T: seq<ParamState>)
    requires Lawful(lib) && Sound(cfg) && t >= 1 && |G| == |S|
    requires forall k :: 0 <= k < |S| ==> StateFits(S[k]) && |G[k]| >= |S[k].data|
    ensures |T| == |S|
    ensures forall k :: 0 <= k < |S| ==> T[k] == AdamParam(lib, cfg, t, LrAt(cfg, t), S[k], G[k])
  {
    seq(|S|, k requires 0 <= k < |S| => AdamParam(lib, cfg, t, LrAt(cfg, t), S[k], G[k]))
  }

  /** Element k of an update. */
  lemma AdamParamAt(lib: MathLib, cfg: AdamConfig, t: nat, lrT: real, s: ParamState, g: Vec, k: nat)
    requires Lawful(lib) && Sound(cfg) && t >= 1 && StateFits(s) && |g| >= |s.data| && k < |s.data|
    ensures var r := AdamParam(lib, cfg, t, lrT, s, g);
      && r.m[k] == MomentM(cfg.beta1, s.m[k], g[k])
      && r.v[k] == MomentV(cfg.beta2, s.v[k], g[k]) && r.v[k] >= 0.0
      && r.data[k] == s.data[k] - AdamDelta(lib, cfg, t, lrT, r.m[k], r.v[k])
  {
  }

  /** A zero rate moves the moments but leaves the weights where they are. */
  lemma ZeroRateKeepsWeights(lib: MathLib, cfg: AdamConfig, t: nat, s: ParamState, g: Vec)
    requires Lawful(lib) && Sound(cfg) && t >= 1 && StateFits(s) && |g| >= |s.data|
    ensures AdamParam(lib, cfg, t, 0.0, s, g).data == s.data
  {
    var r := AdamParam(lib, cfg, t, 0.0, s, g);
    forall i | 0 <= i < |s.data| ensures r.data[i] == s.data[i] {
      DeltaAtZeroRate(lib, cfg, t, r.m[i], r.v[i]);
    }
  }

  /** The part of a weight buffer outside the parameter's view. */
  function Around(p: Tensor): seq<real>
    reads p.buffer
    requires p.WellFormed()
  {
    p.buffer[..p.offset] + p.buffer[p.offset + p.size..]
  }

  /** What step t does to one parameter: nothing without a gradient,
      otherwise the Adam update with the gradient's elements. */
  function StepTarget(lib: MathLib, cfg: AdamConfig, t: nat, lrT: real, p: Tensor, s: ParamState): (r: ParamState)
    reads if p.grad == null then {} else {p.grad.buffer}
    requires Lawful(lib) && Sound(cfg) && t >= 1 && StateFits(s) && p.Valid()
    requires p.grad != null ==> p.grad.size >= |s.data|
    ensures StateFits(r) && |r.data| == |s.data|
  {
    if p.grad == null then s else AdamParam(lib, cfg, t, lrT, s, p.GradData())
  }

  /** The gradient buffers of a parameter list. */
  ghost function GradBuffers(params: seq<Tensor>): set<array<real>>
  {
    set i | 0 <= i < |params| && params[i].grad != null :: params[i].grad.buffer
  }

  /** The weight buffers of a parameter list. */
  ghost function WeightBuffers(params: seq<Tensor>): set<array<real>>
  {
    set i | 0 <= i < |params| :: params[i].buffer
  }

  class AdamOptimizer {
    const config: AdamConfig
    /** first moments, one buffer per parameter */
    const m: seq<array<real>>
    /** second moments, one buffer per parameter */
    const v: seq<array<real>>
    /** the number of steps taken */
    var t: nat

    ghost function Moments(): set<array<real>>
    {
      (set i | 0 <= i < |m| :: m[i]) + (set i | 0 <= i < |v| :: v[i])
    }

    /** Every moment buffer is its own, the two buffers of a parameter
        have one length, and the second moments are non-negative. */
    ghost predicate Valid()
      reads Moments()
    {
      && Sound(config) && |m| == |v|
      && (forall i, j :: 0 <= i < |m| && 0 <= j < |m| && i != j ==> m[i] != m[j] && v[i] != v[j])
      && (forall i, j :: 0 <= i < |m| && 0 <= j < |m| ==> m[i] != v[j])
      && (forall i :: 0 <= i < |m| ==> m[i].Length == v[i].Length && NonNegative(v[i][..]))
    }

    /** `new AdamOptimizer(params, config)`: step 0 and one zero first- and
        second-moment buffer per parameter, each of the parameter's size. */
    constructor (params: seq<Tensor>, config: AdamConfig)
      requires Sound(config)
      ensures Valid() && t == 0 && this.config == config
      ensures |m| == |params| && fresh(Moments())
      ensures forall i :: 0 <= i < |params| ==>
        m[i][..] == Zeros(params[i].size) && v[i][..] == Zeros(params[i].size)
    {
      var ms: seq<array<real>> := [];
      var vs: seq<array<real>> := [];
      for i := 0 to |params|
        invariant |ms| == i && |vs| == i
        invariant forall k :: 0 <= k < i ==> fresh(ms[k]) && fresh(vs[k])
        invariant forall k, j :: 0 <= k < i && 0 <= j < i && k != j ==> ms[k] != ms[j] && vs[k] != vs[j]
        invariant forall k, j :: 0 <= k < i && 0 <= j < i ==> ms[k] != vs[j]
        invariant forall k :: 0 <= k < i ==>
          ms[k][..] == Zeros(params[k].size) && vs[k][..] == Zeros(params[k].size)
      {
        var a := new real[params[i].size](_ => 0.0);
        var b := new real[params[i].size](_ => 0.0);
        ms := ms + [a];
        vs := vs + [b];
      }
      this.config := config;
      m := ms;
      v := vs;
      t := 0;
      new;
      assert forall i :: 0 <= i < |v| ==> NonNegative(v[i][..]);
    }

    /** The state of parameter pi as the optimizer sees it. */
    function StateOf(p: Tensor, pi: nat): ParamState
      reads p.buffer, m[pi], v[pi]
      requires p.WellFormed() && pi < |m| && pi < |v|
    {
      ParamState(p.Data(), m[pi][..], v[pi][..])
    }

    /** The parameters fit the buffers the optimizer made for them: one
        per moment pair, of the same size, every weight buffer its own and
        no gradient shared with anything the step writes. */
    ghost predicate Fits(params: seq<Tensor>)
      reads Moments()
    {
      && |params| == |m| == |v|
      && (forall i :: 0 <= i < |params| ==> params[i].Valid() && params[i].size == m[i].Length == v[i].Length)
      && (forall i, j :: 0 <= i < |params| && 0 <= j < |params| && i != j ==> params[i].buffer != params[j].buffer)
      && (forall i, j :: 0 <= i < |params| && 0 <= j < |params| ==>
            params[i].buffer != m[j] && params[i].buffer != v[j])
      && (forall i, j :: 0 <= i < |params| && 0 <= j < |params| && params[i].grad != null ==>
            params[i].grad.buffer != params[j].buffer && params[i].grad.buffer != m[j]
            && params[i].grad.buffer != v[j] && params[i].grad.size >= params[i].size)
    }

    /** The inner loop of `step` for one parameter with a gradient: the
        moments and the weights of every element, in index order. The
        gradient is not written during the step, so it is read as a value. */
    method UpdateParam(lib: MathLib, lrT: real, p: Tensor, pi: nat, g: Vec)
      requires Valid() && Lawful(lib) && t >= 1 && pi < |m|
      requires p.WellFormed() && p.size == m[pi].Length && |g| >= p.size
      requires p.buffer != m[pi] && p.buffer != v[pi]
      modifies p.buffer, m[pi], v[pi]
      ensures StateOf(p, pi) == AdamParam(lib, config, t, lrT, old(StateOf(p, pi)), g)
      ensures Around(p) == old(Around(p))
    {
      ghost var s0 := StateOf(p, pi);
      assert StateFits(s0);
      ghost var s1 := AdamParam(lib, config, t, lrT, s0, g);
      ghost var D0, D1, M1, V1 := s0.data, s1.data, s1.m, s1.v;
      var mb, vb, buf, off := m[pi], v[pi], p.buffer, p.offset;
      ghost var B0 := buf[..];
      assert mb != vb;
      var i := 0;
      while i < p.size
        invariant 0 <= i <= p.size
        invariant Progress(buf, mb, vb, off, p.size, i, B0, D0, D1, s0.m, M1, s0.v, V1)
      {
        AdamParamAt(lib, config, t, lrT, s0, g, i);
        UpdateElement(lib, lrT, buf, mb, vb, off, p.size, i, g, B0, D0, D1, s0.m, M1, s0.v, V1);
        i := i + 1;
      }
      assert StateOf(p, pi).data == s1.data;
      assert mb[..] == s1.m && vb[..] == s1.v;
    }
  
    /** Elements below i are updated, the others and the rest of the
        buffer are as they were. */
    ghost predicate Progress(buf: array<real>, mb: array<real>, vb: array<real>, off: nat, n: nat, i: nat,
                             B0: Vec, D0: Vec, D1: Vec, M0: Vec, M1: Vec, V0: Vec, V1: Vec)
      reads buf, mb, vb
    {
      && off + n <= buf.Length == |B0| && mb.Length == n && vb.Length == n
      && |D0| == n && |D1| == n && |M0| == n && |M1| == n && |V0| == n && |V1| == n
      && (forall k :: 0 <= k < buf.Length && !(off <= k < off + n) ==> buf[k] == B0[k])
      && (forall k :: 0 <= k < n ==> buf[off + k] == (if k < i then D1[k] else D0[k]))
      && (forall k :: 0 <= k < n ==> mb[k] == (if k < i then M1[k] else M0[k]))
      && (forall k :: 0 <= k < n ==> vb[k] == (if k < i then V1[k] else V0[k]))
    }

    /** One turn of the inner loop of `step`: element i's moments, then its
        weight from the new moments. */
    method UpdateElement(lib: MathLib, lrT: real, buf: array<real>, mb: array<real>, vb: array<real>,
                         off: nat, n: nat, i: nat, g: Vec,
                         ghost B0: Vec, ghost D0: Vec, ghost D1: Vec, ghost M0: Vec, ghost M1: Vec,
                         ghost V0: Vec, ghost V1: Vec)
      requires Lawful(lib) && Sound(config) && t >= 1 && i < n && |g| >= n
      requires buf != mb && buf != vb && mb != vb
      requires Progress(buf, mb, vb, off, n, i, B0, D0, D1, M0, M1, V0, V1)
      requires M1[i] == MomentM(config.beta1, M0[i], g[i]) && V1[i] == MomentV(config.beta2, V0[i], g[i])
      requires V1[i] >= 0.0 && D1[i] == D0[i] - AdamDelta(lib, config, t, lrT, M1[i], V1[i])
      modifies buf, mb, vb
      ensures Progress(buf, mb, vb, off, n, i + 1, B0, D0, D1, M0, M1, V0, V1)
    {
      var mi := MomentM(config.beta1, mb[i], g[i]);
      var vi := MomentV(config.beta2, vb[i], g[i]);
      var wi := buf[off + i] - AdamDelta(lib, config, t, lrT, mi, vi);
      assert wi == D1[i];
      mb[i] := mi;
      vb[i] := vi;
      buf[off + i] := wi;
    }
  
    /** The states of a parameter list. */
    ghost function States(params: seq<Tensor>): (S: seq<ParamState>)
      reads WeightBuffers(params), Moments()
      requires Fits(params)
      ensures |S| == |params| && forall k :: 0 <= k < |params| ==> S[k] == StateOf(params[k], k)
    {
      seq(|params|, k requires 0 <= k < |params| && Fits(params) reads WeightBuffers(params), Moments()
        => StateOf(params[k], k))
    }

    /** The target of every parameter at the current step. */
    ghost function Targets(lib: MathLib, ts: nat, lrT: real, params: seq<Tensor>, S0: seq<ParamState>): (T: seq<ParamState>)
      reads Moments(), GradBuffers(params)
      requires Valid() && Lawful(lib) && ts >= 1 && Fits(params) && |S0| == |params|
      requires forall k :: 0 <= k < |params| ==> StateFits(S0[k]) && |S0[k].data| == params[k].size
      ensures |T| == |params|
      ensures forall k :: 0 <= k < |params| ==> T[k] == StepTarget(lib, config, ts, lrT, params[k], S0[k])
    {
      seq(|params|, k requires 0 <= k < |params| reads GradBuffers(params)
        => StepTarget(lib, config, ts, lrT, params[k], S0[k]))
    }

    /** Parameters below pi hold their targets, the rest their old state,
        and every buffer outside the views is as it was. */
    ghost predicate StepProgress(params: seq<Tensor>, pi: nat, S0: seq<ParamState>, T: seq<ParamState>,
                                 A0: seq<seq<real>>)
      reads WeightBuffers(params), Moments()
      requires Fits(params)
    {
      && |S0| == |params| && |T| == |params| && |A0| == |params|
      && (forall k :: 0 <= k < |params| ==> Around(params[k]) == A0[k])
      && (forall k :: 0 <= k < |params| ==> StateOf(params[k], k) == if k < pi then T[k] else S0[k])
    }

    /** One turn of the outer loop of `step`: parameter pi is updated when
        it has a gradient and skipped otherwise. */
    method StepParam(lib: MathLib, lrT: real, params: seq<Tensor>, pi: nat,
                     ghost S0: seq<ParamState>, ghost T: seq<ParamState>, ghost A0: seq<seq<real>>)
      requires Valid() && Lawful(lib) && t >= 1 && Fits(params) && pi < |params|
      requires StepProgress(params, pi, S0, T, A0)
      requires StateFits(S0[pi]) && |S0[pi].data| == params[pi].size
      requires T[pi] == StepTarget(lib, config, t, lrT, params[pi], S0[pi])
      modifies params[pi].buffer, m[pi], v[pi]
      ensures Valid() && Fits(params) && StepProgress(params, pi + 1, S0, T, A0)
    {
      var p := params[pi];
      if p.grad != null {
        var g := p.GradData();
        UpdateParam(lib, lrT, p, pi, g);
      }
      assert StateOf(p, pi) == T[pi];
      assert v[pi][..] == T[pi].v;
    }

    /** `step(params)`: t advances by one; with lrT the decayed rate of the
        new t, every parameter with a gradient gets the Adam update of its
        moments and weights, every parameter without one is left alone, and
        nothing outside the parameters' views changes. */
    method Step(lib: MathLib, params: seq<Tensor>)
      requires Valid() && Lawful(lib) && Fits(params)
      modifies this`t, Moments(), WeightBuffers(params)
      ensures Valid() && Fits(params) && t == old(t) + 1
      ensures forall pi :: 0 <= pi < |params| ==> Around(params[pi]) == old(Around(params[pi]))
      ensures forall pi :: 0 <= pi < |params| ==>
        StateOf(params[pi], pi) == old(StepTarget(lib, config, t + 1, LrAt(config, t + 1), params[pi], StateOf(params[pi], pi)))
    {
      ghost var S0 := States(params);
      ghost var A0 := seq(|params|, k requires 0 <= k < |params| && Fits(params) reads WeightBuffers(params), Moments()
        => Around(params[k]));
      t := t + 1;
      var lrT := LrAt(config, t);
      ghost var T := Targets(lib, t, lrT, params, S0);
      StepAll(lib, lrT, params, S0, T, A0);
    }

    /** The outer loop of `step`, over the parameters in order. */
    method StepAll(lib: MathLib, lrT: real, params: seq<Tensor>,
                   ghost S0: seq<ParamState>, ghost T: seq<ParamState>, ghost A0: seq<seq<real>>)
      requires Valid() && Lawful(lib) && t >= 1 && Fits(params)
      requires StepProgress(params, 0, S0, T, A0)
      requires forall k :: 0 <= k < |params| ==> StateFits(S0[k]) && |S0[k].data| == params[k].size
      requires forall k :: 0 <= k < |params| ==> T[k] == StepTarget(lib, config, t, lrT, params[k], S0[k])
      modifies Moments(), WeightBuffers(params)
      ensures Valid() && Fits(params) && StepProgress(params, |params|, S0, T, A0)
    {
      for pi := 0 to |params|
        invariant Valid() && Fits(params) && StepProgress(params, pi, S0, T, A0)
      {
        StepParam(lib, lrT, params, pi, S0, T, A0);
      }
    }
  }
}
