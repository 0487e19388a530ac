/**
 * The validators every training request passes before it reaches the
 * engine: text sanitising, the model-config whitelist, the optimizer-config
 * check and the memory estimate. JavaScript values that arrive as
 * `unknown` are modelled by the JsValue datatype.
 */
module Sanitize {
  import ModelMath
  /** `SECURITY_LIMITS.maxInputTextLength` */
  const MaxInputTextLength: nat := 50000

  /** A JavaScript value as the validators see it: a finite number, a
      non-finite one (NaN or an infinity), a string, null, an object with
      its own keys in order, or anything else (a boolean, a function,
      undefined). */
  datatype JsValue =
    | Num(x: real)
    | NonFinite
    | Str(s: string)
    | Null
    | Obj(keys: seq<string>, props: map<string, JsValue>)
    | Other

  datatype Result<T> = Ok(value: T) | Err(error: ValidationError)

  /** The error each `throw` raises, by kind. */
  datatype ValidationError =
    | NotAString
    | TooLong(length: nat)
    | Empty
    | NotAnObject
    | MissingKey(key: string)
    | NotFiniteNumber(key: string)
    | ForbiddenKey(key: string)
    | OutOfRange(key: string)
    | NotDivisible

  // ---- sanitizeText ----

  /** `replace(/\0/g, '')` */
  function StripNul(s: string): (r: string)
    ensures |r| <= |s|
    ensures forall c :: c in r <==> c in s && c != '\0'
    decreases |s|
  {
    if s == [] then ""
    else (if s[0] == '\0' then "" else [s[0]]) + StripNul(s[1..])
  }

  /** The index just past the first '>' of s. */
  function AfterFirstGt(s: string): (k: nat)
    requires '>' in s
    ensures 0 < k <= |s| && s[k - 1] == '>' && '>' !in s[..k - 1]
    decreases |s|
  {
    if s[0] == '>' then 1
    else
      assert '>' in s[1..];
      var k := AfterFirstGt(s[1..]) + 1;
      assert s[..k - 1] == [s[0]] + s[1..][..k - 2];
      k
  }

  /** `replace(/<[^>]*>/g, '')`: scanning left to right, a '<' with a '>'
      somewhere after it starts a match that runs to the first such '>' and
      is removed; a '<' with no '>' after it stays. */
  function StripTags(s: string): (r: string)
    ensures |r| <= |s|
    ensures forall c :: c in r ==> c in s
    decreases |s|
  {
    if s == [] then ""
    else if s[0] == '<' && '>' in s[1..] then
      var k := AfterFirstGt(s[1..]) + 1;
      var r := StripTags(s[k..]);
      assert forall c :: c in s[k..] ==> c in s;
      r
    else
      var r := StripTags(s[1..]);
      assert forall c :: c in s[1..] ==> c in s;
      [s[0]] + r
  }

  /** No '<' is followed anywhere later by a '>'. */
  predicate NoTag(r: string)
  {
    forall i, j :: 0 <= i < j < |r| && r[i] == '<' ==> r[j] != '>'
  }

  /** No complete tag survives tag stripping. */
  lemma {:induction false} NoTagRemains(s: string)
    ensures NoTag(StripTags(s))
    decreases |s|
  {
    if s != [] {
      if s[0] == '<' && '>' in s[1..] {
        var k := AfterFirstGt(s[1..]) + 1;
        NoTagRemains(s[k..]);
        assert StripTags(s) == StripTags(s[k..]);
      } else {
        var rest := StripTags(s[1..]);
        NoTagRemains(s[1..]);
        var r := [s[0]] + rest;
        assert StripTags(s) == r;
        forall i, j | 0 <= i < j < |r| && r[i] == '<' ensures r[j] != '>' {
          assert r[j] == rest[j - 1];
          if i == 0 {
            assert s[0] == '<' && '>' !in s[1..];
            assert rest[j - 1] in rest;
          } else {
            assert r[i] == rest[i - 1];
          }
        }
      }
    }
  }

  /** Text without a '<' is left as it is. */
  lemma {:induction false} StripTagsWithoutOpen(s: string)
    requires '<' !in s
    ensures StripTags(s) == s
    decreases |s|
  {
    if s != [] {
      StripTagsWithoutOpen(s[1..]);
      assert s == [s[0]] + s[1..];
    }
  }

  /** `sanitizeText(input)` */
  function SanitizeText(input: JsValue): (r: Result<string>)
    ensures !input.Str? ==> r == Err(NotAString)
    ensures r.Ok? ==> 0 < |r.value| <= MaxInputTextLength && '\0' !in r.value
    ensures r.Ok? ==> NoTag(r.value)
  {
    if !input.Str? then Err(NotAString)
    else
      var text := StripTags(StripNul(input.s));
      NoTagRemains(StripNul(input.s));
      if |text| > MaxInputTextLength then Err(TooLong(|text|))
      else if |text| == 0 then Err(Empty)
      else Ok(text)
  }

  /** The length checks are the only other reasons to reject a string:
      what is accepted is exactly the stripped text. */
  lemma SanitizeTextAccepts(s: string)
    ensures var text := StripTags(StripNul(s));
      SanitizeText(Str(s)).Ok? <==> 0 < |text| <= MaxInputTextLength
    ensures SanitizeText(Str(s)).Ok? ==> SanitizeText(Str(s)).value == StripTags(StripNul(s))
  {
  }

  // ---- validateModelConfig ----

  /** `['nLayer', 'nHead', 'nEmbd', 'blockSize']` */
  function AllowedKeys(): seq<string>
  {
    ["nLayer", "nHead", "nEmbd", "blockSize"]
  }

  predicate Forbidden(key: string)
  {
    key == "__proto__" || key == "constructor" || key == "prototype"
  }

  datatype ModelLimits = ModelLimits(nLayer: real, nHead: real, nEmbd: real, blockSize: real)

  /** `Math.trunc` */
  function Trunc(x: real): int
  {
    if x >= 0.0 then x.Floor else -((-x).Floor)
  }

  /** JavaScript `a % b` on numbers: the remainder of truncated division,
      with the sign of a. */
  function JsRem(a: real, b: real): real
    requires b != 0.0
  {
    a - b * (Trunc(a / b) as real)
  }

  /** The bounds checks, in the order the source throws. */
  function CheckBounds(l: ModelLimits): (r: Result<ModelLimits>)
    ensures r.Ok? <==> && 1.0 <= l.nLayer <= 8.0 && 1.0 <= l.nHead <= 8.0
                        && 16.0 <= l.nEmbd <= 256.0 && JsRem(l.nEmbd, l.nHead) == 0.0
                        && 16.0 <= l.blockSize <= 128.0
    ensures r.Ok? ==> r.value == l
  {
    if l.nLayer < 1.0 || l.nLayer > 8.0 then Err(OutOfRange("nLayer"))
    else if l.nHead < 1.0 || l.nHead > 8.0 then Err(OutOfRange("nHead"))
    else if l.nEmbd < 16.0 || l.nEmbd > 256.0 then Err(OutOfRange("nEmbd"))
    else if JsRem(l.nEmbd, l.nHead) != 0.0 then Err(NotDivisible)
    else if l.blockSize < 16.0 || l.blockSize > 128.0 then Err(OutOfRange("blockSize"))
    else Ok(l)
  }

  /** The first allowed key (from index i on) that is missing or not a
      finite number, if any. */
  function FirstBadKey(props: map<string, JsValue>, i: nat): Result<()>
    requires i <= |AllowedKeys()|
    decreases |AllowedKeys()| - i
  {
    if i == |AllowedKeys()| then Ok(())
    else
      var key := AllowedKeys()[i];
      if key !in props then Err(MissingKey(key))
      else if !props[key].Num? then Err(NotFiniteNumber(key))
      else FirstBadKey(props, i + 1)
  }

  /** The first own key (from index i on) that is forbidden, if any. */
  function FirstForbidden(keys: seq<string>, i: nat): Result<()>
    requires i <= |keys|
    decreases |keys| - i
  {
    if i == |keys| then Ok(())
    else if Forbidden(keys[i]) then Err(ForbiddenKey(keys[i]))
    else FirstForbidden(keys, i + 1)
  }

  /** What `validateModelConfig` returns or throws. */
  function ModelConfigResult(config: JsValue): Result<ModelLimits>
  {
    if !config.Obj? then Err(NotAnObject)
    else
      var props := config.props;
      match FirstBadKey(props, 0)
      case Err(e) => Err(e)
      case Ok(_) =>
        match FirstForbidden(config.keys, 0)
        case Err(e) => Err(e)
        case Ok(_) =>
          FirstBadKeyOk(props);
          CheckBounds(Limits(props))
  }

  /** The key loop passes exactly when all four keys are finite numbers. */
  lemma FirstBadKeyOk(props: map<string, JsValue>)
    ensures FirstBadKey(props, 0).Ok? <==> HasLimits(props)
  {
    assert AllowedKeys()[0] == "nLayer" && AllowedKeys()[1] == "nHead";
    assert AllowedKeys()[2] == "nEmbd" && AllowedKeys()[3] == "blockSize";
  }

  lemma {:induction false} FirstForbiddenOk(keys: seq<string>, i: nat)
    requires i <= |keys|
    ensures FirstForbidden(keys, i).Ok? <==> forall k :: i <= k < |keys| ==> !Forbidden(keys[k])
    decreases |keys| - i
  {
    if i < |keys| {
      FirstForbiddenOk(keys, i + 1);
    }
  }

  /** The four allowed keys are present as finite numbers. */
  predicate HasLimits(props: map<string, JsValue>)
  {
    && "nLayer" in props && props["nLayer"].Num?
    && "nHead" in props && props["nHead"].Num?
    && "nEmbd" in props && props["nEmbd"].Num?
    && "blockSize" in props && props["blockSize"].Num?
  }

  /** The four values of a config that has them. */
  function Limits(props: map<string, JsValue>): ModelLimits
    requires HasLimits(props)
  {
    ModelLimits(props["nLayer"].x, props["nHead"].x, props["nEmbd"].x, props["blockSize"].x)
  }

  /** `validateModelConfig` accepts exactly an object with the four keys as
      finite numbers, no forbidden own key, and values within the bounds;
      it returns exactly those four values. */
  lemma ModelConfigAccepts(config: JsValue)
    ensures ModelConfigResult(config).Ok? <==>
      && config.Obj? && HasLimits(config.props)
      && (forall k :: 0 <= k < |config.keys| ==> !Forbidden(config.keys[k]))
      && CheckBounds(Limits(config.props)).Ok?
    ensures ModelConfigResult(config).Ok? ==> ModelConfigResult(config).value == Limits(config.props)
  {
    if config.Obj? {
      FirstBadKeyOk(config.props);
      FirstForbiddenOk(config.keys, 0);
    }
  }

  /** A missing or non-finite key is reported before any forbidden key or
      bound is looked at. */
  lemma KeyChecksComeFirst(config: JsValue)
    requires config.Obj? && !HasLimits(config.props)
    ensures ModelConfigResult(config).Err?
    ensures ModelConfigResult(config).error.MissingKey? || ModelConfigResult(config).error.NotFiniteNumber?
  {
    FirstBadKeyOk(config.props);
    FirstBadKeyErr(config.props, 0);
  }

  lemma {:induction false} FirstBadKeyErr(props: map<string, JsValue>, i: nat)
    requires i <= |AllowedKeys()|
    ensures FirstBadKey(props, i).Err? ==>
      FirstBadKey(props, i).error.MissingKey? || FirstBadKey(props, i).error.NotFiniteNumber?
    decreases |AllowedKeys()| - i
  {
    if i < |AllowedKeys()| {
      FirstBadKeyErr(props, i + 1);
    }
  }

  /** A forbidden own key is rejected whatever the other values are. */
  lemma ForbiddenKeyRejected(config: JsValue, k: nat)
    requires config.Obj? && k < |config.keys| && Forbidden(config.keys[k])
    ensures ModelConfigResult(config).Err?
  {
    ModelConfigAccepts(config);
  }

  /** `validateModelConfig(config)`: the loop over the allowed keys copies
      each into `safe` (throwing on a missing or non-finite one), the loop
      over the own keys throws on a forbidden one, then the bounds. */
  method ValidateModelConfig(config: JsValue) returns (r: Result<ModelLimits>)
    ensures r == ModelConfigResult(config)
  {
    if !config.Obj? {
      return Err(NotAnObject);
    }
    var src := config.props;
    var safe: map<string, real> := map[];
    var allowed := AllowedKeys();
    for i := 0 to |allowed|
      invariant FirstBadKey(src, 0) == FirstBadKey(src, i)
      invariant forall k :: 0 <= k < i ==>
                  allowed[k] in safe && allowed[k] in src && src[allowed[k]].Num? && safe[allowed[k]] == src[allowed[k]].x
    {
      var key := allowed[i];
      if key !in src {
        return Err(MissingKey(key));
      }
      var val := src[key];
      if !val.Num? {
        return Err(NotFiniteNumber(key));
      }
      safe := safe[key := val.x];
    }
    for i := 0 to |config.keys|
      invariant FirstForbidden(config.keys, 0) == FirstForbidden(config.keys, i)
    {
      var key := config.keys[i];
      if key == "__proto__" || key == "constructor" || key == "prototype" {
        return Err(ForbiddenKey(key));
      }
    }
    assert allowed[0] == "nLayer" && allowed[1] == "nHead" && allowed[2] == "nEmbd" && allowed[3] == "blockSize";
    FirstBadKeyOk(src);
    r := CheckBounds(ModelLimits(safe["nLayer"], safe["nHead"], safe["nEmbd"], safe["blockSize"]));
  }

  // ---- validateAdamConfig ----

  datatype AdamLimits = AdamLimits(lr: real, maxSteps: real)

  /** A property read: undefined (Other) when the key is absent. */
  function Prop(props: map<string, JsValue>, key: string): JsValue
  {
    if key in props then props[key] else Other
  }

  /** `validateAdamConfig(config)` */
  function ValidateAdamConfig(config: JsValue): (r: Result<AdamLimits>)
    ensures r.Ok? <==>
              && config.Obj? && Prop(config.props, "lr").Num? && Prop(config.props, "maxSteps").Num?
              && 0.0 < Prop(config.props, "lr").x <= 0.05
              && 1.0 <= Prop(config.props, "maxSteps").x <= 2000.0
    ensures r.Ok? ==> r.value == AdamLimits(Prop(config.props, "lr").x, Prop(config.props, "maxSteps").x)
  {
    if !config.Obj? then Err(NotAnObject)
    else
      var lr := Prop(config.props, "lr");
      var maxSteps := Prop(config.props, "maxSteps");
      if !lr.Num? then Err(NotFiniteNumber("lr"))
      else if !maxSteps.Num? then Err(NotFiniteNumber("maxSteps"))
      else if lr.x <= 0.0 || lr.x > 0.05 then Err(OutOfRange("lr"))
      else if maxSteps.x < 1.0 || maxSteps.x > 2000.0 then Err(OutOfRange("maxSteps"))
      else Ok(AdamLimits(lr.x, maxSteps.x))
  }

  // ---- estimateMemoryMB ----

  datatype Option<T> = None | Some(value: T)

  /** `estimateMemoryMB(config)`: weights, gradients and the two Adam
      moments, four bytes each, with vocabSize defaulting to 100. */
  function EstimateMemoryMB(nLayer: real, nEmbd: real, vocabSize: Option<real>): (mb: real)
    ensures var vs := if vocabSize.Some? then vocabSize.value else 100.0;
      mb * 1000000.0 == 16.0 * (3.0 * vs * nEmbd + 12.0 * nLayer * nEmbd * nEmbd)
  {
    var vs := if vocabSize.Some? then vocabSize.value else 100.0;
    var paramCount := vs * nEmbd * 2.0 + nLayer * 12.0 * nEmbd * nEmbd + vs * nEmbd;
    (paramCount * 4.0 * 4.0) / 1000000.0
  }

  /** The estimate counts wpe as vocabSize rows, so it is exactly
      computeParamCount's four bytes times four copies when blockSize equals
      vocabSize. */
  lemma EstimateIsParamCount(c: ModelMath.Config)
    requires c.blockSize == c.vocabSize
    ensures EstimateMemoryMB(c.nLayer as real, c.nEmbd as real, Some(c.vocabSize as real)) * 1000000.0
            == 16.0 * (ModelMath.ComputeParamCount(c) as real)
  {
    var vs, E, L := c.vocabSize, c.nEmbd, c.nLayer;
    assert ModelMath.ComputeParamCount(c) == 3 * (vs * E) + 12 * (L * (E * E));
    assert (vs * E) as real == vs as real * E as real;
    assert (E * E) as real == E as real * E as real;
    assert (L * (E * E)) as real == L as real * (E * E) as real;
  }
}
