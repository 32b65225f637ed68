/**
 * The prediction endpoint of app.py: the availability guard, the ordered
 * feature validation, the categorical/numeric partition, the assembly of the
 * classifier's input row, and the formatting of the result; plus the health
 * flags. The fitted encoder and classifier are foreign objects and appear as
 * function-valued fields; a call that raises is `None`.
 */
module App {
  import opened Wrappers
  import opened Schema

  // ---------------------------------------------------------------- artifacts

  /**
   * A class label as sklearn stores it in `classes_` and returns it from
   * `predict`: a numpy scalar of integer, float, string or boolean type
   * (numpy's int64, float64, str_ or bool_).
   */
  datatype Label = IntLabel(i: int) | FloatLabel(x: real) | StrLabel(s: string) | BoolLabel(b: bool)

  /**
   * Python's `label == 1` (app.py:101): numbers and booleans compare
   * numerically, so the integer 1, the float 1.0 and True equal 1; no string does.
   */
  predicate EqualsOne(l: Label): (b: bool)
    ensures b <==> l == IntLabel(1) || l == FloatLabel(1.0) || l == BoolLabel(true)
    ensures l.StrLabel? ==> !b
  {
    match l
    case IntLabel(i) => i == 1
    case FloatLabel(x) => x == 1.0
    case BoolLabel(b) => b
    case StrLabel(_) => false
  }

  /** A dense two-dimensional array, one sequence per row. */
  type Matrix = seq<seq<real>>

  /** The loaded encoder: `transform` maps a matrix of raw values to numeric columns. */
  datatype Encoder<!V> = Encoder(transform: seq<seq<V>> -> Option<Matrix>)

  /**
   * The loaded classifier: `predict(X)[0]`, `predict_proba(X)[0]` and
   * `classes_`. `None` from a call means that the call raised.
   */
  datatype Classifier = Classifier(
    predict: Matrix -> Option<Label>,
    predictProba: Matrix -> Option<seq<real>>,
    classes: seq<Label>)

  /** Every sklearn transformer returns one output row per input row. */
  ghost predicate RowPreserving<V(!new)>(e: Encoder<V>) {
    forall m :: e.transform(m).Some? ==> |e.transform(m).value| == |m|
  }

  // ---------------------------------------------------------------- responses

  /** What Python's `float(value)` does with one submitted value. */
  datatype Conversion =
    | Converted(value: real)   // returns a float
    | Rejected                 // raises ValueError or TypeError (caught per feature)
    | Raised                   // raises anything else, e.g. OverflowError (caught by the outer handler)

  datatype PredictionResult = PredictionResult(
    prediction: string,
    bankruptcyRisk: real,
    healthyProbability: real,
    confidence: real,
    rawPrediction: Label,
    modelClasses: seq<Label>)

  datatype Payload = ErrorBody(error: string) | ResultBody(result: PredictionResult)

  /** An HTTP status code and the JSON body sent with it. */
  datatype Response = Response(status: nat, payload: Payload)

  datatype HealthReport = HealthReport(status: string, modelLoaded: bool, encoderLoaded: bool)

  const ModelNotLoadedMessage: string :=
    "Model not loaded. Create a model by running `python train_model.py` or place a valid `model.pkl` in the project root."
  const EncoderNotLoadedMessage: string :=
    "Encoder not loaded. Encoder file is required for this model."
  const PredictionFailedMessage: string :=
    "Prediction failed. See server logs for details."

  /** The 500 response of the outer exception handler; the exception's text is never part of it. */
  const PredictionFailed: Response := Response(500, ErrorBody(PredictionFailedMessage))

  // ---------------------------------------------------------------- validation

  /** The outcome of checking one feature name against the submitted record. */
  datatype FeatureCheck = Valid(value: real) | Absent | NotNumeric | Unexpected

  /**
   * app.py:62-67 for one name: absent, or else the outcome of `float()` on
   * its value.
   */
  function CheckFeature<V>(data: map<string, V>, parse: V -> Conversion, name: string): (c: FeatureCheck)
    ensures c == Absent <==> name !in data
    ensures c.Valid? <==> name in data && parse(data[name]).Converted?
    ensures c.Valid? ==> c.value == parse(data[name]).value
    ensures c == NotNumeric <==> name in data && parse(data[name]) == Rejected
    ensures c == Unexpected <==> name in data && parse(data[name]) == Raised
  {
    if name !in data then Absent
    else match parse(data[name])
      case Converted(x) => Valid(x)
      case Rejected => NotNumeric
      case Raised => Unexpected
  }

  datatype FeatureError = MissingFeature(name: string) | InvalidNumericValue(name: string) | ConversionRaised

  function ErrorFor(name: string, c: FeatureCheck): FeatureError
    requires !c.Valid?
  {
    match c
    case Absent => MissingFeature(name)
    case NotNumeric => InvalidNumericValue(name)
    case Unexpected => ConversionRaised
  }

  /** Position k is the first of FeatureNames whose check fails. */
  predicate FirstFailureAt<V>(data: map<string, V>, parse: V -> Conversion, k: nat) {
    && k < |FeatureNames|
    && (forall j :: 0 <= j < k ==> CheckFeature(data, parse, FeatureNames[j]).Valid?)
    && !CheckFeature(data, parse, FeatureNames[k]).Valid?
  }

  /**
   * Validation of the first n feature names, in order, stopping at the first
   * failure: the specification of the loop at app.py:60-67. What it computes
   * is stated by the three lemmas below.
   */
  function ValidatePrefix<V>(data: map<string, V>, parse: V -> Conversion, n: nat): Result<seq<real>, FeatureError>
    requires n <= |FeatureNames|
  {
    if n == 0 then Success([])
    else
      match ValidatePrefix(data, parse, n - 1)
      case Failure(e) => Failure(e)
      case Success(features) =>
        var c := CheckFeature(data, parse, FeatureNames[n - 1]);
        if c.Valid? then Success(features + [c.value])
        else Failure(ErrorFor(FeatureNames[n - 1], c))
  }

  /** Validation of a prefix succeeds iff every name in it is present and converts. */
  lemma {:induction false} ValidatePrefixSucceeds<V>(data: map<string, V>, parse: V -> Conversion, n: nat)
    requires n <= |FeatureNames|
    ensures ValidatePrefix(data, parse, n).Success? <==>
      forall j :: 0 <= j < n ==> CheckFeature(data, parse, FeatureNames[j]).Valid?
  {
    if n > 0 {
      ValidatePrefixSucceeds(data, parse, n - 1);
    }
  }

  /** On success, the values are the conversions of the first n names, in schema order. */
  lemma {:induction false} ValidatePrefixValues<V>(data: map<string, V>, parse: V -> Conversion, n: nat)
    requires n <= |FeatureNames|
    ensures var r := ValidatePrefix(data, parse, n);
      r.Success? ==> |r.value| == n && forall j :: 0 <= j < n ==>
        FeatureNames[j] in data && CheckFeature(data, parse, FeatureNames[j]) == Valid(r.value[j])
  {
    if n > 0 {
      ValidatePrefixValues(data, parse, n - 1);
      var prev := ValidatePrefix(data, parse, n - 1);
      var c := CheckFeature(data, parse, FeatureNames[n - 1]);
      if prev.Success? && c.Valid? {
        var r := prev.value + [c.value];
        assert ValidatePrefix(data, parse, n) == Success(r);
        assert forall j :: 0 <= j < n - 1 ==> r[j] == prev.value[j];
      }
    }
  }

  /** On failure, the error is the one of the first name whose check fails. */
  lemma {:induction false} ValidatePrefixError<V>(data: map<string, V>, parse: V -> Conversion, n: nat)
    requires n <= |FeatureNames|
    ensures var r := ValidatePrefix(data, parse, n);
      r.Failure? ==> exists k :: (0 <= k < n && FirstFailureAt(data, parse, k) &&
        r.error == ErrorFor(FeatureNames[k], CheckFeature(data, parse, FeatureNames[k])))
  {
    if n > 0 {
      ValidatePrefixError(data, parse, n - 1);
      var prev := ValidatePrefix(data, parse, n - 1);
      if prev.Failure? {
        var k :| 0 <= k < n - 1 && FirstFailureAt(data, parse, k) &&
          prev.error == ErrorFor(FeatureNames[k], CheckFeature(data, parse, FeatureNames[k]));
        assert ValidatePrefix(data, parse, n) == prev;
      } else {
        ValidatePrefixSucceeds(data, parse, n - 1);
        if !CheckFeature(data, parse, FeatureNames[n - 1]).Valid? {
          assert FirstFailureAt(data, parse, n - 1);
        }
      }
    }
  }

  /** One more name: the prefix grows by its value, or validation stops at it. */
  lemma ValidateStep<V>(data: map<string, V>, parse: V -> Conversion, n: nat, features: seq<real>)
    requires n < |FeatureNames|
    requires ValidatePrefix(data, parse, n) == Success(features)
    ensures ValidatePrefix(data, parse, n + 1) ==
      var c := CheckFeature(data, parse, FeatureNames[n]);
      if c.Valid? then Success(features + [c.value]) else Failure(ErrorFor(FeatureNames[n], c))
  {
  }

  /** Once validation has stopped at a name, the later names change nothing. */
  lemma {:induction false} FailureSticks<V>(data: map<string, V>, parse: V -> Conversion, n: nat, m: nat)
    requires n <= m <= |FeatureNames|
    requires ValidatePrefix(data, parse, n).Failure?
    ensures ValidatePrefix(data, parse, m) == ValidatePrefix(data, parse, n)
    decreases m - n
  {
    if n < m {
      FailureSticks(data, parse, n + 1, m);
    }
  }

  /**
   * The whole validation of one request: it succeeds iff every feature is
   * present and converts, then holds the eighteen values in schema order;
   * otherwise its error is the one of the first failing feature.
   */
  function Validation<V>(data: map<string, V>, parse: V -> Conversion): (r: Result<seq<real>, FeatureError>)
    ensures r.Success? <==> forall j :: 0 <= j < |FeatureNames| ==> CheckFeature(data, parse, FeatureNames[j]).Valid?
    ensures r.Success? ==> |r.value| == |FeatureNames|
    ensures r.Success? ==> forall j :: 0 <= j < |FeatureNames| ==>
      FeatureNames[j] in data && CheckFeature(data, parse, FeatureNames[j]) == Valid(r.value[j])
    ensures r.Failure? ==> exists k :: (0 <= k < |FeatureNames| && FirstFailureAt(data, parse, k) &&
      r.error == ErrorFor(FeatureNames[k], CheckFeature(data, parse, FeatureNames[k])))
  {
    ValidatePrefixSucceeds(data, parse, |FeatureNames|);
    ValidatePrefixValues(data, parse, |FeatureNames|);
    ValidatePrefixError(data, parse, |FeatureNames|);
    ValidatePrefix(data, parse, |FeatureNames|)
  }

  /** app.py:60-67: converts every feature to a float, in schema order, returning at the first failure. */
  method ExtractFeatures<V>(data: map<string, V>, parse: V -> Conversion) returns (r: Result<seq<real>, FeatureError>)
    ensures r == Validation(data, parse)
  {
    var features: seq<real> := [];
    var i := 0;
    while i < |FeatureNames|
      invariant 0 <= i <= |FeatureNames|
      invariant ValidatePrefix(data, parse, i) == Success(features)
    {
      var name := FeatureNames[i];
      ValidateStep(data, parse, i, features);
      if name !in data {
        FailureSticks(data, parse, i + 1, |FeatureNames|);
        return Failure(MissingFeature(name));
      }
      match parse(data[name]) {
        case Converted(x) =>
          features := features + [x];
        case Rejected =>
          FailureSticks(data, parse, i + 1, |FeatureNames|);
          return Failure(InvalidNumericValue(name));
        case Raised =>
          FailureSticks(data, parse, i + 1, |FeatureNames|);
          return Failure(ConversionRaised);
      }
      i := i + 1;
    }
    r := Success(features);
  }

  // ---------------------------------------------------------------- partition

  predicate AllPresent<V>(data: map<string, V>) {
    forall j :: 0 <= j < |FeatureNames| ==> FeatureNames[j] in data
  }

  /** The elements of s at the given positions, in the order of the positions. */
  function Select<T>(s: seq<T>, positions: seq<nat>): (r: seq<T>)
    requires forall k :: 0 <= k < |positions| ==> positions[k] < |s|
  {
    seq(|positions|, k requires 0 <= k < |positions| => s[positions[k]])
  }

  /** One step of the partition loop on either list: position i is appended, or the list stays. */
  lemma SelectStep<T>(s: seq<T>, i: nat, categorical: bool)
    requires i < |FeatureNames| == |s|
    ensures Select(s, IndicesBelow(i + 1, categorical)) ==
      if IsCategorical(FeatureNames[i]) == categorical then Select(s, IndicesBelow(i, categorical)) + [s[i]]
      else Select(s, IndicesBelow(i, categorical))
  {
    IndicesStep(i, categorical);
  }

  /** The raw submitted values, in schema order. */
  function RawValues<V>(data: map<string, V>): (r: seq<V>)
    requires AllPresent(data)
  {
    seq(|FeatureNames|, i requires 0 <= i < |FeatureNames| => data[FeatureNames[i]])
  }

  /** categorical_values: the raw values of CATEGORICAL_FEATURES, unconverted, in schema order. */
  function CategoricalValues<V>(data: map<string, V>): (r: seq<V>)
    requires AllPresent(data)
    ensures |r| == |CategoricalFeatures|
    ensures forall k :: 0 <= k < |CategoricalFeatures| ==> CategoricalFeatures[k] in data && r[k] == data[CategoricalFeatures[k]]
  {
    CategoricalIndicesNameFeatures();
    Select(RawValues(data), CategoricalIndices())
  }

  /** numeric_values: the converted values of every other feature, in schema order. */
  function NumericValues(features: seq<real>): (r: seq<real>)
    requires |features| == |FeatureNames|
    ensures |r| == |NumericIndices()| == 14
    ensures forall k :: 0 <= k < |r| ==> r[k] == features[NumericIndices()[k]] && !IsCategorical(FeatureNames[NumericIndices()[k]])
  {
    FeatureCounts();
    Select(features, NumericIndices())
  }

  /** app.py:70-77: one pass over FEATURE_NAMES sending each value to one of the two lists. */
  method Partition<V>(data: map<string, V>, features: seq<real>) returns (categorical: seq<V>, numeric: seq<real>)
    requires AllPresent(data)
    requires |features| == |FeatureNames|
    ensures categorical == CategoricalValues(data)
    ensures numeric == NumericValues(features)
  {
    categorical, numeric := [], [];
    for i := 0 to |FeatureNames|
      invariant categorical == Select(RawValues(data), IndicesBelow(i, true))
      invariant numeric == Select(features, IndicesBelow(i, false))
    {
      SelectStep(RawValues(data), i, true);
      SelectStep(features, i, false);
      var name := FeatureNames[i];
      if name in CategoricalFeatures {
        categorical := categorical + [data[name]];
      } else {
        numeric := numeric + [features[i]];
      }
    }
  }

  // ---------------------------------------------------------------- row assembly

  /**
   * How the categorical values are shaped before `encoder.transform`.
   * ColumnPerValue is app.py:75 as written: each value is appended as its own
   * one-element row, giving a 4x1 matrix. SingleRow is the evidently intended
   * 1x4 matrix holding one sample with four categorical features.
   */
  datatype Layout = ColumnPerValue | SingleRow

  function EncoderInput<V>(layout: Layout, categorical: seq<V>): (m: seq<seq<V>>)
    ensures layout == ColumnPerValue ==> |m| == |categorical| && forall k :: 0 <= k < |m| ==> m[k] == [categorical[k]]
    ensures layout == SingleRow ==> |m| == 1 && m[0] == categorical
  {
    match layout
    case ColumnPerValue => seq(|categorical|, k requires 0 <= k < |categorical| => [categorical[k]])
    case SingleRow => [categorical]
  }

  /** numpy's hstack of two matrices: the row counts must agree, and rows are joined side by side. */
  function HStack(a: Matrix, b: Matrix): (r: Option<Matrix>)
    ensures r.Some? <==> |a| == |b|
    ensures r.Some? ==> |r.value| == |a| && forall i :: 0 <= i < |a| ==> r.value[i] == a[i] + b[i]
  {
    if |a| != |b| then None
    else Some(seq(|a|, i requires 0 <= i < |a| => a[i] + b[i]))
  }

  /**
   * The encoder's output for the categorical values (app.py:80-83): the
   * encoder is called only when there are categorical values; otherwise the
   * result is one empty row.
   */
  function Encoded<V>(layout: Layout, encoder: Encoder<V>, categorical: seq<V>): (r: Option<Matrix>)
    ensures |categorical| == 0 ==> r == Some([[]])
    ensures |categorical| > 0 ==> r == encoder.transform(EncoderInput(layout, categorical))
  {
    if |categorical| > 0 then encoder.transform(EncoderInput(layout, categorical))
    else Some([[]])
  }

  /**
   * app.py:80-86: the encoded categorical columns followed by the numeric
   * values as one row. It exists exactly when the encoder succeeds with a
   * single row, and its last |numeric| entries are the numeric values.
   */
  function AssembleRow<V>(layout: Layout, encoder: Encoder<V>, categorical: seq<V>, numeric: seq<real>): (r: Option<Matrix>)
    ensures r.Some? <==> Encoded(layout, encoder, categorical).Some? && |Encoded(layout, encoder, categorical).value| == 1
    ensures r.Some? ==> r.value == [Encoded(layout, encoder, categorical).value[0] + numeric]
    ensures r.Some? ==> |r.value| == 1 && |r.value[0]| == |Encoded(layout, encoder, categorical).value[0]| + |numeric|
    ensures r.Some? ==> r.value[0][|r.value[0]| - |numeric|..] == numeric
  {
    match Encoded(layout, encoder, categorical)
    case None => None
    case Some(e) =>
      var row := HStack(e, [numeric]);
      if row.Some? then
        assert row.value[0][|row.value[0]| - |numeric|..] == numeric;
        row
      else row
  }

  // ---------------------------------------------------------------- result

  /** app.py:96: the second class when there is more than one, otherwise the first. */
  function BankruptcyIndex(classes: seq<Label>): (i: nat)
    ensures i <= 1
    ensures |classes| > 0 ==> i < |classes|
    ensures i == 1 <==> |classes| > 1
  {
    if |classes| > 1 then 1 else 0
  }

  function Max(a: real, b: real): (m: real)
    ensures m >= a && m >= b && (m == a || m == b)
  {
    if a >= b then a else b
  }

  /**
   * app.py:96-110, before rounding: the bankruptcy risk is the probability at
   * BankruptcyIndex times 100, the healthy share its complement, the
   * confidence the larger of the two, and the verdict depends only on whether
   * the raw prediction equals 1. The indexing raises (None) when the
   * probability row is too short.
   */
  function FormatResult(classes: seq<Label>, probability: seq<real>, raw: Label): (r: Option<PredictionResult>)
    ensures r.Some? <==> BankruptcyIndex(classes) < |probability|
    ensures r.Some? ==> r.value.bankruptcyRisk == probability[BankruptcyIndex(classes)] * 100.0
    ensures r.Some? ==> r.value.bankruptcyRisk + r.value.healthyProbability == 100.0
    ensures r.Some? ==> r.value.confidence >= 50.0
    ensures r.Some? ==> r.value.confidence >= r.value.bankruptcyRisk && r.value.confidence >= r.value.healthyProbability
    ensures r.Some? ==> r.value.confidence == r.value.bankruptcyRisk || r.value.confidence == r.value.healthyProbability
    ensures r.Some? ==> (r.value.prediction == "Bankrupt" <==> EqualsOne(raw))
    ensures r.Some? ==> (r.value.prediction == "Healthy" <==> !EqualsOne(raw))
    ensures r.Some? ==> r.value.rawPrediction == raw && r.value.modelClasses == classes
  {
    var i := BankruptcyIndex(classes);
    if i >= |probability| then None
    else
      var bankruptcyProb := probability[i] * 100.0;
      var healthyProb := 100.0 - bankruptcyProb;
      Some(PredictionResult(
        if EqualsOne(raw) then "Bankrupt" else "Healthy",
        bankruptcyProb,
        healthyProb,
        Max(bankruptcyProb, healthyProb),
        raw,
        classes))
  }

  /** app.py:89-110: the two classifier calls on the assembled row, then the result. */
  function Classify(model: Classifier, x: Matrix): (r: Option<PredictionResult>)
    ensures model.predict(x).None? || model.predictProba(x).None? ==> r.None?
    ensures model.predict(x).Some? && model.predictProba(x).Some? ==>
      r == FormatResult(model.classes, model.predictProba(x).value, model.predict(x).value)
  {
    match model.predict(x)
    case None => None
    case Some(raw) =>
      match model.predictProba(x)
      case None => None
      case Some(probability) => FormatResult(model.classes, probability, raw)
  }

  /**
   * Whether Flask's JSON provider can write a label as `list(model.classes_)`
   * holds it (app.py:93). `classes_` is a numpy array, so its elements are
   * numpy scalars: float64 and str_ are subclasses of Python's float and str
   * and are written; int64 and bool_ are subclasses of neither int nor bool,
   * and `jsonify` raises TypeError on them.
   */
  predicate Serialisable(l: Label): (b: bool)
    ensures b <==> l.FloatLabel? || l.StrLabel?
  {
    !l.IntLabel? && !l.BoolLabel?
  }

  /**
   * app.py:112 `jsonify(result)`: the result body, or None when the TypeError
   * of a class label that cannot be written is raised (and caught at app.py:114).
   */
  function Jsonify(result: PredictionResult): (p: Option<Payload>)
    ensures p.Some? <==> forall i :: 0 <= i < |result.modelClasses| ==> Serialisable(result.modelClasses[i])
    ensures p.Some? ==> p.value == ResultBody(result)
    ensures (exists i :: 0 <= i < |result.modelClasses| && result.modelClasses[i].IntLabel?) ==> p.None?
  {
    if forall i :: 0 <= i < |result.modelClasses| ==> Serialisable(result.modelClasses[i]) then Some(ResultBody(result))
    else None
  }

  /** The response for a failed validation: 400 naming the feature, or the outer handler's 500. */
  function ErrorResponse(e: FeatureError): (r: Response)
    ensures r.status == 400 <==> !e.ConversionRaised?
    ensures e.MissingFeature? ==> r.payload == ErrorBody("Missing feature: " + e.name)
    ensures e.InvalidNumericValue? ==> r.payload == ErrorBody("Invalid numeric value for " + e.name)
    ensures r.status != 400 ==> r == PredictionFailed
  {
    match e
    case MissingFeature(name) => Response(400, ErrorBody("Missing feature: " + name))
    case InvalidNumericValue(name) => Response(400, ErrorBody("Invalid numeric value for " + name))
    case ConversionRaised => PredictionFailed
  }

  /** The 400 response a failed check at position k produces. */
  predicate IsClientError(status: nat, payload: Payload, name: string, c: FeatureCheck) {
    && status == 400
    && (c == Absent ==> payload == ErrorBody("Missing feature: " + name))
    && (c == NotNumeric ==> payload == ErrorBody("Invalid numeric value for " + name))
    && (c == Absent || c == NotNumeric)
  }

  /**
   * The response of `predict()` (app.py:45-116). `body` is `request.json`;
   * `None` stands for a body that is not a JSON object, on which the
   * membership test raises.
   */
  function PredictResponse<V>(
    layout: Layout, model: Option<Classifier>, encoder: Option<Encoder<V>>,
    body: Option<map<string, V>>, parse: V -> Conversion): (r: Response)
    ensures r.status == 200 || r.status == 400 || r.status == 500 || r.status == 503
    ensures model.None? ==> r == Response(503, ErrorBody(ModelNotLoadedMessage))
    ensures model.Some? && encoder.None? ==> r == Response(503, ErrorBody(EncoderNotLoadedMessage))
    ensures r.status == 503 <==> model.None? || encoder.None?
    ensures r.status == 500 ==> r == PredictionFailed
    ensures r.status == 200 <==> r.payload.ResultBody?
    ensures r.status == 200 ==> body.Some? && Validation(body.value, parse).Success?
    ensures r.status == 200 ==> forall j :: 0 <= j < |FeatureNames| ==> CheckFeature(body.value, parse, FeatureNames[j]).Valid?
    ensures r.status == 400 ==> body.Some? && exists k: nat :: (FirstFailureAt(body.value, parse, k) &&
      IsClientError(r.status, r.payload, FeatureNames[k], CheckFeature(body.value, parse, FeatureNames[k])))
    ensures model.Some? && encoder.Some? && body.None? ==> r == PredictionFailed
    ensures model.Some? && encoder.Some? && body.Some? ==> forall k: nat :: FirstFailureAt(body.value, parse, k) ==>
      && (CheckFeature(body.value, parse, FeatureNames[k]) == Absent ==>
           r == Response(400, ErrorBody("Missing feature: " + FeatureNames[k])))
      && (CheckFeature(body.value, parse, FeatureNames[k]) == NotNumeric ==>
           r == Response(400, ErrorBody("Invalid numeric value for " + FeatureNames[k])))
      && (CheckFeature(body.value, parse, FeatureNames[k]) == Unexpected ==> r == PredictionFailed)
    ensures model.Some? && encoder.Some? && body.Some? && Validation(body.value, parse).Success? ==>
      var x := AssembleRow(layout, encoder.value, CategoricalValues(body.value), NumericValues(Validation(body.value, parse).value));
      var result := if x.Some? then Classify(model.value, x.value) else None;
      && (r.status == 200 <==> result.Some? && Jsonify(result.value).Some?)
      && (r.status == 200 ==> r.payload == ResultBody(result.value))
      && (r.status != 200 ==> r == PredictionFailed)
  {
    if model.None? then Response(503, ErrorBody(ModelNotLoadedMessage))
    else if encoder.None? then Response(503, ErrorBody(EncoderNotLoadedMessage))
    else if body.None? then PredictionFailed
    else
      var data := body.value;
      match Validation(data, parse)
      case Failure(e) => ErrorResponse(e)
      case Success(features) =>
        match AssembleRow(layout, encoder.value, CategoricalValues(data), NumericValues(features))
        case None => PredictionFailed
        case Some(x) =>
          match Classify(model.value, x)
          case None => PredictionFailed
          case Some(result) =>
            match Jsonify(result)
            case None => PredictionFailed
            case Some(payload) => Response(200, payload)
  }

  /** `predict()` as the handler runs it: the two loops are methods, the rest is computed. */
  method Predict<V>(
    layout: Layout, model: Option<Classifier>, encoder: Option<Encoder<V>>,
    body: Option<map<string, V>>, parse: V -> Conversion) returns (response: Response)
    ensures response == PredictResponse(layout, model, encoder, body, parse)
  {
    if model.None? {
      return Response(503, ErrorBody(ModelNotLoadedMessage));
    }
    if encoder.None? {
      return Response(503, ErrorBody(EncoderNotLoadedMessage));
    }
    if body.None? {
      return PredictionFailed;
    }
    var data := body.value;
    var validated := ExtractFeatures(data, parse);
    if validated.Failure? {
      return ErrorResponse(validated.error);
    }
    var categorical, numeric := Partition(data, validated.value);
    var x := AssembleRow(layout, encoder.value, categorical, numeric);
    if x.None? {
      return PredictionFailed;
    }
    var result := Classify(model.value, x.value);
    if result.None? {
      return PredictionFailed;
    }
    var payload := Jsonify(result.value);
    if payload.None? {
      return PredictionFailed;
    }
    response := Response(200, payload.value);
  }

  /** app.py:118-120: the health flags report exactly which artifacts are loaded. */
  function Health<V>(model: Option<Classifier>, encoder: Option<Encoder<V>>): (h: HealthReport)
    ensures h.status == "ok"
    ensures h.modelLoaded <==> model.Some?
    ensures h.encoderLoaded <==> encoder.Some?
  {
    HealthReport("ok", model.Some?, encoder.Some?)
  }
}
