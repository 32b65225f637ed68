/**
 * Properties of the prediction endpoint that relate several of its parts or
 * several requests: the categorical features are validated like the others,
 * the first failing feature is unique, a successful response is a formatted
 * result, the health flags agree with the 503 guard, and the shape in which
 * the categorical values reach the encoder decides whether any request can
 * succeed at all.
 */
module AppProperties {
  import opened Wrappers
  import opened Schema
  import opened App

  /** A validated request has every categorical feature present and float-convertible, too. */
  lemma ValidatedCategoricalsAreNumeric<V>(data: map<string, V>, parse: V -> Conversion)
    requires Validation(data, parse).Success?
    ensures forall k :: 0 <= k < |CategoricalFeatures| ==>
      CategoricalFeatures[k] in data && parse(data[CategoricalFeatures[k]]).Converted?
  {
    CategoricalIndicesNameFeatures();
    forall k | 0 <= k < |CategoricalFeatures|
      ensures CategoricalFeatures[k] in data && parse(data[CategoricalFeatures[k]]).Converted?
    {
      var i := CategoricalIndices()[k];
      assert CheckFeature(data, parse, FeatureNames[i]).Valid?;
    }
  }

  /** There is at most one first failing feature, so the 400 message is determined by the request. */
  lemma FirstFailureUnique<V>(data: map<string, V>, parse: V -> Conversion, k1: nat, k2: nat)
    requires FirstFailureAt(data, parse, k1) && FirstFailureAt(data, parse, k2)
    ensures k1 == k2
  {
  }

  /** Validation of a request succeeds exactly when no feature fails. */
  lemma ValidationSucceedsIffNoFailure<V>(data: map<string, V>, parse: V -> Conversion)
    ensures Validation(data, parse).Success? <==> !exists k: nat :: FirstFailureAt(data, parse, k)
  {
    if !Validation(data, parse).Success? {
      var e := Validation(data, parse).error;
      var k: nat :| k < |FeatureNames| && FirstFailureAt(data, parse, k) && e == ErrorFor(FeatureNames[k], CheckFeature(data, parse, FeatureNames[k]));
    } else {
      forall k: nat | k < |FeatureNames| ensures !FirstFailureAt(data, parse, k) {
        assert CheckFeature(data, parse, FeatureNames[k]).Valid?;
      }
    }
  }

  /**
   * Every 200 response carries a result whose shares add up to 100, whose
   * verdict follows the raw label, and whose classes are the model's and can
   * all be written as JSON.
   */
  lemma SuccessfulResponseIsFormatted<V>(
    layout: Layout, model: Option<Classifier>, encoder: Option<Encoder<V>>,
    body: Option<map<string, V>>, parse: V -> Conversion)
    requires PredictResponse(layout, model, encoder, body, parse).status == 200
    ensures var res := PredictResponse(layout, model, encoder, body, parse).payload.result;
      && res.bankruptcyRisk + res.healthyProbability == 100.0
      && res.confidence == Max(res.bankruptcyRisk, res.healthyProbability)
      && (res.prediction == "Bankrupt" <==> EqualsOne(res.rawPrediction))
      && model.Some? && res.modelClasses == model.value.classes
      && forall i :: 0 <= i < |res.modelClasses| ==> Serialisable(res.modelClasses[i])
  {
    var data := body.value;
    var features := Validation(data, parse).value;
    var x := AssembleRow(layout, encoder.value, CategoricalValues(data), NumericValues(features)).value;
    var res := Classify(model.value, x).value;
    assert PredictResponse(layout, model, encoder, body, parse).payload.result == res;
  }

  /** The health endpoint reports both artifacts loaded exactly when a prediction is not refused with 503. */
  lemma HealthMatchesAvailability<V>(
    layout: Layout, model: Option<Classifier>, encoder: Option<Encoder<V>>,
    body: Option<map<string, V>>, parse: V -> Conversion)
    ensures var h := Health(model, encoder);
      h.modelLoaded && h.encoderLoaded <==> PredictResponse(layout, model, encoder, body, parse).status != 503
  {
  }

  /**
   * As written (app.py:75), each categorical value is its own row, so a
   * row-preserving encoder returns four rows while the numeric part is one
   * row, and np.hstack raises: no request ever gets a 200, and a request
   * that passes validation always gets the generic 500.
   */
  lemma AsWrittenLayoutNeverSucceeds<V(!new)>(
    model: Option<Classifier>, encoder: Encoder<V>, body: Option<map<string, V>>, parse: V -> Conversion)
    requires RowPreserving(encoder)
    ensures PredictResponse(ColumnPerValue, model, Some(encoder), body, parse).status != 200
    ensures model.Some? && body.Some? && Validation(body.value, parse).Success? ==>
      PredictResponse(ColumnPerValue, model, Some(encoder), body, parse) == PredictionFailed
  {
    if model.Some? && body.Some? && Validation(body.value, parse).Success? {
      var data := body.value;
      var features := Validation(data, parse).value;
      var categorical := CategoricalValues(data);
      var input := EncoderInput(ColumnPerValue, categorical);
      assert |input| == 4;
      assert AssembleRow(ColumnPerValue, encoder, categorical, NumericValues(features)).None?;
    }
  }

  /**
   * With the categorical values passed as one row of four (the evidently
   * intended shape), a row-preserving encoder that accepts them yields one
   * row, and the classifier sees the encoded columns followed by the
   * fourteen numeric values. The answer is 200 when both classifier calls
   * succeed and jsonify can write the classes, and the generic 500 otherwise.
   */
  lemma SingleRowLayoutReachesClassifier<V(!new)>(
    model: Classifier, encoder: Encoder<V>, data: map<string, V>, parse: V -> Conversion)
    requires RowPreserving(encoder)
    requires Validation(data, parse).Success?
    requires encoder.transform([CategoricalValues(data)]).Some?
    ensures var encoded := encoder.transform([CategoricalValues(data)]).value;
      var numeric := NumericValues(Validation(data, parse).value);
      var x := [encoded[0] + numeric];
      && |x[0]| == |encoded[0]| + 14
      && x[0][|x[0]| - 14..] == numeric
      && PredictResponse(SingleRow, Some(model), Some(encoder), Some(data), parse) ==
         (if Classify(model, x).Some? && Jsonify(Classify(model, x).value).Some?
          then Response(200, ResultBody(Classify(model, x).value))
          else PredictionFailed)
  {
    var categorical := CategoricalValues(data);
    var numeric := NumericValues(Validation(data, parse).value);
    assert EncoderInput(SingleRow, categorical) == [categorical];
    assert |encoder.transform([categorical]).value| == 1;
    var encoded := encoder.transform([categorical]).value;
    assert AssembleRow(SingleRow, encoder, categorical, numeric) == Some([encoded[0] + numeric]);
  }

  /**
   * A record whose first four features convert but which lacks X5 is
   * answered 400 "Missing feature: X5", whatever follows it.
   */
  lemma MissingFifthFeature<V>(
    layout: Layout, model: Classifier, encoder: Encoder<V>, data: map<string, V>, parse: V -> Conversion)
    requires forall j :: 0 <= j < 4 ==> FeatureNames[j] in data && parse(data[FeatureNames[j]]).Converted?
    requires "X5" !in data
    ensures PredictResponse(layout, Some(model), Some(encoder), Some(data), parse) ==
      Response(400, ErrorBody("Missing feature: X5"))
  {
    assert FeatureNames[4] == "X5";
    assert FirstFailureAt(data, parse, 4);
  }

  /**
   * With integer class labels, such as the [0, 1] of a classifier fitted on
   * 0/1 targets, jsonify cannot write `model_classes`, so no request is ever
   * answered 200.
   */
  lemma IntegerClassesNeverSucceed<V>(
    layout: Layout, model: Classifier, encoder: Option<Encoder<V>>,
    body: Option<map<string, V>>, parse: V -> Conversion, i: nat)
    requires i < |model.classes| && model.classes[i].IntLabel?
    ensures PredictResponse(layout, Some(model), encoder, body, parse).status != 200
  {
    if PredictResponse(layout, Some(model), encoder, body, parse).status == 200 {
      SuccessfulResponseIsFormatted(layout, Some(model), encoder, body, parse);
    }
  }

  /** The verdict does not depend on the probabilities at all. */
  lemma VerdictIgnoresProbabilities(classes: seq<Label>, p1: seq<real>, p2: seq<real>, raw: Label)
    requires FormatResult(classes, p1, raw).Some? && FormatResult(classes, p2, raw).Some?
    ensures FormatResult(classes, p1, raw).value.prediction == FormatResult(classes, p2, raw).value.prediction
  {
  }

  /**
   * A classifier fitted on string labels (for instance "alive"/"failed")
   * never yields the verdict "Bankrupt", whatever its probabilities.
   */
  lemma StringLabelsNeverBankrupt(classes: seq<Label>, probability: seq<real>, s: string)
    requires FormatResult(classes, probability, StrLabel(s)).Some?
    ensures FormatResult(classes, probability, StrLabel(s)).value.prediction == "Healthy"
  {
  }

  /** The index depends only on the number of classes, never on their labels. */
  lemma IndexIgnoresLabels(c1: seq<Label>, c2: seq<Label>)
    requires |c1| == |c2|
    ensures BankruptcyIndex(c1) == BankruptcyIndex(c2)
  {
  }

  /** For ["failed", "active"] the code picks index 1, the class "active". */
  lemma IndexOfFailedFirst()
    ensures BankruptcyIndex([StrLabel("failed"), StrLabel("active")]) == 1
  {
  }

  /**
   * Two classes [0, 1], predicted label 0, probabilities [0.9, 0.1]:
   * "Healthy" with 10% risk, 90% healthy and 90% confidence.
   */
  lemma HealthyScenario()
    ensures FormatResult([IntLabel(0), IntLabel(1)], [0.9, 0.1], IntLabel(0)) ==
      Some(PredictionResult("Healthy", 10.0, 90.0, 90.0, IntLabel(0), [IntLabel(0), IntLabel(1)]))
  {
  }

  /** A probability in [0, 1] gives shares in [0, 100] and a confidence of at least 50. */
  lemma SharesWithinRange(classes: seq<Label>, probability: seq<real>, raw: Label)
    requires FormatResult(classes, probability, raw).Some?
    requires 0.0 <= probability[BankruptcyIndex(classes)] <= 1.0
    ensures var r := FormatResult(classes, probability, raw).value;
      && 0.0 <= r.bankruptcyRisk <= 100.0
      && 0.0 <= r.healthyProbability <= 100.0
      && 50.0 <= r.confidence <= 100.0
  {
  }
}
