# Bankruptcy risk predictor — a Dafny model of the prediction pipeline

This project models the request pipeline of the bankruptcy risk predictor's
Flask back end (`predict()` and `health()` in `app.py`), together with the two
React components around it: the input form's state (`PredictionForm.js`) and
the way a result is classified for display (`ResultsDisplay.js`).

The back end answers `POST /api/predict` in this order:

- 503 if the model is not loaded, then 503 if the encoder is not loaded.
- 400 naming the first of the eighteen `FEATURE_NAMES` (X1..X18) that is missing or that `float()` rejects.
- Otherwise it splits the values into the four categorical ones (X2, X9, X10, X15), passed raw to the encoder, and the fourteen numeric ones.
- It passes the categorical values to the encoder and joins the encoder's output with the numeric values as one input row before calling the classifier. As written, each categorical value is its own row of the encoder input, so with an encoder that keeps one output row per input row the join fails and the answer is 500 (see Findings). The model also has the corrected one-row shape, where the classifier is reached.
- It reports the probability at index 1 (or 0 when there is a single class) as a percentage, its complement, the larger of the two as confidence, and the verdict "Bankrupt" exactly when the raw prediction equals 1.
- It writes the result with `jsonify`. `model_classes` is `list(model.classes_)`, a list of numpy scalars. Flask cannot write numpy integers or booleans, so a classifier with integer labels such as 0/1 makes `jsonify` raise, and the answer is 500 (`Jsonify`, `IntegerClassesNeverSucceed`).
- Any other exception becomes a 500 with a fixed message.

Modules:

- `Wrappers` (wrappers.dfy): `Option` and `Result`.
- `Schema` (schema.dfy): the feature lists and the positions of the categorical and numeric features.
- `App` (app.dfy): the pipeline. The two loops of `predict()` are methods (`ExtractFeatures`, `Partition`), each tied to a specification function (`Validation`, `CategoricalValues`/`NumericValues`). `PredictResponse` is the whole response as a function, and the method `Predict` runs the pipeline as the handler does and is proved equal to it.
- `AppProperties` (app_properties.dfy): lemmas relating parts of the pipeline.
- `PredictionForm` (prediction_form.dfy): class `FormState`, with the map `formData` as a field and one method per handler.
- `ResultsDisplay` (results_display.dfy): the risk level, the bankrupt flag and the style classes that follow from them.

Foreign objects are parameters:

- The fitted encoder and classifier are datatypes with function-valued fields (`transform`; `predict`, `predictProba`, `classes`). A call that raises returns `None`.
- Python's `float()` is a parameter `parse: V -> Conversion`. It has three outcomes: a float; `ValueError`/`TypeError`, which gives the per-feature 400; and any other exception (for example `OverflowError` on a huge integer), which escapes to the outer handler's 500.
- JavaScript's `parseFloat` is a parameter of `HandleSubmit`.
- `request.json` is an `Option` of a map. `None` stands for a body that is not a JSON object, where `feature_name not in data` raises and the answer is 500.
- Class labels are a datatype of integers, floats, strings and booleans, standing for the numpy scalar types that `classes_` holds. `EqualsOne` is Python's `== 1`, so `True` and `1.0` equal 1 and no string does.

The code chooses the index of the bankruptcy probability by the number of classes alone. It does not look for labels such as "failed" or "Bankrupt", nor for the label 1:

- The index is 1 exactly when there is more than one class (`BankruptcyIndex`, `IndexIgnoresLabels`). So `["failed", "active"]` gives index 1 (`IndexOfFailedFirst`).
- The verdict depends only on `raw_prediction == 1`. So a classifier with string labels never says "Bankrupt" (`StringLabelsNeverBankrupt`).

## Model

| member | source | states |
|---|---|---|
| `Schema.IndicesBelow` | app.py:73-77 | only positions below n whose name is (or is not) in CATEGORICAL_FEATURES, each once, in increasing order |
| `Schema.IndicesBelowComplete` | app.py:73-77 | every position below n of the requested kind is in the list |
| `Schema.IndicesPartition` | app.py:73-77 | every position goes to exactly one of the two lists, so their lengths add up to the number of features |
| `Schema.CategoricalIndicesValue` | app.py:36-42 | the categorical features sit at positions 1, 8, 9 and 14 of FEATURE_NAMES |
| `Schema.CategoricalIndicesNameFeatures` | app.py:36-42 | the categorical positions name exactly CATEGORICAL_FEATURES, in the same order |
| `Schema.FeatureCounts` | app.py:36-42 | four features are categorical and fourteen numeric |
| `Schema.FeatureNamesUnique` | app.py:36-39 | the eighteen feature names are pairwise distinct |
| `App.EqualsOne` | app.py:101 | Python's `== 1` holds exactly for the integer 1, the float 1.0 and True; never for a string |
| `App.CheckFeature` | app.py:62-67 | a name is absent iff it is not a key; otherwise the check is the float() outcome: a value, a ValueError/TypeError, or another exception |
| `App.ValidatePrefixSucceeds` | app.py:60-67 | validation of the first n names succeeds iff every one of them is present and converts |
| `App.ValidatePrefixValues` | app.py:60-67 | after a successful validation of n names there are n values, the conversions of those names in schema order |
| `App.ValidatePrefixError` | app.py:60-67 | a failed validation reports the first failing name, as missing or as non-numeric, or the escaping exception |
| `App.Validation` | app.py:60-67 | the same three facts for all eighteen feature names |
| `App.ExtractFeatures` | app.py:60-67 | the validation loop with its early returns computes exactly that outcome for all eighteen names |
| `App.CategoricalValues` | app.py:70-77 | categorical_values holds the raw, unconverted values of X2, X9, X10 and X15, in that order |
| `App.NumericValues` | app.py:70-77 | numeric_values holds fourteen converted values, each taken from a non-categorical position, in schema order |
| `App.Partition` | app.py:70-77 | the partition loop builds exactly those two lists |
| `App.EncoderInput` | app.py:75 | as written, one one-element row per categorical value; corrected, a single row holding all of them |
| `App.Encoded` | app.py:80-83 | the encoder is called on the encoder input only when there are categorical values; otherwise the categorical part is one empty row |
| `App.HStack` | app.py:86 | joining two matrices side by side succeeds iff their row counts agree; row i is the concatenation of the two rows i |
| `App.AssembleRow` | app.py:79-86 | the input exists iff the encoder succeeds with one row; it is that row followed by the numeric values, its width is the encoded width plus the numeric count, and its tail is the numeric values |
| `App.BankruptcyIndex` | app.py:96 | the index is at most 1, a valid index whenever there is at least one class, and 1 exactly when there is more than one class |
| `App.FormatResult` | app.py:96-110 | fails iff the probability row is too short for the index; risk is that probability times 100; risk and healthy share add to 100; confidence is the larger share and at least 50; the verdict is "Bankrupt" iff the raw prediction equals 1 and "Healthy" otherwise |
| `App.Classify` | app.py:88-93 | no result when either classifier call raises; when both succeed, the result is the formatted result of their outputs and the classes |
| `App.Serialisable` | app.py:93 | a class label as numpy stores it can be written as JSON iff it is a float or a string |
| `App.Jsonify` | app.py:103-112 | the body is written iff every class label can be written, it is then the result itself, and an integer label makes it fail |
| `App.ErrorResponse` | app.py:62-67 | a missing or non-numeric feature gives 400 with the message naming it; an escaping exception gives the fixed 500 |
| `App.PredictResponse` | app.py:45-116 | a missing model gives 503 whatever the request; then a missing encoder gives 503; 503 happens iff an artifact is missing; with both loaded, a body that is not an object gives 500; the first failing feature gives 400 "Missing feature: " or "Invalid numeric value for " with its name, or 500 when float() raises otherwise; 400 happens only so; a validated request gets 200 with the classifier's formatted result iff the row is built, both classifier calls succeed and jsonify can write the classes, and the fixed 500 otherwise; 200 implies all eighteen features present and converted |
| `App.Predict` | app.py:45-116 | the handler, with its two loops and early returns, returns exactly that response |
| `App.Health` | app.py:118-120 | status "ok", and each loaded flag is true exactly when that artifact is present |
| `AppProperties.ValidatedCategoricalsAreNumeric` | app.py:60-77 | a request that passes validation has every categorical feature present and float-convertible too |
| `AppProperties.FirstFailureUnique` | app.py:60-67 | there is only one first failing feature, so the 400 message is determined by the request |
| `AppProperties.ValidationSucceedsIffNoFailure` | app.py:60-67 | validation succeeds exactly when no feature is a first failure |
| `AppProperties.SuccessfulResponseIsFormatted` | app.py:96-112 | in every 200 response risk and healthy share add to 100, confidence is their maximum, the verdict follows the raw label, and the classes are the model's, each one a float or string label |
| `AppProperties.HealthMatchesAvailability` | app.py:47-55 | health reports both artifacts loaded exactly when a prediction is not refused with 503 |
| `AppProperties.AsWrittenLayoutNeverSucceeds` | app.py:73-86 | with the categorical values shaped as written, a row-preserving encoder makes every validated request a 500, and no request gets 200 |
| `AppProperties.SingleRowLayoutReachesClassifier` | app.py:79-112 | with the values passed as one row, the classifier sees the encoded row followed by the fourteen numeric values, and the response is 200 with its formatted result when both calls succeed and the classes can be written, the fixed 500 otherwise |
| `AppProperties.MissingFifthFeature` | app.py:61-63 | a record whose X1..X4 convert and that lacks X5 gets 400 "Missing feature: X5" |
| `AppProperties.IntegerClassesNeverSucceed` | app.py:93-116 | a classifier with an integer class label never gets a 200 |
| `AppProperties.VerdictIgnoresProbabilities` | app.py:101-104 | two probability rows never change the verdict for the same raw label |
| `AppProperties.StringLabelsNeverBankrupt` | app.py:101-104 | a string raw label always gives "Healthy" |
| `AppProperties.IndexIgnoresLabels` | app.py:96 | two class lists of the same length give the same index |
| `AppProperties.IndexOfFailedFirst` | app.py:96 | classes ["failed", "active"] give index 1 |
| `AppProperties.HealthyScenario` | app.py:96-107 | classes [0, 1], label 0 and probabilities [0.9, 0.1] give "Healthy", 10, 90 and confidence 90 |
| `AppProperties.SharesWithinRange` | app.py:97-107 | a probability in [0, 1] gives both shares in [0, 100] and a confidence in [50, 100] |
| `PredictionForm.FormFieldsAreFeatureNames` | src/components/PredictionForm.js:5-24 | the form's fields are the back end's feature names, in the same order |
| `PredictionForm.EmptyForm` | src/components/PredictionForm.js:5-24 | the initial state has exactly the keys X1..X18, all empty |
| `PredictionForm.FormState.constructor` | src/components/PredictionForm.js:5-24 | the component starts with the empty form |
| `PredictionForm.FormState.HandleChange` | src/components/PredictionForm.js:103-109 | the named key gets the typed value and every other entry is unchanged |
| `PredictionForm.FormState.HandleReset` | src/components/PredictionForm.js:130-151 | all eighteen fields become empty again |
| `PredictionForm.FormState.HandleAutofillBankrupt` | src/components/PredictionForm.js:197-199 | the whole state becomes the bankrupt sample |
| `PredictionForm.FormState.HandleAutofillHealthy` | src/components/PredictionForm.js:201-203 | the whole state becomes the healthy sample |
| `PredictionForm.FormState.HandleSubmit` | src/components/PredictionForm.js:111-128 | submits iff every value is non-empty; what it submits has exactly the form's keys, each value parseFloat of the field's string |
| `PredictionForm.AllFilled` | src/components/PredictionForm.js:115 | the form counts as filled iff no value is the empty string |
| `PredictionForm.EmptyFormIsNotFilled` | src/components/PredictionForm.js:115-119 | submitting the initial or reset form is refused |
| `PredictionForm.BankruptSample` | src/components/PredictionForm.js:154-173 | the bankrupt sample has a value for every field of the form and no other key |
| `PredictionForm.HealthySample` | src/components/PredictionForm.js:176-195 | the healthy sample has a value for every field of the form and no other key |
| `PredictionForm.BankruptSampleIsFilled` | src/components/PredictionForm.js:154-173 | every value of the bankrupt sample is non-empty, so submitting right after that autofill goes through |
| `PredictionForm.HealthySampleIsFilled` | src/components/PredictionForm.js:176-195 | every value of the healthy sample is non-empty, so submitting right after that autofill goes through |
| `PredictionForm.SubmissionHasEveryFeature` | src/components/PredictionForm.js:122-127 | a submission carries every feature the back end looks up, so it is never answered "Missing feature" |
| `ResultsDisplay.IsBankrupt` | src/components/ResultsDisplay.js:5 | true exactly for the string "Bankrupt"; the verdict "Healthy" gives false |
| `ResultsDisplay.RiskLevelOf` | src/components/ResultsDisplay.js:6 | High iff risk above 70, Medium iff above 40 and at most 70, Low iff at most 40 |
| `ResultsDisplay.RiskLevelMonotone` | src/components/ResultsDisplay.js:6 | a higher risk never gives a lower level |
| `ResultsDisplay.Render` | src/components/ResultsDisplay.js:10-70 | card class, indicator class and symbol, and interpretation class show "bankrupt" iff the prediction is "Bankrupt"; the risk class is the level's lower-case name |
| `ResultsDisplay.DisplayOfBackendResult` | src/components/ResultsDisplay.js:5-6 | for a result from the back end, the display says bankrupt iff the raw label equals 1, and the level is High iff the probability is above 0.7 and Low iff at most 0.4 |

## Left out

- Flask routing, CORS and `app.run` are transport. The response is a status code and a payload. Of `jsonify`, only whether it can write the class labels is modelled.
- Loading the artifacts with `joblib.load` is file I/O. The loaded artifacts are `Option` parameters.
- The encoder's and the classifier's internals are not modelled. They are function-valued parameters.
- `Predict` takes the encoder input's shape as a parameter (`Layout`). `ColumnPerValue` is the code as written, and `SingleRow` is the corrected shape (see Findings).
- `OneHotEncoder` returns a sparse matrix by default. The model treats the encoder's output as a dense matrix.
- Python's `float()` and JavaScript's `parseFloat` are parameters. No number syntax is modelled.
- `round(x, 2)` on binary floats is not modelled. All results are reals before rounding, and the display lemmas are about the unrounded risk.
- App.FormatResult: `str(raw_prediction)` is not modelled, because it needs Python's text form of numpy scalars. The result keeps the raw label itself.
- A JSON array or string as the request body is not modelled. There, `in` tests membership and indexing raises `TypeError`, which gives a 400. Only JSON objects and non-objects (`None`, answered with 500) are distinguished.
- App.Serialisable: a `classes_` array of numpy's object type holding Python integers would be written by `jsonify`. The model treats every integer or boolean label as a numpy scalar, which it cannot write.
- The server-side `print` of the exception is logging and is left out.
- The form's `expandedField`, `isLoading` and all markup, CSS and descriptive texts are rendering.
- `config.py`, `src/App.js` (networking and loading state) and the training, evaluation and splitting scripts are not part of this model.

## Findings

| source | as written | input that shows it | evidently intended | confidence | as-written member | corrected member |
|---|---|---|---|---|---|---|
| app.py:75 | `categorical_values.append([data[feature_name]])` makes a 4x1 matrix (four samples of one feature each). A row-preserving encoder then returns four rows, and `np.hstack` with the 1x14 numeric row raises, so the answer is 500 | model and encoder loaded, every X1..X18 a number (for example the bankrupt sample of the form): the encoder gets `[[v2], [v9], [v10], [v15]]` and the response is "Prediction failed" | one sample with four categorical features, `[[v2, v9, v10, v15]]`, so that the joined row is the encoded columns followed by the fourteen numeric values | not executed; holds for any encoder that returns one row per input row, as every sklearn transformer does | `AppProperties.AsWrittenLayoutNeverSucceeds` | `AppProperties.SingleRowLayoutReachesClassifier` |
