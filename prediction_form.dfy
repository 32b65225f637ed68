/**
 * The state of the input form of src/components/PredictionForm.js: a map
 * from the eighteen field names to the strings typed into them, the handlers
 * that replace it, and the submit handler that converts it to numbers.
 * `parseFloat` is a parameter: JavaScript's number parsing is not modelled.
 */
module PredictionForm {
  import opened Wrappers
  import Schema
  import App

  /** The field names of the form, in the order the initial state lists them. */
  const FormFields: seq<string> :=
    ["X1", "X2", "X3", "X4", "X5", "X6", "X7", "X8", "X9", "X10",
     "X11", "X12", "X13", "X14", "X15", "X16", "X17", "X18"]

  /** The form's fields are exactly the backend's FEATURE_NAMES, in the same order. */
  lemma FormFieldsAreFeatureNames()
    ensures FormFields == Schema.FeatureNames
  {
  }

  lemma FormFieldsUnique()
    ensures forall i, j :: 0 <= i < j < |FormFields| ==> FormFields[i] != FormFields[j]
  {
  }

  /** Whether every field of the form is a key of m. */
  predicate HasFormFields(m: map<string, string>) {
    forall i :: 0 <= i < |FormFields| ==> FormFields[i] in m
  }

  /**
   * The `every` test of handleSubmit: no value of the form is the empty
   * string, so a single empty field is enough to refuse the submission.
   */
  predicate AllFilled(m: map<string, string>): (b: bool)
    ensures b <==> "" !in m.Values
  {
    forall k :: k in m ==> m[k] != ""
  }

  /** The initial state, also restored by handleReset: every field present and empty. */
  function EmptyForm(): (m: map<string, string>)
    ensures HasFormFields(m)
    ensures forall k :: k in m ==> k in FormFields && m[k] == ""
  {
    map k | k in FormFields :: ""
  }

  /** Builds a form state from distinct field names and one string per field. */
  function FormOf(fields: seq<string>, values: seq<string>): (m: map<string, string>)
    requires |values| == |fields|
    requires forall i, j :: 0 <= i < j < |fields| ==> fields[i] != fields[j]
    ensures m.Keys == set k | k in fields
    ensures forall i :: 0 <= i < |fields| ==> m[fields[i]] == values[i]
  {
    map i | 0 <= i < |fields| :: fields[i] := values[i]
  }

  /** The values of bankruptCompanyData, in field order. */
  const BankruptValues: seq<string> :=
    ["1000", "20000000", "500000", "-5000000", "100", "-10000000", "0", "10000", "50000",
     "15000", "50000000", "-15000000", "-2000000", "60000000", "-20000000", "20000",
     "80000000", "30000000"]

  /** The values of healthyCompanyData, in field order. */
  const HealthyValues: seq<string> :=
    ["50000000", "20000000", "2000000", "15000000", "10000000", "5000000", "8000000",
     "100000000", "80000000", "150000000", "20000000", "12000000", "30000000", "25000000",
     "20000000", "90000000", "50000000", "15000000"]

  /** bankruptCompanyData: the sample of a company heading towards bankruptcy. */
  function BankruptSample(): (m: map<string, string>)
    ensures HasFormFields(m)
    ensures forall k :: k in m ==> k in FormFields
  {
    FormFieldsUnique();
    FormOf(FormFields, BankruptValues)
  }

  /** healthyCompanyData: the sample of a healthy company. */
  function HealthySample(): (m: map<string, string>)
    ensures HasFormFields(m)
    ensures forall k :: k in m ==> k in FormFields
  {
    FormFieldsUnique();
    FormOf(FormFields, HealthyValues)
  }

  class FormState {
    var formData: map<string, string>

    /** Every field of the form has an entry; no handler ever removes one. */
    ghost predicate Valid()
      reads this
    {
      HasFormFields(formData)
    }

    /** useState with the initial value: every field empty. */
    constructor ()
      ensures Valid()
      ensures formData == EmptyForm()
    {
      formData := EmptyForm();
    }

    /** handleChange: sets the named key to the typed value and keeps every other entry. */
    method HandleChange(name: string, value: string)
      requires Valid()
      modifies this
      ensures Valid()
      ensures formData == old(formData)[name := value]
      ensures forall k :: k in old(formData) && k != name ==> k in formData && formData[k] == old(formData)[k]
    {
      formData := formData[name := value];
    }

    /** handleReset: every field back to the empty string. */
    method HandleReset()
      modifies this
      ensures Valid()
      ensures formData == EmptyForm()
    {
      formData := EmptyForm();
    }

    /** handleAutofillBankrupt: the whole state becomes the bankrupt sample. */
    method HandleAutofillBankrupt()
      modifies this
      ensures Valid()
      ensures formData == BankruptSample()
    {
      formData := BankruptSample();
    }

    /** handleAutofillHealthy: the whole state becomes the healthy sample. */
    method HandleAutofillHealthy()
      modifies this
      ensures Valid()
      ensures formData == HealthySample()
    {
      formData := HealthySample();
    }

    /**
     * handleSubmit: when some field is empty it alerts and submits nothing
     * (None); otherwise it submits the same keys, each value passed through
     * parseFloat.
     */
    method HandleSubmit<N>(parseFloat: string -> N) returns (submitted: Option<map<string, N>>)
      ensures submitted.Some? <==> AllFilled(formData)
      ensures submitted.Some? ==> submitted.value.Keys == formData.Keys
      ensures submitted.Some? ==> forall k :: k in formData ==> submitted.value[k] == parseFloat(formData[k])
    {
      var allFilled := forall k | k in formData :: formData[k] != "";
      if !allFilled {
        return None;
      }
      var numericData: map<string, N> := map[];
      var remaining := formData.Keys;
      while remaining != {}
        invariant remaining <= formData.Keys
        invariant numericData.Keys == formData.Keys - remaining
        invariant forall k :: k in numericData ==> numericData[k] == parseFloat(formData[k])
        decreases remaining
      {
        var key :| key in remaining;
        numericData := numericData[key := parseFloat(formData[key])];
        remaining := remaining - {key};
      }
      submitted := Some(numericData);
    }
  }

  /** Right after start-up or a reset, submitting is refused. */
  lemma EmptyFormIsNotFilled()
    ensures !AllFilled(EmptyForm())
  {
    assert FormFields[0] in EmptyForm();
  }

  /** A state built from non-empty strings can be submitted. */
  lemma FormOfFilled(fields: seq<string>, values: seq<string>)
    requires |values| == |fields|
    requires forall i, j :: 0 <= i < j < |fields| ==> fields[i] != fields[j]
    requires forall i :: 0 <= i < |values| ==> values[i] != ""
    ensures AllFilled(FormOf(fields, values))
  {
    var m := FormOf(fields, values);
    forall k | k in m ensures m[k] != "" {
      var i :| 0 <= i < |fields| && fields[i] == k;
    }
  }

  /** Right after the bankrupt autofill, submitting goes through. */
  lemma BankruptSampleIsFilled()
    ensures AllFilled(BankruptSample())
  {
    FormFieldsUnique();
    FormOfFilled(FormFields, BankruptValues);
  }

  /** Right after the healthy autofill, submitting goes through. */
  lemma HealthySampleIsFilled()
    ensures AllFilled(HealthySample())
  {
    FormFieldsUnique();
    FormOfFilled(FormFields, HealthyValues);
  }

  /**
   * What the form submits from a valid state carries every feature the
   * backend looks up, so the backend never answers "Missing feature".
   */
  lemma SubmissionHasEveryFeature<N>(form: map<string, string>, submitted: map<string, N>, parse: N -> App.Conversion)
    requires HasFormFields(form)
    requires submitted.Keys == form.Keys
    ensures App.AllPresent(submitted)
    ensures forall j :: 0 <= j < |Schema.FeatureNames| ==> App.CheckFeature(submitted, parse, Schema.FeatureNames[j]) != App.Absent
  {
    FormFieldsAreFeatureNames();
  }
}
