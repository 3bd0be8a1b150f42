/**
 * The form record both components keep in `formData`: eleven fields of raw
 * text, keyed by field name, all empty at first. `handleChange` replaces one
 * field by spreading the old record into a new one.
 */
module FormRecord {

  /** A JavaScript object from field names to the raw text typed or selected. */
  type Form = map<string, string>

  /** The eleven keys of the initial record. */
  const FieldNames: set<string> := {
    "Age", "SystolicBP", "DiastolicBP", "BS", "BodyTemp", "HeartRate", "BMI",
    "Anaemia", "Parity", "DeliveryMethod", "HistoryPPH"
  }

  /** The fields edited through a select rather than a number input. */
  const OrdinalFields: set<string> := {"Anaemia", "DeliveryMethod", "HistoryPPH"}

  /** The values the selects offer: "Select" (unanswered), then the codes 0 and 1. */
  const SelectValues: set<string> := {"", "0", "1"}

  /** The record a component starts with. */
  function InitialForm(): (f: Form)
    ensures f.Keys == FieldNames
    ensures forall k :: k in f ==> f[k] == ""
    ensures OrdinalsInDomain(f)
  {
    map[
      "Age" := "", "SystolicBP" := "", "DiastolicBP" := "", "BS" := "",
      "BodyTemp" := "", "HeartRate" := "", "BMI" := "", "Anaemia" := "",
      "Parity" := "", "DeliveryMethod" := "", "HistoryPPH" := ""
    ]
  }

  /** `{ ...f, [name]: value }`: the named field is overwritten, nothing else moves. */
  function SetField(f: Form, name: string, value: string): (r: Form)
    ensures r.Keys == f.Keys + {name}
    ensures r[name] == value
    ensures forall k :: k in f && k != name ==> r[k] == f[k]
    ensures name in FieldNames && f.Keys == FieldNames ==> r.Keys == FieldNames
  {
    f[name := value]
  }

  /** Each select-edited field holds one of the values its select offers. */
  predicate OrdinalsInDomain(f: Form)
  {
    forall k :: k in OrdinalFields ==> k in f && f[k] in SelectValues
  }

  /** An edit that a select could have produced, if it touches a select field at all. */
  predicate IsSelectEdit(name: string, value: string)
  {
    name in OrdinalFields ==> value in SelectValues
  }

  /** Edits through the selects keep the select fields in their domain. */
  lemma SelectEditKeepsDomain(f: Form, name: string, value: string)
    requires OrdinalsInDomain(f) && IsSelectEdit(name, value)
    ensures OrdinalsInDomain(SetField(f, name, value))
  {
  }

  /** `handleChange` does not check values: an edit that no select offers leaves the domain. */
  lemma FreeEditBreaksDomain()
    ensures !OrdinalsInDomain(SetField(InitialForm(), "Anaemia", "2"))
  {
    assert SetField(InitialForm(), "Anaemia", "2")["Anaemia"] == "2";
  }
}
