/**
 * The stand-alone form component (src/form.jsx): the same record and
 * submission as the landing page, a different failure message, and no advice.
 */
module FormView {
  import opened Optional
  import opened FormRecord
  import opened PageMachine

  /** What the form page stores when the submission throws. */
  const FailureResult: Prediction :=
    Prediction(Some("Error"), Some("Something went wrong. Try again."))

  /**
   * A near copy of Index.LandingPage in landing_page.dfy, as src/index.jsx and src/form.jsx are near
   * copies of each other: only the failure record and the advice paragraph
   * (shown by the landing page alone) differ.
   */
  class FormPage {
    var formData: Form
    var success: bool
    var result: Option<Prediction>
    /** `setSuccess(false)` callbacks scheduled and not yet run. */
    ghost var pendingTimers: nat

    ghost function State(): PageState
      reads this
    {
      PageState(formData, success, result, pendingTimers)
    }

    /** The success message is only shown while a timer that will hide it is pending. */
    ghost predicate Valid()
      reads this
    {
      BannerWillClear(State())
    }

    constructor ()
      ensures Valid() && State() == Initial()
      ensures formData.Keys == FieldNames && OrdinalsInDomain(formData)
      ensures !success && result.None?
    {
      formData := InitialForm();
      success := false;
      result := None;
      pendingTimers := 0;
    }

    /** `handleChange`: the input or select named `name` now holds `value`. */
    method HandleChange(name: string, value: string)
      requires Valid()
      modifies this
      ensures Valid() && State() == Step(old(State()), Change(name, value), FailureResult)
      ensures formData.Keys == old(formData.Keys) + {name} && formData[name] == value
      ensures forall k :: k in old(formData) && k != name ==> formData[k] == old(formData)[k]
      ensures success == old(success) && result == old(result) && pendingTimers == old(pendingTimers)
      ensures old(OrdinalsInDomain(formData)) && IsSelectEdit(name, value) ==> OrdinalsInDomain(formData)
    {
      formData := SetField(formData, name, value);
    }

    /** `handleSubmit`, with the network exchange supplied as `outcome`. */
    method HandleSubmit(outcome: Outcome)
      requires Valid()
      modifies this
      ensures Valid() && State() == Step(old(State()), Submit(outcome), FailureResult)
      ensures formData == old(formData)
      ensures outcome.Ok? ==>
        result == Some(Received(outcome.body)) && success && pendingTimers == old(pendingTimers) + 1
      ensures outcome.Throws? ==>
        result == Some(FailureResult) && success == old(success) && pendingTimers == old(pendingTimers)
    {
      match outcome
      case Ok(body) =>
        result := Some(Received(body));
        success := true;
        pendingTimers := pendingTimers + 1;
      case Throws =>
        result := Some(FailureResult);
    }

    /** The `setTimeout` callback scheduled by a successful submission. */
    method TimerFires()
      requires Valid() && pendingTimers > 0
      modifies this
      ensures Valid() && State() == Step(old(State()), TimerFired, FailureResult)
      ensures !success && formData == old(formData) && result == old(result)
      ensures pendingTimers == old(pendingTimers) - 1
    {
      success := false;
      pendingTimers := pendingTimers - 1;
    }
  }

  /**
   * Two submissions in a row, the second answered without `probability`: the
   * stored result is the second body's alone, with `probability` undefined.
   */
  method ResubmitScenario() returns (stored: Option<Prediction>, keys: set<string>)
    ensures stored == Some(Prediction(Some("Medium"), None))
    ensures keys == FieldNames
  {
    var page := new FormPage();
    page.HandleChange("DeliveryMethod", "1");
    page.HandleSubmit(Ok(map["riskLevel" := "Low", "probability" := "0.91"]));
    page.HandleSubmit(Ok(map["riskLevel" := "Medium"]));
    stored := page.result;
    keys := page.formData.Keys;
  }

  /** A thrown request before any success: "Error" stored, no banner. */
  method FailureScenario() returns (stored: Option<Prediction>, banner: bool)
    ensures stored == Some(Prediction(Some("Error"), Some("Something went wrong. Try again.")))
    ensures !banner
  {
    var page := new FormPage();
    page.HandleSubmit(Throws);
    stored := page.result;
    banner := page.success;
  }
}
