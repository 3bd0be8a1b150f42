/**
 * The landing page component (src/index.jsx): the form, the submission and
 * the prediction box with its advice.
 */
module Index {
  import opened Optional
  import opened FormRecord
  import opened Advice
  import opened PageMachine

  /** What the landing page stores when the submission throws. */
  const FailureResult: Prediction := Prediction(Some("Error"), Some("Try again later."))

  /**
   * A near copy of FormView.FormPage in form_page.dfy, as src/index.jsx and src/form.jsx are near
   * copies of each other: only the failure record and the advice paragraph
   * (shown by the landing page alone) differ.
   */
  class LandingPage {
    var formData: Form
    var success: bool
    var result: Option<Prediction>
    /** `setSuccess(false)` callbacks scheduled and not yet run. */
    ghost var pendingTimers: nat

    ghost function State(): PageState
      reads this
    {
      PageState(formData, success, result, pendingTimers)
    }

    /** The success banner is only shown while a timer that will hide it is pending. */
    ghost predicate Valid()
      reads this
    {
      BannerWillClear(State())
    }

    constructor ()
      ensures Valid() && State() == Initial()
      ensures formData.Keys == FieldNames && !success && result.None?
    {
      formData := InitialForm();
      success := false;
      result := None;
      pendingTimers := 0;
    }

    /** `handleChange`: the input named `name` now shows `value`. */
    method HandleChange(name: string, value: string)
      requires Valid()
      modifies this
      ensures Valid() && State() == Step(old(State()), Change(name, value), FailureResult)
      ensures formData.Keys == old(formData.Keys) + {name} && formData[name] == value
      ensures forall k :: k in old(formData) && k != name ==> formData[k] == old(formData)[k]
      ensures success == old(success) && result == old(result) && pendingTimers == old(pendingTimers)
    {
      formData := SetField(formData, name, value);
    }

    /** `handleSubmit`, with the network exchange supplied as `outcome`. */
    method HandleSubmit(outcome: Outcome)
      requires Valid()
      modifies this
      ensures Valid() && State() == Step(old(State()), Submit(outcome), FailureResult)
      ensures formData == old(formData)
      ensures outcome.Ok? ==>
        result == Some(Received(outcome.body)) && success && pendingTimers == old(pendingTimers) + 1
      ensures outcome.Throws? ==>
        result == Some(FailureResult) && success == old(success) && pendingTimers == old(pendingTimers)
    {
      match outcome
      case Ok(body) =>
        result := Some(Received(body));
        success := true;
        pendingTimers := pendingTimers + 1;
      case Throws =>
        result := Some(FailureResult);
    }

    /** The `setTimeout` callback scheduled by a successful submission. */
    method TimerFires()
      requires Valid() && pendingTimers > 0
      modifies this
      ensures Valid() && State() == Step(old(State()), TimerFired, FailureResult)
      ensures !success && formData == old(formData) && result == old(result)
      ensures pendingTimers == old(pendingTimers) - 1
    {
      success := false;
      pendingTimers := pendingTimers - 1;
    }

    /** The advice paragraph: shown with the result box, i.e. once `result` is set. */
    function ShownAdvice(): (r: Option<string>)
      reads this
      ensures r.Some? <==> result.Some?
      ensures result == Some(FailureResult) ==> r == Some(FallbackAdvice)
      ensures result.Some? && result.value.riskLevel.None? ==> r == Some(FallbackAdvice)
    {
      ThrowsGetsFallbackAdvice();
      if result.None? then None else Some(GetAdvice(result.value.riskLevel))
    }
  }

  /** The "Error" label of a failed submission gets the fallback advice. */
  lemma ThrowsGetsFallbackAdvice()
    ensures GetAdvice(FailureResult.riskLevel) == FallbackAdvice
  {
    AdviceByTier("Error");
  }

  /**
   * A body without `riskLevel` still counts as a success: the banner goes up
   * and the advice is the fallback text.
   */
  lemma MissingRiskLevelStillSucceeds(s: PageState, body: map<string, string>)
    requires "riskLevel" !in body
    ensures var r := Step(s, Submit(Ok(body)), FailureResult);
            r.success && r.result.Some? && GetAdvice(r.result.value.riskLevel) == FallbackAdvice
  {
  }

  /** The label "High" sent by the prediction service gets the urgent-referral text. */
  lemma HighLabelGetsHighAdvice()
    ensures GetAdvice(Some("High")) == HighAdvice
  {
    AdviceByTier("High");
  }

  /** A high-risk answer followed by its timer: banner down, urgent-referral advice kept. */
  method HighRiskScenario() returns (advice: Option<string>, banner: bool)
    ensures advice == Some(HighAdvice) && !banner
  {
    var page := new LandingPage();
    page.HandleChange("Age", "30");
    page.HandleChange("Anaemia", "1");
    page.HandleSubmit(Ok(map["riskLevel" := "High", "probability" := "0.82"]));
    assert page.result == Some(Prediction(Some("High"), Some("0.82")));
    page.TimerFires();
    HighLabelGetsHighAdvice();
    advice := page.ShownAdvice();
    banner := page.success;
  }

  /** A thrown request after a success: result replaced by "Error", banner left up. */
  method FailureAfterSuccessScenario() returns (advice: Option<string>, banner: bool)
    ensures advice == Some(FallbackAdvice) && banner
  {
    var page := new LandingPage();
    page.HandleSubmit(Ok(map["riskLevel" := "low"]));
    page.HandleSubmit(Throws);
    advice := page.ShownAdvice();
    banner := page.success;
  }
}
