/**
 * The state both components keep (`formData`, `success`, `result`) and the
 * events that change it: a field edit, a submission whose network outcome is
 * supplied from outside, and the firing of a success timer. The two
 * components differ only in the record stored when the submission throws,
 * so that record is a parameter here.
 */
module PageMachine {
  import opened Optional
  import opened FormRecord

  /** The record stored in `result`: both entries may be `undefined`. */
  datatype Prediction = Prediction(riskLevel: Option<string>, probability: Option<string>)

  /**
   * What happened inside the `try`: a decoded body, or an exception. An
   * exception comes from `fetch`, from `response.json()`, or from reading
   * `data.riskLevel` when the body decodes to JSON `null`; such a body is
   * therefore given as `Throws`. A non-2xx status is not an exception.
   */
  datatype Outcome = Ok(body: map<string, string>) | Throws

  datatype Event =
    | Change(name: string, value: string)
    | Submit(outcome: Outcome)
    | TimerFired

  /**
   * The component state. `pendingTimers` counts the `setTimeout` callbacks
   * scheduled and not yet run; it belongs to the JavaScript runtime, not to
   * the component.
   */
  datatype PageState = PageState(
    formData: Form,
    success: bool,
    result: Option<Prediction>,
    pendingTimers: nat)

  /** The state on first render: empty record, no banner, `result` null. */
  function Initial(): (s: PageState)
    ensures s.formData == InitialForm() && !s.success && s.result.None?
    ensures s.pendingTimers == 0
  {
    PageState(InitialForm(), false, None, 0)
  }

  /** `data[key]`: absent keys read as `undefined`. */
  function Entry(body: map<string, string>, key: string): Option<string>
  {
    if key in body then Some(body[key]) else None
  }

  /** `{ riskLevel: data.riskLevel, probability: data.probability }`. */
  function Received(body: map<string, string>): Prediction
  {
    Prediction(Entry(body, "riskLevel"), Entry(body, "probability"))
  }

  /** A timer callback can only run once it has been scheduled. */
  predicate Enabled(s: PageState, e: Event)
  {
    e.TimerFired? ==> s.pendingTimers > 0
  }

  /**
   * One event. `failure` is the record the component stores when the
   * submission throws.
   */
  function Step(s: PageState, e: Event, failure: Prediction): (r: PageState)
    requires Enabled(s, e)
    // only an edit touches the record, and only the named field
    ensures e.Change? ==> r.formData == SetField(s.formData, e.name, e.value)
    ensures !e.Change? ==> r.formData == s.formData
    // an edit leaves the submission state alone
    ensures e.Change? ==> r.success == s.success && r.result == s.result
    ensures e.Change? ==> r.pendingTimers == s.pendingTimers
    // a decoded body is stored whatever it holds, raises the banner and schedules its clearing
    ensures e.Submit? && e.outcome.Ok? ==>
      r.result == Some(Received(e.outcome.body)) && r.success
      && r.pendingTimers == s.pendingTimers + 1
    // an exception stores the failure record and leaves the banner as it was
    ensures e.Submit? && e.outcome.Throws? ==>
      r.result == Some(failure) && r.success == s.success
      && r.pendingTimers == s.pendingTimers
    // a timer clears the banner only
    ensures e.TimerFired? ==>
      !r.success && r.result == s.result && r.pendingTimers == s.pendingTimers - 1
  {
    match e
    case Change(name, value) => s.(formData := SetField(s.formData, name, value))
    case Submit(Ok(body)) =>
      s.(result := Some(Received(body)), success := true, pendingTimers := s.pendingTimers + 1)
    case Submit(Throws) => s.(result := Some(failure))
    case TimerFired => s.(success := false, pendingTimers := s.pendingTimers - 1)
  }

  /** Events one after another; `None` if a timer fires that was never scheduled. */
  function Run(s: PageState, events: seq<Event>, failure: Prediction): (r: Option<PageState>)
    decreases |events|
  {
    if events == [] then Some(s)
    else if !Enabled(s, events[0]) then None
    else Run(Step(s, events[0], failure), events[1..], failure)
  }

  /** The banner is only up while a timer that will clear it is pending. */
  predicate BannerWillClear(s: PageState)
  {
    s.success ==> s.pendingTimers > 0
  }

  /** Every event keeps `BannerWillClear`. */
  lemma StepKeepsBannerWillClear(s: PageState, e: Event, failure: Prediction)
    requires Enabled(s, e) && BannerWillClear(s)
    ensures BannerWillClear(Step(s, e, failure))
  {
  }

  /** Every run keeps `BannerWillClear`; in particular every run from the initial state. */
  lemma {:induction false} RunKeepsBannerWillClear(s: PageState, events: seq<Event>, failure: Prediction)
    requires BannerWillClear(s) && Run(s, events, failure).Some?
    ensures BannerWillClear(Run(s, events, failure).value)
    decreases |events|
  {
    if events != [] {
      StepKeepsBannerWillClear(s, events[0], failure);
      RunKeepsBannerWillClear(Step(s, events[0], failure), events[1..], failure);
    }
  }

  /** `n` timer callbacks in a row. */
  function Timers(n: nat): seq<Event>
  {
    seq(n, _ => TimerFired)
  }

  /**
   * Once every pending timer has fired, the banner is down and nothing but
   * the banner and the timer queue has changed.
   */
  lemma {:induction false} PendingTimersClearBanner(s: PageState, failure: Prediction)
    requires BannerWillClear(s)
    ensures Run(s, Timers(s.pendingTimers), failure) == Some(s.(success := false, pendingTimers := 0))
    decreases s.pendingTimers
  {
    var n := s.pendingTimers;
    if n > 0 {
      var s' := Step(s, TimerFired, failure);
      assert Timers(n)[1..] == Timers(n - 1);
      PendingTimersClearBanner(s', failure);
    }
  }

  /**
   * From the first render, whatever has happened, firing the timers still
   * pending brings the banner down and keeps the record and the result.
   */
  lemma BannerComesDown(events: seq<Event>, failure: Prediction)
    requires Run(Initial(), events, failure).Some?
    ensures var s := Run(Initial(), events, failure).value;
            Run(s, Timers(s.pendingTimers), failure) == Some(s.(success := false, pendingTimers := 0))
  {
    RunKeepsBannerWillClear(Initial(), events, failure);
    PendingTimersClearBanner(Run(Initial(), events, failure).value, failure);
  }

  /** The event is a submission or a timer, or an edit a select could produce. */
  predicate ThroughSelects(e: Event)
  {
    e.Change? ==> IsSelectEdit(e.name, e.value)
  }

  /**
   * While select fields are edited only through their selects, they hold
   * "", "0" or "1".
   */
  lemma {:induction false} RunKeepsOrdinals(s: PageState, events: seq<Event>, failure: Prediction)
    requires OrdinalsInDomain(s.formData)
    requires forall i :: 0 <= i < |events| ==> ThroughSelects(events[i])
    requires Run(s, events, failure).Some?
    ensures OrdinalsInDomain(Run(s, events, failure).value.formData)
    decreases |events|
  {
    if events != [] {
      var e := events[0];
      if e.Change? {
        SelectEditKeepsDomain(s.formData, e.name, e.value);
      }
      RunKeepsOrdinals(Step(s, e, failure), events[1..], failure);
    }
  }

  /** From the first render, select-only editing keeps the select fields in range. */
  lemma OrdinalsFromInitial(events: seq<Event>, failure: Prediction)
    requires forall i :: 0 <= i < |events| ==> ThroughSelects(events[i])
    requires Run(Initial(), events, failure).Some?
    ensures OrdinalsInDomain(Run(Initial(), events, failure).value.formData)
  {
    RunKeepsOrdinals(Initial(), events, failure);
  }

  /** Submissions and timers never touch the form record, however many happen. */
  lemma {:induction false} RunWithoutEditsKeepsForm(s: PageState, events: seq<Event>, failure: Prediction)
    requires forall i :: 0 <= i < |events| ==> !events[i].Change?
    requires Run(s, events, failure).Some?
    ensures Run(s, events, failure).value.formData == s.formData
    decreases |events|
  {
    if events != [] {
      RunWithoutEditsKeepsForm(Step(s, events[0], failure), events[1..], failure);
    }
  }

  /**
   * A submission's stored result depends on its outcome alone, so submitting
   * again with the same outcome stores the same result and the same record.
   */
  lemma ResubmitSameOutcome(s: PageState, outcome: Outcome, failure: Prediction)
    ensures var once := Step(s, Submit(outcome), failure);
            var twice := Step(once, Submit(outcome), failure);
            twice.result == once.result && twice.formData == once.formData
            && twice.success == once.success
  {
  }

  /** Each submission reflects only its own response, not what was stored before. */
  lemma SubmitForgetsEarlierResult(s1: PageState, s2: PageState, outcome: Outcome, failure: Prediction)
    ensures Step(s1, Submit(outcome), failure).result == Step(s2, Submit(outcome), failure).result
  {
  }

  /** The timer scheduled by a decoded body clears the banner and keeps its result. */
  lemma TimerAfterOk(s: PageState, body: map<string, string>, failure: Prediction)
    ensures var shown := Step(s, Submit(Ok(body)), failure);
            Enabled(shown, TimerFired)
            && Step(shown, TimerFired, failure) == shown.(success := false, pendingTimers := s.pendingTimers)
  {
  }
}
