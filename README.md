# AI-MAAMA front end: form, submission and advice

A model of the logic inside the two React components of the AI-MAAMA
postpartum-haemorrhage front end: the landing page (`src/index.jsx`) and the
stand-alone form page (`src/form.jsx`). Each component keeps three pieces of
state: `formData`, a record of eleven raw-text fields; `success`, which
drives the "submitted successfully" banner; and `result`, the prediction last
received. The landing page also turns the predicted risk level into advice
text.

- `option.dfy` (`Optional`): `Option`, where `None` stands for `undefined`.
- `advice.dfy` (`Advice`): `getAdvice`, with ASCII lower-casing, the four
  advisory texts copied verbatim, and the proof that the labels getting each
  text are exactly the case variants of "low", "medium" and "high".
- `form_record.dfy` (`FormRecord`): the initial eleven-field record, the
  spread update done by `handleChange`, and the domain `""`, `"0"`, `"1"` of
  the three select fields.
- `page_machine.dfy` (`PageMachine`): the component state as a value and one
  `Step` per event. An event is a field edit, a submission whose network
  outcome (`Ok(body)` or `Throws`) is supplied by the caller, or the firing of
  a scheduled `setTimeout` callback. The lemmas are about runs of events.
  Scheduled callbacks are counted in `pendingTimers`, a piece of the
  JavaScript runtime's state rather than the component's.
- `landing_page.dfy` (`Index.LandingPage`) and `form_page.dfy`
  (`FormView.FormPage`): the two components as classes with mutable fields.
  Each method states the new field values and that the new state is `Step`
  of the old one. They differ only in the record stored when the submission
  throws and in the advice paragraph, which only the landing page shows.
- The record stored after a decoded body is `PageMachine.Received`:
  `{ riskLevel: data.riskLevel, probability: data.probability }`, where
  `PageMachine.Entry` reads one key of the body as JavaScript does, giving
  `undefined` (`None`) for an absent key.

The code has no guard against a second submission while one is in flight.
A decoded body without `riskLevel` still raises the banner, and its advice
is the fallback (`Index.MissingRiskLevelStillSucceeds`). A response with a
non-2xx status is handled like any other: its body is decoded and stored.
The failure branch is reached only when something inside the `try` throws:
`fetch`, `response.json()`, or reading `data.riskLevel` when the body
decodes to JSON `null`. Field names are not validated: an unknown name adds
a key (`FormRecord.SetField`).

## Model

| member | source | states |
|---|---|---|
| `Advice.LowerAscii` | src/index.jsx:48 | the lower-cased label has the same length and each character is the lower case of the original one |
| `Advice.GetAdvice` | src/index.jsx:47-59 | each tier's text is returned exactly when the lower-cased label is "low", "medium" or "high"; the fallback exactly when the label is absent or matches none of them |
| `Advice.AdviceTextsDistinct` | src/index.jsx:49-56 | the low, medium, high and fallback texts are pairwise distinct |
| `Advice.LowerMatchesIgnoringCase` | src/index.jsx:48 | for a lower-case target, lower-casing a label gives the target iff the label equals it up to letter case |
| `Advice.AdviceIgnoresCase` | src/index.jsx:48-54 | two labels that differ only in letter case get the same advice |
| `Advice.AdviceByTier` | src/index.jsx:48-56 | the labels getting each tier's text are exactly the case variants of that tier's name; all other labels get the fallback |
| `Advice.LowAdviceCaseVariants` | src/index.jsx:48-50 | "Low", "low" and "LOW" all get the low-risk text |
| `Advice.FallbackExamples` | src/index.jsx:48-56 | the empty, absent and unknown labels get the fallback text |
| `FormRecord.InitialForm` | src/index.jsx:6-18 | the initial record has exactly the eleven field names as keys, each mapped to "", and its select fields are in their domain |
| `FormRecord.SetField` | src/index.jsx:23-25 | the named field holds the new value, every other key keeps its value, and the keys stay the eleven names when the name is one of them |
| `FormRecord.SelectEditKeepsDomain` | src/form.jsx:111-158 | an edit a select can produce keeps Anaemia, DeliveryMethod and HistoryPPH in "", "0", "1" |
| `FormRecord.FreeEditBreaksDomain` | src/form.jsx:22-24 | `handleChange` itself checks nothing: writing "2" to Anaemia leaves the domain |
| `PageMachine.Initial` | src/form.jsx:5-20 | the first state has the empty record, no banner, a null result and no timer pending |
| `PageMachine.Step` | src/form.jsx:22-56 | an edit changes only the named field and nothing else; a submission never touches the record; a decoded body is stored whatever it holds and raises the banner, scheduling one timer; an exception stores the failure record and leaves the banner; a timer clears the banner only |
| `PageMachine.StepKeepsBannerWillClear` | src/index.jsx:36-43 | every event keeps "banner up implies a timer is pending" |
| `PageMachine.RunKeepsBannerWillClear` | src/index.jsx:36-43 | every run of events keeps "banner up implies a timer is pending" |
| `PageMachine.PendingTimersClearBanner` | src/index.jsx:38-39 | after all pending timers fire the banner is down and record and result are unchanged |
| `PageMachine.BannerComesDown` | src/index.jsx:36-43 | from the first render, after any run of events, firing the pending timers brings the banner down and keeps record and result |
| `PageMachine.RunKeepsOrdinals` | src/form.jsx:114-156 | while select fields are edited only through their selects, every run keeps them in "", "0", "1" |
| `PageMachine.OrdinalsFromInitial` | src/index.jsx:178-197 | from the first render, select-only editing keeps the select fields in "", "0", "1" |
| `PageMachine.RunWithoutEditsKeepsForm` | src/form.jsx:26-56 | any run of submissions and timers leaves the record as it was |
| `PageMachine.ResubmitSameOutcome` | src/form.jsx:26-56 | submitting twice with the same outcome leaves the same result, record and banner as submitting once |
| `PageMachine.SubmitForgetsEarlierResult` | src/form.jsx:42-45 | the stored result depends on the submission's own outcome only |
| `PageMachine.TimerAfterOk` | src/index.jsx:37-39 | the timer a decoded body schedules can fire, and firing it clears only the banner |
| `Index.LandingPage.constructor` | src/index.jsx:6-21 | the page starts with the eleven empty fields, no banner and no result |
| `Index.LandingPage.HandleChange` | src/index.jsx:23-25 | the named field is overwritten, all other fields, banner and result unchanged |
| `Index.LandingPage.HandleSubmit` | src/index.jsx:27-44 | on a decoded body the result is its riskLevel and probability and the banner is up; on an exception the result is Error / "Try again later." and the banner unchanged; the record never changes |
| `Index.LandingPage.TimerFires` | src/index.jsx:39 | the banner goes down; record and result unchanged |
| `Index.LandingPage.ShownAdvice` | src/index.jsx:210-224 | advice is shown exactly when a result is stored, and is the fallback for the failure record or an absent label |
| `Index.ThrowsGetsFallbackAdvice` | src/index.jsx:40-43 | the "Error" label of a failed submission gets the fallback advice |
| `Index.MissingRiskLevelStillSucceeds` | src/index.jsx:36-38 | a body without riskLevel still raises the banner, and its advice is the fallback |
| `Index.HighLabelGetsHighAdvice` | src/index.jsx:53-54 | the label "High" gets the urgent-referral text |
| `Index.HighRiskScenario` | src/index.jsx:27-59 | submitting, getting "High" and letting the timer fire leaves the urgent-referral advice and no banner |
| `Index.FailureAfterSuccessScenario` | src/index.jsx:36-43 | an exception after a success replaces the result with the failure record but leaves the banner up |
| `FormView.FormPage.constructor` | src/form.jsx:5-20 | the page starts with the eleven empty fields, no banner and no result |
| `FormView.FormPage.HandleChange` | src/form.jsx:22-24 | the named field is overwritten, all others unchanged; select edits keep the select fields in domain |
| `FormView.FormPage.HandleSubmit` | src/form.jsx:26-56 | on a decoded body the result copies riskLevel and probability, even when absent, and the banner is up; on an exception the result is Error / "Something went wrong. Try again." and the banner unchanged; the record never changes |
| `FormView.FormPage.TimerFires` | src/form.jsx:48 | the banner goes down; record and result unchanged |
| `FormView.ResubmitScenario` | src/form.jsx:38-47 | a second submission's result holds only the second body, with an absent probability; the record keeps its eleven keys |
| `FormView.FailureScenario` | src/form.jsx:49-55 | an exception before any success stores the failure record and raises no banner |

## Left out

- `fetch`, its URL and headers, `JSON.stringify` and `response.json()` are network I/O and library calls. The caller supplies their joint outcome: a decoded body of string entries, or an exception.
- `setTimeout`'s 3000 ms delay is not modelled. A callback is an explicit event that may run at any point after it was scheduled; `pendingTimers` counts the scheduled ones.
- Submissions are atomic. The interleaving of an in-flight request with edits or other submissions is not modelled. Neither is React's batching of state updates, nor the stale `formData` a handler closes over between renders.
- `formData` is a map, so the key order used when the record is serialised is not modelled.
- The decoded body is modelled as a map from keys to text. An entry that is JSON `null` behaves like an absent one (`null?.toLowerCase()` is `undefined`, so its advice is the fallback), and is modelled as absent. Entries that are JSON numbers or booleans are not modelled.
- A body that decodes to JSON `null` cannot be written as `Ok(body)`. Reading `data.riskLevel` from it throws inside the `try`, so the caller supplies `Throws` for it and the failure record is stored.
- `Advice.LowerAscii`: lower-cases ASCII letters only, not full Unicode `toLowerCase`. The three matched labels are pure ASCII. A label with non-ASCII characters is not lower-cased as JavaScript would lower-case it.
- `e.preventDefault()`, `console.log` / `console.error`, all JSX markup and styling, the footer's current year, and `src/App.jsx` (the switch between the two views) are presentation only.
