/**
  The generation workflow (frontend/src/App.jsx): the page holds the received
  calendar and a loading flag, and shows the campaign editor exactly while
  no calendar is held. The editor's own state lives only while it is mounted.
  The request and its resolution are events: the request goes out as an
  effect of a submission, and its outcome comes back as a later event.
 */
module App {
  import opened Models
  import InputForm
  import CalendarView

  /**
    The page state: `calendar` and `loading` are App's, `form` is the mounted
    editor's draft (`None` while the calendar view replaces it).
   */
  datatype AppState = AppState(
    calendar: Option<CalendarView.CalendarData>,
    loading: bool,
    form: Option<InputForm.Draft>)

  /** The page on first load: no calendar, nothing in flight, a freshly seeded editor. */
  const Start: AppState := AppState(None, false, Some(InputForm.InitialDraft))

  /** How a generation request resolves: the response body, or any failure of the request. */
  datatype Outcome = Succeeded(data: CalendarView.CalendarData) | Failed

  /** What can happen to the page. */
  datatype Event =
    | FormEdit(edit: InputForm.Edit)
    | Submit
    | Settle(outcome: Outcome)
    | StartOver

  /** What the page does to the outside world in response to an event. */
  datatype Effect = NoEffect | Request(payload: InputData) | FailureAlert

  /** What the page shows: the editor, with its button state, or the plan. */
  datatype Screen =
    | FormScreen(draft: InputForm.Draft, generating: bool)
    | PlanScreen(plan: CalendarView.PlanView)

  /**
    The states the page can be in: the editor is mounted exactly while no
    calendar is held, a request is only in flight from the editor, and the
    editor's slider value is within its bounds.
   */
  predicate Inv(s: AppState) {
    && (s.form.Some? <==> s.calendar.None?)
    && (s.loading ==> s.calendar.None?)
    && (s.form.Some? ==> InputForm.Valid(s.form.value))
  }

  /**
    The events the page can receive: edits and submissions need the editor on
    screen, a resolution needs a request in flight, "Start Over" needs the
    plan on screen.
   */
  predicate Enabled(s: AppState, e: Event) {
    match e
    case FormEdit(ed) => s.form.Some? && InputForm.Applicable(s.form.value, ed)
    case Submit => s.form.Some?
    case Settle(_) => s.loading
    case StartOver => s.calendar.Some?
  }

  /**
    One transition. A submission that the disabled button or the browser's
    required-field check stops has no effect; one that gets through sets
    `loading` and sends the draft's payload. Either outcome clears `loading`;
    success stores the response and unmounts the editor, failure raises the
    alert and leaves everything else as it was. "Start Over" drops the
    calendar, which mounts a fresh editor.
   */
  function Step(s: AppState, e: Event): (r: (AppState, Effect))
    requires Enabled(s, e)
    ensures r.1.Request? <==> e.Submit? && InputForm.CanSubmit(s.form.value, s.loading)
    ensures r.1.Request? ==> e.Submit? && r.0.loading && r.1.payload == InputForm.BuildPayload(s.form.value)
    ensures e.Submit? && s.loading ==> r == (s, NoEffect)
    ensures e.Submit? ==> r.0.calendar == s.calendar && r.0.form == s.form
    ensures e.Settle? ==> !r.0.loading
    ensures e.Settle? && e.outcome.Succeeded? ==> r.0.calendar == Some(e.outcome.data) && r.1 == NoEffect
    ensures e.Settle? && e.outcome.Failed? ==> r.0.calendar == s.calendar && r.0.form == s.form && r.1 == FailureAlert
    ensures e.StartOver? ==> r.0.calendar.None? && r.0.form == Some(InputForm.InitialDraft)
    ensures e.FormEdit? ==> r.0.calendar == s.calendar && r.0.loading == s.loading && r.1 == NoEffect
  {
    match e
    case FormEdit(ed) =>
      (s.(form := Some(InputForm.Apply(s.form.value, ed))), NoEffect)
    case Submit =>
      var draft := s.form.value;
      if InputForm.CanSubmit(draft, s.loading) then
        (s.(loading := true), Request(InputForm.BuildPayload(draft)))
      else
        (s, NoEffect)
    case Settle(Succeeded(data)) =>
      (AppState(Some(data), false, None), NoEffect)
    case Settle(Failed) =>
      (s.(loading := false), FailureAlert)
    case StartOver =>
      (AppState(None, s.loading, Some(InputForm.InitialDraft)), NoEffect)
  }

  /** `!calendar ? <InputForm/> : <CalendarView/>`: the editor exactly while no calendar is held, otherwise its rendering. */
  function View(s: AppState): (screen: Screen)
    requires Inv(s)
    ensures screen.FormScreen? <==> s.calendar.None?
    ensures screen.FormScreen? ==> Some(screen.draft) == s.form && screen.generating == s.loading
    ensures screen.PlanScreen? ==> CalendarView.Render(s.calendar) == Some(screen.plan)
  {
    if s.calendar.None? then FormScreen(s.form.value, s.loading)
    else PlanScreen(CalendarView.Render(s.calendar).value)
  }

  /** Every enabled event keeps the page in a reachable shape. */
  lemma StepKeepsInv(s: AppState, e: Event)
    requires Inv(s) && Enabled(s, e)
    ensures Inv(Step(s, e).0)
  {
  }

  /** A sequence of events each enabled when it arrives. */
  predicate Allowed(s: AppState, events: seq<Event>)
    decreases |events|
  {
    |events| == 0 || (Enabled(s, events[0]) && Allowed(Step(s, events[0]).0, events[1..]))
  }

  /** The page after a sequence of events. */
  function Run(s: AppState, events: seq<Event>): AppState
    requires Allowed(s, events)
    decreases |events|
  {
    if |events| == 0 then s else Run(Step(s, events[0]).0, events[1..])
  }

  /** The effects a sequence of events produces, in order. */
  function Effects(s: AppState, events: seq<Event>): seq<Effect>
    requires Allowed(s, events)
    decreases |events|
  {
    if |events| == 0 then [] else [Step(s, events[0]).1] + Effects(Step(s, events[0]).0, events[1..])
  }

  /** How many of the effects are generation requests. */
  function Requests(effects: seq<Effect>): nat {
    if |effects| == 0 then 0 else (if effects[0].Request? then 1 else 0) + Requests(effects[1..])
  }

  /** How many of the events are resolutions of a request. */
  function Settlements(events: seq<Event>): nat {
    if |events| == 0 then 0 else (if events[0].Settle? then 1 else 0) + Settlements(events[1..])
  }

  function InFlight(s: AppState): nat {
    if s.loading then 1 else 0
  }

  /** The page starts in a reachable shape. */
  lemma StartInv()
    ensures Inv(Start)
    ensures View(Start) == FormScreen(InputForm.InitialDraft, false)
  {
    InputForm.InitialDraftShape();
  }

  /** The shape of the page holds after any allowed sequence of events. */
  lemma {:induction false} RunKeepsInv(s: AppState, events: seq<Event>)
    requires Inv(s) && Allowed(s, events)
    ensures Inv(Run(s, events))
    decreases |events|
  {
    if |events| > 0 {
      StepKeepsInv(s, events[0]);
      RunKeepsInv(Step(s, events[0]).0, events[1..]);
    }
  }

  /**
    Requests and resolutions balance: every request sent is resolved by a
    later event, except the one still in flight when `loading` is set.
   */
  lemma {:induction false} RequestsBalance(s: AppState, events: seq<Event>)
    requires Allowed(s, events)
    ensures Requests(Effects(s, events)) + InFlight(s) == Settlements(events) + InFlight(Run(s, events))
    decreases |events|
  {
    if |events| > 0 {
      var next := Step(s, events[0]).0;
      RequestsBalance(next, events[1..]);
      assert Effects(s, events) == [Step(s, events[0]).1] + Effects(next, events[1..]);
      assert ([Step(s, events[0]).1] + Effects(next, events[1..]))[1..] == Effects(next, events[1..]);
    }
  }

  /** From the first page load, at most one request is ever outstanding. */
  lemma AtMostOneInFlight(events: seq<Event>)
    requires Allowed(Start, events)
    ensures Settlements(events) <= Requests(Effects(Start, events)) <= Settlements(events) + 1
    ensures Run(Start, events).loading <==> Requests(Effects(Start, events)) == Settlements(events) + 1
  {
    RequestsBalance(Start, events);
  }

  /** A failed request returns the page to exactly the editor it was sent from, with its draft intact, and raises the alert. */
  lemma FailureKeepsDraft(s: AppState)
    requires Inv(s) && s.form.Some? && InputForm.CanSubmit(s.form.value, s.loading)
    ensures Allowed(s, [Submit, Settle(Failed)])
    ensures Run(s, [Submit, Settle(Failed)]) == s
    ensures Effects(s, [Submit, Settle(Failed)]) == [Request(InputForm.BuildPayload(s.form.value)), FailureAlert]
  {
    var sent := Step(s, Submit).0;
    assert [Submit, Settle(Failed)][1..] == [Settle(Failed)];
    assert Allowed(sent, [Settle(Failed)]) by {
      assert [Settle(Failed)][1..] == [];
    }
  }

  /** "Start Over" from a displayed plan brings back the first page, seed values included, not the draft that was submitted. */
  lemma ResetReseeds(s: AppState)
    requires Inv(s) && s.calendar.Some?
    ensures Step(s, StartOver).0 == Start
    ensures View(Step(s, StartOver).0) == FormScreen(InputForm.InitialDraft, false)
    ensures InputForm.InitialDraft.company.name == "SlideForge"
  {
    StartInv();
  }

  /** A successful response replaces the editor with the rendering of exactly that response. */
  lemma SuccessShowsResponse(s: AppState, data: CalendarView.CalendarData)
    requires Inv(s) && s.loading
    ensures Inv(Step(s, Settle(Succeeded(data))).0)
    ensures View(Step(s, Settle(Succeeded(data))).0) == PlanScreen(CalendarView.Render(Some(data)).value)
  {
  }
}
