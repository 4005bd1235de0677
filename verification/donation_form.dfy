/** The three-step food-donation wizard (`components/events/donation-form.tsx`). */
module DonationForm {
  import opened Json
  import EventsRoute

  /** The quantity field holds `Number.parseFloat` of the input text, which is
      NaN when that text is not a number (an emptied field, say). */
  datatype Quantity = Kg(value: real) | NotANumber

  datatype FormData = FormData(
    eventName: string,
    eventDate: string,
    foodQuantityKg: Quantity,
    address: string,
    latitude: real,
    longitude: real,
    instructions: string)

  const EmptyForm: FormData := FormData("", "", Kg(0.0), "", 0.0, 0.0, "")

  datatype State = State(step: int, isLoading: bool, data: FormData)

  const Initial: State := State(1, false, EmptyForm)

  /** "Next Step": shown on steps 1 and 2 only. */
  function Next(step: int): int {
    if step == 1 then 2 else if step == 2 then 3 else step
  }

  /** "Back": shown on steps 2 and 3 only. */
  function Back(step: int): int {
    if step == 2 then 1 else if step == 3 then 2 else step
  }

  /** Back undoes Next and Next undoes Back wherever the buttons exist; neither
      leaves the three steps. */
  lemma NextAndBackAreInverse(step: int)
    requires 1 <= step <= 3
    ensures 1 <= Next(step) <= 3 && 1 <= Back(step) <= 3
    ensures step < 3 ==> Next(step) == step + 1 && Back(Next(step)) == step
    ensures step > 1 ==> Back(step) == step - 1 && Next(Back(step)) == step
  {
  }

  /** The submit guard of `handleSubmit` as written: `quantity <= 0` is false
      for NaN, so a NaN quantity gets through. */
  predicate ReadyAsWritten(d: FormData) {
    d.eventName != "" && d.eventDate != "" && !(d.foodQuantityKg.Kg? && d.foodQuantityKg.value <= 0.0)
  }

  /** The guard as intended: a positive number of kilograms. */
  predicate Ready(d: FormData) {
    d.eventName != "" && d.eventDate != "" && d.foodQuantityKg.Kg? && d.foodQuantityKg.value > 0.0
  }

  /** The body `handleSubmit` posts to `/api/events`; `JSON.stringify` writes NaN as null. */
  function RequestBody(d: FormData): Body {
    Object(map[
      "event_name" := Text(d.eventName),
      "event_date" := Text(d.eventDate),
      "food_quantity_kg" := (if d.foodQuantityKg.Kg? then Number(d.foodQuantityKg.value) else Null),
      "latitude" := Number(d.latitude),
      "longitude" := Number(d.longitude)])
  }

  /** How the request ended: `response.ok`, a non-ok response, or `fetch` threw. */
  datatype Outcome = Accepted | Refused | Threw

  datatype Submitted = Submitted(state: State, request: Option<Body>)

  /** `handleSubmit` with the guard as written, from the click to the end of its `finally`. */
  function HandleSubmitAsWritten(s: State, outcome: Outcome): (r: Submitted)
    ensures !ReadyAsWritten(s.data) ==> r == Submitted(s, None)
    ensures ReadyAsWritten(s.data) ==> r.request == Some(RequestBody(s.data)) && !r.state.isLoading
    ensures ReadyAsWritten(s.data) && outcome == Accepted ==> r.state == Initial
    ensures ReadyAsWritten(s.data) && outcome != Accepted ==> r.state == s.(isLoading := false)
  {
    if !ReadyAsWritten(s.data) then Submitted(s, None)
    else if outcome == Accepted then Submitted(State(1, false, EmptyForm), Some(RequestBody(s.data)))
    else Submitted(s.(isLoading := false), Some(RequestBody(s.data)))
  }

  /** An emptied quantity field passes the guard as written and sends a body the
      server's schema refuses. */
  lemma NaNQuantityGetsThrough()
    ensures var s := State(3, false, FormData("Wedding", "2025-02-01", NotANumber, "", 0.0, 0.0, ""));
            && HandleSubmitAsWritten(s, Refused).request == Some(RequestBody(s.data))
            && EventsRoute.ParseEvent(RequestBody(s.data).fields).None?
  {
  }

  /** `handleSubmit` with the intended guard; the wizard below uses this one. */
  function HandleSubmit(s: State, outcome: Outcome): (r: Submitted)
    ensures !Ready(s.data) ==> r == Submitted(s, None)
    ensures Ready(s.data) ==> r.request == Some(RequestBody(s.data)) && !r.state.isLoading
    ensures Ready(s.data) && outcome == Accepted ==> r.state == Initial
    ensures Ready(s.data) && outcome != Accepted ==> r.state == s.(isLoading := false)
  {
    if !Ready(s.data) then Submitted(s, None)
    else if outcome == Accepted then Submitted(State(1, false, EmptyForm), Some(RequestBody(s.data)))
    else Submitted(s.(isLoading := false), Some(RequestBody(s.data)))
  }

  /** The two guards differ only on NaN. */
  lemma GuardsAgreeOnNumbers(d: FormData)
    ensures d.foodQuantityKg.Kg? ==> (Ready(d) <==> ReadyAsWritten(d))
    ensures d.foodQuantityKg.NotANumber? ==> !Ready(d) && (ReadyAsWritten(d) <==> d.eventName != "" && d.eventDate != "")
  {
  }

  /** Every request the intended form sends passes the server's schema unchanged. */
  lemma SentRequestsPassSchema(s: State, outcome: Outcome)
    requires HandleSubmit(s, outcome).request.Some?
    ensures var body := HandleSubmit(s, outcome).request.value;
            && body.Object?
            && EventsRoute.ParseEvent(body.fields)
               == Some(EventsRoute.EventData(s.data.eventName, s.data.eventDate, s.data.foodQuantityKg.value,
                                            s.data.latitude, s.data.longitude))
  {
  }

  /** A zero quantity is stopped by the form though the server would take it. */
  lemma ZeroQuantityStoppedByFormOnly(s: State, outcome: Outcome)
    requires s.data.eventName != "" && s.data.foodQuantityKg == Kg(0.0)
    ensures HandleSubmit(s, outcome).request.None? && HandleSubmitAsWritten(s, outcome).request.None?
    ensures EventsRoute.ParseEvent(RequestBody(s.data).fields).Some?
  {
  }

  /** The form together with the request `fetch` is still awaiting, if any. */
  datatype Session = Session(ui: State, inFlight: Option<Body>)

  const Start: Session := Session(Initial, None)

  /** The user's actions, and the arrival of the pending request's outcome. */
  datatype Action =
    | PressNext
    | PressBack
    | EditName(name: string)
    | EditDate(date: string)
    | EditQuantity(kg: Quantity)
    | EditAddress(address: string)
    | EditInstructions(text: string)
    | UseLocation(latitude: real, longitude: real)
    | PressSubmit
    | Respond(outcome: Outcome)

  /** The inputs of step 1, "Event Details". */
  predicate DetailsEdit(a: Action) {
    a.EditName? || a.EditDate? || a.EditQuantity?
  }

  /** The inputs of step 2, "Event Location". */
  predicate LocationEdit(a: Action) {
    a.EditAddress? || a.EditInstructions? || a.UseLocation?
  }

  /** One action. Each input exists only on its own step (step 3 only reviews);
      an edit made where its input is not shown does nothing. Next and Back stay
      usable while a request is pending; the submit button exists on step 3 only
      and is disabled while loading. Submit runs the guard of `HandleSubmit`,
      and the outcome then runs the rest of `handleSubmit` against the form as
      it is by then. */
  function Apply(w: Session, a: Action): (r: Session)
    // Navigation works whether or not a request is pending, and moves nothing else.
    ensures (a == PressNext || a == PressBack) ==> r.inFlight == w.inFlight && r.ui.(step := w.ui.step) == w.ui
    ensures a == PressNext && w.ui.step < 3 ==> r.ui.step == Next(w.ui.step)
    ensures a == PressBack && w.ui.step > 1 ==> r.ui.step == Back(w.ui.step)
    // Each input sets its field on its own step and does nothing elsewhere.
    ensures DetailsEdit(a) && w.ui.step != 1 ==> r == w
    ensures LocationEdit(a) && w.ui.step != 2 ==> r == w
    ensures DetailsEdit(a) || LocationEdit(a) ==> r.inFlight == w.inFlight && r.ui.step == w.ui.step
    ensures a.EditName? && w.ui.step == 1 ==> r.ui.data == w.ui.data.(eventName := a.name)
    ensures a.EditDate? && w.ui.step == 1 ==> r.ui.data == w.ui.data.(eventDate := a.date)
    ensures a.EditQuantity? && w.ui.step == 1 ==> r.ui.data == w.ui.data.(foodQuantityKg := a.kg)
    ensures a.EditAddress? && w.ui.step == 2 ==> r.ui.data == w.ui.data.(address := a.address)
    ensures a.EditInstructions? && w.ui.step == 2 ==> r.ui.data == w.ui.data.(instructions := a.text)
    ensures a.UseLocation? && w.ui.step == 2 ==> r.ui.data == w.ui.data.(latitude := a.latitude, longitude := a.longitude)
    // Submit sends only from step 3, when not loading and the guard passes.
    ensures a == PressSubmit && (w.ui.step != 3 || w.ui.isLoading || !Ready(w.ui.data)) ==> r == w
    ensures a == PressSubmit && w.ui.step == 3 && !w.ui.isLoading && Ready(w.ui.data) ==>
              r.inFlight == HandleSubmit(w.ui, Refused).request && r.ui == w.ui.(isLoading := true)
    // A response settles the pending request on whatever step the form is on by then.
    ensures a.Respond? && w.inFlight.None? ==> r == w
    ensures a.Respond? && w.inFlight.Some? ==>
              && r.inFlight.None?
              && !r.ui.isLoading
              && r.ui == (if a.outcome == Accepted then Initial else w.ui.(isLoading := false))
  {
    var s := w.ui;
    match a
    case PressNext => if s.step < 3 then w.(ui := s.(step := Next(s.step))) else w
    case PressBack => if s.step > 1 then w.(ui := s.(step := Back(s.step))) else w
    case EditName(v) => if s.step == 1 then w.(ui := s.(data := s.data.(eventName := v))) else w
    case EditDate(v) => if s.step == 1 then w.(ui := s.(data := s.data.(eventDate := v))) else w
    case EditQuantity(v) => if s.step == 1 then w.(ui := s.(data := s.data.(foodQuantityKg := v))) else w
    case EditAddress(v) => if s.step == 2 then w.(ui := s.(data := s.data.(address := v))) else w
    case EditInstructions(v) => if s.step == 2 then w.(ui := s.(data := s.data.(instructions := v))) else w
    case UseLocation(lat, lng) =>
      if s.step == 2 then w.(ui := s.(data := s.data.(latitude := lat, longitude := lng))) else w
    case PressSubmit =>
      if s.step == 3 && !s.isLoading && Ready(s.data) then Session(s.(isLoading := true), Some(RequestBody(s.data)))
      else w
    case Respond(outcome) =>
      if w.inFlight.None? then w
      else if outcome == Accepted then Session(Initial, None)
      else Session(s.(isLoading := false), None)
  }

  function Replay(w: Session, actions: seq<Action>): Session
    decreases |actions|
  {
    if |actions| == 0 then w else Replay(Apply(w, actions[0]), actions[1..])
  }

  /** Submitting and then receiving the outcome with nothing in between is
      exactly `HandleSubmit`. */
  lemma SubmitThenRespond(s: State, outcome: Outcome)
    requires s.step == 3 && !s.isLoading
    ensures Apply(Session(s, None), PressSubmit).inFlight == HandleSubmit(s, outcome).request
    ensures Apply(Apply(Session(s, None), PressSubmit), Respond(outcome)) == Session(HandleSubmit(s, outcome).state, None)
  {
  }

  /** The wizard invariant: one of the three steps, loading exactly while a
      request is pending, and the pending request one the server's schema accepts. */
  predicate Consistent(w: Session) {
    && 1 <= w.ui.step <= 3
    && (w.ui.isLoading <==> w.inFlight.Some?)
    && (w.inFlight.Some? ==> w.inFlight.value.Object? && EventsRoute.ParseEvent(w.inFlight.value.fields).Some?)
  }

  lemma StepKeepsConsistent(w: Session, a: Action)
    requires Consistent(w)
    ensures Consistent(Apply(w, a))
  {
    NextAndBackAreInverse(w.ui.step);
    if a.PressSubmit? && w.ui.step == 3 && !w.ui.isLoading && Ready(w.ui.data) {
      SentRequestsPassSchema(w.ui, Refused);
    }
  }

  /** Whatever the user does, and whenever responses arrive, the wizard stays on
      one of its three steps, shows loading exactly while a request is pending,
      and has sent only requests the server's schema accepts. */
  lemma {:induction false} AlwaysConsistent(w: Session, actions: seq<Action>)
    requires Consistent(w)
    ensures Consistent(Replay(w, actions))
    decreases |actions|
  {
    if |actions| > 0 {
      StepKeepsConsistent(w, actions[0]);
      AlwaysConsistent(Apply(w, actions[0]), actions[1..]);
    }
  }

  /** Once a response has arrived the form is never left loading, and a failure
      keeps the step and every field the user sees. */
  lemma ResponseSettles(w: Session, outcome: Outcome)
    requires Consistent(w)
    ensures !Apply(w, Respond(outcome)).ui.isLoading && Apply(w, Respond(outcome)).inFlight.None?
    ensures outcome != Accepted ==>
              Apply(w, Respond(outcome)).ui.step == w.ui.step && Apply(w, Respond(outcome)).ui.data == w.ui.data
  {
  }

  /** While a request is pending, pressing submit sends nothing more. */
  lemma NoSecondRequest(w: Session)
    requires Consistent(w) && w.inFlight.Some?
    ensures Apply(w, PressSubmit) == w
  {
  }

  /** The user may step back to "Event Details" and edit while a request is
      pending; its success then wipes those edits and returns to step 1. */
  lemma LateSuccessDiscardsEdits(w: Session, name: string)
    requires Consistent(w) && w.inFlight.Some?
    ensures Replay(w, [PressBack, PressBack, EditName(name)]).ui.data.eventName == name
    ensures Replay(w, [PressBack, PressBack, EditName(name), Respond(Accepted)]) == Start
  {
    var w1 := Apply(w, PressBack);
    var w2 := Apply(w1, PressBack);
    assert w2.ui.step == 1 && w2.inFlight == w.inFlight;
    var w3 := Apply(w2, EditName(name));
    assert Replay(w, [PressBack, PressBack, EditName(name)]) == Replay(w1, [PressBack, EditName(name)]);
    assert Replay(w1, [PressBack, EditName(name)]) == Replay(w2, [EditName(name)]);
    assert Replay(w2, [EditName(name)]) == Replay(w3, []);
    assert Replay(w, [PressBack, PressBack, EditName(name), Respond(Accepted)])
           == Replay(w1, [PressBack, EditName(name), Respond(Accepted)]);
    assert Replay(w1, [PressBack, EditName(name), Respond(Accepted)]) == Replay(w2, [EditName(name), Respond(Accepted)]);
    assert Replay(w2, [EditName(name), Respond(Accepted)]) == Replay(w3, [Respond(Accepted)]);
  }

  /** The review step edits nothing: on step 3 the form data changes only when a
      success resets it. */
  lemma {:induction false} ReviewStepIsReadOnly(w: Session, actions: seq<Action>)
    requires w.ui.step == 3
    requires forall i :: 0 <= i < |actions| ==> actions[i] != PressBack && !actions[i].Respond?
    ensures Replay(w, actions).ui.data == w.ui.data
    decreases |actions|
  {
    if |actions| > 0 {
      ReviewStepIsReadOnly(Apply(w, actions[0]), actions[1..]);
    }
  }

  /** Circle `c` of the progress indicator is highlighted. */
  predicate CircleLit(step: int, c: int) {
    step >= c
  }

  /** The connector after circle `c` is highlighted. */
  predicate ConnectorLit(step: int, c: int) {
    step > c
  }

  /** In every state the wizard can reach, exactly `step` of the three circles
      are lit, circle 1 always among them, and `step - 1` of the two connectors. */
  lemma {:induction false} ReachableProgress(actions: seq<Action>)
    ensures |set k | 1 <= k <= 3 && CircleLit(Replay(Start, actions).ui.step, k)| == Replay(Start, actions).ui.step
    ensures CircleLit(Replay(Start, actions).ui.step, 1)
    ensures |set k | 1 <= k < 3 && ConnectorLit(Replay(Start, actions).ui.step, k)| == Replay(Start, actions).ui.step - 1
  {
    AlwaysConsistent(Start, actions);
    var step := Replay(Start, actions).ui.step;
    var lit := set k | 1 <= k <= 3 && CircleLit(step, k);
    var joined := set k | 1 <= k < 3 && ConnectorLit(step, k);
    if step == 1 {
      assert lit == {1} && joined == {};
    } else if step == 2 {
      assert lit == {1, 2} && joined == {1};
    } else {
      assert lit == {1, 2, 3} && joined == {1, 2};
    }
  }
}
