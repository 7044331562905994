/** The booking page: the reducer that holds the available times, and the
    submission step that hands a booking on to the confirmation view. */
module Page {
  import opened Wrappers
  import opened Reservation
  import opened TimeSlots
  import opened Form

  /** The reducer's actions: a date change, or an action of any other type. */
  datatype Action = UpdateTimes(date: DateInput) | OtherAction

  /** Where a submission leads: to the confirmation view with the booking as
      navigation state, or to a failure notice with no navigation. */
  datatype Outcome = Navigate(path: string, booking: Draft) | Alert(message: string)

  const ConfirmationPath := "/confirmation"
  const BookingFailed := "Booking failed. Please try again."

  /** The bookable slots for a date. The current policy ignores the date. */
  function GenerateAvailableTimes(date: DateInput): (r: seq<string>)
    ensures IsSlotList(r)
    ensures |r| == 6 && r[0] == "17:00" && r[5] == "22:00"
  {
    var r := ["17:00", "18:00", "19:00", "20:00", "21:00", "22:00"];
    assert Ascending(r[5..]);
    assert Ascending(r[4..]);
    assert Ascending(r[3..]);
    assert Ascending(r[2..]);
    assert Ascending(r[1..]);
    r
  }

  /** The same six slots, in the same order, for every date. */
  lemma AvailableTimesIgnoreDate(a: DateInput, b: DateInput)
    ensures GenerateAvailableTimes(a) == GenerateAvailableTimes(b)
    ensures forall i, j :: 0 <= i < j < 6 ==> GenerateAvailableTimes(a)[i] != GenerateAvailableTimes(a)[j]
  {
  }

  /** The times reducer: a date change regenerates the slots, any other action keeps them. */
  function TimesReducer(state: seq<string>, action: Action): (r: seq<string>)
    ensures action.OtherAction? ==> r == state
    ensures action.UpdateTimes? ==> r == GenerateAvailableTimes(action.date)
    ensures IsSlotList(state) ==> IsSlotList(r)
  {
    match action
    case UpdateTimes(date) => GenerateAvailableTimes(date)
    case OtherAction => state
  }

  /** The reducer's first state: the slots for the day the page loads (`today`). */
  function InitializeTimes(today: int): (r: seq<string>)
    ensures IsSlotList(r)
  {
    GenerateAvailableTimes(Day(today))
  }

  /** The state after dispatching `actions` in order, starting from `state`. */
  function Replay(state: seq<string>, actions: seq<Action>): seq<string>
    decreases |actions|
  {
    if actions == [] then state else Replay(TimesReducer(state, actions[0]), actions[1..])
  }

  /** Once initialised, the available times stay a non-empty ascending list whatever is dispatched. */
  lemma {:induction false} ReplayKeepsSlotList(today: int, actions: seq<Action>)
    ensures IsSlotList(Replay(InitializeTimes(today), actions))
  {
    ReplayPreserves(InitializeTimes(today), actions);
  }

  lemma {:induction false} ReplayPreserves(state: seq<string>, actions: seq<Action>)
    requires IsSlotList(state)
    ensures IsSlotList(Replay(state, actions))
    decreases |actions|
  {
    if actions != [] {
      ReplayPreserves(TimesReducer(state, actions[0]), actions[1..]);
    }
  }

  /** Once any date change has been dispatched, the state is the generated list for the last one. */
  lemma {:induction false} ReplayLastDateWins(state: seq<string>, actions: seq<Action>, k: nat)
    requires k < |actions| && actions[k].UpdateTimes?
    requires forall i :: k < i < |actions| ==> actions[i].OtherAction?
    ensures Replay(state, actions) == GenerateAvailableTimes(actions[k].date)
    decreases |actions|
  {
    var next := TimesReducer(state, actions[0]);
    if k == 0 {
      ReplayOthersKeep(next, actions[1..]);
    } else {
      ReplayLastDateWins(next, actions[1..], k - 1);
    }
  }

  lemma {:induction false} ReplayOthersKeep(state: seq<string>, actions: seq<Action>)
    requires forall i :: 0 <= i < |actions| ==> actions[i].OtherAction?
    ensures Replay(state, actions) == state
    decreases |actions|
  {
    if actions != [] {
      ReplayOthersKeep(TimesReducer(state, actions[0]), actions[1..]);
    }
  }

  /** The stand-in for the reservation service: every submission is accepted. */
  function SubmitAPI(data: Draft): (accepted: bool)
    ensures accepted
  {
    true
  }

  /** The page's submit callback: on acceptance, navigate to the confirmation
      view carrying the draft unchanged; on refusal, a failure notice. */
  function SubmitForm(data: Draft): (o: Outcome)
    ensures o.Navigate?
    ensures o.path == ConfirmationPath && o.booking == data
  {
    if SubmitAPI(data) then Navigate(ConfirmationPath, data) else Alert(BookingFailed)
  }

  /** The page component: its reducer state and the form it renders. */
  class BookingPage {
    var availableTimes: seq<string>
    const form: BookingForm

    ghost predicate Valid()
      reads this
    {
      IsSlotList(availableTimes)
    }

    /** First render on day `today`: seeded times and a fresh form. */
    constructor (today: int)
      ensures Valid()
      ensures availableTimes == InitializeTimes(today)
      ensures fresh(form) && form.formData == InitialDraft && form.errors == map[]
    {
      availableTimes := InitializeTimes(today);
      form := new BookingForm();
    }

    /** The form's date-change callback: dispatches a date change for `date`. */
    method HandleDateChange(date: DateInput)
      requires Valid()
      modifies this
      ensures Valid()
      ensures availableTimes == TimesReducer(old(availableTimes), UpdateTimes(date))
    {
      availableTimes := TimesReducer(availableTimes, UpdateTimes(date));
    }

    /** The user edits one input of the rendered form; a date edit refreshes the times. */
    method Edit(v: FieldValue)
      requires Valid()
      modifies this, form
      ensures Valid()
      ensures form.formData == Set(old(form.formData), v)
      ensures form.errors == ClearError(old(form.errors), FieldOf(v))
      ensures availableTimes == if v.DateValue? then GenerateAvailableTimes(v.date) else old(availableTimes)
    {
      var notice := form.HandleChange(v);
      if notice.Some? {
        HandleDateChange(notice.value);
      }
    }

    /** The user submits the rendered form on day `today`. Returns where the
        page navigates, if the form let the submission through. */
    method Submit(today: int) returns (outcome: Option<Outcome>)
      requires Valid()
      modifies form
      ensures Valid()
      ensures form.formData == old(form.formData)
      ensures outcome.Some? <==> Submittable(old(form.formData), today)
      ensures outcome.Some? ==> outcome.value == Navigate(ConfirmationPath, old(form.formData))
      ensures outcome.Some? ==> form.errors == old(form.errors)
      ensures outcome.None? ==> form.errors == Validate(old(form.formData), today)
    {
      var submitted := form.HandleSubmit(today);
      if submitted.Some? {
        outcome := Some(SubmitForm(submitted.value));
      } else {
        outcome := None;
      }
    }
  }
}
