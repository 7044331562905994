/** The booking form: its validator, and the component state (draft and error
    messages) that its change and submit handlers update. */
module Form {
  import opened Wrappers
  import opened Reservation

  const DateRequired := "Please select a date"
  const DateInPast := "Date must be today or in the future"
  const TimeRequired := "Please select a time"
  const TooFewGuests := "At least 1 guest is required"
  const TooManyGuests := "Maximum 10 guests allowed"

  /** Error message per input. An entry whose message is "" is a cleared error. */
  type Errors = map<Field, string>

  /** Whether input `f` currently shows an error (the message is present and non-empty). */
  predicate ErrorShown(e: Errors, f: Field) {
    f in e && e[f] != ""
  }

  /** Reference definition of a draft that may be submitted on day `today`:
      a date not before today, a time, and between 1 and 10 guests. */
  predicate Submittable(d: Draft, today: int) {
    && d.date.Day? && d.date.n >= today
    && d.time != ""
    && 1 <= d.guests <= 10
  }

  /** The validator: one message per failing input, built rule by rule. */
  function Validate(d: Draft, today: int): (r: Errors)
    ensures Date in r <==> d.date.Unset? || d.date.n < today
    ensures Date in r ==> r[Date] == (if d.date.Unset? then DateRequired else DateInPast)
    ensures Time in r <==> d.time == ""
    ensures Time in r ==> r[Time] == TimeRequired
    ensures Guests in r <==> d.guests < 1 || d.guests > 10
    ensures Guests in r ==> r[Guests] == (if d.guests < 1 then TooFewGuests else TooManyGuests)
    ensures Occasion !in r
    ensures forall f :: f in r ==> ErrorShown(r, f)
  {
    var afterDate :=
      if d.date.Unset? then map[Date := DateRequired]
      else if d.date.n < today then map[Date := DateInPast]
      else map[];
    var afterTime := if d.time == "" then afterDate[Time := TimeRequired] else afterDate;
    if d.guests < 1 then afterTime[Guests := TooFewGuests]
    else if d.guests > 10 then afterTime[Guests := TooManyGuests]
    else afterTime
  }

  /** The validator finds nothing exactly when the draft is submittable. */
  lemma ValidateEmptyIffSubmittable(d: Draft, today: int)
    ensures Validate(d, today) == map[] <==> Submittable(d, today)
  {
  }

  /** A date equal to today or later never gets the past-date message; an earlier one always does. */
  lemma DateRule(d: Draft, today: int)
    requires d.date.Day?
    ensures d.date.n >= today ==> Date !in Validate(d, today)
    ensures d.date.n < today ==> Validate(d, today)[Date] == DateInPast
  {
  }

  /** Guest bounds: 1 and 10 are accepted, 0 and 11 are refused with the matching message. */
  lemma GuestBoundaries(d: Draft, today: int)
    ensures Guests !in Validate(d.(guests := 1), today)
    ensures Guests !in Validate(d.(guests := 10), today)
    ensures Validate(d.(guests := 0), today)[Guests] == TooFewGuests
    ensures Validate(d.(guests := 11), today)[Guests] == TooManyGuests
  {
  }

  /** The occasion takes no part in validation. */
  lemma OccasionNeverChecked(d: Draft, occasion: string, today: int)
    ensures Validate(d.(occasion := occasion), today) == Validate(d, today)
  {
  }

  /** Submitting the untouched form reports the date and the time, and nothing about guests. */
  lemma InitialDraftErrors(today: int)
    ensures Validate(InitialDraft, today) == map[Date := DateRequired, Time := TimeRequired]
  {
  }

  /** Tomorrow at 18:00 for 4 guests passes, whatever the occasion. */
  lemma SampleDraftAccepted(today: int, occasion: string)
    ensures Validate(Draft(Day(today + 1), "18:00", 4, occasion), today) == map[]
  {
  }

  /** Optimistic clearing after an edit: the edited input's error is blanked if it
      was shown; every other entry stays exactly as it was. */
  function ClearError(e: Errors, f: Field): (r: Errors)
    ensures !ErrorShown(r, f)
    ensures forall g :: g != f ==> (g in r <==> g in e) && (g in e ==> r[g] == e[g])
    ensures !ErrorShown(e, f) ==> r == e
    ensures r.Keys == e.Keys
  {
    if ErrorShown(e, f) then e[f := ""] else e
  }

  /** The form component: its draft and its error messages. */
  class BookingForm {
    var formData: Draft
    var errors: Errors

    /** Initial state: the default draft and no errors. */
    constructor ()
      ensures formData == InitialDraft
      ensures errors == map[]
    {
      formData := InitialDraft;
      errors := map[];
    }

    /** An edit of one input. Returns the value passed to the page's date-change
        callback, which fires exactly when the edited input is the date. */
    method HandleChange(v: FieldValue) returns (dateNotice: Option<DateInput>)
      modifies this
      ensures formData == Set(old(formData), v)
      ensures errors == ClearError(old(errors), FieldOf(v))
      ensures dateNotice.Some? <==> FieldOf(v) == Date
      ensures dateNotice.Some? ==> v == DateValue(dateNotice.value)
    {
      formData := Set(formData, v);
      if ErrorShown(errors, FieldOf(v)) {
        errors := errors[FieldOf(v) := ""];
      }
      if v.DateValue? {
        dateNotice := Some(v.date);
      } else {
        dateNotice := None;
      }
    }

    /** A submit attempt on day `today`. Returns the draft handed to the page's
        submit callback, if the callback fires. */
    method HandleSubmit(today: int) returns (submitted: Option<Draft>)
      modifies this
      ensures formData == old(formData)
      ensures submitted.Some? <==> Submittable(old(formData), today)
      ensures submitted.Some? ==> submitted.value == old(formData) && errors == old(errors)
      ensures submitted.None? ==> errors == Validate(old(formData), today)
    {
      var newErrors := Validate(formData, today);
      ValidateEmptyIffSubmittable(formData, today);
      if |newErrors| > 0 {
        errors := newErrors;
        submitted := None;
        return;
      }
      submitted := Some(formData);
    }
  }
}
