# Reservation intake of the Little Lemon restaurant site, in Dafny

This project models the only part of the Little Lemon site that makes decisions: taking a
table reservation. It has three parts:

- **The booking form** (`src/components/BookingForm.jsx`). It holds a draft (date, time,
  number of guests, occasion) and a map of error messages per input. Its validator gives
  one message for each failing rule:
  - no date;
  - a date before today;
  - no time;
  - fewer than 1 guest, or more than 10.

  An edit replaces one input and blanks that input's error. A date edit also tells the
  page. A submit either stores the validator's messages or hands the unchanged draft to
  the page.
- **The booking page** (`src/pages/BookingPage.jsx`). A reducer holds the available time
  slots. A date change regenerates them, and the current generator always gives the same
  six slots, 17:00 to 22:00. The submit callback asks a stand-in service that always
  accepts, then navigates to the confirmation view with the draft as navigation state.
- **The confirmation view** (`src/pages/ConfirmationPage.jsx`). It shows a "No Booking
  Found" fallback when there is no payload. Otherwise it shows the booking, with the
  guest count followed by "person" or "people".

Modelling choices:
- Calendar dates are whole days counted from an epoch. "Today" is a parameter.
- An input value is a `FieldValue`, tagged with the input it belongs to.
- Navigation is an `Outcome` value.
- The two components are classes whose methods update their fields:
  - `Form.BookingForm` holds `formData` and `errors`;
  - `Page.BookingPage` holds `availableTimes` and the form it renders.

  The validator, the reducer, the submit callback and the view are functions.
- The ascending order of the slots is stated against an independent reading of each
  "HH:MM" slot as minutes after midnight (`TimeSlots`).
- The guest count's rendering is stated against a parser that reads the numeral back
  (`Decimal`).

Two points where the model keeps to what the code does rather than to the usual reading of a reservation form:
- The occasion is whatever string the select holds, not a closed enumeration. No rule
  looks at it.
- The form clears an error by writing an empty message, not by removing the entry. So
  "the input shows an error" means that the entry is present and non-empty
  (`Form.ErrorShown`).

## Model

| member | source | states |
|---|---|---|
| Reservation.Set | src/components/BookingForm.jsx:61-64 | an edit gives the edited input the new value and leaves every other input as it was |
| Reservation.SetLaws | src/components/BookingForm.jsx:61-64 | writing back an input's current value changes nothing; a later write to the same input overrides an earlier one |
| Reservation.DraftExtensionality | src/components/BookingForm.jsx:10-15 | a draft is determined by the values of its four inputs |
| Reservation.DateChangeKeepsTime | src/components/BookingForm.jsx:58-77 | choosing a new date leaves a previously chosen time in place (it is not cleared or re-checked) |
| Form.Validate | src/components/BookingForm.jsx:24-53 | date has an error iff it is empty or before today, with "Please select a date" / "Date must be today or in the future" accordingly; time has an error iff empty; guests has an error iff outside [1,10], the lower-bound or the upper-bound message, never both; occasion never has one; every message is non-empty |
| Form.ValidateEmptyIffSubmittable | src/components/BookingForm.jsx:24-53 | the validator finds nothing exactly when the date is set and not before today, a time is set and guests is in [1,10] |
| Form.DateRule | src/components/BookingForm.jsx:30-37 | a chosen date equal to today or later has no date error; an earlier one gets the past-date message |
| Form.GuestBoundaries | src/components/BookingForm.jsx:45-50 | 1 and 10 guests pass; 0 gets "At least 1 guest is required", 11 gets "Maximum 10 guests allowed" |
| Form.OccasionNeverChecked | src/components/BookingForm.jsx:24-53 | changing the occasion never changes the validator's result |
| Form.InitialDraftErrors | src/components/BookingForm.jsx:10-53 | submitting the untouched form reports exactly the date and the time messages (the default of 1 guest passes) |
| Form.SampleDraftAccepted | src/tests/BookingForm.test.jsx:113-148 | tomorrow at 18:00 for 4 guests passes, whatever the occasion |
| Form.ClearError | src/components/BookingForm.jsx:66-72 | after an edit the edited input shows no error; every other entry is exactly as before; nothing changes when the edited input showed no error |
| Form.BookingForm.constructor | src/components/BookingForm.jsx:10-18 | the form starts with date "", time "", 1 guest, occasion "Birthday" and no errors |
| Form.BookingForm.HandleChange | src/components/BookingForm.jsx:58-78 | the draft becomes the old draft with the one input replaced, the errors are cleared for that input only, and the date callback fires, with the new value, exactly when the date was edited |
| Form.BookingForm.HandleSubmit | src/components/BookingForm.jsx:83-96 | the draft never changes; if the draft is not submittable the errors become the validator's result and nothing is submitted; otherwise the unchanged draft is submitted and the errors are left alone |
| TimeSlots.AscendingIsSortedAndDistinct | src/pages/BookingPage.jsx:26-33 | a list ascending from each slot to the next is ascending between any two positions and so has no repeated slot |
| Page.GenerateAvailableTimes | src/pages/BookingPage.jsx:24-36 | the generated slots are a non-empty list of well-formed times strictly ascending by time of day, six of them from "17:00" to "22:00" |
| Page.AvailableTimesIgnoreDate | src/pages/BookingPage.jsx:24-36 | every date gets the same list, and no slot in it repeats |
| Page.TimesReducer | src/pages/BookingPage.jsx:9-18 | a date change yields the generated slots for that date; any other action yields the prior state; a valid slot list stays valid |
| Page.InitializeTimes | src/pages/BookingPage.jsx:41-43 | the first state is a non-empty ascending slot list |
| Page.ReplayKeepsSlotList | src/pages/BookingPage.jsx:53-57 | after initialisation, the available times remain a non-empty ascending slot list whatever sequence of actions is dispatched |
| Page.ReplayPreserves | src/pages/BookingPage.jsx:9-18 | dispatching any sequence of actions from a valid slot list gives a valid slot list |
| Page.ReplayLastDateWins | src/pages/BookingPage.jsx:9-18 | after a sequence of actions the state is the generated list for the last date change, when there was one |
| Page.ReplayOthersKeep | src/pages/BookingPage.jsx:16-17 | actions other than a date change leave the state untouched |
| Page.SubmitAPI | src/pages/BookingPage.jsx:109-113 | the stand-in service accepts every submission |
| Page.SubmitForm | src/pages/BookingPage.jsx:70-90 | every submission navigates to "/confirmation" carrying the draft unchanged; the failure notice is never reached |
| Page.BookingPage.constructor | src/pages/BookingPage.jsx:53-57 | the page starts with the seeded slot list and a fresh form in its initial state |
| Page.BookingPage.HandleDateChange | src/pages/BookingPage.jsx:62-64 | a date change dispatches a date-change action for exactly that date, and the times stay a valid slot list |
| Page.BookingPage.Edit | src/pages/BookingPage.jsx:95-99 | an edit through the rendered form updates the draft and errors as the form says and refreshes the times exactly when the date was edited |
| Page.BookingPage.Submit | src/pages/BookingPage.jsx:95-99 | a submit through the rendered form navigates to the confirmation view with the unchanged draft, leaving the errors as they were, exactly when the draft is submittable; otherwise it shows the validator's errors and does not navigate |
| Confirmation.GuestsText | src/pages/ConfirmationPage.jsx:48 | one guest reads "1 person"; any other count N reads "N people" |
| Confirmation.GuestsTextShowsCount | src/pages/ConfirmationPage.jsx:48 | the guest line starts with the count's numeral, which reads back as the count, followed by " person" or " people" |
| Confirmation.ConfirmationPage | src/pages/ConfirmationPage.jsx:9-63 | with no payload the view is the fixed "No Booking Found" fallback linking to "/booking", and only then; with a payload it shows its date, time and occasion verbatim and the guest line for its count, linking home |
| Confirmation.SubmittedDraftIsConfirmed | src/pages/BookingPage.jsx:80-86 | a draft that passes validation reaches the confirmed view, which shows its date (not before today), its non-empty time and its occasion unchanged and the agreeing guest noun |
| Decimal.IntToStringRoundTrip | src/pages/ConfirmationPage.jsx:48 | the rendered numeral of a count parses back to the same count |
| Decimal.NatToStringRoundTrip | src/pages/ConfirmationPage.jsx:48 | the digits rendered for a non-negative count have that count as their value |
| Decimal.IntToStringInjective | src/pages/ConfirmationPage.jsx:48 | two different counts never render the same way |

## Left out

- Markup, CSS classes and ARIA attributes of the form and the pages carry no decisions and are not modelled.
- The router (`useNavigate`, `useLocation`, `Link`) is not modelled. Navigation is the `Outcome` value, and the confirmation view receives the payload as an `Option`.
- The submission log line and the failure notice's `alert` are I/O. The notice is only the `Alert` outcome, which is never reached.
- JavaScript `Date` parsing and the system clock are not modelled. A day is an integer and "today" is a parameter. The form compares `new Date("YYYY-MM-DD")`, which is UTC midnight, with local midnight. West of UTC, that can flag today as past. The model compares whole calendar days, so a date equal to today is never past.
- Confirmation.ConfirmationPage: the date is carried as the booking's day. The locale-dependent long format ("weekday, month day, year") is not modelled.
- String and number coercion of the guest count is not modelled. The number input stores its text, `<` coerces that text, and `=== 1` in the view does not. The model keeps guests as an integer, and an emptied input is taken as 0, which fails validation. As a consequence, `Confirmation.GuestsText` and `Confirmation.SubmittedDraftIsConfirmed` promise "1 person" for one guest, while the page as written shows "1 people" once the guest input has been edited to 1 (the stored text "1" is not `=== 1`); only the untouched default of the number 1 shows "1 person".
- The form's `availableTimes` prop only fills the time select's options. The selected time is never checked against it, and the model keeps it out of the form.
- Timing of React's state updates is not modelled: each handler is applied atomically, in order.
- The static presentational sections, the home and about pages, and the application's routing table hold no decisions and are not part of this model.
