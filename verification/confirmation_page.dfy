/** The confirmation view: a pure rendering of the booking carried by the
    navigation, or a fallback when there is none. */
module Confirmation {
  import opened Wrappers
  import opened Decimal
  import opened Reservation
  import opened Form
  import opened Page

  const BookingPath := "/booking"
  const HomePath := "/"

  /** What the page shows. The fallback holds nothing taken from a booking. */
  datatype View =
    | NoBookingFound(heading: string, linkTo: string)
    | Confirmed(date: DateInput, time: string, guests: string, occasion: string, linkTo: string)

  /** The guest line: the count followed by a noun that agrees with it. */
  function GuestsText(n: int): (s: string)
    ensures n == 1 ==> s == "1 person"
    ensures n != 1 ==> s == IntToString(n) + " people"
  {
    IntToString(n) + " " + (if n == 1 then "person" else "people")
  }

  /** The guest line always starts with the count's numeral, which reads back as the count. */
  lemma GuestsTextShowsCount(n: int)
    ensures var k := |IntToString(n)|;
      && GuestsText(n)[..k] == IntToString(n)
      && ParseInt(GuestsText(n)[..k]) == Some(n)
      && GuestsText(n)[k..] in {" person", " people"}
  {
    IntToStringRoundTrip(n);
    var k := |IntToString(n)|;
    assert GuestsText(n)[..k] == IntToString(n);
  }

  /** The view for the navigation payload `booking`. */
  function ConfirmationPage(booking: Option<Draft>): (v: View)
    ensures v.NoBookingFound? <==> booking.None?
    ensures booking.None? ==> v == NoBookingFound("No Booking Found", BookingPath)
    ensures booking.Some? ==>
      && v.date == booking.value.date
      && v.time == booking.value.time
      && v.occasion == booking.value.occasion
      && v.guests == GuestsText(booking.value.guests)
      && v.linkTo == HomePath
  {
    match booking
    case None => NoBookingFound("No Booking Found", BookingPath)
    case Some(b) => Confirmed(b.date, b.time, GuestsText(b.guests), b.occasion, HomePath)
  }

  /** End to end: a draft that passes validation reaches the confirmation view,
      which shows its date, time and occasion unchanged and its guest count with
      the matching noun. */
  lemma SubmittedDraftIsConfirmed(d: Draft, today: int)
    requires Validate(d, today) == map[]
    ensures var o := SubmitForm(d);
      && o.Navigate?
      && var v := ConfirmationPage(Some(o.booking));
      && v.Confirmed?
      && v.date == d.date && v.date.Day? && v.date.n >= today
      && v.time == d.time && v.time != ""
      && v.occasion == d.occasion
      && (d.guests == 1 ==> v.guests == "1 person")
      && (d.guests != 1 ==> v.guests == IntToString(d.guests) + " people")
  {
  }
}
