/** The reservation draft the booking form edits: one value per input of the form. */
module Reservation {

  /** The names of the form's four inputs. */
  datatype Field = Date | Time | Guests | Occasion

  /** The date input: empty until chosen, then a calendar day counted from a fixed epoch. */
  datatype DateInput = Unset | Day(n: int)

  /** The in-progress reservation record. `time` is the selected slot ("" until chosen),
      `guests` the number typed in (an emptied input counts as 0), `occasion` the
      selected label, shown verbatim and never checked. */
  datatype Draft = Draft(date: DateInput, time: string, guests: int, occasion: string)

  /** A new value for one input, tagged with the input it belongs to. */
  datatype FieldValue =
    | DateValue(date: DateInput)
    | TimeValue(time: string)
    | GuestsValue(guests: int)
    | OccasionValue(occasion: string)

  /** The draft the form starts with. */
  const InitialDraft := Draft(Unset, "", 1, "Birthday")

  function FieldOf(v: FieldValue): Field {
    match v
    case DateValue(_) => Date
    case TimeValue(_) => Time
    case GuestsValue(_) => Guests
    case OccasionValue(_) => Occasion
  }

  /** The current value of input `f`. */
  function Read(d: Draft, f: Field): (v: FieldValue)
    ensures FieldOf(v) == f
  {
    match f
    case Date => DateValue(d.date)
    case Time => TimeValue(d.time)
    case Guests => GuestsValue(d.guests)
    case Occasion => OccasionValue(d.occasion)
  }

  /** The draft with exactly one input replaced: the input `v` belongs to takes the
      value `v`, every other input keeps its value. */
  function Set(d: Draft, v: FieldValue): (r: Draft)
    ensures Read(r, FieldOf(v)) == v
    ensures forall f :: f != FieldOf(v) ==> Read(r, f) == Read(d, f)
  {
    match v
    case DateValue(x) => d.(date := x)
    case TimeValue(x) => d.(time := x)
    case GuestsValue(x) => d.(guests := x)
    case OccasionValue(x) => d.(occasion := x)
  }

  /** A draft is determined by the values of its four inputs. */
  lemma DraftExtensionality(a: Draft, b: Draft)
    requires forall f :: Read(a, f) == Read(b, f)
    ensures a == b
  {
    assert Read(a, Date) == Read(b, Date);
    assert Read(a, Time) == Read(b, Time);
    assert Read(a, Guests) == Read(b, Guests);
    assert Read(a, Occasion) == Read(b, Occasion);
  }

  /** Writing back the value an input already has changes nothing, and a second
      write to the same input overrides the first. */
  lemma SetLaws(d: Draft, v: FieldValue, w: FieldValue, f: Field)
    ensures Set(d, Read(d, f)) == d
    ensures FieldOf(v) == FieldOf(w) ==> Set(Set(d, v), w) == Set(d, w)
  {
  }

  /** Choosing a new date leaves a previously chosen time in place. */
  lemma DateChangeKeepsTime(d: Draft, x: DateInput)
    ensures Set(d, DateValue(x)).time == d.time
    ensures Set(d, DateValue(x)).date == x
  {
  }
}
