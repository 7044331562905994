/** Time-of-day slots written "HH:MM", and what it means for a list of them to be
    in ascending order without repeats. */
module TimeSlots {
  import opened Wrappers
  import opened Decimal

  /** Minutes after midnight of a well-formed "HH:MM" slot; None for anything else. */
  function SlotMinutes(s: string): (m: Option<nat>)
    ensures m.Some? ==> m.value < 24 * 60
  {
    if |s| == 5 && IsDigit(s[0]) && IsDigit(s[1]) && s[2] == ':' && IsDigit(s[3]) && IsDigit(s[4]) then
      var hours := DigitValue(s[0]) * 10 + DigitValue(s[1]);
      var minutes := DigitValue(s[3]) * 10 + DigitValue(s[4]);
      if hours < 24 && minutes < 60 then Some(hours * 60 + minutes) else None
    else None
  }

  /** Slot `a` is strictly earlier in the day than slot `b`. */
  predicate Before(a: string, b: string) {
    SlotMinutes(a).Some? && SlotMinutes(b).Some? && SlotMinutes(a).value < SlotMinutes(b).value
  }

  /** Every entry is a slot and each is earlier than the next. */
  predicate Ascending(ts: seq<string>)
    decreases |ts|
  {
    if |ts| == 0 then true
    else SlotMinutes(ts[0]).Some? && (|ts| > 1 ==> Before(ts[0], ts[1])) && Ascending(ts[1..])
  }

  /** What the page may offer as available times: a non-empty ascending list. */
  predicate IsSlotList(ts: seq<string>) {
    |ts| > 0 && Ascending(ts)
  }

  /** Ascending by neighbours means ascending between any two positions, so no slot repeats. */
  lemma {:induction false} AscendingIsSortedAndDistinct(ts: seq<string>)
    requires Ascending(ts)
    ensures forall i, j :: 0 <= i < j < |ts| ==> Before(ts[i], ts[j])
    ensures forall i, j :: 0 <= i < j < |ts| ==> ts[i] != ts[j]
    decreases |ts|
  {
    if |ts| > 1 {
      var rest := ts[1..];
      AscendingIsSortedAndDistinct(rest);
      forall i, j | 0 <= i < j < |ts| ensures Before(ts[i], ts[j]) {
        if i == 0 {
          if j > 1 {
            assert Before(rest[0], rest[j - 1]);
          }
        } else {
          assert Before(rest[i - 1], rest[j - 1]);
        }
      }
    }
  }
}
