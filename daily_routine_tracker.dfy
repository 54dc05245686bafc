/**
 * The day navigator of the daily routine page: it starts on the present
 * moment, steps back a day at a time freely, and steps forward only when the
 * next day is not in the future. Times are local wall-clock milliseconds and
 * a calendar day is a run of 86 400 000 of them; the clock reading is a
 * parameter.
 */
module DailyRoutineTracker {
  import opened Wrappers

  const DayMs := 86_400_000

  /** The calendar day a time falls on (`format(t, "yyyy-MM-dd")`). */
  function DayOf(t: int): int {
    t / DayMs
  }

  /** `subDays(t, 1)` */
  function PreviousDay(current: int): int {
    current - DayMs
  }

  /** `goToNextDay` as written: one day later, unless that moment is after
      `now` (then a "Cannot track future dates" notice instead). */
  function NextDay(current: int, now: int): (r: Option<int>)
    ensures r.Some? <==> current + DayMs <= now
    ensures r.Some? ==> r.value == current + DayMs && r.value <= now
  {
    if current + DayMs <= now then Some(current + DayMs) else None
  }

  /** The forward button is disabled while the shown day is today. */
  predicate NextDisabled(current: int, now: int) {
    DayOf(current) == DayOf(now)
  }

  lemma DayOfShift(t: int)
    ensures DayOf(t + DayMs) == DayOf(t) + 1
  {
  }

  lemma DayOfMonotonic(a: int, b: int)
    requires a <= b
    ensures DayOf(a) <= DayOf(b)
  {
  }

  /** While the button is disabled the step is refused too, so the two never
      disagree in that direction. */
  lemma DisabledMeansRefused(current: int, now: int)
    requires NextDisabled(current, now)
    ensures NextDay(current, now) == None
  {
    if current + DayMs <= now {
      DayOfShift(current);
      DayOfMonotonic(current + DayMs, now);
    }
  }

  /** Stepping back and then forward returns to the same moment. */
  lemma PreviousThenNext(current: int, now: int)
    requires current <= now
    ensures NextDay(PreviousDay(current), now) == Some(current)
  {
  }

  /** The button and the step disagree once the page has stayed open past
      midnight. Opened at 23:00 on day 0 and left open, at 09:00 on day 1 the
      back button shows day -1 at 23:00; the forward button then steps back to
      day 0 at 23:00, and the re-render shows it enabled, since day 0 is not
      today; a second forward press is refused, because 23:00 on day 1 lies
      ahead of now. */
  lemma EnabledButRefused()
    ensures var start, now := 23 * 3_600_000, DayMs + 9 * 3_600_000;
      && start <= now
      && NextDay(PreviousDay(start), now) == Some(start)
      && !NextDisabled(start, now)
      && DayOf(start) + 1 == DayOf(now)
      && NextDay(start, now) == None
  {
  }

  /** The step the button promises: move forward when the next calendar day
      is not after today. */
  function NextCalendarDay(current: int, now: int): (r: Option<int>)
    ensures r.Some? ==> r.value == current + DayMs
  {
    if DayOf(current + DayMs) <= DayOf(now) then Some(current + DayMs) else None
  }

  /** With the calendar comparison, from any day up to today the step succeeds
      exactly when the button is enabled, and never lands after today. */
  lemma CalendarStepMatchesButton(current: int, now: int)
    requires DayOf(current) <= DayOf(now)
    ensures NextCalendarDay(current, now).Some? <==> !NextDisabled(current, now)
    ensures NextCalendarDay(current, now).Some? ==> DayOf(NextCalendarDay(current, now).value) <= DayOf(now)
  {
    DayOfShift(current);
  }

  class DayNavigator {
    var current: int

    /** `useState(new Date())` */
    constructor (now: int)
      ensures current == now
    {
      current := now;
    }

    /** `goToPreviousDay` */
    method GoToPreviousDay()
      modifies this
      ensures current == PreviousDay(old(current))
    {
      current := current - DayMs;
    }

    /** `goToNextDay`, as written; `refused` is the future-date notice. */
    method GoToNextDay(now: int) returns (refused: bool)
      modifies this
      ensures refused <==> NextDay(old(current), now).None?
      ensures current == NextDay(old(current), now).GetOr(old(current))
    {
      var next := current + DayMs;
      if next <= now {
        current := next;
        refused := false;
      } else {
        refused := true;
      }
    }
  }
}
