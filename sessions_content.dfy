/**
 * The session booking panel: a calendar limited to the next 30 days, a fixed
 * list of three therapists with their time slots, and a Book button that
 * confirms the chosen therapist, day and slot and then clears the slot.
 * Times are local wall-clock milliseconds, calendar cells are the midnights
 * of their days, and the clock reading is a parameter.
 */
module SessionsContent {
  import opened Wrappers

  const DayMs := 86_400_000

  datatype Doctor = Doctor(id: int, name: string, specialty: string, location: string, available: seq<string>)

  /** The therapists on offer (their portrait URLs are left out). */
  const Doctors: seq<Doctor> := [
    Doctor(1, "Dr. Sarah Johnson", "Clinical Psychology", "New York, USA", ["9:00 AM", "11:00 AM", "2:00 PM"]),
    Doctor(2, "Dr. Michael Chen", "Cognitive Behavioral Therapy", "Toronto, Canada", ["10:00 AM", "1:00 PM", "4:00 PM"]),
    Doctor(3, "Dr. Priya Sharma", "Anxiety & Depression", "London, UK", ["8:00 AM", "12:00 PM", "3:00 PM"])
  ]

  /** Every therapist has a distinct id and offers three distinct, non-empty slots. */
  lemma DoctorsWellFormed()
    ensures forall i, j :: 0 <= i < j < |Doctors| ==> Doctors[i].id != Doctors[j].id
    ensures forall d :: d in Doctors ==> |d.available| == 3 && forall t :: t in d.available ==> t != ""
  {
  }

  // ---------------------------------------------------------------------
  // The calendar
  // ---------------------------------------------------------------------

  /** The calendar's `disabled` test: before now, or more than 30 days ahead. */
  predicate IsDisabledDate(date: int, now: int) {
    date < now || date > now + 30 * DayMs
  }

  /** Which day cells can be picked: the next thirty days, and today only at
      the very stroke of midnight, since today's cell (its midnight) is
      already in the past at any later moment. */
  lemma SelectableDays(day: int, now: int)
    ensures var today := now / DayMs;
      !IsDisabledDate(day * DayMs, now) <==>
        (today < day <= today + 30) || (day == today && now == today * DayMs)
  {
    var today := now / DayMs;
    assert today * DayMs <= now < (today + 1) * DayMs;
    if today < day {
      assert (today + 1) * DayMs <= day * DayMs;
    }
    if day > today + 30 {
      assert day * DayMs >= (today + 31) * DayMs;
    }
    if day < today {
      assert day * DayMs <= (today - 1) * DayMs;
    }
  }

  /** The panel opens with the present moment selected, which the calendar
      itself would not refuse. */
  lemma InitialDateAllowed(now: int)
    ensures !IsDisabledDate(now, now)
  {
  }

  // ---------------------------------------------------------------------
  // Booking
  // ---------------------------------------------------------------------

  /** What the confirmation announces. */
  datatype Booking = Booking(doctorName: string, date: int, time: string)

  /** `handleBookSession`'s outcome: nothing unless a date, a therapist and a
      non-empty slot are all chosen. */
  function BookingOutcome(date: Option<int>, doctor: Option<Doctor>, time: Option<string>): (r: Option<Booking>)
    ensures r.Some? <==> date.Some? && doctor.Some? && time.Some? && time.value != ""
    ensures r.Some? ==> r.value == Booking(doctor.value.name, date.value, time.value)
  {
    if date.None? || doctor.None? || time.None? || time.value == "" then None
    else Some(Booking(doctor.value.name, date.value, time.value))
  }

  /** The Book button looks only at the therapist and the slot. */
  predicate BookEnabled(doctor: Option<Doctor>, time: Option<string>) {
    !(doctor.None? || time.None? || time.value == "")
  }

  /** The button and the handler agree except on the date: with the day
      deselected in the calendar the button stays enabled and the handler
      refuses. */
  lemma BookButtonIgnoresDate(date: Option<int>, doctor: Option<Doctor>, time: Option<string>)
    ensures BookingOutcome(date, doctor, time).Some? <==> date.Some? && BookEnabled(doctor, time)
    ensures BookEnabled(doctor, time) && date.None? ==> BookingOutcome(date, doctor, time).None?
  {
  }

  class SessionsContent {
    var date: Option<int>
    var selectedDoctor: Option<Doctor>
    var selectedTime: Option<string>
    var sessionType: string

    /** A chosen slot is always one the chosen therapist offers. */
    ghost predicate Valid()
      reads this
    {
      && (selectedDoctor.Some? ==> selectedDoctor.value in Doctors)
      && (selectedTime.Some? ==> selectedDoctor.Some? && selectedTime.value in selectedDoctor.value.available)
      && (sessionType == "video" || sessionType == "inperson")
    }

    /** Mounting at `now`. */
    constructor (now: int)
      ensures Valid()
      ensures date == Some(now) && selectedDoctor.None? && selectedTime.None? && sessionType == "video"
    {
      date := Some(now);
      selectedDoctor := None;
      selectedTime := None;
      sessionType := "video";
    }

    /** The calendar's `onSelect`: an enabled day, or None when the selected
        day is clicked again. */
    method SelectDate(day: Option<int>, now: int)
      requires Valid()
      requires day.Some? ==> !IsDisabledDate(day.value, now)
      modifies this
      ensures Valid()
      ensures date == day
      ensures selectedDoctor == old(selectedDoctor) && selectedTime == old(selectedTime) && sessionType == old(sessionType)
    {
      date := day;
    }

    /** The session type select, offering "video" and "inperson". */
    method SelectSessionType(t: string)
      requires Valid() && (t == "video" || t == "inperson")
      modifies this
      ensures Valid()
      ensures sessionType == t
      ensures date == old(date) && selectedDoctor == old(selectedDoctor) && selectedTime == old(selectedTime)
    {
      sessionType := t;
    }

    /** A slot button: it picks its therapist and its time together. */
    method SelectSlot(doctor: Doctor, time: string)
      requires Valid() && doctor in Doctors && time in doctor.available
      modifies this
      ensures Valid()
      ensures selectedDoctor == Some(doctor) && selectedTime == Some(time)
      ensures date == old(date) && sessionType == old(sessionType)
    {
      selectedDoctor := Some(doctor);
      selectedTime := Some(time);
    }

    /** Whether a slot button is drawn as the chosen one. */
    predicate Highlighted(doctor: Doctor, time: string)
      reads this
    {
      selectedDoctor.Some? && selectedDoctor.value.id == doctor.id && selectedTime == Some(time)
    }

    /** `handleBookSession`: on success the slot is cleared and the therapist
        and the day stay chosen; on refusal nothing changes. */
    method HandleBookSession() returns (booked: Option<Booking>)
      requires Valid()
      modifies this
      ensures Valid()
      ensures booked == BookingOutcome(old(date), old(selectedDoctor), old(selectedTime))
      ensures selectedTime == if booked.Some? then None else old(selectedTime)
      ensures date == old(date) && selectedDoctor == old(selectedDoctor) && sessionType == old(sessionType)
    {
      booked := BookingOutcome(date, selectedDoctor, selectedTime);
      if booked.Some? {
        selectedTime := None;
      }
    }
  }

  /** Exactly the chosen slot is highlighted: a slot of the list is drawn as
      chosen precisely when it is the chosen therapist's chosen time. */
  lemma HighlightIsSelection(s: SessionsContent, i: nat, t: nat)
    requires s.Valid() && i < |Doctors| && t < |Doctors[i].available|
    ensures s.Highlighted(Doctors[i], Doctors[i].available[t]) <==>
      s.selectedDoctor == Some(Doctors[i]) && s.selectedTime == Some(Doctors[i].available[t])
  {
    DoctorsWellFormed();
    if s.Highlighted(Doctors[i], Doctors[i].available[t]) {
      var j :| 0 <= j < |Doctors| && Doctors[j] == s.selectedDoctor.value;
      assert Doctors[j].id == Doctors[i].id;
    }
  }
}
