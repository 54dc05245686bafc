/**
 * The therapy booking page: the user picks a therapist (from the profiles
 * with the therapist role), a date, one of eight time slots and a session
 * type; booking inserts a pending session row and clears the choices, or
 * reports what is missing or that the insert failed. The database and the
 * signed-in user are parameters.
 */
module TherapyBookingPage {
  import opened Wrappers

  datatype SessionType = Video | Phone | Chat
  {
    function Value(): string {
      match this
      case Video => "video"
      case Phone => "phone"
      case Chat => "chat"
    }

    function Label(): string {
      match this
      case Video => "Video Call"
      case Phone => "Phone Call"
      case Chat => "Text Chat"
    }
  }

  const TimeSlots: seq<string> := ["09:00", "10:00", "11:00", "12:00", "14:00", "15:00", "16:00", "17:00"]

  /** A profile with the therapist role (avatar, specialty and bio left out). */
  datatype Therapist = Therapist(id: string, firstName: string, lastName: string)

  datatype User = User(id: string)

  /** The row `bookSession` inserts into `therapy_sessions`. */
  datatype SessionRow = SessionRow(userId: string, therapistId: string, sessionDate: string, sessionType: string, status: string)

  datatype Outcome = MissingInformation | Booked | BookingFailed

  /** A choice JavaScript counts as made: present and not the empty string. */
  predicate Chosen(s: Option<string>) {
    s.Some? && s.value != ""
  }

  /** The session start sent to the database: the date and the time joined by "T". */
  function SessionDateTime(date: string, time: string): (stamp: string)
    ensures |stamp| == |date| + 1 + |time|
    ensures stamp[..|date|] == date && stamp[|date|] == 'T' && stamp[|date| + 1..] == time
  {
    date + "T" + time
  }

  /** The date and the time can be read back from a stamp of a slot time,
      which never contains a "T". */
  lemma SessionDateTimeSplits(date: string, time: string)
    requires time in TimeSlots
    ensures var stamp := SessionDateTime(date, time);
      |stamp| >= 6 && stamp[|stamp| - 6] == 'T'
      && stamp[..|stamp| - 6] == date && stamp[|stamp| - 5..] == time
  {
    var stamp := SessionDateTime(date, time);
    assert |time| == 5;
    assert stamp[|date| + 1..] == time;
  }

  class TherapyBookingPage {
    var therapists: seq<Therapist>
    var selectedTherapist: Option<string>
    var selectedDate: string
    var selectedTime: string
    var sessionType: SessionType
    var loading: bool
    /** The rows this page has inserted. */
    var inserted: seq<SessionRow>

    /** Between handlers: no booking is in flight, and a chosen time is one of the slots. */
    ghost predicate Valid()
      reads this
    {
      !loading && (selectedTime == "" || selectedTime in TimeSlots)
    }

    /** The booking summary card shows once all three choices are made. */
    predicate SummaryShown()
      reads this
    {
      Chosen(selectedTherapist) && selectedDate != "" && selectedTime != ""
    }

    constructor ()
      ensures Valid()
      ensures therapists == [] && selectedTherapist.None? && selectedDate == "" && selectedTime == ""
      ensures sessionType == Video && inserted == []
    {
      therapists := [];
      selectedTherapist := None;
      selectedDate := "";
      selectedTime := "";
      sessionType := Video;
      loading := false;
      inserted := [];
    }

    /** `fetchTherapists`: `ok` is false when the query fails (the list is
        then kept); `data` is None for a null result. */
    method FetchTherapists(ok: bool, data: Option<seq<Therapist>>)
      requires Valid()
      modifies this
      ensures Valid()
      ensures therapists == if ok then data.GetOr([]) else old(therapists)
      ensures selectedTherapist == old(selectedTherapist) && selectedDate == old(selectedDate)
      ensures selectedTime == old(selectedTime) && sessionType == old(sessionType) && inserted == old(inserted)
    {
      if ok {
        therapists := data.GetOr([]);
      }
    }

    /** A therapist card was clicked. */
    method SelectTherapist(t: Therapist)
      requires Valid() && t in therapists
      modifies this
      ensures Valid()
      ensures selectedTherapist == Some(t.id)
      ensures therapists == old(therapists) && selectedDate == old(selectedDate)
      ensures selectedTime == old(selectedTime) && sessionType == old(sessionType) && inserted == old(inserted)
    {
      selectedTherapist := Some(t.id);
    }

    /** A session type button was clicked. */
    method SelectSessionType(t: SessionType)
      requires Valid()
      modifies this
      ensures Valid()
      ensures sessionType == t
      ensures therapists == old(therapists) && selectedTherapist == old(selectedTherapist)
      ensures selectedDate == old(selectedDate) && selectedTime == old(selectedTime) && inserted == old(inserted)
    {
      sessionType := t;
    }

    /** The date input changed (its value, "" when cleared). */
    method SelectDate(date: string)
      requires Valid()
      modifies this
      ensures Valid()
      ensures selectedDate == date
      ensures therapists == old(therapists) && selectedTherapist == old(selectedTherapist)
      ensures selectedTime == old(selectedTime) && sessionType == old(sessionType) && inserted == old(inserted)
    {
      selectedDate := date;
    }

    /** A time slot button was clicked. */
    method SelectTime(time: string)
      requires Valid() && time in TimeSlots
      modifies this
      ensures Valid()
      ensures selectedTime == time
      ensures therapists == old(therapists) && selectedTherapist == old(selectedTherapist)
      ensures selectedDate == old(selectedDate) && sessionType == old(sessionType) && inserted == old(inserted)
    {
      selectedTime := time;
    }

    /** `bookSession`. `user` is the signed-in user; `insertOk` says whether
        the database accepts the row. A missing choice or user books
        nothing; a failed insert keeps every choice; a booking inserts one
        pending row and clears the therapist, the date and the time. */
    method BookSession(user: Option<User>, insertOk: bool) returns (outcome: Outcome)
      requires Valid()
      modifies this
      ensures Valid()
      ensures outcome == MissingInformation <==> !old(SummaryShown()) || user.None?
      ensures outcome == Booked <==> old(SummaryShown()) && user.Some? && insertOk
      ensures outcome == Booked ==>
        && inserted == old(inserted) + [SessionRow(user.value.id, old(selectedTherapist).value,
             SessionDateTime(old(selectedDate), old(selectedTime)), old(sessionType).Value(), "pending")]
        && selectedTherapist.None? && selectedDate == "" && selectedTime == ""
        && !SummaryShown()
      ensures outcome != Booked ==>
        && inserted == old(inserted) && selectedTherapist == old(selectedTherapist)
        && selectedDate == old(selectedDate) && selectedTime == old(selectedTime)
      ensures therapists == old(therapists) && sessionType == old(sessionType)
    {
      if !Chosen(selectedTherapist) || selectedDate == "" || selectedTime == "" || user.None? {
        return MissingInformation;
      }
      loading := true;
      var row := SessionRow(user.value.id, selectedTherapist.value,
        SessionDateTime(selectedDate, selectedTime), sessionType.Value(), "pending");
      if insertOk {
        inserted := inserted + [row];
        selectedTherapist := None;
        selectedDate := "";
        selectedTime := "";
        outcome := Booked;
      } else {
        outcome := BookingFailed;
      }
      loading := false;
    }
  }
}
