/**
 * The meditation tracker: minutes meditated (a slider from 1 to 60) and an
 * optional reminder time per day, kept in a module-level store keyed by the
 * formatted date. Saving marks the day completed and keeps the reminder time
 * only while the reminder is switched on.
 */
module MeditationTracker {
  import opened Wrappers

  const DefaultMinutes := 10

  /** What the store keeps for one day; `reminderTime` is absent when the
      reminder was off at saving. */
  datatype MeditationEntry = MeditationEntry(minutes: int, completed: bool, reminderTime: Option<string>)

  /** The component's editable state for the day. */
  datatype Form = Form(minutes: int, reminderTime: string, hasReminder: bool)

  /** A position of the minutes slider. */
  predicate OnMinutesScale(minutes: int) {
    1 <= minutes <= 60
  }

  // ---------------------------------------------------------------------
  // Loading and saving
  // ---------------------------------------------------------------------

  /** The entry `saveMeditationData` writes. */
  function Saved(form: Form): (e: MeditationEntry)
    ensures e.completed && e.minutes == form.minutes
    ensures e.reminderTime.Some? <==> form.hasReminder
    ensures e.reminderTime.Some? ==> e.reminderTime.value == form.reminderTime
  {
    MeditationEntry(form.minutes, true, if form.hasReminder then Some(form.reminderTime) else None)
  }

  /** The form the load effect sets from a stored entry: a missing time reads
      as "", and the reminder is on only for a non-empty time. */
  function FromEntry(e: MeditationEntry): (form: Form)
    ensures form.minutes == e.minutes
    ensures form.hasReminder <==> e.reminderTime.Some? && e.reminderTime.value != ""
    ensures form.reminderTime == e.reminderTime.GetOr("")
  {
    var time := e.reminderTime.GetOr("");
    Form(e.minutes, time, time != "")
  }

  /** The load effect: the stored day, or 10 minutes and no reminder for a day
      never saved; the flag says whether the day was saved. */
  function Load(store: map<string, MeditationEntry>, key: string): (r: (Form, bool))
    ensures r.1 <==> key in store
    ensures !r.1 ==> r.0 == Form(DefaultMinutes, "", false)
  {
    if key in store then (FromEntry(store[key]), true) else (Form(DefaultMinutes, "", false), false)
  }

  /** Saving then reloading a day gives back the minutes; the reminder comes
      back on exactly when it was on with a time filled in, and its time comes
      back only when it was on. */
  lemma SaveLoadRoundTrip(store: map<string, MeditationEntry>, key: string, form: Form)
    ensures var (back, saved) := Load(store[key := Saved(form)], key);
      && saved
      && back.minutes == form.minutes
      && (back.hasReminder <==> form.hasReminder && form.reminderTime != "")
      && back.reminderTime == (if form.hasReminder then form.reminderTime else "")
  {
  }

  /** A reminder switched on without a time is saved, yet reloads switched off. */
  lemma EmptyReminderReloadsOff(store: map<string, MeditationEntry>, key: string, minutes: int)
    ensures Saved(Form(minutes, "", true)).reminderTime == Some("")
    ensures !Load(store[key := Saved(Form(minutes, "", true))], key).0.hasReminder
  {
  }

  /** Saving a freshly loaded day changes nothing that a later load sees. */
  lemma ResaveIsStable(e: MeditationEntry)
    ensures FromEntry(Saved(FromEntry(e))) == FromEntry(e)
  {
  }

  /** Saving one day does not change what another day loads. */
  lemma SaveKeepsOtherDays(store: map<string, MeditationEntry>, key: string, other: string, form: Form)
    requires other != key
    ensures Load(store[key := Saved(form)], other) == Load(store, other)
  {
  }

  // ---------------------------------------------------------------------
  // What the card shows
  // ---------------------------------------------------------------------

  datatype Duration = Quick | Short | Medium | Long
  {
    function Text(): string {
      match this
      case Quick => "Quick session"
      case Short => "Short session"
      case Medium => "Medium session"
      case Long => "Long session"
    }

    function Rank(): nat {
      match this
      case Quick => 0
      case Short => 1
      case Medium => 2
      case Long => 3
    }
  }

  /** `getDurationLabel`: under 5 minutes quick, under 15 short, under 30
      medium, otherwise long. */
  function DurationOf(minutes: int): (d: Duration)
    ensures d == Quick <==> minutes < 5
    ensures d == Short <==> 5 <= minutes < 15
    ensures d == Medium <==> 15 <= minutes < 30
    ensures d == Long <==> 30 <= minutes
  {
    if minutes < 5 then Quick
    else if minutes < 15 then Short
    else if minutes < 30 then Medium
    else Long
  }

  /** Longer sessions never get a shorter label. */
  lemma DurationMonotonic(a: int, b: int)
    requires a <= b
    ensures DurationOf(a).Rank() <= DurationOf(b).Rank()
  {
  }

  /** A day never saved shows a short session. */
  lemma DefaultIsShort()
    ensures OnMinutesScale(DefaultMinutes) && DurationOf(DefaultMinutes) == Short
  {
  }

  /** The reminder button names what a press does to the reminder. */
  function ReminderButtonLabel(hasReminder: bool): (caption: string)
    ensures caption == "Remove Reminder" <==> hasReminder
    ensures caption == "Add Reminder" <==> !hasReminder
  {
    if hasReminder then "Remove Reminder" else "Add Reminder"
  }

  /** The save button offers an update for a day already saved. */
  function SaveLabel(isSaved: bool): (caption: string)
    ensures caption == "Update Meditation Data" <==> isSaved
    ensures caption == "Save Meditation Data" <==> !isSaved
  {
    if isSaved then "Update Meditation Data" else "Save Meditation Data"
  }

  /** A day never saved offers to save and to add a reminder. Once saved and
      reloaded it offers an update, and offers to remove the reminder exactly
      when the reminder was on with a time filled in. */
  lemma LabelsAfterReload(store: map<string, MeditationEntry>, key: string, form: Form)
    ensures key !in store ==>
      && SaveLabel(Load(store, key).1) == "Save Meditation Data"
      && ReminderButtonLabel(Load(store, key).0.hasReminder) == "Add Reminder"
    ensures var (back, saved) := Load(store[key := Saved(form)], key);
      && SaveLabel(saved) == "Update Meditation Data"
      && (ReminderButtonLabel(back.hasReminder) == "Remove Reminder" <==> form.hasReminder && form.reminderTime != "")
  {
  }

  // ---------------------------------------------------------------------
  // The component state
  // ---------------------------------------------------------------------

  class MeditationTracker {
    var store: map<string, MeditationEntry>
    var dateKey: string
    var form: Form
    var isSaved: bool

    ghost predicate Valid()
      reads this
    {
      OnMinutesScale(form.minutes) && forall k :: k in store ==> OnMinutesScale(store[k].minutes)
    }

    /** Mounting for a day: the load effect runs on the default state. */
    constructor (store: map<string, MeditationEntry>, key: string)
      requires forall k :: k in store ==> OnMinutesScale(store[k].minutes)
      ensures Valid()
      ensures this.store == store && dateKey == key
      ensures (form, isSaved) == Load(store, key)
    {
      this.store := store;
      dateKey := key;
      form := Load(store, key).0;
      isSaved := Load(store, key).1;
    }

    /** The load effect, run when the date changes. */
    method ChangeDate(key: string)
      requires Valid()
      modifies this
      ensures Valid()
      ensures store == old(store) && dateKey == key
      ensures (form, isSaved) == Load(store, key)
    {
      dateKey := key;
      var loaded := Load(store, key);
      form := loaded.0;
      isSaved := loaded.1;
    }

    /** The minutes slider moved; it only yields its own positions. */
    method SetMinutes(minutes: int)
      requires Valid() && OnMinutesScale(minutes)
      modifies this
      ensures Valid()
      ensures form == old(form).(minutes := minutes)
      ensures store == old(store) && dateKey == old(dateKey) && isSaved == old(isSaved)
    {
      form := form.(minutes := minutes);
    }

    /** The time input changed; the input is only shown while the reminder is on. */
    method SetReminderTime(time: string)
      requires Valid() && form.hasReminder
      modifies this
      ensures Valid()
      ensures form == old(form).(reminderTime := time)
      ensures store == old(store) && dateKey == old(dateKey) && isSaved == old(isSaved)
    {
      form := form.(reminderTime := time);
    }

    /** `handleReminderToggle`: the time typed so far is kept either way. */
    method ToggleReminder()
      requires Valid()
      modifies this
      ensures Valid()
      ensures form == old(form).(hasReminder := !old(form).hasReminder)
      ensures ReminderButtonLabel(form.hasReminder) != ReminderButtonLabel(old(form).hasReminder)
      ensures store == old(store) && dateKey == old(dateKey) && isSaved == old(isSaved)
    {
      form := form.(hasReminder := !form.hasReminder);
    }

    /** `saveMeditationData`; `reminderSet` is the time the reminder notice
        announces, given only when the reminder is on with a time. */
    method Save() returns (reminderSet: Option<string>)
      requires Valid()
      modifies this
      ensures Valid()
      ensures store == old(store)[dateKey := Saved(form)]
      ensures isSaved && form == old(form) && dateKey == old(dateKey)
      ensures reminderSet.Some? <==> form.hasReminder && form.reminderTime != ""
      ensures reminderSet.Some? ==> reminderSet.value == form.reminderTime
    {
      store := store[dateKey := Saved(form)];
      isSaved := true;
      reminderSet := if form.hasReminder && form.reminderTime != "" then Some(form.reminderTime) else None;
    }
  }
}
