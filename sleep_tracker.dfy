/**
 * The sleep tracker: hours slept (a slider from 0 to 12 in half hours) and a
 * quality rating (a slider from 1 to 5) per day, kept in a module-level store
 * keyed by the formatted date, with 7 hours and "Good" as the defaults.
 */
module SleepTracker {

  const DefaultHours: real := 7.0
  const DefaultQuality := 3

  /** What the store keeps for one day. */
  datatype SleepEntry = SleepEntry(hours: real, quality: int)

  /** A position of the hours slider: 0 to 12 in steps of half an hour. */
  predicate OnHoursScale(hours: real) {
    0.0 <= hours <= 12.0 && (hours * 2.0).Floor as real == hours * 2.0
  }

  /** A position of the quality slider: 1 to 5 in whole steps. */
  predicate OnQualityScale(quality: int) {
    1 <= quality <= 5
  }

  predicate ValidEntry(e: SleepEntry) {
    OnHoursScale(e.hours) && OnQualityScale(e.quality)
  }

  /** The captions printed under the quality slider, lowest first. */
  const QualityLegend: seq<string> := ["Poor", "Fair", "Good", "Very Good", "Excellent"]

  /** `getQualityLabel`: a rating reads as its caption on the slider, and an
      unknown rating reads as "Good". */
  function QualityLabel(quality: int): (text: string)
    ensures OnQualityScale(quality) ==> text == QualityLegend[quality - 1]
    ensures !OnQualityScale(quality) ==> text == QualityLegend[DefaultQuality - 1]
  {
    if quality == 1 then "Poor"
    else if quality == 2 then "Fair"
    else if quality == 4 then "Very Good"
    else if quality == 5 then "Excellent"
    else "Good"
  }

  /** Different ratings on the slider read differently. */
  lemma QualityLabelsDistinct()
    ensures forall a, b :: OnQualityScale(a) && OnQualityScale(b) && QualityLabel(a) == QualityLabel(b) ==> a == b
  {
    forall a, b | OnQualityScale(a) && OnQualityScale(b) && a != b
      ensures QualityLabel(a) != QualityLabel(b)
    {
      assert |QualityLabel(a)| != |QualityLabel(b)| || QualityLabel(a)[0] != QualityLabel(b)[0];
    }
  }

  /** The note beside the hours: below seven hours is below the recommendation. */
  function HoursNote(hours: real): (note: string)
    ensures note == "Below recommended" <==> hours < 7.0
    ensures note == "Recommended" <==> hours >= 7.0
  {
    if hours < 7.0 then "Below recommended" else "Recommended"
  }

  /** The save button offers an update for a day already saved. */
  function SaveLabel(isSaved: bool): (caption: string)
    ensures caption == "Update Sleep Data" <==> isSaved
    ensures caption == "Save Sleep Data" <==> !isSaved
  {
    if isSaved then "Update Sleep Data" else "Save Sleep Data"
  }

  /** What the load effect reads for a day: the stored entry, or the defaults
      and "not saved" for a day never saved. */
  function Load(store: map<string, SleepEntry>, key: string): (r: (SleepEntry, bool))
    ensures r.1 <==> key in store
    ensures !r.1 ==> r.0 == SleepEntry(DefaultHours, DefaultQuality)
  {
    if key in store then (store[key], true) else (SleepEntry(DefaultHours, DefaultQuality), false)
  }

  /** A day never saved opens on the slider positions 7 h and "Good", which
      the note calls recommended. */
  lemma DefaultsAreOnScale()
    ensures ValidEntry(SleepEntry(DefaultHours, DefaultQuality))
    ensures HoursNote(DefaultHours) == "Recommended" && QualityLabel(DefaultQuality) == "Good"
  {
  }

  /** Saving a day and loading it again gives the saved entry back, marked saved. */
  lemma LoadAfterSave(store: map<string, SleepEntry>, key: string, e: SleepEntry)
    ensures Load(store[key := e], key) == (e, true)
  {
  }

  /** Saving one day does not change what another day loads. */
  lemma SaveKeepsOtherDays(store: map<string, SleepEntry>, key: string, other: string, e: SleepEntry)
    requires other != key
    ensures Load(store[key := e], other) == Load(store, other)
  {
  }

  /** The save button tells whether the day is in the store: a day never
      saved offers a save, and once saved the day offers an update. */
  lemma SaveLabelMatchesStore(store: map<string, SleepEntry>, key: string, e: SleepEntry)
    ensures SaveLabel(Load(store, key).1) == "Update Sleep Data" <==> key in store
    ensures SaveLabel(Load(store[key := e], key).1) == "Update Sleep Data"
  {
  }

  /** The component's state; `store` is the shared in-memory record. */
  class SleepTracker {
    var store: map<string, SleepEntry>
    var dateKey: string
    var hours: real
    var quality: int
    var isSaved: bool

    ghost predicate Valid()
      reads this
    {
      ValidEntry(SleepEntry(hours, quality)) && forall k :: k in store ==> ValidEntry(store[k])
    }

    /** Mounting for a day: the load effect runs on the default state. */
    constructor (store: map<string, SleepEntry>, key: string)
      requires forall k :: k in store ==> ValidEntry(store[k])
      ensures Valid()
      ensures this.store == store && dateKey == key
      ensures (SleepEntry(hours, quality), isSaved) == Load(store, key)
    {
      this.store := store;
      dateKey := key;
      var loaded := Load(store, key);
      hours := loaded.0.hours;
      quality := loaded.0.quality;
      isSaved := loaded.1;
    }

    /** The load effect, run when the date changes. */
    method ChangeDate(key: string)
      requires Valid()
      modifies this
      ensures Valid()
      ensures store == old(store) && dateKey == key
      ensures (SleepEntry(hours, quality), isSaved) == Load(store, key)
    {
      dateKey := key;
      var loaded := Load(store, key);
      hours := loaded.0.hours;
      quality := loaded.0.quality;
      isSaved := loaded.1;
    }

    /** The hours slider moved; it only yields its own positions. */
    method SetHours(h: real)
      requires Valid() && OnHoursScale(h)
      modifies this
      ensures Valid()
      ensures hours == h && quality == old(quality) && isSaved == old(isSaved)
      ensures store == old(store) && dateKey == old(dateKey)
    {
      hours := h;
    }

    /** The quality slider moved; it only yields its own positions. */
    method SetQuality(q: int)
      requires Valid() && OnQualityScale(q)
      modifies this
      ensures Valid()
      ensures quality == q && hours == old(hours) && isSaved == old(isSaved)
      ensures store == old(store) && dateKey == old(dateKey)
    {
      quality := q;
    }

    /** `saveSleepData` */
    method Save()
      requires Valid()
      modifies this
      ensures Valid()
      ensures store == old(store)[dateKey := SleepEntry(hours, quality)]
      ensures isSaved && dateKey == old(dateKey) && hours == old(hours) && quality == old(quality)
    {
      store := store[dateKey := SleepEntry(hours, quality)];
      isSaved := true;
    }
  }
}
