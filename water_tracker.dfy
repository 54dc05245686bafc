/**
 * The daily water tracker: a glass counter per day, kept in a module-level
 * store keyed by the formatted date, with a progress bar towards a target of
 * eight 250 ml glasses and a hard stop at one and a half times the target.
 */
module WaterTracker {
  import opened Wrappers

  const GlassesTarget := 8
  const GlassSizeMl := 250

  /** `GLASSES_TARGET * 1.5`: the plus button stops here. */
  const GlassesCap: real := GlassesTarget as real * 1.5

  /** Every count the store or the counter may hold. */
  predicate InRange(glasses: int) {
    0 <= glasses <= 12
  }

  // ---------------------------------------------------------------------
  // Counter steps
  // ---------------------------------------------------------------------

  /** `incrementGlasses`: one more glass while below the cap. */
  function Incremented(glasses: int): (r: int)
    ensures r == glasses + 1 <==> (glasses as real) < GlassesCap
    ensures r == glasses <==> (glasses as real) >= GlassesCap
    ensures InRange(glasses) ==> InRange(r)
  {
    if (glasses as real) < GlassesCap then glasses + 1 else glasses
  }

  /** `decrementGlasses`: one glass fewer while above zero. */
  function Decremented(glasses: int): (r: int)
    ensures r == glasses - 1 <==> glasses > 0
    ensures r == glasses <==> glasses <= 0
    ensures InRange(glasses) ==> InRange(r)
  {
    if glasses > 0 then glasses - 1 else glasses
  }

  /** Removing the glass just added restores the count, below the cap. */
  lemma DecrementUndoesIncrement(glasses: int)
    requires 0 <= glasses < 12
    ensures Decremented(Incremented(glasses)) == glasses
  {
  }

  /** Starting from zero, the counter never passes twelve glasses. */
  lemma {:induction false} IncrementsStopAtCap(n: nat)
    ensures Repeat(n) == if n <= 12 then n else 12
  {
    if n > 0 {
      IncrementsStopAtCap(n - 1);
    }
  }

  /** The count after `n` presses of the plus button from zero. */
  function Repeat(n: nat): int {
    if n == 0 then 0 else Incremented(Repeat(n - 1))
  }

  // ---------------------------------------------------------------------
  // What the card shows
  // ---------------------------------------------------------------------

  /** `(waterGlasses / GLASSES_TARGET) * 100` */
  function ProgressPercentage(glasses: int): real {
    (glasses as real / GlassesTarget as real) * 100.0
  }

  /** The value handed to the progress bar: the percentage capped at 100. */
  function BarValue(glasses: int): (v: real)
    ensures glasses >= 0 ==> 0.0 <= v <= 100.0
    ensures v == 100.0 <==> glasses >= GlassesTarget
    ensures glasses < GlassesTarget ==> v == glasses as real * 12.5
  {
    var p := ProgressPercentage(glasses);
    if p > 100.0 then 100.0 else p
  }

  /** `Math.round`: the nearest integer, halves rounded up. */
  function Round(x: real): (n: int)
    ensures n as real - 0.5 <= x < n as real + 0.5
  {
    (x + 0.5).Floor
  }

  datatype Status = TargetReached | PercentOfTarget(percent: int)
  {
    function Text(): string {
      match this
      case TargetReached => "\U{1F389} Target reached!"
      case PercentOfTarget(p) => (if p < 0 then "-" + NatText(-p) else NatText(p)) + "% of daily target"
    }
  }

  function Digit(d: int): char
    requires 0 <= d < 10
  {
    "0123456789"[d]
  }

  function NatText(n: nat): string {
    if n < 10 then [Digit(n)] else NatText(n / 10) + [Digit(n % 10)]
  }

  /** The status line under the bar. */
  function StatusLine(glasses: int): Status {
    var p := ProgressPercentage(glasses);
    if p >= 100.0 then TargetReached else PercentOfTarget(Round(p))
  }

  /** The target is reported reached exactly from eight glasses on; below it
      the rounded percentage is 12.5 per glass, halves up. */
  lemma StatusLineMeaning(glasses: int)
    ensures StatusLine(glasses) == TargetReached <==> glasses >= GlassesTarget
    ensures 0 <= glasses < GlassesTarget ==>
      StatusLine(glasses) == PercentOfTarget((25 * glasses + 1) / 2)
  {
    if 0 <= glasses < GlassesTarget {
      var n := (25 * glasses + 1) / 2;
      var x := ProgressPercentage(glasses);
      assert x == glasses as real * 12.5;
      assert n as real - 0.5 <= x < n as real + 0.5;
      RoundUnique(x, n);
    }
  }

  /** Only one integer lies within a half of a given real. */
  lemma RoundUnique(x: real, n: int)
    requires n as real - 0.5 <= x < n as real + 0.5
    ensures Round(x) == n
  {
  }

  /** The "+N extra glasses" note: shown past the target, with N the glasses over it. */
  function ExtraGlasses(glasses: int): (extra: Option<int>)
    ensures extra.Some? <==> glasses > GlassesTarget
    ensures extra.Some? ==> extra.value >= 1 && glasses == GlassesTarget + extra.value
  {
    if ProgressPercentage(glasses) > 100.0 then Some(glasses - GlassesTarget) else None
  }

  /** The millilitres line: what the glasses hold against the 2000 ml target. */
  function VolumeMl(glasses: int): (ml: int)
    ensures ml >= GlassesTarget * GlassSizeMl <==> glasses >= GlassesTarget
  {
    glasses * GlassSizeMl
  }

  /** The little glass icons: one per glass, at most eight. */
  function GlassIcons(glasses: int): (icons: nat)
    ensures icons <= GlassesTarget
    ensures glasses >= 0 && icons == glasses <==> 0 <= glasses <= GlassesTarget
    ensures glasses >= GlassesTarget ==> icons == GlassesTarget
  {
    if glasses < 0 then 0 else if glasses < 8 then glasses else 8
  }

  /** "No water yet" shows for an empty day. */
  predicate NoWaterYet(glasses: int) {
    glasses == 0
  }

  /** The note takes the place of the icons: for any count the buttons allow,
      it shows exactly when no icon is drawn and nothing has been drunk. */
  lemma NoWaterYetReplacesIcons(glasses: int)
    requires glasses >= 0
    ensures NoWaterYet(glasses) <==> GlassIcons(glasses) == 0
    ensures NoWaterYet(glasses) <==> VolumeMl(glasses) == 0
  {
  }

  predicate MinusDisabled(glasses: int) {
    glasses <= 0
  }

  predicate PlusDisabled(glasses: int) {
    glasses as real >= GlassesCap
  }

  /** Each button is disabled exactly when pressing it would change nothing. */
  lemma ButtonsMatchGuards(glasses: int)
    ensures PlusDisabled(glasses) <==> Incremented(glasses) == glasses
    ensures MinusDisabled(glasses) <==> Decremented(glasses) == glasses
  {
  }

  /** The save button offers an update for a day already saved. */
  function SaveLabel(isSaved: bool): (caption: string)
    ensures caption == "Update Water Intake" <==> isSaved
    ensures caption == "Save Water Intake" <==> !isSaved
  {
    if isSaved then "Update Water Intake" else "Save Water Intake"
  }

  // ---------------------------------------------------------------------
  // The store
  // ---------------------------------------------------------------------

  /** What the load effect reads for a day: the stored count, or zero and
      "not saved" for a day never saved. */
  function Load(store: map<string, int>, key: string): (r: (int, bool))
    ensures r.1 <==> key in store
    ensures r.0 == if key in store then store[key] else 0
  {
    if key in store then (store[key], true) else (0, false)
  }

  /** Saving a day and loading it again gives the saved count back, marked saved. */
  lemma LoadAfterSave(store: map<string, int>, key: string, glasses: int)
    ensures Load(store[key := glasses], key) == (glasses, true)
  {
  }

  /** Saving one day does not change what another day loads. */
  lemma SaveKeepsOtherDays(store: map<string, int>, key: string, other: string, glasses: int)
    requires other != key
    ensures Load(store[key := glasses], other) == Load(store, other)
  {
  }

  /** The save button tells whether the day is in the store: a day never
      saved offers a save, and once saved the day offers an update. */
  lemma SaveLabelMatchesStore(store: map<string, int>, key: string, glasses: int)
    ensures SaveLabel(Load(store, key).1) == "Update Water Intake" <==> key in store
    ensures SaveLabel(Load(store[key := glasses], key).1) == "Update Water Intake"
  {
  }

  /** The component's state; `store` is the shared in-memory record. */
  class WaterTracker {
    var store: map<string, int>
    var dateKey: string
    var glasses: int
    var isSaved: bool

    ghost predicate Valid()
      reads this
    {
      InRange(glasses) && forall k :: k in store ==> InRange(store[k])
    }

    /** Mounting for a day: the state starts at zero and the load effect runs. */
    constructor (store: map<string, int>, key: string)
      requires forall k :: k in store ==> InRange(store[k])
      ensures Valid()
      ensures this.store == store && dateKey == key
      ensures (glasses, isSaved) == Load(store, key)
    {
      this.store := store;
      dateKey := key;
      glasses := Load(store, key).0;
      isSaved := Load(store, key).1;
    }

    /** The load effect, run when the date changes. */
    method ChangeDate(key: string)
      requires Valid()
      modifies this
      ensures Valid()
      ensures store == old(store) && dateKey == key
      ensures (glasses, isSaved) == Load(store, key)
    {
      dateKey := key;
      var loaded := Load(store, key);
      glasses := loaded.0;
      isSaved := loaded.1;
    }

    /** `saveWaterData` */
    method Save()
      requires Valid()
      modifies this
      ensures Valid()
      ensures store == old(store)[dateKey := glasses]
      ensures isSaved && dateKey == old(dateKey) && glasses == old(glasses)
    {
      store := store[dateKey := glasses];
      isSaved := true;
    }

    /** `incrementGlasses`; the saved flag is left as it was. */
    method Increment()
      requires Valid()
      modifies this
      ensures Valid()
      ensures glasses == Incremented(old(glasses))
      ensures store == old(store) && dateKey == old(dateKey) && isSaved == old(isSaved)
    {
      if (glasses as real) < GlassesCap {
        glasses := glasses + 1;
      }
    }

    /** `decrementGlasses`; the saved flag is left as it was. */
    method Decrement()
      requires Valid()
      modifies this
      ensures Valid()
      ensures glasses == Decremented(old(glasses))
      ensures store == old(store) && dateKey == old(dateKey) && isSaved == old(isSaved)
    {
      if glasses > 0 {
        glasses := glasses - 1;
      }
    }
  }
}
