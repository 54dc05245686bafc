/**
 * The mental-state trend analyzer: from a user's mental-state records of the
 * last `days` days (already fetched and ordered by recording time), derive
 * the overall mood, the mood trend and its confidence, the most frequent
 * activities, coping mechanisms and triggers, the preferred communication
 * style, and rule-based recommendations and insights.
 *
 * Averages are exact rationals (`real`); the source computes them in IEEE
 * doubles.
 */
module MentalStateAnalyzer {
  import opened Wrappers

  // ---------------------------------------------------------------------
  // Data model
  // ---------------------------------------------------------------------

  /** One row of `user_mental_states` as far as the analysis reads it.
      A missing array column is the empty sequence, and a missing or empty
      communication style is "" (the source drops both with `filter(Boolean)`). */
  datatype MentalState = MentalState(
    mood: string,
    preferredActivities: seq<string>,
    copingMechanisms: seq<string>,
    triggers: seq<string>,
    communicationStyle: string)

  datatype Direction = Improving | Declining | Stable

  datatype MoodTrends = MoodTrends(direction: Direction, confidence: real)

  datatype CommonPatterns = CommonPatterns(
    preferredActivities: seq<string>,
    effectiveCoping: seq<string>,
    frequentTriggers: seq<string>,
    communicationPrefs: string)

  /** One recommendation line; `Text()` is the string the source pushes. */
  datatype Recommendation =
    | StartChatting
    | ProfessionalCheckIn
    | UsualCopingStrategies(coping: seq<string>)
    | EnjoyedActivities(activities: seq<string>)
    | MindfulOfTriggers(triggers: seq<string>)
    | ContinueCheckIns
  {
    function Text(): string {
      match this
      case StartChatting => "Start chatting with the AI to build your mental health profile"
      case ProfessionalCheckIn => "Consider scheduling a check-in with a mental health professional"
      case UsualCopingStrategies(coping) => "Try your usual coping strategies: " + Join(coping, ", ")
      case EnjoyedActivities(activities) => "Engage in activities you enjoy: " + Join(activities, ", ")
      case MindfulOfTriggers(triggers) => "Be mindful of your triggers: " + Join(triggers, ", ")
      case ContinueCheckIns => "Continue regular check-ins to track your progress"
    }
  }

  /** One insight line; `Text()` is the string the source pushes. */
  datatype Insight =
    | NoDataYet
    | TrendingUp
    | TrendingDown
    | RespondsWellTo(coping: seq<string>)
    | ConsistentTracking(days: nat)
  {
    function Text(): string {
      match this
      case NoDataYet => "No data available yet. Continue using the app to get personalized insights."
      case TrendingUp => "Your mood has been trending upward - great progress!"
      case TrendingDown => "Your mood has been trending downward. This is normal - consider extra self-care."
      case RespondsWellTo(coping) => "You respond well to: " + Join(coping, ", ")
      case ConsistentTracking(days) =>
        "You've been consistent with tracking for " + NatToString(days) + " days - this helps build self-awareness"
    }
  }

  datatype Analysis = Analysis(
    overallMood: string,
    moodTrends: MoodTrends,
    commonPatterns: CommonPatterns,
    recommendations: seq<Recommendation>,
    insights: seq<Insight>)

  /** The shape handed to the daily check-in banner. */
  datatype CheckInInsights = CheckInInsights(
    suggestion: string,
    moodTrend: Direction,
    preferredCoping: Option<string>,
    overallState: string)

  const DefaultStyle := "supportive"
  const ReflectToday := "Take a moment to reflect on how you're feeling today"

  /** The result for an empty window. */
  const NoDataAnalysis := Analysis(
    "neutral",
    MoodTrends(Stable, 0.0),
    CommonPatterns([], [], [], DefaultStyle),
    [StartChatting],
    [NoDataYet])

  /** The banner shown when the analysis cannot be obtained. */
  const FallbackCheckIn := CheckInInsights(ReflectToday, Stable, None, "neutral")

  // ---------------------------------------------------------------------
  // String helpers (Array.prototype.join, Number.prototype.toString)
  // ---------------------------------------------------------------------

  function Join(items: seq<string>, sep: string): string {
    if |items| == 0 then ""
    else if |items| == 1 then items[0]
    else items[0] + sep + Join(items[1..], sep)
  }

  function DigitChar(d: nat): char
    requires d < 10
  {
    ('0' as int + d) as char
  }

  function NatToString(n: nat): string {
    if n < 10 then [DigitChar(n)] else NatToString(n / 10) + [DigitChar(n % 10)]
  }

  // ---------------------------------------------------------------------
  // Mood scores and averages
  // ---------------------------------------------------------------------

  /** The fixed mood table; a tag not in the table scores 3. */
  function MoodScore(mood: string): (score: int)
    ensures 1 <= score <= 5
    ensures mood !in {"very_happy", "positive", "neutral", "negative", "anxious", "depressed"} ==> score == 3
  {
    if mood == "very_happy" then 5
    else if mood == "positive" then 4
    else if mood == "neutral" then 3
    else if mood == "negative" then 2
    else if mood == "anxious" then 2
    else if mood == "depressed" then 1
    else 3
  }

  ghost predicate InScoreRange(scores: seq<int>) {
    forall i :: 0 <= i < |scores| ==> 1 <= scores[i] <= 5
  }

  /** `mentalStates.map(state => score of state.mood)` */
  function Scores(states: seq<MentalState>): (scores: seq<int>)
    ensures |scores| == |states|
    ensures forall i :: 0 <= i < |states| ==> scores[i] == MoodScore(states[i].mood)
    ensures InScoreRange(scores)
  {
    seq(|states|, i requires 0 <= i < |states| => MoodScore(states[i].mood))
  }

  function Sum(s: seq<int>): int {
    if s == [] then 0 else Sum(s[..|s| - 1]) + s[|s| - 1]
  }

  function Average(s: seq<int>): real
    requires |s| > 0
  {
    (Sum(s) as real) / (|s| as real)
  }

  /** How many of the scores are "recent": `slice(-7)` keeps the last min(7, n). */
  function RecentCount(n: nat): nat {
    if n < 7 then n else 7
  }

  function RecentScores(scores: seq<int>): seq<int> {
    scores[|scores| - RecentCount(|scores|)..]
  }

  function OlderScores(scores: seq<int>): seq<int> {
    scores[..|scores| - RecentCount(|scores|)]
  }

  function RecentAverage(scores: seq<int>): real
    requires |scores| > 0
  {
    Average(RecentScores(scores))
  }

  /** An empty older window takes the recent average. */
  function OlderAverage(scores: seq<int>): real
    requires |scores| > 0
  {
    if |OlderScores(scores)| > 0 then Average(OlderScores(scores)) else RecentAverage(scores)
  }

  function MoodChange(scores: seq<int>): real
    requires |scores| > 0
  {
    RecentAverage(scores) - OlderAverage(scores)
  }

  /** Strict thresholds at plus and minus 0.3. */
  function TrendDirection(change: real): Direction {
    if change > 0.3 then Improving
    else if change < -0.3 then Declining
    else Stable
  }

  /** `Math.min(Math.abs(change) * 20, 100)` */
  function Confidence(change: real): real {
    var c := (if change < 0.0 then -change else change) * 20.0;
    if c < 100.0 then c else 100.0
  }

  /** The overall assessment of the recent average, in four bands. */
  function OverallMood(recentAvg: real): (mood: string)
    ensures mood == "positive" <==> recentAvg >= 4.0
    ensures mood == "neutral" <==> 3.0 <= recentAvg < 4.0
    ensures mood == "struggling" <==> 2.0 <= recentAvg < 3.0
    ensures mood == "needs support" <==> recentAvg < 2.0
  {
    if recentAvg >= 4.0 then "positive"
    else if recentAvg >= 3.0 then "neutral"
    else if recentAvg >= 2.0 then "struggling"
    else "needs support"
  }

  // ---------------------------------------------------------------------
  // Lemmas on the trend
  // ---------------------------------------------------------------------

  /** The recent window is the last min(7, n) scores and the older window the rest. */
  lemma WindowsSplitScores(scores: seq<int>)
    ensures |RecentScores(scores)| == (if |scores| < 7 then |scores| else 7)
    ensures OlderScores(scores) + RecentScores(scores) == scores
    ensures |scores| <= 7 <==> OlderScores(scores) == []
  {
  }

  lemma {:induction false} SumBounds(s: seq<int>)
    requires InScoreRange(s)
    ensures |s| <= Sum(s) <= 5 * |s|
  {
    if s != [] {
      SumBounds(s[..|s| - 1]);
    }
  }

  /** Every score is in 1..5, so is their average. */
  lemma AverageInScoreRange(s: seq<int>)
    requires |s| > 0 && InScoreRange(s)
    ensures 1.0 <= Average(s) <= 5.0
  {
    SumBounds(s);
    QuotientBounds(Sum(s) as real, |s| as real);
  }

  lemma QuotientBounds(total: real, n: real)
    requires 0.0 < n && n <= total <= 5.0 * n
    ensures 1.0 <= total / n <= 5.0
  {
    var q := total / n;
    assert q * n == total;
    if q < 1.0 {
      ScaleStrict(q, 1.0, n);
      assert false;
    }
    if q > 5.0 {
      ScaleStrict(5.0, q, n);
      assert false;
    }
  }

  /** Multiplying by a positive number keeps a strict order. */
  lemma ScaleStrict(a: real, b: real, n: real)
    requires a < b && 0.0 < n
    ensures a * n < b * n
  {
  }

  lemma MoodChangeBounds(scores: seq<int>)
    requires |scores| > 0 && InScoreRange(scores)
    ensures -4.0 <= MoodChange(scores) <= 4.0
    ensures 1.0 <= RecentAverage(scores) <= 5.0
  {
    WindowsSplitScores(scores);
    var recent, older := RecentScores(scores), OlderScores(scores);
    assert InScoreRange(recent) by {
      forall i | 0 <= i < |recent| ensures 1 <= recent[i] <= 5 {
        assert recent[i] == scores[|older| + i];
      }
    }
    AverageInScoreRange(recent);
    if |older| > 0 {
      AverageInScoreRange(older);
    }
  }

  /** Because scores lie in 1..5, the confidence never exceeds 80. */
  lemma ConfidenceAtMost80(scores: seq<int>)
    requires |scores| > 0 && InScoreRange(scores)
    ensures 0.0 <= Confidence(MoodChange(scores)) <= 80.0
  {
    MoodChangeBounds(scores);
  }

  lemma {:induction false} SumConstant(s: seq<int>, c: int)
    requires forall i :: 0 <= i < |s| ==> s[i] == c
    ensures Sum(s) == c * |s|
    decreases |s|
  {
    if s != [] {
      SumConstant(s[..|s| - 1], c);
    }
  }

  /** The average of a constant window is that constant. */
  lemma AverageConstant(s: seq<int>, c: int)
    requires |s| > 0
    requires forall i :: 0 <= i < |s| ==> s[i] == c
    ensures Average(s) == c as real
  {
    SumConstant(s, c);
    var n := |s| as real;
    assert Sum(s) as real == (c as real) * n;
  }

  /** A week recorded in a single mood is assessed by that mood's score alone:
      "very_happy" or "positive" throughout reads as positive, "neutral" as
      neutral, "negative" or "anxious" as struggling, "depressed" as needing
      support. */
  lemma SteadyMoodAssessment(states: seq<MentalState>, mood: string)
    requires |states| > 0
    requires forall i :: 0 <= i < |states| ==> states[i].mood == mood
    ensures RecentAverage(Scores(states)) == MoodScore(mood) as real
    ensures OverallMood(RecentAverage(Scores(states))) ==
      if MoodScore(mood) >= 4 then "positive"
      else if MoodScore(mood) == 3 then "neutral"
      else if MoodScore(mood) == 2 then "struggling"
      else "needs support"
  {
    var scores := Scores(states);
    var recent := RecentScores(scores);
    var score := MoodScore(mood);
    var offset := |scores| - |recent|;
    forall i | 0 <= i < |recent|
      ensures recent[i] == score
    {
      assert recent[i] == scores[offset + i];
    }
    AverageConstant(recent, score);
  }

  /** With at most 7 scores there is nothing older to compare against. */
  lemma ShortHistoryIsStable(scores: seq<int>)
    requires 0 < |scores| <= 7
    ensures MoodChange(scores) == 0.0
    ensures TrendDirection(MoodChange(scores)) == Stable
    ensures Confidence(MoodChange(scores)) == 0.0
  {
    WindowsSplitScores(scores);
  }

  /** The direction is decided by the two strict thresholds, in both directions. */
  lemma DirectionThresholds(change: real)
    ensures TrendDirection(change) == Improving <==> change > 0.3
    ensures TrendDirection(change) == Declining <==> change < -0.3
    ensures TrendDirection(change) == Stable <==> -0.3 <= change <= 0.3
  {
  }

  /** Three older scores of 3 and seven recent scores of 5: a change of 2,
      confidence 40, improving. */
  lemma ImprovingExample()
    ensures var scores := [3, 3, 3, 5, 5, 5, 5, 5, 5, 5];
      && MoodChange(scores) == 2.0
      && Confidence(MoodChange(scores)) == 40.0
      && TrendDirection(MoodChange(scores)) == Improving
  {
    var scores := [3, 3, 3, 5, 5, 5, 5, 5, 5, 5];
    assert RecentScores(scores) == [5, 5, 5, 5, 5, 5, 5];
    assert OlderScores(scores) == [3, 3, 3];
    SumConstant([5, 5, 5, 5, 5, 5, 5], 5);
    SumConstant([3, 3, 3], 3);
  }

  // ---------------------------------------------------------------------
  // Frequency ranking (the inner `frequencyCount`)
  // ---------------------------------------------------------------------

  function Occurrences(items: seq<string>, x: string): nat {
    multiset(items)[x]
  }

  predicate Distinct(s: seq<string>) {
    forall a, b :: 0 <= a < b < |s| ==> s[a] != s[b]
  }

  /** What `frequencyCount(items)` promises of its result `top`: at most three
      distinct items of the input, by non-increasing count, and no omitted item
      more frequent than a returned one; fewer than three only when every
      distinct item was returned. */
  predicate IsFrequencyRanking(items: seq<string>, top: seq<string>) {
    && |top| <= 3
    && (forall i :: 0 <= i < |top| ==> top[i] in items)
    && Distinct(top)
    && (forall i, j :: 0 <= i < j < |top| ==> Occurrences(items, top[i]) >= Occurrences(items, top[j]))
    && (forall x, i :: x in items && x !in top && 0 <= i < |top| ==> Occurrences(items, x) <= Occurrences(items, top[i]))
    && (forall x :: x in items && x !in top ==> |top| == 3)
  }

  /** The dictionary pass of `frequencyCount`: `counts[item] = (counts[item] || 0) + 1`
      for every item, with `keys` the dictionary's keys in first-seen order. */
  method CountItems(items: seq<string>) returns (counts: map<string, nat>, keys: seq<string>)
    ensures forall k :: k in counts <==> k in items
    ensures forall k :: k in keys <==> k in items
    ensures Distinct(keys)
    ensures forall k :: k in counts ==> counts[k] == Occurrences(items, k)
  {
    counts, keys := map[], [];
    for i := 0 to |items|
      invariant forall k :: k in counts <==> k in items[..i]
      invariant forall k :: k in keys <==> k in items[..i]
      invariant Distinct(keys)
      invariant forall k :: k in counts ==> counts[k] == Occurrences(items[..i], k)
    {
      var item := items[i];
      assert items[..i + 1] == items[..i] + [item];
      if item in counts {
        counts := counts[item := counts[item] + 1];
      } else {
        counts := counts[item := 1];
        keys := keys + [item];
      }
    }
    assert items[..|items|] == items;
  }

  ghost predicate SortedByCount(ranked: seq<string>, counts: map<string, nat>)
    requires forall k :: k in ranked ==> k in counts
  {
    forall a, b :: 0 <= a < b < |ranked| ==> counts[ranked[a]] >= counts[ranked[b]]
  }

  /** One step of the stable descending sort of the dictionary's entries:
      `key` goes after every entry whose count is at least its own. */
  method InsertByCount(ranked: seq<string>, key: string, counts: map<string, nat>) returns (r: seq<string>)
    requires key in counts && forall k :: k in ranked ==> k in counts
    requires SortedByCount(ranked, counts)
    requires Distinct(ranked) && key !in ranked
    ensures forall k :: k in r <==> k in ranked || k == key
    ensures SortedByCount(r, counts)
    ensures Distinct(r)
  {
    var p := 0;
    while p < |ranked| && counts[ranked[p]] >= counts[key]
      invariant 0 <= p <= |ranked|
      invariant forall q :: 0 <= q < p ==> counts[ranked[q]] >= counts[key]
    {
      p := p + 1;
    }
    assert forall q :: p <= q < |ranked| ==> counts[ranked[q]] < counts[key] by {
      forall q | p <= q < |ranked| ensures counts[ranked[q]] < counts[key] {
        assert counts[ranked[q]] <= counts[ranked[p]];
      }
    }
    r := ranked[..p] + [key] + ranked[p..];
    InsertedAt(ranked, key, counts, p);
  }

  /** Where each entry of `ranked[..p] + [key] + ranked[p..]` comes from. */
  lemma InsertedIndex(ranked: seq<string>, key: string, p: nat)
    requires p <= |ranked|
    ensures var r := ranked[..p] + [key] + ranked[p..];
      && |r| == |ranked| + 1 && r[p] == key
      && (forall i :: 0 <= i < p ==> r[i] == ranked[i])
      && (forall i :: p < i < |r| ==> r[i] == ranked[i - 1])
  {
  }

  /** Inserting `key` at the position `p` that separates the entries counting
      at least as much from those counting less keeps the order and the
      absence of repetitions. */
  lemma InsertedAt(ranked: seq<string>, key: string, counts: map<string, nat>, p: nat)
    requires key in counts && forall k :: k in ranked ==> k in counts
    requires p <= |ranked|
    requires SortedByCount(ranked, counts)
    requires Distinct(ranked) && key !in ranked
    requires forall q :: 0 <= q < p ==> counts[ranked[q]] >= counts[key]
    requires forall q :: p <= q < |ranked| ==> counts[ranked[q]] < counts[key]
    ensures var r := ranked[..p] + [key] + ranked[p..];
      && (forall k :: k in r <==> k in ranked || k == key)
      && SortedByCount(r, counts)
      && Distinct(r)
  {
    var r := ranked[..p] + [key] + ranked[p..];
    assert ranked == ranked[..p] + ranked[p..];
    InsertedIndex(ranked, key, p);
    forall a, b | 0 <= a < b < |r| ensures counts[r[a]] >= counts[r[b]] && r[a] != r[b] {
      if b < p {
        assert r[a] == ranked[a] && r[b] == ranked[b];
      } else if b == p {
        assert r[a] == ranked[a];
      } else if a < p {
        assert r[a] == ranked[a] && r[b] == ranked[b - 1];
      } else if a == p {
        assert r[b] == ranked[b - 1];
      } else {
        assert r[a] == ranked[a - 1] && r[b] == ranked[b - 1];
      }
    }
  }

  /** The `sort` of `Object.entries(counts)` by descending count, as a stable insertion sort. */
  method RankByCount(keys: seq<string>, counts: map<string, nat>) returns (ranked: seq<string>)
    requires forall k :: k in keys ==> k in counts
    requires Distinct(keys)
    ensures forall k :: k in ranked <==> k in keys
    ensures Distinct(ranked)
    ensures SortedByCount(ranked, counts)
  {
    ranked := [];
    for j := 0 to |keys|
      invariant forall k :: k in ranked <==> k in keys[..j]
      invariant Distinct(ranked)
      invariant SortedByCount(ranked, counts)
    {
      assert keys[..j + 1] == keys[..j] + [keys[j]];
      ranked := InsertByCount(ranked, keys[j], counts);
    }
    assert keys[..|keys|] == keys;
  }

  /** `frequencyCount`: count the items, rank them by descending count, keep three. */
  method FrequencyCount(items: seq<string>) returns (top: seq<string>)
    ensures IsFrequencyRanking(items, top)
  {
    var counts, keys := CountItems(items);
    var ranked := RankByCount(keys, counts);
    top := if |ranked| <= 3 then ranked else ranked[..3];
    forall x | x in items && x !in top
      ensures |top| == 3 && forall i :: 0 <= i < 3 ==> counts[x] <= counts[top[i]]
    {
      var q :| 0 <= q < |ranked| && ranked[q] == x;
      assert q >= 3;
    }
  }

  /** The first entry of a ranking is an item of highest count, and the
      ranking is empty only for an empty input. */
  lemma RankingHeadIsMostFrequent(items: seq<string>, top: seq<string>)
    requires IsFrequencyRanking(items, top)
    ensures top == [] <==> items == []
    ensures top != [] ==> forall x :: x in items ==> Occurrences(items, x) <= Occurrences(items, top[0])
  {
    if items != [] {
      var x := items[0];
      assert x in items;
      assert x in top || |top| == 3;
    }
    if top != [] {
      assert top[0] in items;
      forall x | x in items ensures Occurrences(items, x) <= Occurrences(items, top[0]) {
        if x in top {
          var k :| 0 <= k < |top| && top[k] == x;
        }
      }
    }
  }

  // ---------------------------------------------------------------------
  // Communication style (plurality vote)
  // ---------------------------------------------------------------------

  /** What the sort-and-take-first of the communication styles promises:
      "supportive" when there are none, otherwise a style with the highest
      count that occurs no later than any other style with that count. */
  predicate IsPluralityStyle(styles: seq<string>, pref: string) {
    if |styles| == 0 then pref == DefaultStyle
    else
      && pref in styles
      && (forall q :: 0 <= q < |styles| ==> Occurrences(styles, styles[q]) <= Occurrences(styles, pref))
      && (forall q :: 0 <= q < |styles| && Occurrences(styles, styles[q]) == Occurrences(styles, pref) ==> pref in styles[..q + 1])
  }

  /** The plurality vote: the stable descending sort by count puts the
      earliest style of highest count first. */
  method CommunicationPrefs(styles: seq<string>) returns (pref: string)
    ensures IsPluralityStyle(styles, pref)
  {
    if |styles| == 0 {
      return DefaultStyle;
    }
    var best := 0;
    for q := 1 to |styles|
      invariant 0 <= best < q
      invariant forall r :: 0 <= r < q ==> Occurrences(styles, styles[r]) <= Occurrences(styles, styles[best])
      invariant forall r :: 0 <= r < best ==> Occurrences(styles, styles[r]) < Occurrences(styles, styles[best])
    {
      if Occurrences(styles, styles[q]) > Occurrences(styles, styles[best]) {
        best := q;
      }
    }
    pref := styles[best];
    forall q | 0 <= q < |styles| && Occurrences(styles, styles[q]) == Occurrences(styles, pref)
      ensures pref in styles[..q + 1]
    {
      assert q >= best;
      assert styles[..q + 1][best] == pref;
    }
  }

  // ---------------------------------------------------------------------
  // Flattening the records
  // ---------------------------------------------------------------------

  /** The three list columns of a record that the analysis flattens. */
  datatype ListColumn = PreferredActivities | CopingMechanisms | Triggers
  {
    function Of(s: MentalState): seq<string> {
      match this
      case PreferredActivities => s.preferredActivities
      case CopingMechanisms => s.copingMechanisms
      case Triggers => s.triggers
    }
  }

  /** `mentalStates.flatMap(state => state.<column> || [])`: every entry of
      the column, record by record. */
  function Flatten(states: seq<MentalState>, column: ListColumn): (all: seq<string>)
    ensures forall x :: x in all <==> exists i :: 0 <= i < |states| && x in column.Of(states[i])
  {
    if states == [] then [] else column.Of(states[0]) + Flatten(states[1..], column)
  }

  /** `mentalStates.map(state => state.communication_style).filter(Boolean)` */
  function CommunicationStyles(states: seq<MentalState>): (styles: seq<string>)
    ensures forall x :: x in styles <==> x != "" && exists i :: 0 <= i < |states| && states[i].communicationStyle == x
  {
    if states == [] then []
    else if states[0].communicationStyle == "" then CommunicationStyles(states[1..])
    else [states[0].communicationStyle] + CommunicationStyles(states[1..])
  }

  // ---------------------------------------------------------------------
  // The shape of the recommendation and insight lists
  // ---------------------------------------------------------------------

  /** Every line ranks strictly after the one before it: no line twice, and
      the lines in push order. */
  ghost predicate StrictlyRanked<T>(xs: seq<T>, rank: T -> nat) {
    forall i, j :: 0 <= i < j < |xs| ==> rank(xs[i]) < rank(xs[j])
  }

  /** `xs` holds exactly the allowed lines of rank below `stage`, each once, in rank order. */
  ghost predicate ListsAllowedBelow<T(!new)>(xs: seq<T>, stage: nat, allowed: set<T>, rank: T -> nat) {
    && (forall x :: x in xs <==> x in allowed && rank(x) < stage)
    && StrictlyRanked(xs, rank)
  }

  /** `order` holds one candidate line per rank, and every allowed line is the candidate of its rank. */
  ghost predicate IsCanonicalOrder<T>(order: seq<T>, allowed: set<T>, rank: T -> nat) {
    && (forall k :: 0 <= k < |order| ==> rank(order[k]) == k)
    && (forall x :: x in allowed ==> rank(x) < |order| && x == order[rank(x)])
  }

  /** One push: the candidate of rank `stage` is appended exactly when it is allowed. */
  lemma PushStage<T(!new)>(before: seq<T>, after: seq<T>, stage: nat, line: T, allowed: set<T>, rank: T -> nat)
    requires ListsAllowedBelow(before, stage, allowed, rank)
    requires rank(line) == stage
    requires forall x :: x in allowed && rank(x) == stage ==> x == line
    requires after == if line in allowed then before + [line] else before
    ensures ListsAllowedBelow(after, stage + 1, allowed, rank)
  {
    if line in allowed {
      forall i, j | 0 <= i < j < |after|
        ensures rank(after[i]) < rank(after[j])
      {
        if j == |before| {
          assert after[i] in before;
        }
      }
    }
  }

  /** Pushing the candidates in rank order, each exactly when it is allowed,
      lists every allowed line once, in rank order. `snap[k]` is the list
      before the candidate of rank `k` is considered. */
  lemma {:induction false} Stages<T(!new)>(snap: seq<seq<T>>, k: nat, order: seq<T>, allowed: set<T>, rank: T -> nat)
    requires IsCanonicalOrder(order, allowed, rank)
    requires |snap| == |order| + 1 && k <= |order|
    requires ListsAllowedBelow(snap[k], k, allowed, rank)
    requires forall j :: k <= j < |order| ==> snap[j + 1] == if order[j] in allowed then snap[j] + [order[j]] else snap[j]
    ensures ListsAllowedBelow(snap[|order|], |order|, allowed, rank)
    decreases |order| - k
  {
    if k < |order| {
      PushStage(snap[k], snap[k + 1], k, order[k], allowed, rank);
      Stages(snap, k + 1, order, allowed, rank);
    }
  }

  lemma HeadIn<T>(a: seq<T>, b: seq<T>)
    requires a != [] && forall x :: x in a ==> x in b
    ensures a[0] in b
  {
  }

  /** The head of a strictly ranked list has the least rank of its elements. */
  lemma RankedHeadIsLeast<T>(xs: seq<T>, rank: T -> nat, k: nat)
    requires StrictlyRanked(xs, rank) && k < |xs|
    ensures rank(xs[0]) <= rank(xs[k])
  {
  }

  lemma RankedTail<T>(xs: seq<T>, rank: T -> nat)
    requires StrictlyRanked(xs, rank) && xs != []
    ensures StrictlyRanked(xs[1..], rank)
  {
    forall i, j | 0 <= i < j < |xs| - 1
      ensures rank(xs[1..][i]) < rank(xs[1..][j])
    {
      assert xs[1..][i] == xs[i + 1] && xs[1..][j] == xs[j + 1];
    }
  }

  /** Two strictly ranked lists with the same elements have the same head. */
  lemma RankedHeadsAgree<T>(a: seq<T>, b: seq<T>, rank: T -> nat)
    requires StrictlyRanked(a, rank) && StrictlyRanked(b, rank)
    requires a != [] && b != []
    requires forall x :: x in a <==> x in b
    ensures a[0] == b[0]
  {
    HeadIn(a, b);
    HeadIn(b, a);
    var k :| 0 <= k < |b| && b[k] == a[0];
    var m :| 0 <= m < |a| && a[m] == b[0];
    RankedHeadIsLeast(a, rank, m);
    RankedHeadIsLeast(b, rank, k);
    assert k == 0;
  }

  /** Dropping an equal head from two strictly ranked lists keeps the inclusion of their elements. */
  lemma RankedTailsIncluded<T>(a: seq<T>, b: seq<T>, rank: T -> nat)
    requires StrictlyRanked(a, rank) && a != [] && b != [] && a[0] == b[0]
    requires forall x :: x in a ==> x in b
    ensures forall x :: x in a[1..] ==> x in b[1..]
  {
    forall x | x in a[1..]
      ensures x in b[1..]
    {
      var j :| 0 <= j < |a| - 1 && a[1..][j] == x;
      assert rank(a[0]) < rank(a[j + 1]);
      assert x in b;
      var l :| 0 <= l < |b| && b[l] == x;
      assert l != 0;
      assert b[1..][l - 1] == x;
    }
  }

  /** Two strictly ranked lists with the same elements agree on the head, and
      their tails are strictly ranked lists with the same elements. */
  lemma RankedTails<T>(a: seq<T>, b: seq<T>, rank: T -> nat)
    requires StrictlyRanked(a, rank) && StrictlyRanked(b, rank)
    requires a != [] && b != []
    requires forall x :: x in a <==> x in b
    ensures a[0] == b[0]
    ensures StrictlyRanked(a[1..], rank) && StrictlyRanked(b[1..], rank)
    ensures forall x :: x in a[1..] <==> x in b[1..]
  {
    RankedHeadsAgree(a, b, rank);
    RankedTailsIncluded(a, b, rank);
    RankedTailsIncluded(b, a, rank);
    RankedTail(a, rank);
    RankedTail(b, rank);
  }

  lemma SameHeadSameTail<T>(a: seq<T>, b: seq<T>)
    requires a != [] && b != [] && a[0] == b[0] && a[1..] == b[1..]
    ensures a == b
  {
    assert a == [a[0]] + a[1..];
    assert b == [b[0]] + b[1..];
  }

  /** A strictly ranked list is determined by its elements: there is one way
      to list a set of lines without repetition in push order. */
  lemma {:induction false} StrictlyRankedUnique<T>(a: seq<T>, b: seq<T>, rank: T -> nat)
    requires StrictlyRanked(a, rank) && StrictlyRanked(b, rank)
    requires forall x :: x in a <==> x in b
    ensures a == b
    decreases |a|
  {
    if a != [] && b != [] {
      RankedTails(a, b, rank);
      StrictlyRankedUnique(a[1..], b[1..], rank);
      SameHeadSameTail(a, b);
    } else if a != [] {
      HeadIn(a, b);
      assert false;
    } else if b != [] {
      HeadIn(b, a);
      assert false;
    }
  }

  // The recommendation lines

  /** The position of each recommendation line in the order the rules push them. */
  function RecommendationRank(r: Recommendation): nat {
    match r
    case ProfessionalCheckIn => 0
    case UsualCopingStrategies(_) => 1
    case EnjoyedActivities(_) => 2
    case MindfulOfTriggers(_) => 3
    case ContinueCheckIns => 4
    case StartChatting => 5
  }

  /** The recommendation lines the rules call for, given the trend and the three rankings. */
  predicate IsRecommendationFor(r: Recommendation, direction: Direction,
                                coping: seq<string>, activities: seq<string>, triggers: seq<string>) {
    || (r == ProfessionalCheckIn && direction == Declining)
    || (r == UsualCopingStrategies(coping) && direction == Declining && |coping| > 0)
    || (r == EnjoyedActivities(activities) && |activities| > 0)
    || (r == MindfulOfTriggers(triggers) && |triggers| > 0)
    || r == ContinueCheckIns
  }

  /** Exactly the lines the rules call for, each once, in push order. */
  ghost predicate IsRecommendationList(recs: seq<Recommendation>, direction: Direction,
                                       coping: seq<string>, activities: seq<string>, triggers: seq<string>) {
    && (forall r :: r in recs <==> IsRecommendationFor(r, direction, coping, activities, triggers))
    && StrictlyRanked(recs, RecommendationRank)
  }

  /** The candidate recommendation of each rank. */
  function RecommendationOrder(coping: seq<string>, activities: seq<string>, triggers: seq<string>): seq<Recommendation> {
    [ProfessionalCheckIn, UsualCopingStrategies(coping), EnjoyedActivities(activities), MindfulOfTriggers(triggers), ContinueCheckIns]
  }

  /** The lines the rules call for, as a set. */
  ghost function RecommendationLines(direction: Direction, coping: seq<string>, activities: seq<string>, triggers: seq<string>)
    : set<Recommendation>
  {
    set r | r in RecommendationOrder(coping, activities, triggers) && IsRecommendationFor(r, direction, coping, activities, triggers)
  }

  lemma RecommendationOrderCanonical(direction: Direction, coping: seq<string>, activities: seq<string>, triggers: seq<string>)
    ensures IsCanonicalOrder(RecommendationOrder(coping, activities, triggers),
                             RecommendationLines(direction, coping, activities, triggers), RecommendationRank)
    ensures forall r :: r in RecommendationLines(direction, coping, activities, triggers) <==>
                        IsRecommendationFor(r, direction, coping, activities, triggers)
  {
  }

  /** The pushes of the recommendation rules, `s1` to `s5` being the list after
      each of them, give exactly the lines the rules call for, in push order. */
  lemma RecommendationPushes(s1: seq<Recommendation>, s2: seq<Recommendation>, s3: seq<Recommendation>,
                             s4: seq<Recommendation>, s5: seq<Recommendation>,
                             direction: Direction, coping: seq<string>, activities: seq<string>, triggers: seq<string>)
    requires s1 == if direction == Declining then [ProfessionalCheckIn] else []
    requires s2 == if direction == Declining && |coping| > 0 then s1 + [UsualCopingStrategies(coping)] else s1
    requires s3 == if |activities| > 0 then s2 + [EnjoyedActivities(activities)] else s2
    requires s4 == if |triggers| > 0 then s3 + [MindfulOfTriggers(triggers)] else s3
    requires s5 == s4 + [ContinueCheckIns]
    ensures IsRecommendationList(s5, direction, coping, activities, triggers)
  {
    var lines := RecommendationLines(direction, coping, activities, triggers);
    var order := RecommendationOrder(coping, activities, triggers);
    RecommendationOrderCanonical(direction, coping, activities, triggers);
    var snap := [[], s1, s2, s3, s4, s5];
    forall j | 0 <= j < 5
      ensures snap[j + 1] == if order[j] in lines then snap[j] + [order[j]] else snap[j]
    {
      if j == 0 {
        assert (order[0] in lines) == (direction == Declining);
      } else if j == 1 {
        assert (order[1] in lines) == (direction == Declining && |coping| > 0);
      } else if j == 2 {
        assert (order[2] in lines) == (|activities| > 0);
      } else if j == 3 {
        assert (order[3] in lines) == (|triggers| > 0);
      } else {
        assert order[4] in lines;
      }
    }
    Stages(snap, 0, order, lines, RecommendationRank);
  }

  /** The recommendation list is determined by the trend and the three rankings. */
  lemma RecommendationListUnique(r1: seq<Recommendation>, r2: seq<Recommendation>, direction: Direction,
                                 coping: seq<string>, activities: seq<string>, triggers: seq<string>)
    requires IsRecommendationList(r1, direction, coping, activities, triggers)
    requires IsRecommendationList(r2, direction, coping, activities, triggers)
    ensures r1 == r2
  {
    StrictlyRankedUnique(r1, r2, RecommendationRank);
  }

  /** The first recommendation, which the check-in banner shows: the professional
      check-in on a declining trend, otherwise the activities, then the triggers,
      then the standing reminder to keep checking in. */
  lemma FirstRecommendation(recs: seq<Recommendation>, direction: Direction,
                            coping: seq<string>, activities: seq<string>, triggers: seq<string>)
    requires IsRecommendationList(recs, direction, coping, activities, triggers)
    ensures |recs| > 0
    ensures recs[0] ==
      if direction == Declining then ProfessionalCheckIn
      else if |activities| > 0 then EnjoyedActivities(activities)
      else if |triggers| > 0 then MindfulOfTriggers(triggers)
      else ContinueCheckIns
  {
    var first :=
      if direction == Declining then ProfessionalCheckIn
      else if |activities| > 0 then EnjoyedActivities(activities)
      else if |triggers| > 0 then MindfulOfTriggers(triggers)
      else ContinueCheckIns;
    assert IsRecommendationFor(first, direction, coping, activities, triggers);
    var k :| 0 <= k < |recs| && recs[k] == first;
    RankedHeadIsLeast(recs, RecommendationRank, k);
    assert recs[0] in recs;
  }

  // The insight lines

  /** The position of each insight line in the order the rules push them. */
  function InsightRank(i: Insight): nat {
    match i
    case TrendingUp => 0
    case TrendingDown => 1
    case RespondsWellTo(_) => 2
    case ConsistentTracking(_) => 3
    case NoDataYet => 4
  }

  /** The insight lines the rules call for; `recordCount` is the number of records in the window. */
  predicate IsInsightFor(i: Insight, direction: Direction, coping: seq<string>, recordCount: nat, days: nat) {
    || (i == TrendingUp && direction == Improving)
    || (i == TrendingDown && direction == Declining)
    || (i == RespondsWellTo(coping) && |coping| > 0)
    || (i == ConsistentTracking(days) && recordCount >= 10)
  }

  /** Exactly the insight lines the rules call for, each once, in push order. */
  ghost predicate IsInsightList(insights: seq<Insight>, direction: Direction, coping: seq<string>,
                                recordCount: nat, days: nat) {
    && (forall i :: i in insights <==> IsInsightFor(i, direction, coping, recordCount, days))
    && StrictlyRanked(insights, InsightRank)
  }

  /** The candidate insight of each rank. */
  function InsightOrder(coping: seq<string>, days: nat): seq<Insight> {
    [TrendingUp, TrendingDown, RespondsWellTo(coping), ConsistentTracking(days)]
  }

  /** The insight lines the rules call for, as a set. */
  ghost function InsightLines(direction: Direction, coping: seq<string>, recordCount: nat, days: nat): set<Insight> {
    set i | i in InsightOrder(coping, days) && IsInsightFor(i, direction, coping, recordCount, days)
  }

  lemma InsightOrderCanonical(direction: Direction, coping: seq<string>, recordCount: nat, days: nat)
    ensures IsCanonicalOrder(InsightOrder(coping, days), InsightLines(direction, coping, recordCount, days), InsightRank)
    ensures forall i :: i in InsightLines(direction, coping, recordCount, days) <==>
                        IsInsightFor(i, direction, coping, recordCount, days)
  {
  }

  /** The pushes of the insight rules, `s1` to `s4` being the list after each
      of them, give exactly the lines the rules call for, in push order. */
  lemma InsightPushes(s1: seq<Insight>, s2: seq<Insight>, s3: seq<Insight>, s4: seq<Insight>,
                      direction: Direction, coping: seq<string>, recordCount: nat, days: nat)
    requires s1 == if direction == Improving then [TrendingUp] else []
    requires s2 == if direction == Declining then s1 + [TrendingDown] else s1
    requires s3 == if |coping| > 0 then s2 + [RespondsWellTo(coping)] else s2
    requires s4 == if recordCount >= 10 then s3 + [ConsistentTracking(days)] else s3
    ensures IsInsightList(s4, direction, coping, recordCount, days)
  {
    var lines := InsightLines(direction, coping, recordCount, days);
    var order := InsightOrder(coping, days);
    InsightOrderCanonical(direction, coping, recordCount, days);
    var snap := [[], s1, s2, s3, s4];
    forall j | 0 <= j < 4
      ensures snap[j + 1] == if order[j] in lines then snap[j] + [order[j]] else snap[j]
    {
      if j == 0 {
        assert (order[0] in lines) == (direction == Improving);
      } else if j == 1 {
        assert (order[1] in lines) == (direction == Declining);
      } else if j == 2 {
        assert (order[2] in lines) == (|coping| > 0);
      } else {
        assert (order[3] in lines) == (recordCount >= 10);
      }
    }
    Stages(snap, 0, order, lines, InsightRank);
  }

  /** The insight list is determined by the trend, the coping ranking and the window. */
  lemma InsightListUnique(i1: seq<Insight>, i2: seq<Insight>, direction: Direction, coping: seq<string>,
                          recordCount: nat, days: nat)
    requires IsInsightList(i1, direction, coping, recordCount, days)
    requires IsInsightList(i2, direction, coping, recordCount, days)
    ensures i1 == i2
  {
    StrictlyRankedUnique(i1, i2, InsightRank);
  }

  /** Every list the recommendation rules allow is the one the pushes build,
      so it has one to five lines and ends with the reminder to keep checking in. */
  lemma RecommendationListBounds(recs: seq<Recommendation>, direction: Direction,
                                 coping: seq<string>, activities: seq<string>, triggers: seq<string>)
    requires IsRecommendationList(recs, direction, coping, activities, triggers)
    ensures 1 <= |recs| <= 5
    ensures recs[|recs| - 1] == ContinueCheckIns
  {
    var s1 := if direction == Declining then [ProfessionalCheckIn] else [];
    var s2 := if direction == Declining && |coping| > 0 then s1 + [UsualCopingStrategies(coping)] else s1;
    var s3 := if |activities| > 0 then s2 + [EnjoyedActivities(activities)] else s2;
    var s4 := if |triggers| > 0 then s3 + [MindfulOfTriggers(triggers)] else s3;
    var s5 := s4 + [ContinueCheckIns];
    RecommendationPushes(s1, s2, s3, s4, s5, direction, coping, activities, triggers);
    RecommendationListUnique(recs, s5, direction, coping, activities, triggers);
  }

  /** What a list the recommendation rules allow shows at a glance: its
      length, its last line, and which optional lines it holds. */
  lemma RecommendationListShape(recs: seq<Recommendation>, direction: Direction,
                                coping: seq<string>, activities: seq<string>, triggers: seq<string>)
    requires IsRecommendationList(recs, direction, coping, activities, triggers)
    ensures 1 <= |recs| <= 5
    ensures recs[|recs| - 1] == ContinueCheckIns
    ensures recs[0] == ProfessionalCheckIn <==> direction == Declining
    ensures UsualCopingStrategies(coping) in recs <==> direction == Declining && |coping| > 0
    ensures EnjoyedActivities(activities) in recs <==> |activities| > 0
    ensures MindfulOfTriggers(triggers) in recs <==> |triggers| > 0
  {
    RecommendationListBounds(recs, direction, coping, activities, triggers);
    FirstRecommendation(recs, direction, coping, activities, triggers);
  }

  /** Every list the insight rules allow has at most three lines: the trend
      goes one way only. */
  lemma InsightListShape(insights: seq<Insight>, direction: Direction, coping: seq<string>,
                         recordCount: nat, days: nat)
    requires IsInsightList(insights, direction, coping, recordCount, days)
    ensures |insights| <= 3
    ensures ConsistentTracking(days) in insights <==> recordCount >= 10
    ensures TrendingUp in insights <==> direction == Improving
    ensures TrendingDown in insights <==> direction == Declining
    ensures RespondsWellTo(coping) in insights <==> |coping| > 0
  {
    var s1 := if direction == Improving then [TrendingUp] else [];
    var s2 := if direction == Declining then s1 + [TrendingDown] else s1;
    var s3 := if |coping| > 0 then s2 + [RespondsWellTo(coping)] else s2;
    var s4 := if recordCount >= 10 then s3 + [ConsistentTracking(days)] else s3;
    InsightPushes(s1, s2, s3, s4, direction, coping, recordCount, days);
    InsightListUnique(insights, s4, direction, coping, recordCount, days);
  }

  // ---------------------------------------------------------------------
  // The analysis
  // ---------------------------------------------------------------------

  /** The recommendation lines, pushed in the source's order. */
  method BuildRecommendations(direction: Direction, coping: seq<string>, activities: seq<string>, triggers: seq<string>)
    returns (recommendations: seq<Recommendation>)
    ensures 1 <= |recommendations| <= 5
    ensures recommendations[|recommendations| - 1] == ContinueCheckIns
    ensures recommendations[0] == ProfessionalCheckIn <==> direction == Declining
    ensures UsualCopingStrategies(coping) in recommendations <==> direction == Declining && |coping| > 0
    ensures EnjoyedActivities(activities) in recommendations <==> |activities| > 0
    ensures MindfulOfTriggers(triggers) in recommendations <==> |triggers| > 0
    ensures IsRecommendationList(recommendations, direction, coping, activities, triggers)
  {
    recommendations := [];
    ghost var afterProfessional := recommendations;
    if direction == Declining {
      recommendations := recommendations + [ProfessionalCheckIn];
      afterProfessional := recommendations;
      if |coping| > 0 {
        recommendations := recommendations + [UsualCopingStrategies(coping)];
      }
    }
    ghost var afterCoping := recommendations;
    if |activities| > 0 {
      recommendations := recommendations + [EnjoyedActivities(activities)];
    }
    ghost var afterActivities := recommendations;
    if |triggers| > 0 {
      recommendations := recommendations + [MindfulOfTriggers(triggers)];
    }
    ghost var afterTriggers := recommendations;
    recommendations := recommendations + [ContinueCheckIns];
    RecommendationPushes(afterProfessional, afterCoping, afterActivities, afterTriggers, recommendations,
                         direction, coping, activities, triggers);
  }

  /** The insight lines, pushed in the source's order; `recordCount` is the
      number of records in the window. */
  method BuildInsights(direction: Direction, coping: seq<string>, recordCount: nat, days: nat)
    returns (insights: seq<Insight>)
    ensures |insights| <= 3
    ensures ConsistentTracking(days) in insights <==> recordCount >= 10
    ensures TrendingUp in insights <==> direction == Improving
    ensures TrendingDown in insights <==> direction == Declining
    ensures RespondsWellTo(coping) in insights <==> |coping| > 0
    ensures IsInsightList(insights, direction, coping, recordCount, days)
  {
    insights := [];
    ghost var afterUp := insights;
    if direction == Improving {
      insights := insights + [TrendingUp];
      afterUp := insights;
    } else if direction == Declining {
      insights := insights + [TrendingDown];
    }
    ghost var afterDown := insights;
    if |coping| > 0 {
      insights := insights + [RespondsWellTo(coping)];
    }
    ghost var afterCoping := insights;
    if recordCount >= 10 {
      insights := insights + [ConsistentTracking(days)];
    }
    InsightPushes(afterUp, afterDown, afterCoping, insights, direction, coping, recordCount, days);
  }

  /** What `analyzeMentalStateHistory` promises about its result for the
      records `states` of a window of `days` days: the no-data analysis for
      an empty window; otherwise the mood and trend computed from the scores,
      frequency rankings of the three columns, the plurality style, and
      exactly the recommendation and insight lines the rules call for. */
  ghost predicate IsAnalysisOf(states: seq<MentalState>, days: nat, a: Analysis) {
    if |states| == 0 then a == NoDataAnalysis
    else
      var patterns := a.commonPatterns;
      && a.overallMood == OverallMood(RecentAverage(Scores(states)))
      && a.moodTrends == MoodTrends(TrendDirection(MoodChange(Scores(states))), Confidence(MoodChange(Scores(states))))
      && IsFrequencyRanking(Flatten(states, PreferredActivities), patterns.preferredActivities)
      && IsFrequencyRanking(Flatten(states, CopingMechanisms), patterns.effectiveCoping)
      && IsFrequencyRanking(Flatten(states, Triggers), patterns.frequentTriggers)
      && IsPluralityStyle(CommunicationStyles(states), patterns.communicationPrefs)
      && IsRecommendationList(a.recommendations, a.moodTrends.direction,
                              patterns.effectiveCoping, patterns.preferredActivities, patterns.frequentTriggers)
      && IsInsightList(a.insights, a.moodTrends.direction, patterns.effectiveCoping, |states|, days)
  }

  /** Once the rankings are fixed (ties among equally frequent entries are
      the only freedom), the analysis of a window is determined. */
  lemma AnalysisDeterminedByPatterns(states: seq<MentalState>, days: nat, a: Analysis, b: Analysis)
    requires IsAnalysisOf(states, days, a) && IsAnalysisOf(states, days, b)
    requires a.commonPatterns == b.commonPatterns
    ensures a == b
  {
    if |states| > 0 {
      var p := a.commonPatterns;
      RecommendationListUnique(a.recommendations, b.recommendations, a.moodTrends.direction,
                               p.effectiveCoping, p.preferredActivities, p.frequentTriggers);
      InsightListUnique(a.insights, b.insights, a.moodTrends.direction, p.effectiveCoping, |states|, days);
    }
  }

  /** What every analysis of a window shows of the mood and the patterns:
      the summary of the recent scores, a confidence within 0 to 80, and
      the rankings of the flattened lists. */
  lemma AnalysisSummary(states: seq<MentalState>, days: nat, a: Analysis)
    requires IsAnalysisOf(states, days, a)
    ensures |states| == 0 ==> a == NoDataAnalysis
    ensures |states| > 0 ==>
      && a.overallMood == OverallMood(RecentAverage(Scores(states)))
      && a.moodTrends.direction == TrendDirection(MoodChange(Scores(states)))
      && a.moodTrends.confidence == Confidence(MoodChange(Scores(states)))
    ensures 0.0 <= a.moodTrends.confidence <= 80.0
    ensures IsFrequencyRanking(Flatten(states, PreferredActivities), a.commonPatterns.preferredActivities)
    ensures IsFrequencyRanking(Flatten(states, CopingMechanisms), a.commonPatterns.effectiveCoping)
    ensures IsFrequencyRanking(Flatten(states, Triggers), a.commonPatterns.frequentTriggers)
    ensures IsPluralityStyle(CommunicationStyles(states), a.commonPatterns.communicationPrefs)
  {
    if |states| == 0 {
      assert Flatten(states, PreferredActivities) == [];
      assert Flatten(states, CopingMechanisms) == [];
      assert Flatten(states, Triggers) == [];
      assert CommunicationStyles(states) == [];
    } else {
      ConfidenceAtMost80(Scores(states));
    }
  }

  /** The recommendations of every analysis: one to five lines, the reminder
      to keep checking in last whenever there are records, the professional
      check-in first exactly on a declining trend, and each optional line
      exactly when its pattern is there. */
  lemma AnalysisRecommendations(states: seq<MentalState>, days: nat, a: Analysis)
    requires IsAnalysisOf(states, days, a)
    ensures 1 <= |a.recommendations| <= 5
    ensures |states| > 0 ==> a.recommendations[|a.recommendations| - 1] == ContinueCheckIns
    ensures a.recommendations[0] == ProfessionalCheckIn <==> a.moodTrends.direction == Declining
    ensures UsualCopingStrategies(a.commonPatterns.effectiveCoping) in a.recommendations <==>
      a.moodTrends.direction == Declining && |a.commonPatterns.effectiveCoping| > 0
    ensures EnjoyedActivities(a.commonPatterns.preferredActivities) in a.recommendations <==>
      |a.commonPatterns.preferredActivities| > 0
    ensures MindfulOfTriggers(a.commonPatterns.frequentTriggers) in a.recommendations <==>
      |a.commonPatterns.frequentTriggers| > 0
  {
    if |states| > 0 {
      var p := a.commonPatterns;
      RecommendationListShape(a.recommendations, a.moodTrends.direction,
                              p.effectiveCoping, p.preferredActivities, p.frequentTriggers);
    }
  }

  /** The insights of every analysis: at most three lines, each exactly when
      the trend, the coping mechanisms or the number of records call for it. */
  lemma AnalysisInsights(states: seq<MentalState>, days: nat, a: Analysis)
    requires IsAnalysisOf(states, days, a)
    ensures |a.insights| <= 3
    ensures ConsistentTracking(days) in a.insights <==> |states| >= 10
    ensures TrendingUp in a.insights <==> a.moodTrends.direction == Improving
    ensures TrendingDown in a.insights <==> a.moodTrends.direction == Declining
    ensures RespondsWellTo(a.commonPatterns.effectiveCoping) in a.insights <==> |a.commonPatterns.effectiveCoping| > 0
  {
    if |states| > 0 {
      InsightListShape(a.insights, a.moodTrends.direction, a.commonPatterns.effectiveCoping, |states|, days);
    }
  }

  /** `analyzeMentalStateHistory` after the fetch: `states` are the records of
      the window in ascending time order. */
  method AnalyzeMentalStateHistory(states: seq<MentalState>, days: nat) returns (a: Analysis)
    ensures |states| == 0 ==> a == NoDataAnalysis
    ensures |states| > 0 ==>
      && a.overallMood == OverallMood(RecentAverage(Scores(states)))
      && a.moodTrends.direction == TrendDirection(MoodChange(Scores(states)))
      && a.moodTrends.confidence == Confidence(MoodChange(Scores(states)))
    ensures 0.0 <= a.moodTrends.confidence <= 80.0
    ensures IsFrequencyRanking(Flatten(states, PreferredActivities), a.commonPatterns.preferredActivities)
    ensures IsFrequencyRanking(Flatten(states, CopingMechanisms), a.commonPatterns.effectiveCoping)
    ensures IsFrequencyRanking(Flatten(states, Triggers), a.commonPatterns.frequentTriggers)
    ensures IsPluralityStyle(CommunicationStyles(states), a.commonPatterns.communicationPrefs)
    ensures 1 <= |a.recommendations| <= 5
    ensures |states| > 0 ==> a.recommendations[|a.recommendations| - 1] == ContinueCheckIns
    ensures a.recommendations[0] == ProfessionalCheckIn <==> a.moodTrends.direction == Declining
    ensures UsualCopingStrategies(a.commonPatterns.effectiveCoping) in a.recommendations <==>
      a.moodTrends.direction == Declining && |a.commonPatterns.effectiveCoping| > 0
    ensures EnjoyedActivities(a.commonPatterns.preferredActivities) in a.recommendations <==>
      |a.commonPatterns.preferredActivities| > 0
    ensures MindfulOfTriggers(a.commonPatterns.frequentTriggers) in a.recommendations <==>
      |a.commonPatterns.frequentTriggers| > 0
    ensures |a.insights| <= 3
    ensures ConsistentTracking(days) in a.insights <==> |states| >= 10
    ensures TrendingUp in a.insights <==> a.moodTrends.direction == Improving
    ensures TrendingDown in a.insights <==> a.moodTrends.direction == Declining
    ensures RespondsWellTo(a.commonPatterns.effectiveCoping) in a.insights <==> |a.commonPatterns.effectiveCoping| > 0
    ensures IsAnalysisOf(states, days, a)
  {
    if |states| == 0 {
      a := NoDataAnalysis;
    } else {
      var scores := Scores(states);
      var change := MoodChange(scores);
      var direction := TrendDirection(change);

      var preferredActivities := FrequencyCount(Flatten(states, PreferredActivities));
      var effectiveCoping := FrequencyCount(Flatten(states, CopingMechanisms));
      var frequentTriggers := FrequencyCount(Flatten(states, Triggers));
      var communicationPrefs := CommunicationPrefs(CommunicationStyles(states));

      var overallMood := OverallMood(RecentAverage(scores));

      var recommendations := BuildRecommendations(direction, effectiveCoping, preferredActivities, frequentTriggers);
      var insights := BuildInsights(direction, effectiveCoping, |states|, days);

      a := Analysis(
        overallMood,
        MoodTrends(direction, Confidence(change)),
        CommonPatterns(preferredActivities, effectiveCoping, frequentTriggers, communicationPrefs),
        recommendations,
        insights);
    }
    AnalysisSummary(states, days, a);
    AnalysisRecommendations(states, days, a);
    AnalysisInsights(states, days, a);
  }

  /** The banner's coping entry: a most frequent coping mechanism of the
      records, or None when there is none or the most frequent one is "". */
  ghost predicate IsPreferredCoping(coping: seq<string>, preferred: Option<string>) {
    if preferred.Some? then
      && preferred.value != ""
      && preferred.value in coping
      && forall x :: x in coping ==> Occurrences(coping, x) <= Occurrences(coping, preferred.value)
    else
      coping == [] || forall x :: x in coping ==> Occurrences(coping, x) <= Occurrences(coping, "")
  }

  /** The head of a frequency ranking, unless it is "", is the preferred coping mechanism. */
  lemma RankingHeadIsPreferredCoping(coping: seq<string>, top: seq<string>)
    requires IsFrequencyRanking(coping, top)
    ensures IsPreferredCoping(coping, if |top| > 0 && top[0] != "" then Some(top[0]) else None)
  {
    RankingHeadIsMostFrequent(coping, top);
  }

  /** No recommendation line is empty, so the banner's fallback suggestion
      is never used for a fetched window. */
  lemma RecommendationTextNonEmpty(rec: Recommendation)
    ensures rec.Text() != ""
  {
    match rec
    case StartChatting => StartChattingNonEmpty();
    case ProfessionalCheckIn => ProfessionalCheckInNonEmpty();
    case ContinueCheckIns => ContinueCheckInsNonEmpty();
    case _ =>
  }

  lemma StartChattingNonEmpty()
    ensures StartChatting.Text() != ""
  {
  }

  lemma ProfessionalCheckInNonEmpty()
    ensures ProfessionalCheckIn.Text() != ""
  {
  }

  lemma ContinueCheckInsNonEmpty()
    ensures ContinueCheckIns.Text() != ""
  {
  }

  /** `getMoodInsightsForCheckIn`: the 7-day analysis condensed for the banner.
      `fetched` is None when the records could not be fetched; the analysis
      then throws and the fixed fallback is returned. */
  method MoodInsightsForCheckIn(fetched: Option<seq<MentalState>>) returns (r: CheckInInsights)
    ensures fetched.None? ==> r == FallbackCheckIn
    ensures fetched.Some? && |fetched.value| == 0 ==>
      r == CheckInInsights(StartChatting.Text(), Stable, None, "neutral")
    ensures fetched.Some? ==>
      exists a :: && IsAnalysisOf(fetched.value, 7, a)
                  && |a.recommendations| > 0
                  && r.suggestion == a.recommendations[0].Text()
                  && r.moodTrend == a.moodTrends.direction
                  && r.preferredCoping == (if |a.commonPatterns.effectiveCoping| > 0 && a.commonPatterns.effectiveCoping[0] != ""
                                           then Some(a.commonPatterns.effectiveCoping[0]) else None)
                  && r.overallState == a.overallMood
    ensures fetched.Some? && |fetched.value| > 0 ==>
      && r.moodTrend == TrendDirection(MoodChange(Scores(fetched.value)))
      && r.overallState == OverallMood(RecentAverage(Scores(fetched.value)))
    ensures fetched.Some? ==> IsPreferredCoping(Flatten(fetched.value, CopingMechanisms), r.preferredCoping)
  {
    if fetched.None? {
      return FallbackCheckIn;
    }
    var analysis := AnalyzeMentalStateHistory(fetched.value, 7);
    var first := analysis.recommendations[0];
    RecommendationTextNonEmpty(first);
    var suggestion := if first.Text() != "" then first.Text() else ReflectToday;
    var coping := analysis.commonPatterns.effectiveCoping;
    var preferred := if |coping| > 0 && coping[0] != "" then Some(coping[0]) else None;
    RankingHeadIsPreferredCoping(Flatten(fetched.value, CopingMechanisms), coping);
    r := CheckInInsights(suggestion, analysis.moodTrends.direction, preferred, analysis.overallMood);
    assert r.suggestion == first.Text();
  }
}
