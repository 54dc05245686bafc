# Emotional Pulse Coach — a Dafny model of its core

Emotional Pulse Coach is a React/TypeScript web app for mental-health
self-care. This project models its core in Dafny 4.11 and proves properties
of that model:

- **Mental-state analyzer** (`mental_state_analyzer.dfy`). From the mood
  records of the last N days it derives:
  - the overall mood, the mood trend and its confidence;
  - the three most frequent activities, coping mechanisms and triggers;
  - the preferred communication style;
  - rule-based recommendations and insights;
  - the condensed check-in banner.
- **Chat bot** (`chat_bot.dfy`). It sends the conversation history to the AI
  completion, and falls back to a keyword-driven reply when the AI fails.
- **Daily routine** (`daily_routine_tracker.dfy`). A day navigator that
  refuses future days, and three per-day trackers kept in in-memory stores:
  - water (`water_tracker.dfy`);
  - sleep (`sleep_tracker.dfy`);
  - meditation (`meditation_tracker.dfy`).
- **Emotion scan** (`emotion_scan.dfy`). Camera and microphone toggles, a
  scan progress that advances 2 % per tick, simulated face and voice
  readings, and their combination.
- **Therapy sessions**:
  - the booking panel with fixed therapists and slots (`sessions_content.dfy`);
  - the booking page that inserts pending session rows (`therapy_booking_page.dfy`);
  - the therapist's dashboard with its summary counts and confirm/cancel
    actions (`therapist_dashboard.dfy`).

`wrappers.dfy` holds the `Option` type that stands in for `null`/`undefined`.

Each component's state is a Dafny `class`. Its fields are the component's
`useState` variables, plus the module-level store where there is one. Its
methods are the event handlers. Each handler states the whole new state in
terms of the old one and keeps a `Valid()` invariant. Rendering decisions,
labels and tables are functions, and what they promise is proved in lemmas.

The analyzer's `frequencyCount` and communication-style vote are loops with
invariants. They are proved against the predicates `IsFrequencyRanking` and
`IsPluralityStyle`.

Whatever comes from outside is a parameter. That covers:
- the database (query results, whether a write succeeded);
- the AI reply;
- the signed-in user;
- the clock;
- camera and microphone permission;
- random draws.

Times are integers in local wall-clock milliseconds, and a calendar day is
86 400 000 of them.

## Model

| member | source | states |
|---|---|---|
| MentalStateAnalyzer.MoodScore | src/utils/mentalStateAnalyzer.ts:47-57 | each mood tag scores in 1..5; any tag outside the six-entry table scores 3 |
| MentalStateAnalyzer.Scores | src/utils/mentalStateAnalyzer.ts:47-57 | one score per record, in order, each the record's mood score and within 1..5 |
| MentalStateAnalyzer.WindowsSplitScores | src/utils/mentalStateAnalyzer.ts:59-60 | the recent window is the last min(7, n) scores and the older window the rest; the older window is empty iff n ≤ 7 |
| MentalStateAnalyzer.AverageInScoreRange | src/utils/mentalStateAnalyzer.ts:62-63 | the average of scores in 1..5 lies in 1..5 |
| MentalStateAnalyzer.MoodChangeBounds | src/utils/mentalStateAnalyzer.ts:59-65 | the recent average lies in 1..5, and the mood change (recent minus older average, the older one defaulting to the recent one) lies in -4..4 |
| MentalStateAnalyzer.ConfidenceAtMost80 | src/utils/mentalStateAnalyzer.ts:65-67 | the confidence, 20 × \|change\| capped at 100, never exceeds 80 |
| MentalStateAnalyzer.ShortHistoryIsStable | src/utils/mentalStateAnalyzer.ts:59-73 | with 1 to 7 records the change is 0, the trend stable and the confidence 0 |
| MentalStateAnalyzer.DirectionThresholds | src/utils/mentalStateAnalyzer.ts:66-73 | improving iff change > 0.3, declining iff change < -0.3, stable iff in between (both directions) |
| MentalStateAnalyzer.ImprovingExample | src/utils/mentalStateAnalyzer.ts:59-73 | three older 3s and seven recent 5s give change 2, confidence 40, improving |
| MentalStateAnalyzer.OverallMood | src/utils/mentalStateAnalyzer.ts:103-105 | "positive" iff the recent average is at least 4, "neutral" iff in [3, 4), "struggling" iff in [2, 3), "needs support" iff below 2 |
| MentalStateAnalyzer.SteadyMoodAssessment | src/utils/mentalStateAnalyzer.ts:47-62 | a window recorded in one mood averages to that mood's score, so the assessment is the band of that score |
| MentalStateAnalyzer.CountItems | src/utils/mentalStateAnalyzer.ts:81-84 | the count dictionary has exactly the input's items as keys, each mapped to its number of occurrences |
| MentalStateAnalyzer.RankByCount | src/utils/mentalStateAnalyzer.ts:85-86 | the keys come out distinct, complete and sorted by non-increasing count |
| MentalStateAnalyzer.FrequencyCount | src/utils/mentalStateAnalyzer.ts:80-89 | at most three distinct input items by non-increasing count; no omitted item is more frequent than a returned one; fewer than three only when every item was returned |
| MentalStateAnalyzer.RankingHeadIsMostFrequent | src/utils/mentalStateAnalyzer.ts:80-89 | a ranking is empty iff its input is, and its first entry has the highest count of all items |
| MentalStateAnalyzer.Flatten | src/utils/mentalStateAnalyzer.ts:76-78 | one `flatMap` for the three list columns (activities, coping mechanisms, triggers): an entry is in the flattened list iff some record lists it in that column |
| MentalStateAnalyzer.CommunicationStyles | src/utils/mentalStateAnalyzer.ts:96 | a style is kept iff it is non-empty and some record has it |
| MentalStateAnalyzer.CommunicationPrefs | src/utils/mentalStateAnalyzer.ts:97-100 | "supportive" with no styles; otherwise a style of highest count, the earliest such one (what the stable descending sort puts first) |
| MentalStateAnalyzer.BuildRecommendations | src/utils/mentalStateAnalyzer.ts:108-125 | 1 to 5 lines ending with the check-in reminder; the professional check-in comes first iff declining; the coping line appears iff declining with coping; the activities and triggers lines appear iff those lists are non-empty; and the list is exactly the lines the rules call for, each once, in push order (`IsRecommendationList`) |
| MentalStateAnalyzer.RecommendationPushes | src/utils/mentalStateAnalyzer.ts:108-125 | the list after the four conditional pushes and the final push holds exactly the lines the rules call for, each once, in push order |
| MentalStateAnalyzer.StrictlyRankedUnique | src/utils/mentalStateAnalyzer.ts:108-142 | two lists with the same members, each in strictly increasing push position, are the same list |
| MentalStateAnalyzer.RecommendationListUnique | src/utils/mentalStateAnalyzer.ts:108-125 | the rules and the push order pin the recommendation list down completely |
| MentalStateAnalyzer.FirstRecommendation | src/utils/mentalStateAnalyzer.ts:108-125 | the first line is the professional check-in when declining, else the activities line if there are activities, else the triggers line if there are triggers, else the check-in reminder |
| MentalStateAnalyzer.RecommendationListBounds | src/utils/mentalStateAnalyzer.ts:108-125 | any list meeting the rules has 1 to 5 lines and ends with the check-in reminder |
| MentalStateAnalyzer.RecommendationListShape | src/utils/mentalStateAnalyzer.ts:108-125 | any list meeting the rules: 1 to 5 lines, the reminder last, the professional check-in first iff declining, each optional line iff its condition holds |
| MentalStateAnalyzer.BuildInsights | src/utils/mentalStateAnalyzer.ts:128-142 | at most 3 lines; the upward line iff improving, the downward line iff declining, the coping line iff there is coping, the consistency line (with the day count) iff there are at least 10 records; and the list is exactly those lines, each once, in push order (`IsInsightList`) |
| MentalStateAnalyzer.InsightPushes | src/utils/mentalStateAnalyzer.ts:128-142 | the list after the trend push, the coping push and the consistency push holds exactly the lines the rules call for, each once, in push order |
| MentalStateAnalyzer.InsightListUnique | src/utils/mentalStateAnalyzer.ts:128-142 | the rules and the push order pin the insight list down completely |
| MentalStateAnalyzer.InsightListShape | src/utils/mentalStateAnalyzer.ts:128-142 | any list meeting the rules has at most 3 lines, and each line appears iff its condition holds |
| MentalStateAnalyzer.AnalyzeMentalStateHistory | src/utils/mentalStateAnalyzer.ts:31-155 | the no-data default for an empty window; otherwise overall mood, direction and confidence from the recent and older averages, confidence within 0..80; the three rankings and the style vote as above; the recommendation and insight rules as above; and the result meets `IsAnalysisOf`, which fixes every field from the window except the order of equally frequent entries |
| MentalStateAnalyzer.AnalysisSummary | src/utils/mentalStateAnalyzer.ts:31-105 | any analysis of a window: the no-data default when empty, else the overall mood, trend and confidence of the scores, a confidence within 0..80, the three rankings and the style vote |
| MentalStateAnalyzer.AnalysisRecommendations | src/utils/mentalStateAnalyzer.ts:108-125 | any analysis of a window: 1 to 5 recommendations, the reminder last when there are records, the professional check-in first iff declining, each optional line iff its pattern is there |
| MentalStateAnalyzer.AnalysisInsights | src/utils/mentalStateAnalyzer.ts:128-142 | any analysis of a window: at most 3 insights, each iff its condition holds |
| MentalStateAnalyzer.AnalysisDeterminedByPatterns | src/utils/mentalStateAnalyzer.ts:31-155 | two analyses of the same window with the same rankings are equal: the rankings' tie order is the only freedom |
| MentalStateAnalyzer.MoodInsightsForCheckIn | src/utils/mentalStateAnalyzer.ts:163-181 | the fixed fallback when the analysis fails; the start-chatting banner for no records; otherwise there is an analysis of the fetched records (`IsAnalysisOf`) whose first recommendation is the suggestion, whose trend and overall mood are shown, and whose coping ranking's head (or null when absent or "") is the preferred coping; that coping entry is a most frequent coping mechanism of the records |
| MentalStateAnalyzer.RecommendationTextNonEmpty | src/utils/mentalStateAnalyzer.ts:168 | no recommendation line is empty, so the fallback suggestion never replaces a fetched analysis's first recommendation |
| MentalStateAnalyzer.RankingHeadIsPreferredCoping | src/utils/mentalStateAnalyzer.ts:170 | the head of the coping ranking, unless it is "", is a most frequent coping mechanism of the records; with no head or an empty one the banner shows null |
| ChatBot.FirstMentioned | src/components/ChatBot.tsx:100-121 | the first-match scan returns a topic of the list that the text mentions, or the default |
| ChatBot.ChainTestsAreMentions | src/components/ChatBot.tsx:103-118 | each test of the if/else chain is "the text contains one of this topic's keywords" |
| ChatBot.ChainIsFirstMentioned | src/components/ChatBot.tsx:103-121 | on any lower-cased text, the six tests of the chain pick the same topic as the first-match scan of the keyword table |
| ChatBot.FallbackIsFirstMentioned | src/components/ChatBot.tsx:100-121 | the fallback chain equals the first-match scan of the keyword table in the order down, anxious, positive, frustrated, tired, greeting |
| ChatBot.FirstMentionedAt | src/components/ChatBot.tsx:103-121 | over distinct topics, the scan returns topic i iff it is mentioned and no earlier topic is |
| ChatBot.FirstMentionedNone | src/components/ChatBot.tsx:119-121 | the scan returns the default iff no topic of the list is mentioned |
| ChatBot.FallbackPrecedence | src/components/ChatBot.tsx:103-118 | first match wins: the reply is topic i iff the lower-cased input mentions it and none before it |
| ChatBot.FallbackDefaultIff | src/components/ChatBot.tsx:119-121 | the generic reply is given iff no keyword of any topic occurs |
| ChatBot.SadAndAnxiousIsDown | src/components/ChatBot.tsx:103-106 | "I feel sad and anxious" gets the feeling-down reply |
| ChatBot.GreetingInsideWord | src/components/ChatBot.tsx:113-118 | "this" gets the greeting reply, since "hi" is matched inside words |
| ChatBot.Absent | src/components/ChatBot.tsx:103 | `includes` is false when a character of the pattern is missing at every offset |
| ChatBot.ChatMessages | src/components/ChatBot.tsx:74-77 | one entry per message, in order: the user's own messages become user entries, all others assistant entries, with the text unchanged |
| ChatBot.ConversationHistory | src/components/ChatBot.tsx:72-79 | the system prompt first, then the earlier messages mapped as above, then the new input as a user entry |
| ChatBot.HistoryRecoversMessages | src/components/ChatBot.tsx:72-79 | every earlier message can be read back from its history entry |
| ChatBot.ChatBot.constructor | src/components/ChatBot.tsx:19-26 | the chat opens with the coach's greeting, an empty input and no typing indicator |
| ChatBot.ChatBot.SetInput | src/components/ChatBot.tsx:252 | the input box holds what was typed; nothing else changes |
| ChatBot.ChatBot.HandleSendMessage | src/components/ChatBot.tsx:55-134 | a blank input sends nothing and changes nothing; otherwise it sends the history and appends the user's message and then the AI reply (or the fallback reply when the AI fails), clearing the input and the typing indicator |
| WaterTracker.Incremented | src/components/WaterTracker.tsx:43-47 | one more glass iff below 8 × 1.5; counts in 0..12 stay in 0..12 |
| WaterTracker.Decremented | src/components/WaterTracker.tsx:49-53 | one glass fewer iff above zero; counts in 0..12 stay in 0..12 |
| WaterTracker.DecrementUndoesIncrement | src/components/WaterTracker.tsx:43-53 | below the cap, minus undoes plus |
| WaterTracker.IncrementsStopAtCap | src/components/WaterTracker.tsx:43-47 | n presses from zero give min(n, 12) glasses |
| WaterTracker.BarValue | src/components/WaterTracker.tsx:55-70 | the bar shows 12.5 % per glass, capped at 100, full iff at least 8 glasses |
| WaterTracker.Round | src/components/WaterTracker.tsx:76 | `Math.round` gives the integer within half of its argument |
| WaterTracker.RoundUnique | src/components/WaterTracker.tsx:76 | that integer is unique |
| WaterTracker.StatusLineMeaning | src/components/WaterTracker.tsx:74-76 | "Target reached" iff at least 8 glasses; below that the percentage is 12.5 per glass rounded half up |
| WaterTracker.ExtraGlasses | src/components/WaterTracker.tsx:78-82 | the "+N extra glasses" note shows iff more than 8 glasses, with N the glasses over 8 |
| WaterTracker.VolumeMl | src/components/WaterTracker.tsx:66 | the millilitres reach the 2000 ml target iff at least 8 glasses |
| WaterTracker.GlassIcons | src/components/WaterTracker.tsx:96 | at most 8 icons, one per glass up to 8, and exactly 8 from 8 glasses on |
| WaterTracker.NoWaterYet | src/components/WaterTracker.tsx:106-108 | the "No water yet" note shows for a count of zero; its meaning is stated by `NoWaterYetReplacesIcons` |
| WaterTracker.NoWaterYetReplacesIcons | src/components/WaterTracker.tsx:96-108 | for any count from 0 up, "No water yet" shows exactly when no glass icon is drawn and no millilitres are drunk |
| WaterTracker.ButtonsMatchGuards | src/components/WaterTracker.tsx:86-118 | each button is disabled exactly when its handler would change nothing |
| WaterTracker.Load | src/components/WaterTracker.tsx:26-35 | a saved day loads its count as saved; an unsaved day loads 0 as not saved |
| WaterTracker.LoadAfterSave | src/components/WaterTracker.tsx:26-41 | saving and reloading a day gives the saved count, marked saved |
| WaterTracker.SaveKeepsOtherDays | src/components/WaterTracker.tsx:37-41 | saving one day leaves what other days load unchanged |
| WaterTracker.SaveLabel | src/components/WaterTracker.tsx:128-132 | "Update Water Intake" iff the day is saved, "Save Water Intake" otherwise |
| WaterTracker.SaveLabelMatchesStore | src/components/WaterTracker.tsx:128-132 | a loaded day offers an update iff it is in the store, and always after a save |
| WaterTracker.WaterTracker.constructor | src/components/WaterTracker.tsx:20-35 | mounting loads the day from the store |
| WaterTracker.WaterTracker.ChangeDate | src/components/WaterTracker.tsx:26-35 | a date change loads that day; the store is untouched |
| WaterTracker.WaterTracker.Save | src/components/WaterTracker.tsx:37-41 | the store maps the day to the current count, and the day is marked saved |
| WaterTracker.WaterTracker.Increment | src/components/WaterTracker.tsx:43-47 | the count steps as `Incremented`, and counts stay within 0..12 |
| WaterTracker.WaterTracker.Decrement | src/components/WaterTracker.tsx:49-53 | the count steps as `Decremented`, and counts stay within 0..12 |
| SleepTracker.QualityLabel | src/components/SleepTracker.tsx:43-52 | each rating 1..5 reads as its caption under the slider; any other rating reads "Good" |
| SleepTracker.QualityLabelsDistinct | src/components/SleepTracker.tsx:43-52 | different ratings on the slider read differently |
| SleepTracker.HoursNote | src/components/SleepTracker.tsx:59 | "Below recommended" iff under 7 hours, "Recommended" iff 7 or more |
| SleepTracker.Load | src/components/SleepTracker.tsx:24-35 | an unsaved day loads 7 h and quality 3 as not saved |
| SleepTracker.DefaultsAreOnScale | src/components/SleepTracker.tsx:19-20 | the defaults are slider positions, read "Recommended" and "Good" |
| SleepTracker.LoadAfterSave | src/components/SleepTracker.tsx:24-41 | saving and reloading a day gives the saved entry, marked saved |
| SleepTracker.SaveKeepsOtherDays | src/components/SleepTracker.tsx:37-41 | saving one day leaves what other days load unchanged |
| SleepTracker.SaveLabel | src/components/SleepTracker.tsx:106-110 | "Update Sleep Data" iff the day is saved, "Save Sleep Data" otherwise |
| SleepTracker.SaveLabelMatchesStore | src/components/SleepTracker.tsx:106-110 | a loaded day offers an update iff it is in the store, and always after a save |
| SleepTracker.SleepTracker.constructor | src/components/SleepTracker.tsx:17-35 | mounting loads the day from the store |
| SleepTracker.SleepTracker.ChangeDate | src/components/SleepTracker.tsx:24-35 | a date change loads that day; the store is untouched |
| SleepTracker.SleepTracker.SetHours | src/components/SleepTracker.tsx:61-68 | the hours take a slider position (0..12 in half hours); nothing else changes |
| SleepTracker.SleepTracker.SetQuality | src/components/SleepTracker.tsx:82-89 | the quality takes a slider position (1..5); nothing else changes |
| SleepTracker.SleepTracker.Save | src/components/SleepTracker.tsx:37-41 | the store maps the day to the current hours and quality, and the day is marked saved |
| MeditationTracker.Saved | src/components/MeditationTracker.tsx:41-46 | the saved entry is completed with the current minutes, and keeps the reminder time iff the reminder is on |
| MeditationTracker.FromEntry | src/components/MeditationTracker.tsx:29-31 | loading keeps the minutes, reads a missing time as "", and turns the reminder on iff a non-empty time was stored |
| MeditationTracker.Load | src/components/MeditationTracker.tsx:26-39 | an unsaved day loads 10 minutes and no reminder, as not saved |
| MeditationTracker.SaveLoadRoundTrip | src/components/MeditationTracker.tsx:26-46 | save then reload keeps the minutes; the reminder comes back on iff it was on with a time, and its time comes back only if it was on |
| MeditationTracker.EmptyReminderReloadsOff | src/components/MeditationTracker.tsx:26-46 | a reminder switched on with no time is saved as "" and reloads switched off |
| MeditationTracker.ResaveIsStable | src/components/MeditationTracker.tsx:26-46 | saving a freshly loaded day changes nothing a later load sees |
| MeditationTracker.SaveKeepsOtherDays | src/components/MeditationTracker.tsx:41-46 | saving one day leaves what other days load unchanged |
| MeditationTracker.DurationOf | src/components/MeditationTracker.tsx:62-67 | quick iff < 5 minutes, short iff 5..14, medium iff 15..29, long iff ≥ 30 |
| MeditationTracker.DurationMonotonic | src/components/MeditationTracker.tsx:62-67 | more minutes never get a shorter label |
| MeditationTracker.DefaultIsShort | src/components/MeditationTracker.tsx:20-67 | the default 10 minutes is a slider position, labelled short |
| MeditationTracker.ReminderButtonLabel | src/components/MeditationTracker.tsx:105 | "Remove Reminder" iff the reminder is on, "Add Reminder" otherwise |
| MeditationTracker.SaveLabel | src/components/MeditationTracker.tsx:132-136 | "Update Meditation Data" iff the day is saved, "Save Meditation Data" otherwise |
| MeditationTracker.LabelsAfterReload | src/components/MeditationTracker.tsx:100-136 | a day never saved offers a save and a new reminder; after save and reload it offers an update, and removal of the reminder iff it was on with a time |
| MeditationTracker.MeditationTracker.constructor | src/components/MeditationTracker.tsx:18-39 | mounting loads the day from the store |
| MeditationTracker.MeditationTracker.ChangeDate | src/components/MeditationTracker.tsx:26-39 | a date change loads that day; the store is untouched |
| MeditationTracker.MeditationTracker.SetMinutes | src/components/MeditationTracker.tsx:76-83 | the minutes take a slider position (1..60); nothing else changes |
| MeditationTracker.MeditationTracker.SetReminderTime | src/components/MeditationTracker.tsx:109-118 | while the reminder is on (the only time the input is shown), the reminder time takes the input's value; nothing else changes |
| MeditationTracker.MeditationTracker.ToggleReminder | src/components/MeditationTracker.tsx:58-60 | the reminder flag flips, so the button label changes, and the typed time is kept |
| MeditationTracker.MeditationTracker.Save | src/components/MeditationTracker.tsx:41-56 | the store maps the day to the saved entry, and the day is marked saved; the reminder notice is given iff the reminder is on with a time |
| EmotionScan.TablesDistinguishEmotions | src/components/EmotionScan.tsx:132-153 | colours and the emoji strings, taken as the page holds them (mis-encoded Latin text), are one-to-one with emotions; only neutral is grey |
| EmotionScan.Simulate | src/components/EmotionScan.tsx:27-48 | a simulated reading is one of the six emotions, with the confidence 0.5 + 0.5·draw rounded to hundredths, within 0.50..1.00 |
| EmotionScan.CombinedEmotion | src/components/EmotionScan.tsx:156-161 | none until both readings exist; then the more confident reading, the voice one on a tie |
| EmotionScan.NextProgress | src/components/EmotionScan.tsx:106-118 | a tick adds 2 and stops at 100 |
| EmotionScan.ScanTakesFiftyTicks | src/components/EmotionScan.tsx:104-120 | after k ≤ 50 ticks the progress is 2k, and it reaches 100 exactly on the 50th |
| EmotionScan.EmotionScan.constructor | src/components/EmotionScan.tsx:18-24 | devices off, no scan, no readings, progress 0 |
| EmotionScan.EmotionScan.ToggleCamera | src/components/EmotionScan.tsx:51-74 | switching off always works; switching on needs the permission and a mounted video element; the alert shows iff permission is refused |
| EmotionScan.EmotionScan.ToggleMic | src/components/EmotionScan.tsx:77-89 | switching off always works; switching on needs the permission; the alert shows iff it is refused |
| EmotionScan.EmotionScan.StartScan | src/components/EmotionScan.tsx:92-102 | without both devices: an alert and no change; otherwise a fresh scan from 0 with readings cleared; the alert shows exactly when the start button would be disabled |
| EmotionScan.EmotionScan.StartEnabled | src/components/EmotionScan.tsx:337 | the start button is enabled iff no scan runs and both devices are on; `StartScan` alerts exactly when it is not |
| EmotionScan.EmotionScan.Tick | src/components/EmotionScan.tsx:105-120 | progress advances as `NextProgress`; on reaching 100 the scan stops, completes and holds both readings |
| EmotionScan.EmotionScan.ResetScan | src/components/EmotionScan.tsx:124-129 | back to an unfinished scan with no readings at 0; the devices are kept |
| EmotionScan.EmotionScan.OverlaysExclusive | src/components/EmotionScan.tsx:191-239 | the camera prompt, progress ring and results never show together, and results always come with a combined emotion |
| DailyRoutineTracker.NextDay | src/components/DailyRoutineTracker.tsx:22-29 | moves one day forward iff that moment is not after now |
| DailyRoutineTracker.NextDisabled | src/components/DailyRoutineTracker.tsx:58 | the forward button is disabled iff the shown day is today; `DisabledMeansRefused` and `EnabledButRefused` relate it to the step |
| DailyRoutineTracker.DisabledMeansRefused | src/components/DailyRoutineTracker.tsx:22-58 | while the forward button is disabled (the shown day is today) the step is refused too |
| DailyRoutineTracker.PreviousThenNext | src/components/DailyRoutineTracker.tsx:18-29 | stepping back then forward returns to the same moment |
| DailyRoutineTracker.EnabledButRefused | src/components/DailyRoutineTracker.tsx:22-58 | on a page left open past midnight, back then forward shows yesterday with the forward button enabled, yet the next forward press is refused |
| DailyRoutineTracker.NextCalendarDay | src/components/DailyRoutineTracker.tsx:22-29 | the corrected step moves exactly one day forward |
| DailyRoutineTracker.CalendarStepMatchesButton | src/components/DailyRoutineTracker.tsx:22-58 | with the calendar-day comparison, the step succeeds iff the button is enabled, and never goes past today |
| DailyRoutineTracker.DayOfShift | src/components/DailyRoutineTracker.tsx:23 | adding a day moves to the next calendar day |
| DailyRoutineTracker.DayNavigator.constructor | src/components/DailyRoutineTracker.tsx:15 | the navigator starts on the present moment |
| DailyRoutineTracker.DayNavigator.GoToPreviousDay | src/components/DailyRoutineTracker.tsx:18-20 | one day back, unconditionally |
| DailyRoutineTracker.DayNavigator.GoToNextDay | src/components/DailyRoutineTracker.tsx:22-29 | moves as `NextDay`, with the future-date notice iff refused |
| TherapistDashboard.StatusColor | src/pages/TherapistDashboard.tsx:91-99 | one colour per known status (both directions), grey iff the status is unknown |
| TherapistDashboard.Where | src/pages/TherapistDashboard.tsx:101-103 | the filter keeps exactly the sessions passing the test, never more than the input, each passing session as often as it occurs and no other |
| TherapistDashboard.WhereAppend | src/pages/TherapistDashboard.tsx:101-103 | filtering a concatenation is the concatenation of the filtered parts, so the filter keeps the input's order |
| TherapistDashboard.StatusCardsBounded | src/pages/TherapistDashboard.tsx:101-103 | pending + upcoming + completed never exceed the number of sessions |
| TherapistDashboard.PatientIds | src/pages/TherapistDashboard.tsx:171 | a patient is counted iff some session belongs to them |
| TherapistDashboard.PatientCountBounded | src/pages/TherapistDashboard.tsx:171 | the patient count is at most the session count, and 0 iff there are no sessions |
| TherapistDashboard.WithStatus | src/pages/TherapistDashboard.tsx:73-75 | same length; each session with the id takes the new status, every other session is unchanged |
| TherapistDashboard.UpdateShrinksPending | src/pages/TherapistDashboard.tsx:64-103 | confirming or cancelling removes exactly the pending sessions with that id from the pending count |
| TherapistDashboard.WithStatusIdempotent | src/pages/TherapistDashboard.tsx:73-75 | applying an update twice equals applying it once |
| TherapistDashboard.WithStatusKeepsPatients | src/pages/TherapistDashboard.tsx:73-75 | an update leaves the set of patients unchanged |
| TherapistDashboard.TherapistDashboard.constructor | src/pages/TherapistDashboard.tsx:27-28 | no sessions, loading |
| TherapistDashboard.TherapistDashboard.FetchSessions | src/pages/TherapistDashboard.tsx:36-62 | on success the list is the data (or [] for null), on failure it is kept; loading ends either way |
| TherapistDashboard.TherapistDashboard.UpdateSessionStatus | src/pages/TherapistDashboard.tsx:64-89 | the local list is updated as `WithStatus` only when the database accepted the change |
| SessionsContent.DoctorsWellFormed | src/components/SessionsContent.tsx:30-55 | the three therapists have distinct ids and three non-empty slots each |
| SessionsContent.SelectableDays | src/components/SessionsContent.tsx:95 | a day's cell is selectable iff it is one of the next 30 days, or today at the very stroke of midnight |
| SessionsContent.InitialDateAllowed | src/components/SessionsContent.tsx:58-95 | the initially selected moment passes the calendar's test |
| SessionsContent.BookingOutcome | src/components/SessionsContent.tsx:68-84 | a booking is made iff a date, a therapist and a non-empty slot are chosen, and it names them |
| SessionsContent.BookButtonIgnoresDate | src/components/SessionsContent.tsx:68-76 | the handler books iff the Book button (line 189) is enabled and a date is chosen; with the day deselected the button stays enabled yet nothing is booked |
| SessionsContent.HighlightIsSelection | src/components/SessionsContent.tsx:168-174 | a slot is highlighted iff it is the chosen therapist's chosen time |
| SessionsContent.SessionsContent.constructor | src/components/SessionsContent.tsx:57-66 | the present moment is selected, with no therapist, no slot and video as the type |
| SessionsContent.SessionsContent.SelectDate | src/components/SessionsContent.tsx:91-95 | the date becomes the picked enabled day, or none; nothing else changes |
| SessionsContent.SessionsContent.SelectSessionType | src/components/SessionsContent.tsx:101-131 | the type becomes video or in-person; nothing else changes |
| SessionsContent.SessionsContent.SelectSlot | src/components/SessionsContent.tsx:171-174 | the therapist and the time are chosen together, so the time is always one of that therapist's slots |
| SessionsContent.SessionsContent.HandleBookSession | src/components/SessionsContent.tsx:68-84 | returns `BookingOutcome`; on success only the slot is cleared, on refusal nothing changes |
| TherapyBookingPage.SessionDateTime | src/pages/TherapyBookingPage.tsx:65 | the stamp is the date, a "T", then the time |
| TherapyBookingPage.SessionDateTimeSplits | src/pages/TherapyBookingPage.tsx:65-103 | for a slot time, the date and the time can be read back from the stamp |
| TherapyBookingPage.TherapyBookingPage.constructor | src/pages/TherapyBookingPage.tsx:21-28 | no therapists loaded, nothing chosen, video as the type, nothing inserted |
| TherapyBookingPage.TherapyBookingPage.FetchTherapists | src/pages/TherapyBookingPage.tsx:34-51 | on success the list is the data (or [] for null), on failure it is kept |
| TherapyBookingPage.TherapyBookingPage.SelectTherapist | src/pages/TherapyBookingPage.tsx:145 | the therapist's id becomes the choice; nothing else changes |
| TherapyBookingPage.TherapyBookingPage.SelectSessionType | src/pages/TherapyBookingPage.tsx:190 | the session type becomes the clicked one; nothing else changes |
| TherapyBookingPage.TherapyBookingPage.SelectDate | src/pages/TherapyBookingPage.tsx:213 | the date becomes the input's value; nothing else changes |
| TherapyBookingPage.TherapyBookingPage.SelectTime | src/pages/TherapyBookingPage.tsx:234 | the time becomes one of the eight slots; nothing else changes |
| TherapyBookingPage.TherapyBookingPage.BookSession | src/pages/TherapyBookingPage.tsx:53-98 | "missing information" iff the summary is not shown or nobody is signed in; a booking inserts exactly one pending row (user, therapist, date + "T" + time, type) and clears the choices; a failed insert changes nothing; loading is off afterwards |

## Left out

- Database queries, the AI completion service, the Supabase edge function,
  the API-key store, toasts, alerts, console logging, animations and
  scrolling. Query results and write outcomes are parameters.
- Date formatting. Store keys are taken as already-formatted strings. The
  day navigator works on local wall-clock milliseconds and ignores time
  zones and daylight-saving days.
- `toISOString` in the booking page. The session start is kept as the local
  date-and-time string.
- The date input's `min` attribute in the booking page. It is a hint to the
  browser's date picker and is not checked by the handler.
- IEEE double arithmetic. Averages, percentages and thresholds are exact
  rationals, so results within rounding error of 0.3 or of a .5 boundary
  may differ from the browser's.
- `toLowerCase` is modelled for ASCII letters only. Non-ASCII input can
  differ: "Hİ" lower-cases in the browser to "hi̇", which contains "hi" and
  gets the greeting reply, while the model leaves "İ" as it is and gives the
  generic reply.
- The analyzer's mood table is a plain object, so tags such as
  "constructor" would read inherited properties. The model scores every
  tag outside the table as 3.
- MentalStateAnalyzer.FrequencyCount: the count dictionary is a plain
  object. An item "__proto__" hits the prototype setter and is never
  counted, and an item such as "constructor" starts from the inherited
  function, so its count becomes a string and the sort comparator returns
  NaN. The model counts every string as an ordinary key.
- MentalStateAnalyzer.FrequencyCount: the order among items of equal count
  is not stated. JavaScript's `Object.entries` puts integer-like keys first
  and the stable sort keeps that order; the ranking predicate allows any
  order among ties.
- DailyRoutineTracker.NextDisabled: takes the clock reading of the click,
  while the source evaluates `disabled` with the clock of the last render. A
  page left open past midnight keeps the button as last rendered until
  something re-renders it.
- The record fetch and its date window in the analyzer. The records of the
  window are a parameter, already in ascending time order.
- Fetch failures inside `analyzeMentalStateHistory`: it rethrows, and only
  `getMoodInsightsForCheckIn`'s fallback is modelled.
- EmotionScan.EmotionScan.StartScan requires that no scan is running, since
  its button is disabled during a scan. Starting a second timer is not
  modelled. Each timer tick is one `Tick` call.
- Media streams, the video element and stopping tracks. Permission and the
  mounted video element are parameters.
- Random draws are parameters of `Simulate` and `Tick`. `toFixed(2)` is
  modelled as rounding half up on exact reals.
- Stale closures over React state and intermediate renders. Each handler
  runs atomically, so `loading` and `isTyping` being true during a request
  is not observable in the model.
- The therapist dashboard's fetch runs only with a signed-in user. Without
  one, `loading` stays true; the constructor state models that.
- Joined profile names, avatars, bios, portrait URLs and the session-type
  select's icons.

## Findings

| source | as written | input that shows it | evidently intended | confidence | as-written member | corrected member |
|---|---|---|---|---|---|---|
| src/components/DailyRoutineTracker.tsx:22-29 | the forward step compares the exact moment one day later with the present moment, while the button (line 58) compares calendar days | page opened at 23:00 on day 0 and left open; at 09:00 on day 1 press back (day −1 at 23:00 is shown), then forward: day 0 at 23:00 is not after now, so it is shown, and the re-render enables the forward button since day 0 is not today; press forward again: day 1 at 23:00 is after now, so the step is refused with "Cannot track future dates" | step forward whenever the next calendar day is not after today, exactly when the button is enabled | medium, not executed | DailyRoutineTracker.EnabledButRefused | DailyRoutineTracker.CalendarStepMatchesButton |
