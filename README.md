# Migrainie core, modelled in Dafny

Migrainie is an iOS migraine diary. This project models the app's core logic and proves what that logic promises:

- **Attack log.** The app state appends attacks, empties the log, and counts the distinct migraine days in the last 30 days.
- **Records.** The `MigraineAttack` and `DailyContext` records and their defaulted initialisers.
- **Daily-context join.** The five-way HealthKit join that assembles one day's health snapshot. The join runs as a sequential pending counter with the deliveries arriving in any order, and a proof shows the result does not depend on that order. The sleep reduction and the metres-to-kilometres conversion are included.
- **Save paths.**
  - The seven-step logging flow: its step machine, its toggles, the notes and triggers it builds, and the attack it saves.
  - The quick log screen: preset resolution, the date its detail screen composes, and its save.
- **Edit screen.** The form, the Save rule, and the trigger text parse, which round-trips with the join used to build the form.
- **Derived reads.** The report builder's text rules, day count, average severity, newest-first order and page-break rule; the insights cards and top-3 triggers; the home screen's greeting, recent attacks, last attack and health line.
- **Tables and parser.** The enum id/title/icon tables with the draft defaults, and the `Color(hex:)` parser with the app palette.

**Conventions**

- **Time.** Instants are whole seconds. A calendar day is the fixed 86400-second window that `StartOfDay` truncates to.
- **Metrics.** Health metric values are `real`.
- **Formatters.** Date formatters and `%.1f` are parameters of the functions that use them.
- **Store calls.** A save path is modelled by the sequence of store calls it makes (`StoreCall`), in order. `upsertContext` has no body in the source, and it gets none here.
- **Mutable state.** Stateful screens and objects are classes whose methods update their fields: the app state, the join, the HealthKit manager's authorization flag, the flow's step and draft, the quick screen's selections, and the PDF cursor.

## Model

| member | source | states |
|---|---|---|
| AppStateModel.AppState.constructor | Migrainie/AppState.swift:5-8 | the published defaults: empty profile, default settings, empty attack log |
| AppStateModel.AppState.AddAttack | Migrainie/AppState.swift:10-12 | the new log is the old log with the attack appended as its last element; profile and settings are unchanged |
| AppStateModel.AppState.ClearAttacks | Migrainie/AppState.swift:14-16 | the log is empty afterwards, so the 30-day count is 0 for every cutoff; profile and settings are unchanged |
| AppStateModel.MigraineDays | Migrainie/AppState.swift:18-30 | no cutoff from the calendar gives 0; otherwise the count is at most the number of attacks on or after the cutoff, which is at most the log's length; it is 0 exactly when no attack is on or after the cutoff |
| AppStateModel.Since | Migrainie/AppState.swift:26 | an attack is kept exactly when it is in the log and starts at or after the cutoff; there is no upper bound |
| AppStateModel.StartDaysMembers | Migrainie/AppState.swift:24-28 | a day is in the set exactly when some attack starts on it |
| AppStateModel.SameDayCountsOnce | Migrainie/AppState.swift:24-29 | two attacks on one day plus one on another day count as 2 days |
| AppStateModel.AppendAddsAtMostOneDay | Migrainie/AppState.swift:10-12 | appending an attack never lowers the count of migraine days and raises it by at most 1 |
| AppStateModel.AttackAfterCutoffCounts | Migrainie/AppState.swift:24-27 | any attack on or after the cutoff, including one dated in the future, makes its day count |
| AppStateModel.LastThirtyDays | Migrainie/AppState.swift:18-30 | with the cutoff 30 days before now, the count is 0 exactly when every attack started more than 30 days before now; an attack exactly 30 days old still counts |
| AppStateModel.NewestFirst | Migrainie/MigraineReportPDFBuilder.swift:109 | a permutation of the log (same multiset) with start dates non-increasing |
| Attacks.NewAttack | Migrainie/MigraineAttack.swift:23-43 | the initializer stores every argument in the field of the same name |
| Attacks.DefaultsAreAbsent | Migrainie/MigraineAttack.swift:26-32 | with the defaults the attack is ongoing, has no notes, no triggers and no linkage, and its linkage is consistent |
| Contexts.Set | DailyContext.swift:7-11 | writing one metric sets that metric and leaves the identity and the other four metrics unchanged |
| Contexts.NewContext | DailyContext.swift:13-25 | the context's identity is the given day, and all five metrics are absent |
| Contexts.SameFieldsSameContext | DailyContext.swift:3-11 | a context is determined by its day and its five metrics |
| HealthKit.AsleepOnly | Migrainie/HealthKitManager.swift:107-112 | keeps exactly the samples in the asleep, core, deep and REM categories |
| HealthKit.SleepHours | Migrainie/HealthKitManager.swift:94-115 | a missing type or failed query gives none; otherwise hours are present exactly when the asleep seconds are positive, and then hours × 3600 equals those seconds |
| HealthKit.NonSleepIgnored | Migrainie/HealthKitManager.swift:107-113 | adding an in-bed or awake sample changes nothing |
| HealthKit.AsleepSecondsAppend | Migrainie/HealthKitManager.swift:107-113 | the asleep total over two batches of samples is the sum of the two totals |
| HealthKit.StatValue | Migrainie/HealthKitManager.swift:120-147 | a statistic is present exactly when the type exists, the query succeeds and a quantity is returned |
| HealthKit.MetresToKm | Migrainie/HealthKitManager.swift:71-73 | present exactly when the metres are present, and km × 1000 equals the metres |
| HealthKit.ApplyAllFields | Migrainie/HealthKitManager.swift:59-86 | after deliveries of distinct metrics, each delivered metric holds its stored value, each undelivered metric is unchanged, and the identity stays |
| HealthKit.ArrivalOrderIrrelevant | Migrainie/HealthKitManager.swift:55-90 | any two arrival orders of the same deliveries give the same context |
| HealthKit.CompleteRunIsFetched | Migrainie/HealthKitManager.swift:50-91 | once all five metrics have arrived, in any order, the context equals `FetchedContext` |
| HealthKit.FetchedContext | Migrainie/HealthKitManager.swift:51-86 | identity is the start of the requested day; every metric is what its query returned, except distance, which is converted to km |
| HealthKit.DailyContextFetch.constructor | Migrainie/HealthKitManager.swift:51-56 | window from the start of the day to one day later, containing the day; fresh context; 5 pending; nothing arrived; no completion |
| HealthKit.DailyContextFetch.Deliver | Migrainie/HealthKitManager.swift:58-90 | an outstanding metric is written into its own field; pending drops by one; completion fires exactly once, with the context, when pending reaches 0 |
| HealthKit.FetchDailyContext | Migrainie/HealthKitManager.swift:50-91 | for every arrival order of the five results, the completed context is `FetchedContext` |
| HealthKit.HealthKitManager.RequestAuthorization | Migrainie/HealthKitManager.swift:36-47 | without health data it reports false and leaves the flag alone; otherwise flag and report are the granted result |
| FlowModels.PresetIdsDistinct | Migrainie/LogFlowModels.swift:11-19 | each preset's id is its raw value, and distinct cases have distinct ids |
| FlowModels.LocationTable | Migrainie/LogFlowModels.swift:23-47 | 6 locations, all listed once; distinct ids and distinct titles |
| FlowModels.SymptomTable | Migrainie/LogFlowModels.swift:50-57 | 20 symptoms, all listed once, in declaration order |
| FlowModels.SymptomIndexRoundTrip | Migrainie/LogFlowModels.swift:50-57 | the declaration index and the case at an index are inverse |
| FlowModels.SymptomIdRoundTrip | Migrainie/LogFlowModels.swift:59 | `init(rawValue:)` inverts `id` for every symptom |
| FlowModels.SymptomIdsDistinct | Migrainie/LogFlowModels.swift:59 | distinct symptoms have distinct ids |
| FlowModels.SymptomsByTitleSorted | Migrainie/LogFlowModels.swift:61-84 | the symptom titles, in title order, are strictly increasing, so all 20 titles are distinct |
| FlowModels.SymptomIconsShared | Migrainie/LogFlowModels.swift:86-106 | pounding, pulsating and throbbing share "bolt.circle", so the icon table is not one-to-one |
| FlowModels.TriggerTable | Migrainie/LogFlowModels.swift:110-113 | 9 triggers, all listed once |
| FlowModels.TriggerIndexRoundTrip | Migrainie/LogFlowModels.swift:110-113 | the declaration index and the case at an index are inverse |
| FlowModels.TriggerIdRoundTrip | Migrainie/LogFlowModels.swift:115 | `init(rawValue:)` inverts `id` for every trigger |
| FlowModels.TriggerIdsDistinct | Migrainie/LogFlowModels.swift:115 | distinct triggers have distinct ids |
| FlowModels.TriggersByTitleSorted | Migrainie/LogFlowModels.swift:117-129 | trigger titles in title order are strictly increasing, so they are distinct |
| FlowModels.SortedSymptomTitles | Migrainie/LogMigraineFlowView.swift:135 | strictly sorted; a symptom's title is present exactly when the symptom is selected |
| FlowModels.SortedTriggerTitles | Migrainie/LogMigraineFlowView.swift:134 | strictly sorted; a trigger's title is present exactly when the trigger is selected |
| FlowModels.SortedTriggerTitlesIsTheSort | Migrainie/LogMigraineFlowView.swift:134 | any strictly sorted list of the selected titles equals this one, so it is `sorted()` of the titles |
| FlowModels.SortedSymptomTitlesIsTheSort | Migrainie/LogMigraineFlowView.swift:135 | any strictly sorted list of the selected titles equals this one |
| FlowModels.DefaultDraft | Migrainie/LogFlowModels.swift:148-160 | just now, still going, start now, end now, severity 0, no location, no symptoms or triggers |
| LogFlow.ScreensInOrder | Migrainie/LogMigraineFlowView.swift:32-40 | steps 1 to 6 show Time, Severity, Location, Symptoms, Triggers and Review; every other step shows Insights |
| LogFlow.SeverityHint | Migrainie/LogMigraineFlowView.swift:278-284 | mild exactly for 0 to 2, moderate exactly for 3 to 6, severe otherwise |
| LogFlow.HintMonotone | Migrainie/LogMigraineFlowView.swift:278-284 | within 0 to 10 a higher severity never gets a milder hint |
| LogFlow.FlowNotes | Migrainie/LogMigraineFlowView.swift:137-141 | "Location: " + location or "Not selected" + newline + "Symptoms: " + sorted titles or "None" |
| LogFlow.TitlesNotNone | Migrainie/LogMigraineFlowView.swift:140 | joined symptom titles never read "None", so "None" means no symptoms |
| LogFlow.FlowAttack | Migrainie/LogMigraineFlowView.swift:144-162 | draft times and severity, no aura, the built notes, sorted trigger titles, linked to the start of the start's day, snapshot as given |
| LogFlow.CommitAttack | Migrainie/LogMigraineFlowView.swift:144-166 | with a context: upsert it, then add the attack; without one: add only |
| LogFlow.ClearedEnd | Migrainie/LogMigraineFlowView.swift:126-128 | a still-going draft gets no end; any other draft is unchanged; nothing but the end changes |
| LogFlow.SaveAndDismiss | Migrainie/LogMigraineFlowView.swift:124-178 | with the draft unedited during the health fetch: authorized, it upserts the start day's fetched context, then adds the attack linked to it; otherwise it adds an attack without a snapshot at once |
| LogFlow.SavedAttackLinkConsistent | Migrainie/LogMigraineFlowView.swift:153-162 | with the draft unedited during the fetch, the saved attack's day is the start of its start's day, and any snapshot carries that day |
| LogFlow.SaveAcrossFetch | Migrainie/LogMigraineFlowView.swift:124-178 | the save with the fetch in between: the notes, trigger titles and fetched day come from the draft at the tap; when authorized, the start, end, severity and linked day come from the draft when the fetch completes (lines 146-153, 171-172); when authorized the snapshot attached is the context fetched for the tap-time start's day, the one upserted first; the id is the given one and there is no aura; without access everything comes from the tap |
| LogFlow.SaveAcrossFetchUnedited | Migrainie/LogMigraineFlowView.swift:124-178 | a draft left unedited during the fetch gives exactly the calls of `SaveAndDismiss` |
| LogFlow.LinkAcrossFetch | Migrainie/LogMigraineFlowView.swift:131-172 | the saved link is consistent exactly when there was no fetch, or the commit-time start is on the day the context was fetched for |
| LogFlow.StartMovedDuringFetch | Migrainie/LogMigraineFlowView.swift:131-172 | a start moved one day later during the fetch saves an attack linked to the new day but carrying the old day's snapshot |
| LogFlow.FlowSavesNoEnd | Migrainie/LogMigraineFlowView.swift:126-128 | as written: with the end preset "still going", which no step changes, the saved attack is ongoing whatever end the draft held |
| LogFlow.EndPickedThenSaved | Migrainie/LogMigraineFlowView.swift:100-105 | as written: after switching "Still going" off, picking an end and pressing forward through step 7, the review shows the picked end but the saved attack has none; the save keyed on the switch saves the picked end |
| LogFlow.SaveKeepingEnd | Migrainie/LogMigraineFlowView.swift:124-178 | corrected save: the same store calls as `SaveAndDismiss`, except that the saved attack's end is the draft's end, which the switch and the end picker set |
| LogFlow.FlowScreen.ForwardKeepingEnd | Migrainie/LogMigraineFlowView.swift:100-105 | corrected forward button: below 7 it advances; at 7 it makes the `SaveKeepingEnd` calls, whose attack ends where the draft does, and leaves the draft unchanged |
| LogFlow.FlowSavesSeverityInRange | Migrainie/LogMigraineFlowView.swift:148 | a severity the slider set (0 to 10) is saved in range |
| LogFlow.FlowScreen.constructor | Migrainie/LogFlowModels.swift:148-160 | step 1 with the default draft; the "Still going" switch reads off because the default end is present |
| LogFlow.FlowScreen.Back | Migrainie/LogMigraineFlowView.swift:54-56 | at step 1 it dismisses with the step unchanged; otherwise the step goes down by one |
| LogFlow.FlowScreen.Forward | Migrainie/LogMigraineFlowView.swift:100-105 | below 7 the step goes up by one with no store call; at 7 it saves (`SaveAndDismiss`) and the draft's end is cleared when still going; the step stays in 1 to 7 |
| LogFlow.FlowScreen.SetStartDate | Migrainie/LogMigraineFlowView.swift:196-200 | the start picker: only the draft's start changes; the end is not checked against it |
| LogFlow.FlowScreen.SetEndDate | Migrainie/LogMigraineFlowView.swift:224-231 | the end picker, offered only while the switch is off: only the draft's end changes, to the picked instant, which is not checked against the start |
| LogFlow.FlowScreen.SetStillGoing | Migrainie/LogMigraineFlowView.swift:215-221 | the switch reads as set; switching off sets the end to the later of start and now, so the end is not before the start |
| LogFlow.FlowScreen.SetSymptom | Migrainie/LogMigraineFlowView.swift:415-423 | exactly that symptom is inserted or removed; nothing else in the draft changes |
| LogFlow.FlowScreen.SetTrigger | Migrainie/LogMigraineFlowView.swift:468-476 | exactly that trigger is inserted or removed; nothing else in the draft changes |
| LogFlow.FlowScreen.SelectLocation | Migrainie/LogMigraineFlowView.swift:316 | only the location changes |
| LogFlow.FlowScreen.SetSeverity | Migrainie/LogMigraineFlowView.swift:263-265 | only the severity changes |
| QuickLog.ResolveStart | Migrainie/LogMigraneview.swift:396-403 | "just now" gives now; "1h ago" gives exactly 3600 s before; both lie within the last hour; "other" gives the custom start unchecked |
| QuickLog.ResolveEnd | Migrainie/LogMigraneview.swift:405-412 | absent exactly for "still going"; now, or the custom end |
| QuickLog.QuickAttack | Migrainie/LogMigraneview.swift:420-443 | severity 5, no aura, no notes, no triggers; linked to the start's day with the context as snapshot exactly when a context is given |
| QuickLog.SaveAttack | Migrainie/LogMigraneview.swift:391-446 | authorized: upsert the start day's fetched context first, then add the linked attack; otherwise add an unlinked attack only |
| QuickLog.SavedQuickAttack | Migrainie/LogMigraneview.swift:414-445 | the saved attack has severity in range and consistent linkage; it has a snapshot exactly when authorized and is ongoing exactly when "still going" was picked |
| QuickLog.PresetEndNotBeforeStart | Migrainie/LogMigraneview.swift:396-412 | with a preset start, an end of "just now" is never before the start |
| QuickLog.CustomEndMayPrecedeStart | Migrainie/LogMigraneview.swift:405-412 | nothing checks the custom end: an end an hour before the start is saved as is |
| QuickLog.ConfirmedDate | Migrainie/LogMigraneview.swift:166-179 | without a composable date the old date stays; otherwise the result falls on the selected day of the month, on a whole minute, at the picked time's hour and minute |
| QuickLog.QuickLogScreen.constructor | Migrainie/LogMigraneview.swift:189-197 | day 4 of the 1 to 7 strip, "just now", "still going", custom dates at now |
| QuickLog.QuickLogScreen.SelectDay | Migrainie/LogMigraneview.swift:227 | the selected day is the tapped one and stays within 1 to 7 |
| QuickLog.QuickLogScreen.ChooseStart | Migrainie/LogMigraneview.swift:259-283 | only the start preset changes, to the tapped one |
| QuickLog.QuickLogScreen.ChooseEnd | Migrainie/LogMigraneview.swift:299-323 | only the end preset changes, to the tapped one |
| QuickLog.QuickLogScreen.ConfirmStart | Migrainie/LogMigraneview.swift:166-179 | the custom start becomes the confirmed date for the selected day |
| QuickLog.QuickLogScreen.ConfirmEnd | Migrainie/LogMigraneview.swift:166-179 | the custom end becomes the confirmed date for the selected day |
| QuickLog.QuickLogScreen.Save | Migrainie/LogMigraneview.swift:391-446 | the store calls of `SaveAttack` for the screen's current choices; the saved attack's linkage is consistent |
| EditAttack.InitForm | Migrainie/EditAttackView.swift:16-24 | the start; the end, or the start for an ongoing attack; severity and aura; notes or ""; triggers joined by ", " |
| EditAttack.ParseTriggers | Migrainie/EditAttackView.swift:75-78 | every trigger it yields is non-empty, comma-free and already trimmed |
| EditAttack.ParseTriggersText | Migrainie/EditAttackView.swift:23 | round trip: parsing the joined text of triggers that are non-empty, comma-free and without leading or trailing whitespace gives the same list back, order kept |
| EditAttack.CommaSplitsTrigger | Migrainie/EditAttackView.swift:75-78 | for any two canonical parts a and b, the trigger a + "," + b is read back from the text field as the two triggers a and b |
| EditAttack.StepUp | Migrainie/EditAttackView.swift:40 | up by one, never above 10 |
| EditAttack.StepDown | Migrainie/EditAttackView.swift:40 | down by one, never below 0 |
| EditAttack.StepperKeepsRange | Migrainie/EditAttackView.swift:40 | from 0 to 10 the stepper stays within 0 to 10 |
| EditAttack.Edited | Migrainie/EditAttackView.swift:65-84 | refused exactly when the end is before the start (the disabled button); otherwise same id and linkage, the form's times, severity and aura, an end always present and not before the start, notes absent exactly when empty, the parsed triggers |
| EditAttack.EditedLink | Migrainie/EditAttackView.swift:68-79 | the kept link stays consistent exactly when the attack was unlinked or its new start is on the same day |
| EditAttack.SaveUnchangedForm | Migrainie/EditAttackView.swift:16-24 | saving the form as opened changes only an ongoing attack's end (set to its start) and empty notes (made absent); canonical triggers are kept |
| Report.Display | Migrainie/MigraineReportPDFBuilder.swift:11-14 | the trimmed value, or "—" when nothing but whitespace; never empty |
| Report.DisplayIdempotent | Migrainie/MigraineReportPDFBuilder.swift:11-14 | displaying a displayed value changes nothing |
| Report.AgeText | Migrainie/MigraineReportPDFBuilder.swift:82-85 | "—" exactly when the trimmed age is empty or "0"; else the trimmed age |
| Report.SummaryPairs | Migrainie/MigraineReportPDFBuilder.swift:94-103 | seven rows: the name or a dash, the age text, and the displayed sex, height, weight, conditions and medications |
| Report.SummaryTitlesInOrder | Migrainie/MigraineReportPDFBuilder.swift:94-103 | the rows carry the titles Name, Age, Sex, Height, Weight, Known conditions and Medications, in that order |
| Report.SummaryValuesShown | Migrainie/MigraineReportPDFBuilder.swift:94-103 | no summary value is empty, so the extra emptiness checks never fire |
| Report.SeveritySumBounds | Migrainie/MigraineReportPDFBuilder.swift:344 | the sum lies between the count times any lower bound and the count times any upper bound of the severities |
| Report.HealthLine | Migrainie/MigraineReportPDFBuilder.swift:150-156 | "Health: —" exactly without a snapshot; otherwise each metric, or "—" when absent |
| Report.Row | Migrainie/MigraineReportPDFBuilder.swift:143-156 | end "Ongoing / not recorded" when absent; aura "Yes" exactly when present; triggers "—" when none, else joined; notes "—" when absent or empty |
| Report.CountMigraineDays | Migrainie/MigraineReportPDFBuilder.swift:336-340 | 0 for no attacks, otherwise between 1 and the number of attacks |
| Report.CountMigraineDaysReorder | Migrainie/MigraineReportPDFBuilder.swift:109-111 | the day count does not depend on the order of the attacks |
| Report.SeveritySumReorder | Migrainie/MigraineReportPDFBuilder.swift:344 | the severity sum does not depend on the order of the attacks |
| Report.AverageSeverity | Migrainie/MigraineReportPDFBuilder.swift:342-346 | absent exactly for no attacks |
| Report.AverageWithinBounds | Migrainie/MigraineReportPDFBuilder.swift:342-346 | the mean lies between any lower and upper bound of the severities |
| Report.OverviewIgnoresOrder | Migrainie/MigraineReportPDFBuilder.swift:109-112 | the newest-first list gives the same total, day count and average as the log |
| Report.PdfCursor.EnsureSpace | Migrainie/MigraineReportPDFBuilder.swift:26-37 | a new page (next number, y back at the margin) exactly when y + needed passes the bottom margin; afterwards any need that fits a page fits below y |
| Report.PdfCursor.PlaceRow | Migrainie/MigraineReportPDFBuilder.swift:140-170 | the reserved space fits below the row's top; the cursor moves past the 110-point box and the 10-point gap |
| Report.RowReserveTooSmall | Migrainie/MigraineReportPDFBuilder.swift:141 | at y = 668 the 88-point reserve triggers no break, yet the 110-point box passes the bottom margin |
| Report.PdfCursor.LayOutRowsAsWritten | Migrainie/MigraineReportPDFBuilder.swift:140-170 | as written, only the first 88 points of each row are sure to lie above the bottom margin |
| Report.PdfCursor.LayOutRows | Migrainie/MigraineReportPDFBuilder.swift:301-333 | reserving the box's height, every row box lies between the margins of its page |
| Insights.AllTriggerEntries | Migrainie/InsightView.swift:57 | a string is an entry exactly when some attack lists it; no entries exactly when no attack has triggers |
| Insights.Tally | Migrainie/InsightView.swift:57-58 | a key exactly for each entry, every count at least 1 |
| Insights.TallyCounts | Migrainie/InsightView.swift:57-58 | each count is the entry's number of occurrences, repeats included |
| Insights.CountsSumToEntries | Migrainie/InsightView.swift:57-58 | the counts add up to the total number of trigger entries |
| Insights.CountPairs | Migrainie/InsightView.swift:57-59 | one pair per distinct entry, no trigger twice (the dictionary's keys); a pair is present exactly when its trigger is an entry and its count is the entry's number of occurrences |
| Insights.TopLeavesOutLess | Migrainie/InsightView.swift:59 | an entry is left out of the top list only when three are shown, each counted at least as often |
| Insights.TopCounts | Migrainie/InsightView.swift:57-59 | min(3, distinct) pairs with no trigger shown twice, each with its true count, counts non-increasing; an entry left out occurs no more often than any shown |
| Insights.TopTriggers | Migrainie/InsightView.swift:57-68 | empty, so the "no triggers yet" text shows, exactly when no attack has a trigger; every shown trigger occurs in some attack |
| Insights.Cards | Migrainie/InsightView.swift:13-53 | the empty card exactly when the log is empty; otherwise frequency (the 30-day count and total) then top triggers |
| Home.Greeting | Migrainie/HomeView.swift:85 | "Welcome back" exactly when the username is empty, else "Welcome back, " + username |
| Home.RecentAttacks | Migrainie/HomeView.swift:62-64 | min(5, count) attacks from the log, newest first, the first entries of the newest-first log; any attack left out is no newer than one shown |
| Home.LastAttack | Migrainie/HomeView.swift:67 | absent exactly for an empty log; otherwise an attack of the log with the latest start |
| Home.LastIsFirstRecent | Migrainie/HomeView.swift:62-67 | for a non-empty log the last attack is the first of the recent attacks |
| Home.LastAttackDateText | Migrainie/HomeView.swift:66-73 | "None yet" for an empty log, else the formatted start of an attack with the latest start |
| Home.HistoryCard | Migrainie/HomeView.swift:253-264 | the empty-history message exactly when the log is empty; otherwise the recent attacks |
| Home.ContextLine | Migrainie/HomeView.swift:302-307 | shown exactly with a snapshot; absent sleep, steps and heart rate read as 0 |
| Home.EmptySnapshotReadsZero | Migrainie/HomeView.swift:302-307 | a snapshot without steps or heart rate still shows a line ending "Steps 0 • HR 0" |
| Theme.ScanHex | Migrainie/Theme.swift:14-15 | never above `UInt64.max`, and below 16 to the power of the input's length |
| Theme.ParseHexColor | Migrainie/Theme.swift:12-36 | every component is at most 255; a trimmed length other than 3, 6 or 8 gives (255, 0, 0, 0); only 8 digits set the alpha |
| Theme.TrimHash | Migrainie/Theme.swift:13 | a leading "#" is trimmed away |
| Theme.ParseFormat3 | Migrainie/Theme.swift:19-23 | "#RGB" gives alpha 255 and each nibble × 17 |
| Theme.ParseFormat6 | Migrainie/Theme.swift:24-28 | "#RRGGBB" parses back to (255, r, g, b) |
| Theme.ParseFormat8 | Migrainie/Theme.swift:29-33 | "#AARRGGBB" parses back to (a, r, g, b) |
| Theme.PrimaryComponents | Migrainie/Theme.swift:52 | "#728156" is (255, 0x72, 0x81, 0x56) |
| Theme.SecondaryComponents | Migrainie/Theme.swift:54 | "#98A77C" is (255, 0x98, 0xA7, 0x7C) |
| Theme.BackgroundComponents | Migrainie/Theme.swift:56 | "#E7F5DC" is (255, 0xE7, 0xF5, 0xDC) |
| Theme.CardComponents | Migrainie/Theme.swift:58 | "#CFE1B9" is (255, 0xCF, 0xE1, 0xB9) |
| Theme.MutedComponents | Migrainie/Theme.swift:60 | "#88976C" is (255, 0x88, 0x97, 0x6C) |
| Theme.NoDigitsIsBlack | Migrainie/Theme.swift:34-35 | input with nothing alphanumeric gives opaque black |
| Strings.Split | Migrainie/EditAttackView.swift:76 | a string is a piece exactly when it is a non-empty piece between separators (the pieces join back to the input); each is comma-free |
| Strings.TrimBy | Migrainie/Theme.swift:13 | the infix left after dropping the leading and trailing characters of the set; it neither starts nor ends with one; empty exactly when every character is in the set |
| Time.StartOfDay | Migrainie/AppState.swift:27 | the day start is at most the instant, less than a day before it, and a multiple of a day |
| Time.StartOfDayIdempotent | Migrainie/MigraineAttack.swift:19 | a day start is its own start of day, so linked days are day starts |
| Sorting.TopByKey | Migrainie/HomeView.swift:63 | min(n, count) elements of the input, keys non-increasing; any element left out is no larger than every one kept |

## Left out

- SwiftUI presentation is not modelled: view bodies, layout, fonts, navigation and dismissal. `MainTabView.swift`, `MigrainieApp.swift`, `ProfileView.swift`, `SettingsView.swift`, `Shareshit.swift` and `NotificationManager.swift` are not part of this model.
- LogFlow.SaveAndDismiss: the flow's save is one step over one draft, and so are `SavedAttackLinkConsistent` and `FlowScreen.Forward`. The commit after the health fetch re-reads the start, end and severity; `SaveAcrossFetch` and `LinkAcrossFetch` model that, and the consistency proved for `SaveAndDismiss` holds only when nothing is edited during the fetch. The sheet stays open until the commit, so a second tap on the checkmark saves a second attack; repeated taps and edits interleaved with a pending fetch are not modelled on `FlowScreen`.
- HealthKit execution is not modelled: the store, the queries, `DispatchGroup` threads and the main-queue hops. A query's outcome is a parameter (`QueryOutcomes`), and the five callbacks are deliveries in an arbitrary order.
- PDF drawing is not modelled: CoreText measurement, the header, section and table drawing, and the file write. Only the cursor arithmetic and the text of each row are modelled.
- Date formatting and `%.1f` are function parameters. The calendar is a fixed one with 86400-second days and no time zones.
- `ConfirmedDate` takes the start of the current month as a parameter. `Calendar.date(from:)` supplies it in the app, and `None` stands for composition failing.
- Doubles are `real`, so there is no rounding. The slider's rounding to an integer severity is not modelled.
- `upsertContext`, `updateAttack` and `deleteAttack` have no body in the source, so the context store and its backfill are not part of this model. Save paths record the `upsertContext` and `addAttack` calls they make, in order. The edit screen's Save yields the updated attack, and its Delete button is not modelled.
- Codable encoding is compiler-generated and is not modelled. `AttackListView.swift`'s newest-first sort is `NewestFirst`.
- `UserSettings`' default reminder time (9:00 today) comes from the calendar and is a parameter.
- Strings.Trim: the whitespace set is the fixed list of code points in `IsWhitespace`, and grapheme clusters are treated as single characters.
- Theme.ParseHexColor: alphanumerics are ASCII letters and digits only, where Foundation's set is Unicode-wide. A string whose length Swift counts in grapheme clusters is counted in code points.
- Theme.ScanHex: a value too large for 64 bits saturates at `UInt64.max`. For the 3-, 6- and 8-digit cases this cannot arise.
- Insights.TopCounts: Swift's dictionary order is unspecified, and so is the order among equal counts. The model fixes one order, and its contract promises nothing about ties.
- Home.RecentAttacks: among attacks with equal start dates the order is unspecified, and the contract leaves it so.
- EditAttack.StepUp: the stepper is only ever at 0 to 10, which `StepperKeepsRange` covers. Outside that range the model steps as follows: a value above 10 steps up to 10 and a value below 0 steps down to 0; in the other direction it moves by one.

## Findings

| source | as written | input that shows it | evidently intended | confidence | as-written member | corrected member |
|---|---|---|---|---|---|---|
| Migrainie/MigraineReportPDFBuilder.swift:141 | each attack row reserves 88 points before drawing a box 110 points high (lines 301, 333) | a row that starts at y = 668: 668 + 88 = 756 passes the test, so there is no page break, but the box ends at 778, past the 756-point bottom margin and into the footer area. This can happen only on page 1, whose first row's offset depends on how the summary text wraps. From page 2 on, rows start at 36 + 120k; the last top that gets no break is 636, and its box ends at 746, within the margin | reserve the row's full height (110), so every row box stays above the bottom margin | low, not executed | Report.RowReserveTooSmall, Report.PdfCursor.LayOutRowsAsWritten | Report.PdfCursor.LayOutRows |
| Migrainie/LogMigraineFlowView.swift:126-128 | the save clears the end date whenever `draft.endPreset` is `.stillGoing`; that preset defaults to `.stillGoing` (LogFlowModels.swift:150) and no step assigns it | turn "Still going" off on step 1, pick an end, and press forward to step 7: the review shows "End" with the picked date (line 493), but the attack is saved ongoing | save the end the switch and picker left in the draft, as the review step shows it | medium, not executed | LogFlow.FlowSavesNoEnd, LogFlow.EndPickedThenSaved | LogFlow.SaveKeepingEnd, LogFlow.FlowScreen.ForwardKeepingEnd |
