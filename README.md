# acc-pmr dashboard: a verified model of its logic

acc-pmr is a React dashboard. Airport staff use it to follow passengers with
reduced mobility (PMR) from check-in to the gate. They pick passengers from a
Google Sheet ("Jalons") or enter them by hand. Each passenger is shown with
how urgent the departure is. The page notices when the sheet assigns an
agent (the GO-ACC column) and announces it. A wall display, a statistics page
and a small service that writes selections back to a sheet through a web app
complete the application.

This project models the logic of those components in Dafny and proves what
they promise:

- **Shared text rules.** `TimeText` holds the four copies of
  `extractTimeHHMM`: exact `H:MM`, then `d/m/yy[yy] h:mm`, then `Thh:mm`.
  Each of the three regular expressions is written out as a deterministic
  scan. The leftmost match wins.
- **Shared time rules.** `Urgency` holds minutes-until-departure with the
  one-day rollover, "flight passed" and the three urgency tiers.
- **String built-ins.** `Text` models the JavaScript ones the components use:
  `trim`, `split`, `join`, `reverse`, case mapping and comparison.
- **Sheet parsing.** `SheetRows` is the row splitting that both sheet parsers
  share. `PassengerList` parses the sheet into a map, merges it into the list
  on refresh, and emits the `agentStatusChanged` events as returned values.
  `PassengerSelector` parses the sheet into the drop-down's array.
- **Displays.** `PassengerItem`, `TVDisplay` and `StatsPage` are the list
  item, the wall display and the statistics page. `Counting` builds the
  statistics page's frequency tables. `Sorting` is an insertion sort standing in
  for `Array.prototype.sort`. It is stable by construction, because each
  element goes in front of the sorted elements it ties with. Stability is not
  stated as a lemma: what is proved is the permutation and, under a total
  preorder, the sortedness.
- **Forms and the app shell.** `App`, `AddPassengerModal`, `ScannerSimulator`
  and `FeedbackModal` are classes whose fields are the React state. Their
  methods are the handlers that change that state.
- **Sheet write-back.** `SelectedPaxService` puts its fire-and-forget posts
  into an outbox sequence. `SiteConfig` is the counter-to-sheet table.

All time is integer milliseconds since local midnight. Generated ids, the
clock reading and the parsed contents of local storage are inputs of the
operations that need them.

## Model

| member | source | states |
|---|---|---|
| Text.Trim | src/components/PassengerList.js:178-184 | `trim` gives a slice of its input with only white space cut before and after it, leaves no white space at either end, never lengthens, and gives "" exactly for blank text |
| Text.TrimIdempotent | src/components/PassengerList.js:284-285 | trimming a trimmed text changes nothing |
| Text.Split | src/components/PassengerList.js:173-175 | `split(';')` yields at least one piece, none containing the separator |
| Text.JoinSplit | src/components/PassengerList.js:173-175 | joining the pieces of `split` with the separator rebuilds the text |
| Text.SplitCount | src/components/PassengerList.js:173-175 | `split` yields one more piece than there are separators |
| Text.ToUpper | src/components/AddPassengerModal.js:260 | `toUpperCase` maps each character in place and keeps the length |
| Text.ToLower | src/components/PassengerSelector.js:151-152 | `toLowerCase` maps each character in place and keeps the length |
| Text.LexCompare | src/components/TVDisplay.js:449 | the text order is 0 exactly on equal texts, antisymmetric (`LexAntisymmetric`) and transitive (`LexTransitive`) |
| Text.Decimal | src/components/AddPassengerModal.js:259 | a number prints as a non-empty digit string that reads back to it |
| TimeText.DateTimeAt | src/components/PassengerItem.js:283-286 | the date-and-time pattern at one start index gives groups 4 and 5 as an `h:mm` clock text |
| TimeText.Leftmost | src/components/PassengerItem.js:283 | an unanchored match is found exactly when the pattern matches at some index, and it is the match at the first such index |
| TimeText.ExtractOrNull | src/components/TVDisplay.js:327-349 | null for empty or unrecognised text; exact `H:MM`/`HH:MM` text is returned as it is; any other result is itself a clock text |
| TimeText.ExtractOrRaw | src/components/PassengerItem.js:276-294 | `"??:??"` for empty text, the recognised clock text, or else the raw text; never empty |
| TimeText.ExtractIdempotent | src/components/TVDisplay.js:327-349 | extracting from an extracted time gives it back, for both variants |
| TimeText.ParseClock | src/components/TVDisplay.js:358 | a clock text splits at `:` into two digit groups, which parse to their values, both below 100 |
| TimeText.LeadingZeroHour | src/components/StatsPage.js:206-207 | `9:05` and `09:05` are both accepted by rule 1 and give the same hour and minute |
| TimeText.ReverseIsoDate | src/components/AddPassengerModal.js:263 | `split('-').reverse().join('/')` turns `YYYY-MM-DD` into `DD/MM/YYYY` |
| TimeText.ManualDepartureRoundTrip | src/components/PassengerItem.js:283-286 | the date-and-time rule recovers exactly the time typed into the manual entry form, in both extract variants |
| TimeText.DateTimeLocalUsesIsoRule | src/components/TVDisplay.js:336-345 | a `datetime-local` value matches no date-and-time pattern, and the ISO rule extracts its `HH:MM` |
| TimeText.NoSpaceNoDateTime | src/components/TVDisplay.js:336 | the date-and-time rule never matches text without white space |
| Urgency.MinutesUntil | src/components/PassengerItem.js:308-320 | the minutes until today's, or else tomorrow's, `h:mm` lie in [0, 1440) |
| Urgency.RolloverIffPassed | src/components/PassengerItem.js:312-318 | a day is added exactly when today's departure instant is before now |
| Urgency.MidnightRollover | src/components/PassengerItem.js:312-315 | at 23:50 a departure of `00:10` is 20 minutes away |
| Urgency.DepartureClock | src/components/TVDisplay.js:353-362 | the hour and minute are read exactly when the text yields a clock text, both below 100 |
| Urgency.ReadingsAgree | src/components/PassengerItem.js:298-306 | on recognised text the raw-variant and null-variant readings agree |
| Urgency.PassedIffRolledOver | src/components/PassengerItem.js:327-346 | `isFlightPassed` holds exactly when the time reads and today's instant is before now; otherwise the minutes are not negative |
| Urgency.TiersPartition | src/components/PassengerItem.js:381-389 | exactly one tier holds; 60 minutes is a warning, 90 is normal, and the 120-minute fallback is normal |
| Urgency.TierColour | src/components/PassengerItem.js:79-84 | the border is green, orange or red exactly when the tier is normal, warning or urgent |
| Sorting.SortBy | src/components/TVDisplay.js:434-450 | sorting keeps the elements with their multiplicities |
| Sorting.SortBySorted | src/components/TVDisplay.js:434-450 | under a total preorder the result is sorted |
| Sorting.KeyedIsPreorder | src/components/TVDisplay.js:444 | a comparator whose sign follows an integer key is a total preorder |
| Collect.Filter | src/components/TVDisplay.js:433 | `filter` keeps exactly the elements passing the test, never adds any, never lengthens |
| Collect.FilterConcat | src/components/PassengerList.js:392 | `filter` keeps order: it distributes over concatenation |
| Collect.CollectExactly | src/components/PassengerSelector.js:97-143 | a record is produced exactly when some row yields it |
| Collect.CollectBounded | src/components/PassengerSelector.js:97-143 | no more records than rows |
| Collect.CollectConcat | src/components/PassengerSelector.js:97-143 | the records of a split input are the records of its parts, in order |
| SheetRows.ProcessRow | src/components/PassengerList.js:171-175 | a one-cell row containing `;` becomes the trimmed pieces of its `;`-split, one more than the separators, none containing `;`; any other row is kept as it is |
| SheetRows.CellAt | src/components/PassengerList.js:178-184 | `String(row[k] \|\| '').trim()` is the trimmed cell of a present column and "" for a missing one |
| SheetRows.TrimAll | src/components/PassengerList.js:174 | every cell is trimmed in place |
| Counting.Bump | src/components/StatsPage.js:476 | `counts[k] = (counts[k] \|\| 0) + 1` raises an existing entry or appends the key with count 1 (`BumpGet`, `BumpHas`, `BumpTotal`) |
| Counting.TableOfCounts | src/components/StatsPage.js:473-492 | each non-empty key appears once, with the number of times it occurs; counts are positive and add up to the non-empty keys, at most N |
| PassengerList.EntryOf | src/components/PassengerList.js:177-186 | a kept row has a non-empty idPax and last name, every field trimmed |
| PassengerList.EntryOfKept | src/components/PassengerList.js:177-186 | a row is kept exactly when it has six columns and non-blank first two cells; `idPax`, last name, first name, flight, departure and `goAcc` are the trimmed cells 0 to 5, `ssr1` is cell 6 or "" when it is missing |
| PassengerList.ParseSheetData | src/components/PassengerList.js:158-213 | the loop builds the map `SheetMap` specifies: empty for absent or empty input, row 0 skipped |
| PassengerList.SheetMapKeys | src/components/PassengerList.js:168-195 | an idPax is a key exactly when some kept data row carries it |
| PassengerList.SheetMapWellKeyed | src/components/PassengerList.js:186-195 | every entry sits under its own trimmed, non-empty idPax and has a last name |
| PassengerList.MapLastWins | src/components/PassengerList.js:186-195 | a key holds the last kept entry carrying it |
| PassengerList.MergeOneFields | src/components/PassengerList.js:281-320 | a matched record takes the sheet's trimmed GO-ACC, names, flight and departure and keeps everything else; an unmatched one is unchanged |
| PassengerList.MergeOneSettles | src/components/PassengerList.js:284-287 | after the merge the record agrees with the sheet, so merging it again changes nothing |
| PassengerList.MergeAll | src/components/PassengerList.js:280-321 | `map` merges each record in place and keeps the length |
| PassengerList.ChangeEvent | src/components/PassengerList.js:296-305 | `hasAgent` iff the new marker is set, `isNew` iff it went from empty to set, `isRemoved` iff from set to empty; never both |
| PassengerList.EventsExactly | src/components/PassengerList.js:287-307 | an event is sent exactly for each matched record whose trimmed marker changed |
| PassengerList.NoEventsIffUnchanged | src/components/PassengerList.js:287-288 | no event is sent exactly when no matched marker changed |
| PassengerList.CompareMarker | src/components/PassengerList.js:281-307 | the comparison for one record yields its due event or none |
| PassengerList.MergeSheet | src/components/PassengerList.js:279-321 | the loop yields the merged list, the events in list order, and `hasChanges` iff some marker changed |
| PassengerList.RefreshData | src/components/PassengerList.js:247-335 | nothing happens for an empty list or a failed fetch; otherwise the events are those of the merge, and the merged list is committed only when a marker changed |
| PassengerList.RefreshIdempotent | src/components/PassengerList.js:284-328 | a second refresh against the same sheet sends no event and commits nothing |
| PassengerList.HandlePassengerSelect | src/components/PassengerList.js:338-379 | nothing is added for no choice or an idPax already listed; otherwise one record is appended with a fresh id, `addedAt` and SkyPriority off, plus an initial event exactly when its GO-ACC is set |
| PassengerList.SelectKeepsIdPaxUnique | src/components/PassengerList.js:346-351 | selection never makes two records share an idPax |
| PassengerList.SelectTwiceAddsOnce | src/components/PassengerList.js:346-351 | selecting the same passenger again adds nothing |
| PassengerList.ToggleSkyPriority | src/components/PassengerList.js:382-387 | the flag flips on the records with that id; no other field or record changes |
| PassengerList.ToggleTwice | src/components/PassengerList.js:382-387 | toggling twice restores the list |
| PassengerList.RemovePassenger | src/components/PassengerList.js:390-394 | keeps exactly the records with another id |
| PassengerList.AddThenRemove | src/components/PassengerList.js:390-394 | removing a just-added record with a fresh id restores the list in order |
| PassengerList.ActivePassengers | src/components/PassengerList.js:226-243 | the counter keeps exactly the records that are not filtered out as passed |
| PassengerList.ActiveIsNotPassed | src/components/PassengerList.js:226-241 | that filter agrees with the list item's `isFlightPassed` |
| PassengerList.CountersBounded | src/components/PassengerList.js:243-244 | SkyPriority count at most the active count, which is at most the list length |
| PassengerList.SortedPassengersOrdered | src/components/PassengerList.js:416-434 | when every time reads, the list is a permutation in ascending departure order |
| PassengerList.MergeKeepsIdentity | src/components/PassengerList.js:310-316 | the merge keeps each record's id and SkyPriority flag |
| PassengerList.TickAsWritten | src/components/PassengerList.js:397-413 | a timer tick merges the list captured when the interval was set up and, when some marker changed, commits it over the current list; a tick with no marker change leaves the current list as it is |
| PassengerList.Tick | src/components/PassengerList.js:397-413 | a tick that merges the current list keeps every record's id and SkyPriority flag |
| PassengerList.TickSettles | src/components/PassengerList.js:397-413 | a second tick of the current-list refresh is silent and changes nothing |
| PassengerList.StaleClosureRepeatsAndReverts | src/components/PassengerList.js:397-413 | with the captured list, an agent assignment is re-announced on every tick and a SkyPriority toggle is undone; the current-list tick announces nothing more and keeps the toggle |
| PassengerItem.SafeView | src/components/PassengerItem.js:356-370 | an empty last name becomes `Sans nom`, an empty flight `N/A`, the status is `status \|\| ssr1 \|\| 'WCHR'`, an empty `addedAt` becomes the current clock text; present fields and the other fields are kept |
| PassengerItem.UnreadableTimeIsGreen | src/components/PassengerItem.js:298-299 | a departure that yields no time is normal, green and not passed |
| PassengerItem.DisplayTimeNeverEmpty | src/components/PassengerItem.js:400 | the shown time is never empty, and `??:??` when there is no departure |
| PassengerItem.AgentEnRouteIffNotBlank | src/components/PassengerItem.js:397 | the agent badge shows exactly for a non-blank GO-ACC |
| PassengerItem.Watch | src/components/PassengerItem.js:403-432 | going from blank to set raises the flag and the key; going from set to blank lowers the flag; otherwise nothing changes; the previous value is updated |
| PassengerItem.WatchIdempotent | src/components/PassengerItem.js:403-432 | a re-run of the watcher on the same value changes nothing |
| PassengerItem.Receive | src/components/PassengerItem.js:436-463 | only events matching by id or idPax act; `hasAgent && (isInitial \|\| isNew)` raises the flag and the key; else `isRemoved` lowers the flag; any other matching event changes nothing |
| PassengerItem.Expire | src/components/PassengerItem.js:418-420 | the timer lowers the flag and nothing else |
| PassengerItem.AssignmentEventRaisesFlag | src/components/PassengerItem.js:444-447 | the list's event for an assignment raises the flag of the item it names |
| PassengerItem.AgentSwapEventIgnored | src/components/PassengerItem.js:444-461 | the list's event for one agent replacing another leaves the card unchanged |
| PassengerItem.RemovalEventLowersFlag | src/components/PassengerItem.js:456-457 | the list's event for a removal lowers the flag of the item it names |
| PassengerItem.SelectEventRaisesFlag | src/components/PassengerList.js:363-376 | the initial event after selecting a passenger with an agent raises the new item's flag |
| PassengerItem.AgentIndicator.constructor | src/components/PassengerItem.js:350-353 | starts with the flag down, key 0 and the record's GO-ACC as previous value |
| PassengerItem.AgentIndicator.WatchGoAcc | src/components/PassengerItem.js:403-432 | the state moves as `Watch` says; the key never decreases |
| PassengerItem.AgentIndicator.HandleAgentStatusChange | src/components/PassengerItem.js:436-463 | the state moves as `Receive` says; the key never decreases |
| PassengerItem.AgentIndicator.TimerFired | src/components/PassengerItem.js:418-420 | the state moves as `Expire` says |
| TVDisplay.DisplayIsUnpassed | src/components/TVDisplay.js:432-433 | the display holds exactly the records not passed, each as often as in the list |
| TVDisplay.ClockKeyOrder | src/components/TVDisplay.js:440-444 | on two readable times the comparator orders by hour, then minute |
| TVDisplay.DisplayOrdered | src/components/TVDisplay.js:434-450 | when every time reads, the display is in ascending (hour, minute) order |
| TVDisplay.DisplayTextOrdered | src/components/TVDisplay.js:449 | when no time reads, the display is in text order of the departure fields |
| TVDisplay.SkyPriorityCount | src/components/TVDisplay.js:453 | never more than the displayed records |
| TVDisplay.SafeView | src/components/TVDisplay.js:515-526 | an empty last name becomes `Sans nom`; an empty airline, flight or destination `N/A`; an empty status `WCHR`; an empty date the current date; present values are kept and no other field changes |
| TVDisplay.DisplayTime | src/components/TVDisplay.js:512 | the extracted time, else the raw text, else `??:??`; never empty |
| TVDisplay.CardOf | src/components/TVDisplay.js:507-529 | a card shows `SafeView` of the record and `DisplayTime` of its departure, is never both urgent and warning, always shows a time, and shows the agent badge exactly for a non-blank GO-ACC |
| TVDisplay.CardFlagsFollowTiers | src/components/TVDisplay.js:507-509 | the card's flags are the tiers, and an unreadable time is calm |
| StatsPage.CountStatus | src/components/StatsPage.js:464-471 | `WCHR`, `WCHS` and `WCHC` each raise their own bucket by one and any other status raises `Autre`; nothing else changes |
| StatsPage.StatusBuckets | src/components/StatsPage.js:461-471 | each named bucket counts its status exactly; the four add up to the records with a status, at most N |
| StatsPage.HourAgreesWithClock | src/components/StatsPage.js:495-497 | the histogram reads the same hour as the passed test |
| StatsPage.LeadingZeroSameHour | src/components/StatsPage.js:206-207 | `9:05` and `09:05` fall in hour 9 |
| StatsPage.HourHistogram | src/components/StatsPage.js:454-501 | hour h counts the records whose extracted hour is h, for h in [0, 24); the sum is at most N |
| StatsPage.SortDescOrdered | src/components/StatsPage.js:512 | the tables are permutations in descending count order |
| StatsPage.ActiveCount | src/components/StatsPage.js:437 | at most the number of records |
| StatsPage.CountHour | src/components/StatsPage.js:496-500 | the array update counts one record's hour |
| StatsPage.CalculateStats | src/components/StatsPage.js:440-553 | the loop gives the statistics `StatsOf` specifies, null for an empty list; the three tables it returns are its own count tables sorted by descending count |
| StatsPage.StatusStatsMembers | src/components/StatsPage.js:505-506 | only buckets with a positive count are listed, at most four |
| StatsPage.StatusStatsListed | src/components/StatsPage.js:505-506 | each bucket is listed exactly when its count is positive |
| StatsPage.KeyStatsCount | src/components/StatsPage.js:514-536 | the airline, destination and terminal tables count each key exactly, and are sorted by descending count |
| PassengerSelector.StatusCell | src/components/PassengerSelector.js:120 | the status is the trimmed SSR1 cell, `WCHR` when it is empty or missing |
| PassengerSelector.PassengerOfRow | src/components/PassengerSelector.js:107-123 | a record exactly for a row with at least six columns |
| PassengerSelector.RowFields | src/components/PassengerSelector.js:109-123 | `idPax`, last name, first name, flight, departure and `goAcc` are the trimmed cells 0 to 5, `ssr1` and terminal cells 6 and 7, the status is `ssr1` or `WCHR` when it is empty, and airline and destination are empty |
| PassengerSelector.DataRows | src/components/PassengerSelector.js:97 | the rows after the header, with their indices |
| PassengerSelector.ParseSheetArray | src/components/PassengerSelector.js:83-147 | the loop gives the records `SelectorRows` specifies |
| PassengerSelector.SelectorRowsFrom | src/components/PassengerSelector.js:97-143 | a record is produced exactly when some data row yields it, whatever its idPax and last name |
| PassengerSelector.SelectorRowsBounded | src/components/PassengerSelector.js:84-86 | empty for absent or empty input, and at most one record per data row |
| PassengerSelector.SelectorRowsInOrder | src/components/PassengerSelector.js:97-143 | row order is kept |
| PassengerSelector.WideRowAppended | src/components/PassengerSelector.js:108-141 | a final row with six columns adds exactly its record at the end |
| PassengerSelector.ByLastNameTotal | src/components/PassengerSelector.js:150-163 | the name comparator is a total preorder |
| PassengerSelector.SortedByNameOrdered | src/components/PassengerSelector.js:150-163 | the drop-down is a permutation by lower-cased last name, then first name |
| PassengerSelector.FindById | src/components/PassengerSelector.js:223 | `find` fails exactly when no record has that id, and otherwise returns the first that does |
| PassengerSelector.HandleChange | src/components/PassengerSelector.js:218-236 | `onSelect(null)` for the empty choice, else `onSelect` of the record with that id when one exists; no call without `onSelect` |
| App.StorageKeysDistinct | src/App.js:365 | two users never share a storage key |
| App.Loaded | src/App.js:363-374 | the stored list replaces state only for a signed-in user whose entry exists and parses |
| App.Persisted | src/App.js:377-381 | the list is saved only for a signed-in user with a non-empty list, and no other entry changes |
| App.SaveThenLoad | src/App.js:363-381 | what is saved loads back |
| App.EmptyListKeepsStoredCopy | src/App.js:378 | emptying the list never overwrites the stored copy |
| App.ScanRecords | src/App.js:384-406 | a scan appends two records: a fresh-id copy and the incoming record, each with its `addedAt` or its own clock reading; the two copies differ only in id when `addedAt` is set or both readings agree |
| App.AddedRecord | src/App.js:409-420 | the added record keeps every field, with a fresh id and `addedAt` |
| App.AppState.constructor | src/App.js:341-345 | no user and an empty list |
| App.AppState.SetUser | src/App.js:353-374 | switching user loads that user's list as `Loaded` says |
| App.AppState.PersistEffect | src/App.js:377-381 | storage becomes `Persisted` of the current list |
| App.AppState.HandleScan | src/App.js:384-406 | the two scan records, with the two clock readings, are appended; earlier records are untouched |
| App.AppState.HandleAddPassenger | src/App.js:409-420 | one record is appended; earlier records are untouched |
| App.AppState.HandleLogout | src/App.js:421-429 | a successful sign-out empties the list, and storage is never cleared |
| AddPassengerModal.FormWith | src/components/AddPassengerModal.js:206-209 | only the named field changes |
| AddPassengerModal.ErrorsUpToHolds | src/components/AddPassengerModal.js:220-242 | after the first n tests, exactly the failed fields among them carry their message |
| AddPassengerModal.FormErrorsListed | src/components/AddPassengerModal.js:220-244 | exactly the unfilled required fields carry their non-empty message |
| AddPassengerModal.ValidIffNoErrors | src/components/AddPassengerModal.js:244 | valid exactly when no error is recorded |
| AddPassengerModal.ErrorsAfterInput | src/components/AddPassengerModal.js:211-217 | a field's shown error is blanked exactly when the new value is non-blank and is otherwise left as it was; other errors are kept |
| AddPassengerModal.BuildRecord | src/components/AddPassengerModal.js:258-270 | the `newPassenger` object: an idPax, the trimmed and upper-cased last name and flight, the trimmed first name, the departure text built from date and time, and every field the object does not set left at its unset value |
| AddPassengerModal.RecordStatus | src/components/AddPassengerModal.js:264-268 | the chosen status is both `status` and `ssr1`, GO-ACC is empty, and SkyPriority and assistance are off |
| AddPassengerModal.RecordNames | src/components/AddPassengerModal.js:260-262 | the last name and flight are the entries trimmed and upper-cased, the first name the entry trimmed; each is normalised and empty exactly for a blank entry |
| AddPassengerModal.NormaliseIdempotent | src/components/AddPassengerModal.js:260-262 | normalising an already normalised name changes nothing |
| AddPassengerModal.StampReadsBack | src/components/AddPassengerModal.js:259 | the idPax is `MANUAL-` followed by the digits of the stamp |
| AddPassengerModal.RecordTimeReadsBack | src/components/AddPassengerModal.js:263 | every page reads back exactly the entered time from the built departure |
| AddPassengerModal.CollectErrors | src/components/AddPassengerModal.js:221-242 | the five tests produce `FormErrors` |
| AddPassengerModal.AddPassengerForm.constructor | src/components/AddPassengerModal.js:192-202 | the default form (status `WCHR`), no errors, not submitting |
| AddPassengerModal.AddPassengerForm.HandleInputChange | src/components/AddPassengerModal.js:204-218 | the named field changes and its error is cleared as `ErrorsAfterInput` says |
| AddPassengerModal.AddPassengerForm.ValidateForm | src/components/AddPassengerModal.js:220-245 | errors become `FormErrors`, and the result is true iff the form is valid |
| AddPassengerModal.AddPassengerForm.BeginSubmit | src/components/AddPassengerModal.js:247-272 | an invalid form sends nothing and keeps the form; a valid one sends the built record and starts submitting |
| AddPassengerModal.AddPassengerForm.FinishSubmit | src/components/AddPassengerModal.js:272-290 | success resets form and errors and closes; failure keeps them; submitting ends either way |
| AddPassengerModal.AddPassengerForm.HandleClose | src/components/AddPassengerModal.js:293-306 | nothing happens while submitting; otherwise it resets and closes |
| ScannerSimulator.FormWith | src/components/ScannerSimulator.js:130-136 | only the named field changes |
| ScannerSimulator.FormValidIff | src/components/ScannerSimulator.js:191-200 | valid exactly when every field but status is non-empty |
| ScannerSimulator.DateOfIso | src/components/ScannerSimulator.js:171 | the date part of an ISO instant is its first ten characters |
| ScannerSimulator.ScanRecord | src/components/ScannerSimulator.js:168-173 | the record carries the id, scan time, date and every form field |
| ScannerSimulator.ScannedTimeReadsBack | src/components/ScannerSimulator.js:238-244 | a `datetime-local` departure reads back as its `HH:MM` |
| ScannerSimulator.Scanner.constructor | src/components/ScannerSimulator.js:119-127 | the default form (status `WCHR`) |
| ScannerSimulator.Scanner.HandleChange | src/components/ScannerSimulator.js:130-136 | only the named field changes; the list is untouched |
| ScannerSimulator.Scanner.HandleSubmit | src/components/ScannerSimulator.js:164-188 | exactly one record is appended and the form is reset |
| FeedbackModal.DisabledIffGuardFails | src/components/FeedbackModal.js:393 | the button is enabled exactly when the submit guard passes and nothing is being submitted |
| FeedbackModal.LimitIsInclusive | src/components/FeedbackModal.js:261-268 | 500 characters are accepted and 501 refused |
| FeedbackModal.FeedbackOf | src/components/FeedbackModal.js:274-280 | the report carries the type, trimmed description and e-mail, timestamp and recipient |
| FeedbackModal.SubmittedDescriptionBounded | src/components/FeedbackModal.js:268-276 | a submitted description is non-empty and at most 500 characters |
| FeedbackModal.FeedbackForm.constructor | src/components/FeedbackModal.js:256-259 | an empty form, not submitting |
| FeedbackModal.FeedbackForm.BeginSubmit | src/components/FeedbackModal.js:265-284 | a report is sent exactly when the guard passes |
| FeedbackModal.FeedbackForm.FinishSubmit | src/components/FeedbackModal.js:284-297 | success resets and closes; failure keeps the form |
| FeedbackModal.FeedbackForm.HandleClose | src/components/FeedbackModal.js:300-307 | nothing happens while submitting; otherwise it resets and closes |
| SiteConfig.GetQueryParam | src/config/siteConfig.js:3-7 | null without a window, else the parameter when present |
| SiteConfig.SiteId | src/config/siteConfig.js:10-13 | the non-empty query parameter, else the non-empty setting, else `CDG_T2A` |
| SiteConfig.GetCurrentSheetId | src/config/siteConfig.js:16-24 | the table's entry, and undefined exactly for an unlisted site |
| SiteConfig.DefaultSiteUnmapped | src/config/siteConfig.js:13-20 | the default site has no sheet |
| SiteConfig.RequireSheetId | src/services/SelectedPaxService.js:11-15 | the sheet id, or the error naming the site |
| SelectedPaxService.BodyOf | src/services/SelectedPaxService.js:43-61 | the posted passenger carries the uuid, the time and the record's fields, with absent values as "" and false |
| SelectedPaxService.AppendOutcome | src/services/SelectedPaxService.js:38-65 | throws without a web-app URL, or with `requireSheetId`'s error without a sheet for the site; otherwise one `append` message |
| SelectedPaxService.DeleteByUuidOutcome | src/services/SelectedPaxService.js:67-71 | nothing without URL or uuid, throws `requireSheetId`'s error for an unmapped site, otherwise one `deleteByUuid` message with that uuid |
| SelectedPaxService.DeleteByRowOutcome | src/services/SelectedPaxService.js:74-78 | nothing without URL or for a missing row or one below 2; otherwise it throws `requireSheetId`'s error exactly when the site has no sheet, and sends one `deleteByRow` message for that row when it has one |
| SelectedPaxService.UpdateOutcome | src/services/SelectedPaxService.js:81-85 | nothing without URL, uuid or fields; otherwise it throws `requireSheetId`'s error exactly when the site has no sheet, and sends one `updateByUuid` message with those fields when it has one |
| SelectedPaxService.HeaderRowProtected | src/services/SelectedPaxService.js:75 | a delete-by-row message never names the header row |
| SelectedPaxService.OneMessagePerCall | src/services/SelectedPaxService.js:63-84 | each call posts at most one message, with its own action |
| SelectedPaxService.Service.constructor | src/services/SelectedPaxService.js:4-5 | the configuration, and an empty outbox |
| SelectedPaxService.Service.AppendSelectedPassenger | src/services/SelectedPaxService.js:38-65 | the outbox grows by the message, and the reply carries the posted uuid with no row number; otherwise the error is returned |
| SelectedPaxService.Service.Emit | src/services/SelectedPaxService.js:18-36 | a send appends its message to the outbox; a throw returns its error |
| SelectedPaxService.Service.DeleteRowByUuid | src/services/SelectedPaxService.js:67-71 | the outbox follows `DeleteByUuidOutcome` |
| SelectedPaxService.Service.DeleteRowByNumber | src/services/SelectedPaxService.js:74-78 | the outbox follows `DeleteByRowOutcome` |
| SelectedPaxService.Service.UpdateSelectedPassenger | src/services/SelectedPaxService.js:81-85 | the outbox follows `UpdateOutcome` |

## Left out

- Rendering, styled-components, CSS animations and the ECharts charts carry no statable logic. The list item's card click and remove button only forward to their parent.
- Network and transport are foreign I/O. The Google Sheets fetch becomes a `Fetch` input: either the `values` or a failure. No API key counts as a failure. The web-app posts (`sendBeacon` or `fetch`) become messages appended to an outbox.
- Timers and the event bus are not modelled. That covers `setInterval`/`setTimeout`, the TV page reload and `window.dispatchEvent`. Events are returned values, the list item's expiry timer is a `TimerFired` step, and "now" is a parameter.
- Authentication is not modelled: the Firebase SDK, the login page and the auth listener. A user is an optional uid.
- Generated ids and times are parameters: `Date.now`, `Math.random`, `uuid` and `crypto.randomUUID`. So are `toLocaleTimeString` texts. The scanner's two `new Date()` calls are taken as one instant. `App.handleScan`'s two readings stay separate parameters.
- The scanner's random-passenger generator is not modelled, because it is random data.
- Local storage is a map from key to a stored value that is either a list or unreadable. The JSON text itself is not modelled.
- Real-valued minutes are used in place of floating point. Dates are milliseconds since local midnight: no time zones, daylight-saving changes or calendar days.
- Percentages in the statistics tables are left out, because `Math.round` of a quotient is floating point.
- `Number`/`parseInt` accept only ASCII digits; anything else reads as NaN. Signs, decimals, exponents, hex and white space inside a piece are not modelled. Raw unmatched text that the list item splits at `:` is covered only this far.
- TVDisplay.DisplayOrdered: only a list whose every time reads is shown to be in (hour, minute) order. With readable and unreadable times mixed, the display comparator is not a preorder, so the engine's sort decides the order and the model's stable insertion sort is one possible result.
- Case mapping and white space are ASCII only. `localeCompare` is code-point order, a total order like the locale's.
- Unicode code points are not UTF-16 units: a length (for example the feedback limit) counts code points.
- JavaScript object key order is not modelled beyond first insertion. Object keys are strings, and prototype names such as `__proto__` are not special.
- The textarea's `maxLength` and other HTML input attributes are browser behaviour, not component logic.
- `HelpModal`, `Header`, `LoginPage`, the global styles and the speech helper are static UI or browser wrappers. They are not part of this model.
- The debug logging in both sheet parsers and in the handlers has no effect on state.

## Findings

| source | as written | input that shows it | evidently intended | confidence | as-written member | corrected member |
|---|---|---|---|---|---|---|
| src/components/PassengerList.js:397-413 | The refresh interval is set up in an effect keyed on `passengers.length`, so every tick runs the `refreshData` of that render. It merges the list as it was then and commits the result over the current list. | One listed passenger with no agent, and a sheet that assigns one. Toggle SkyPriority between two ticks. Each tick announces the assignment again, and the second tick undoes the toggle. | Each tick merges the current list: the assignment is announced once and later ticks change nothing. | not executed | PassengerList.TickAsWritten, PassengerList.StaleClosureRepeatsAndReverts | PassengerList.Tick, PassengerList.TickSettles |
