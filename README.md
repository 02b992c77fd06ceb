# Harmony audio dashboard: a verified model of its core

The Harmony audio dashboard lets a school plan recurring announcements
(bells, music, voice messages, alarms). It also lets staff play sounds by
hand and raise emergency alarms. This project models the logic the React
components keep inside their handlers, and proves what that logic does:

- **Schedule form** (`schedule_form.dfy`, `time_of_day.dfy`). It models the
  field rules of the form schema, the `HH:MM`/`H:MM` time pattern, how a
  submitted schedule record is built, and the day-checkbox handler.
- **Schedule registry** (`schedule_list.dfy`, `schedules_page.dfy`,
  `index_page.dfy`). The pure list updates (toggle, delete, append) are
  functions. The two pages that hold the list are classes whose handlers
  reassign it.
- **Upcoming schedules** (`upcoming.dfy`). This is the filter to active
  schedules, then a stable sort by (hour, minute), then the "Mon, Tue, Wed
  +N more" summary. The sort is specified as sorted, a permutation and
  stable, and a stable sort by that key is proved to be unique.
- **Playback surfaces** (`sound_library.dfy`, `manual_controls.dfy`,
  `emergency_alarm.dfy`). Each is a class whose handlers update its fields.
  Each `setTimeout` auto-stop is an event method that the environment calls
  later. No time passes in the model.
- **Audio utilities** (`audio_playback.dfy`, `audio_utils.dfy`,
  `sample_data.dfy`). This covers the module-level element cache of
  `playAudio`, the player object and its two flags, the sound catalog, the
  weekday list, and the sample schedules. The sample schedules are checked
  against the form's rules.

The model keeps the behaviour the code has, including its quirks:

- The manual controls never preempt.
- Confirming an emergency always plays `alarm-1`.
- Cancelling the alarm dialog leaves the selection set.
- A submitted schedule is always active (`initialData?.isActive || true`).
- `soundSource` is never checked.
- Durations and repetition counts may be fractional.
- Every auto-stop timer clears state whatever is playing when it fires.

In several places the system's documented behaviour differs from its code.
The model follows the code in each case:

- Duration and repetitions are documented as integers. The code only bounds
  them.
- Schedule ids are documented as unique and sources as valid for their
  category. The code checks neither, and `add` appends duplicates.
- Toggling an absent id is documented as a not-found error. The code maps
  silently, and the list stays the same.
- Starting a manual sound is documented to preempt the playing one. The
  manual controls only reset to idle.
- Alarms are documented with a 5 s demonstration window. The emergency
  panel has no timer, and the other surfaces use 3000 ms.
- A stale auto-stop is documented as unable to affect a newer session.
  Nothing guards against it: `SoundLibrary.StaleTimerClearsNewerSound` and
  `ManualControls.StaleTimerResets` exhibit it.

## Model

| member | source | states |
|---|---|---|
| `AudioPlayback.Player.constructor` | src/utils/audioUtils.ts:66-83 | a new player's internal flag and its exposed `isPlaying` both start true |
| `AudioPlayback.Player.Play` | src/utils/audioUtils.ts:74-77 | `play` sets the internal flag true |
| `AudioPlayback.Player.Stop` | src/utils/audioUtils.ts:78-81 | `stop` sets the internal flag false, however often it is called |
| `AudioPlayback.AudioCache.constructor` | src/utils/audioUtils.ts:24 | the element dictionary starts empty |
| `AudioPlayback.AudioCache.PlayAudio` | src/utils/audioUtils.ts:49-84 | the key set grows by exactly the requested source; earlier entries keep their elements; a new element is created only when the key was absent; the returned player is fresh, for that source, and playing |
| `AudioPlayback.PlayTwiceReusesElement` | src/utils/audioUtils.ts:51-58 | a second `playAudio` of a source reuses the cached element, and the cache still holds one entry |
| `AudioPlayback.StopLeavesExposedFlag` | src/utils/audioUtils.ts:66-82 | after `stop`, the exposed `isPlaying` still reads true while the internal flag is false |
| `AudioUtils.CatalogWellFormed` | src/utils/audioUtils.ts:27-46 | catalog ids are pairwise distinct, and each starts with its category's name and a dash |
| `AudioUtils.ChimeHasNoCatalogEntry` | src/utils/audioUtils.ts:4-46 | `chime` is the only sound type without a catalog entry; every other type lists at least one sound |
| `AudioUtils.DaysOfWeekWellFormed` | src/utils/audioUtils.ts:90 | seven distinct days, Monday first and Sunday last; the sample working week is the first five |
| `TimeOfDay.PaddedTimeAccepted` | src/components/ScheduleForm.tsx:32 | every `HH:MM` with hour 0-23 and minute 0-59 matches the pattern and parses back to that hour and minute |
| `TimeOfDay.ShortTimeAccepted` | src/components/ScheduleForm.tsx:32 | every one-digit-hour `H:MM` with minute 0-59 matches the pattern and parses back to that hour and minute |
| `TimeOfDay.AcceptedTimeIsClock` | src/components/ScheduleForm.tsx:32 | conversely, every accepted string is one of those two spellings of an hour below 24 and a minute below 60 |
| `TimeOfDay.TimePatternBoundaries` | src/components/ScheduleForm.tsx:32 | "24:00", "12:60", "8:5" and "008:05" are refused; "23:59" is accepted |
| `TimeOfDay.LeadingZeroIrrelevant` | src/components/UpcomingSchedules.tsx:17-18 | "8:05" and "08:05" are both accepted and give the same sort key (8, 5) |
| `TimeOfDay.ParseOfShape` | src/components/UpcomingSchedules.tsx:17-18 | splitting at ':' and reading both parts as decimal numbers gives the hour digits' value and the minute |
| `TimeOfDay.CompareIsLexicographicOrder` | src/components/UpcomingSchedules.tsx:16-24 | the comparator orders by hour, then minute; the order is total, antisymmetric and transitive |
| `ScheduleForm.ValidateReportsEachRule` | src/components/ScheduleForm.tsx:30-38 | a message is reported exactly when its rule is broken; the values pass exactly when the name is at least 2 UTF-16 code units long, the time matches, the type is not `chime`, 1 ≤ duration ≤ 300, some day is chosen and 1 ≤ repetitions ≤ 10 |
| `ScheduleForm.Utf16Length` | src/components/ScheduleForm.tsx:31 | a string's JavaScript length lies between its number of characters and twice that |
| `ScheduleForm.NameCountsCodeUnits` | src/components/ScheduleForm.tsx:31 | the one-character name U+1F514 is two code units long and meets the minimum; a one-letter name does not |
| `ScheduleForm.SourceIsUnchecked` | src/components/ScheduleForm.tsx:34 | any sound source, catalog id or not, leaves the verdict unchanged |
| `ScheduleForm.FractionalBoundsAccepted` | src/components/ScheduleForm.tsx:35-37 | fractional values inside the bounds pass, the bounds are inclusive, and 300.5 or 0.5 is refused |
| `ScheduleForm.BlankFormRefused` | src/components/ScheduleForm.tsx:50-58 | the blank add form reports the name, time and days messages, in that order, and nothing else |
| `ScheduleForm.SubmitRecord` | src/components/ScheduleForm.tsx:64-77 | the record carries the form's seven values unchanged; it keeps a non-empty edited id; a new schedule, or an edited one with the empty id, gets the fresh id; it is always active |
| `ScheduleForm.UnchangedEditReactivates` | src/components/ScheduleForm.tsx:74 | submitting an edit unchanged returns the same schedule switched on, so an inactive schedule comes back different |
| `ScheduleForm.WithoutDayCounts` | src/components/ScheduleForm.tsx:245-249 | unchecking removes every occurrence of the day and keeps every other day's count |
| `ScheduleForm.WithoutAbsentDay` | src/components/ScheduleForm.tsx:245-249 | unchecking a day that is not listed leaves the list as it was |
| `ScheduleForm.ToggleDayEffect` | src/components/ScheduleForm.tsx:241-249 | checking appends the day after the existing ones; unchecking leaves it unchecked, keeps the other days' counts, and filters each part of the list independently, so the order is kept |
| `ScheduleForm.CheckThenUncheckRestores` | src/components/ScheduleForm.tsx:242-249 | checking and then unchecking an unchecked day restores the list |
| `ScheduleForm.AvailableSoundsOfType` | src/components/ScheduleForm.tsx:62 | the offered sounds are empty exactly for `chime`, and each offered id belongs to the chosen category |
| `ScheduleList.ToggleChangesOnlyFlags` | src/pages/Schedules.tsx:18-22 | only `isActive` changes: it becomes the given flag on every schedule with the id; other schedules and all other fields, length and order stay |
| `ScheduleList.ToggleOffThenBackRestores` | src/pages/Schedules.tsx:18-22 | switching an id off and back to its original flag restores the list exactly |
| `ScheduleList.ToggleLastWins` | src/pages/Schedules.tsx:18-22 | two toggles of one id amount to the second |
| `ScheduleList.DeleteRemovesExactlyId` | src/pages/Schedules.tsx:39-41 | no schedule with the id remains, every other schedule keeps its count, and the length drops by the number of matches |
| `ScheduleList.DeleteDistributes` | src/pages/Schedules.tsx:39-41 | deleting works part by part, so the survivors keep their relative order |
| `ScheduleList.DeleteAbsentIsNoOp` | src/pages/Schedules.tsx:39-41 | deleting leaves the list unchanged exactly when the id is absent |
| `ScheduleList.AppendKeepsDuplicates` | src/pages/Schedules.tsx:51 | the new schedule goes last, the old entries are untouched, and an id already present is added again |
| `Schedules.Page.constructor` | src/pages/Schedules.tsx:13-14 | the page starts with the sample schedules and the dialog closed |
| `Schedules.Page.ToggleSchedule` | src/pages/Schedules.tsx:17-22 | the list becomes the toggled list; the dialog flag is kept |
| `Schedules.Page.EditSchedule` | src/pages/Schedules.tsx:31-36 | editing changes nothing |
| `Schedules.Page.DeleteSchedule` | src/pages/Schedules.tsx:38-41 | the list becomes the filtered list, and stays the same when the id is absent |
| `Schedules.Page.AddSchedule` | src/pages/Schedules.tsx:50-52 | the schedule is appended, its id's count grows by one, and the dialog closes |
| `Schedules.Page.SetDialogOpen` | src/pages/Schedules.tsx:71 | the dialog flag follows the dialog's open state; the list is kept |
| `Schedules.AddThenDelete` | src/pages/Schedules.tsx:38-52 | adding a schedule and deleting its id leaves the samples without that id |
| `Index.Page.constructor` | src/pages/Index.tsx:15 | the dashboard starts with the sample schedules |
| `Index.Page.ToggleSchedule` | src/pages/Index.tsx:18-23 | the list becomes the toggled list |
| `Index.Page.EditSchedule` | src/pages/Index.tsx:32-39 | editing changes nothing |
| `Index.Page.DeleteSchedule` | src/pages/Index.tsx:41-45 | the list becomes the filtered list, and stays the same when the id is absent |
| `Index.Page.UpcomingView` | src/pages/Index.tsx:68 | the projection of the current list holds exactly its active schedules, each as often as in the list, sorted by time |
| `Index.ActiveAfterSwitchOff` | src/pages/Index.tsx:18-23 | switching off the lunch schedule leaves the morning and dismissal schedules active |
| `Index.UpcomingAfterSwitchOff` | src/pages/Index.tsx:68 | after that toggle the projection is the morning then the dismissal schedule |
| `Index.SwitchOffLunchBell` | src/pages/Index.tsx:68 | the dashboard then shows the times 08:00 and 15:30 |
| `Upcoming.ActiveOnlyMembers` | src/components/UpcomingSchedules.tsx:15 | the filter keeps each active schedule as often as it occurs and drops every inactive one |
| `Upcoming.SortPermutes` | src/components/UpcomingSchedules.tsx:16-24 | the sort is a permutation of its input |
| `Upcoming.SortOrders` | src/components/UpcomingSchedules.tsx:16-24 | the sort's output is ascending by (hour, minute) |
| `Upcoming.SortKeepsRuns` | src/components/UpcomingSchedules.tsx:16 | schedules with equal keys keep their input order (stability) |
| `Upcoming.UpcomingSpec` | src/components/UpcomingSchedules.tsx:14-24 | the projection holds exactly the active schedules with their counts, is sorted, and keeps the filter's order among equal times |
| `Upcoming.StableSortIsUnique` | src/components/UpcomingSchedules.tsx:16 | two sorted lists with the same equal-key runs are equal, so any stable sort gives the same projection |
| `Upcoming.SampleKeys` | src/components/UpcomingSchedules.tsx:17-18 | the active samples' keys are (8, 0), (12, 30) and (15, 30) |
| `Upcoming.SampleUpcoming` | src/components/UpcomingSchedules.tsx:14-24 | for the samples the projection is 08:00, 12:30, 15:30, without the inactive 09:45 |
| `Upcoming.DecimalRoundTrip` | src/components/UpcomingSchedules.tsx:64 | the printed count reads back as the same number |
| `Upcoming.SummaryMoreSuffix` | src/components/UpcomingSchedules.tsx:63-64 | the summary ends in " more" exactly when there are more than three days; it is then the joined first three abbreviations, " +", and the number of remaining days |
| `Upcoming.SummaryExamples` | src/components/UpcomingSchedules.tsx:63-64 | the working week gives "Mon, Tue, Wed +2 more", Monday alone gives "Mon", and three days give no suffix |
| `SoundLibrary.Library.constructor` | src/components/SoundLibrary.tsx:22-23 | nothing is playing and no player is stored |
| `SoundLibrary.Library.HandlePlay` | src/components/SoundLibrary.tsx:26-60 | clicking the playing id stops its player, clears the playing id, makes no `onPlay` and changes no other player; clicking another id stops the previous player when its id is truthy, plays a fresh player stored under the id, records the id as playing, reports `onPlay` once and arms a timer, and the effect cleanup that follows the map change stops every player stored before the click; at most one stored player plays at a time, and cached elements are kept |
| `SoundLibrary.Library.StopStored` | src/components/SoundLibrary.tsx:41-42 | stopping the player under one key changes no other stored player |
| `SoundLibrary.Library.StartFresh` | src/components/SoundLibrary.tsx:46-58 | a fresh playing player is stored under the id, which becomes the playing id; play then `onPlay` are logged, the player's timer is armed, and the cached elements are kept |
| `SoundLibrary.Library.FireTimer` | src/components/SoundLibrary.tsx:55-58 | a timer stops the player it captured and clears the playing id, whatever is playing |
| `SoundLibrary.Library.Unmount` | src/components/SoundLibrary.tsx:26-30 | on unmount the cleanup stops every stored player |
| `SoundLibrary.StopAll` | src/components/SoundLibrary.tsx:28 | the loop stops every player of the map it is given |
| `SoundLibrary.SameSoundTwice` | src/components/SoundLibrary.tsx:33-38 | a second click on the same sound stops it; the calls are play, `onPlay`, stop |
| `SoundLibrary.PreemptStopsFirst` | src/components/SoundLibrary.tsx:40-52 | a different sound stops the first player before the second is played |
| `SoundLibrary.StaleTimerClearsNewerSound` | src/components/SoundLibrary.tsx:55-58 | the first sound's timer clears the playing id while the newer sound still plays, so the newer sound's tile no longer shows it as playing |
| `SoundLibrary.OrphanStoppedByNextStart` | src/components/SoundLibrary.tsx:26-58 | after a stale timer clears the playing id, the still-playing second sound is not stopped by the handler of the next start (only play and `onPlay` are called) but is stopped by the effect cleanup, and the new sound plays |
| `ManualControls.Panel.constructor` | src/components/ManualControls.tsx:10-11 | the panel starts idle |
| `ManualControls.Panel.HandlePlay` | src/components/ManualControls.tsx:21-40 | while playing, a click only resets to idle; while idle, it marks the clicked button active, plays that sound and arms a timer; only the five buttons' ids are ever active or started; the cache gains only the clicked id and every cached element stays as it was |
| `ManualControls.Panel.FireTimer` | src/components/ManualControls.tsx:36-39 | a timer resets the panel to idle, whatever is active |
| `ManualControls.NeverPreempts` | src/components/ManualControls.tsx:23-28 | a second button pressed during playback starts nothing, and the first sound keeps playing |
| `ManualControls.StaleTimerResets` | src/components/ManualControls.tsx:36-39 | an earlier sound's timer resets the panel while a newer sound plays |
| `ManualControls.OnlyClickedHighlighted` | src/components/ManualControls.tsx:58-65 | after a start, exactly the clicked button shows as playing |
| `EmergencyAlarm.NameOf` | src/components/EmergencyAlarm.tsx:71 | the shown name exists exactly when some emergency type has the selected id, and is that type's name |
| `EmergencyAlarm.NameOfFirstMatch` | src/components/EmergencyAlarm.tsx:16-21 | the lookup finds the first type with the id |
| `EmergencyAlarm.Card.constructor` | src/components/EmergencyAlarm.tsx:12-14 | no alarm is active, the dialog is closed and nothing is selected |
| `EmergencyAlarm.Card.TriggerAlarm` | src/components/EmergencyAlarm.tsx:23-26 | a type button, offered only while inactive, selects the type and opens the dialog, without activating or playing anything |
| `EmergencyAlarm.Card.ConfirmAlarm` | src/components/EmergencyAlarm.tsx:28-37 | confirming closes the dialog, activates the alarm, keeps the selection and plays a fresh `alarm-1` player; the cache gains only `alarm-1` and every cached element stays as it was |
| `EmergencyAlarm.Card.CancelDialog` | src/components/EmergencyAlarm.tsx:115-125 | cancelling only closes the dialog; the selection stays set and nothing plays |
| `EmergencyAlarm.Card.StopAlarm` | src/components/EmergencyAlarm.tsx:39-44 | stopping deactivates the alarm and clears the selection, without touching any player |
| `EmergencyAlarm.LockdownSoundsAlarmOne` | src/components/EmergencyAlarm.tsx:28-33 | a confirmed lockdown shows "Lockdown" and sounds `alarm-1` |
| `EmergencyAlarm.StopLeavesAlarmSounding` | src/components/EmergencyAlarm.tsx:39-44 | after stopping, the alarm sound still plays |
| `EmergencyAlarm.CancelKeepsSelection` | src/components/EmergencyAlarm.tsx:115-125 | after cancelling, the selection is still set and nothing was played |
| `EmergencyAlarm.RepeatedAlarmsShareElement` | src/components/EmergencyAlarm.tsx:33 | the cached `alarm-1` element after the second confirm is the one the first confirm created; the cache holds only that key, and two players were started |
| `SampleData.PassesForm` | src/components/ScheduleForm.tsx:30-38 | a schedule with a padded valid time, a name of at least 2 characters and the other fields within the form's bounds passes validation |
| `SampleData.SampleSchedulesPassForm` | src/utils/audioUtils.ts:93-138 | every sample schedule passes the form's rules |
| `SampleData.SampleIdsDistinct` | src/utils/audioUtils.ts:93-138 | the sample ids are distinct |
| `SampleData.SampleSourcesInCatalog` | src/utils/audioUtils.ts:93-138 | each sample's source is listed in the catalog for its sound type |

## Left out

- Rendering, icons, layout, toasts, dialog widgets and the `console` logging are left out. Only the dialogs' open flags and their confirm and cancel events are kept.
- `CurrentTime` and `getFormattedTime` are left out. They read the wall clock and format times by locale.
- Real playback is left out: `HTMLAudioElement`, the `volume` that `playAudio` sets, and the unused `playPromise`. An element is an opaque object, and a player is a flag.
- The form library's internals are left out, including `z.coerce.number` turning text into numbers or NaN. Duration and repetitions arrive as numbers, modelled as exact reals, so float rounding is not modelled.
- `uuidv4()` is replaced by a fresh-id parameter of `ScheduleForm.Submit`.
- `TimeOfDay.ParseClock`: on fields made only of digits, including an empty field, `Number` agrees with the model. A field that `Number` cannot read as a numeric literal ("ab:cd") or a missing minute field ("0800") gives NaN in the source, and the comparator's order is then implementation-defined. Other fields with non-digits (" 8", "+8", "8.5", "1e1") give numbers (8, 8, 8.5, 10) that the model's digit-by-digit reading does not always match: it reads "8.5" as 805 and "1e1" as 101. The model reads non-digits as 0 and a missing field as 0, so `Upcoming.UpcomingSpec` says nothing faithful about the order of such times. The form never lets one through.
- `SoundLibrary.Library.HandlePlay`: the effect cleanup's stop calls are not appended to `log`, because their order follows the map's insertion order, which the model does not keep; their effect on the players is stated. React runs that cleanup after the render that follows the click; the model runs it at the end of the click.
- `SoundLibrary.Library.FireTimer`: any armed timer may fire next. Equal 3000 ms delays would make them fire in start order, and the model does not impose that order.
- `ManualControls.Panel.FireTimer`: the same holds; timers are only counted.
- Time itself is left out. The 3000 ms delay is only the constant `AudioPlayback.AutoStopMs`, and React's batching of state updates is not modelled: each handler is one atomic step.
- The sound library's delete button and the library page's tabs are left out; they only forward callbacks.
