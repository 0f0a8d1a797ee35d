# Dobby Display: a verified model of the display controller, the quick-glance fetcher and the push client

Dobby Display is a small wall-display system with three parts:

- a receiver service. It keeps one display-state record (`mode`, `title`,
  `content`, `updated`), and each HTTP handler replaces that record or, for
  a refresh, re-stamps it;
- a quick-glance fetcher. It reads calendars and configured routines, and
  picks the current and next event, a routine countdown with its urgency,
  and at most one popup. It then pushes the data only when the key fields
  differ from what the display shows;
- a push client. It builds the JSON payloads for each display mode.

The model is written in Dafny and verified. Its modules follow the programs:

| module | file | what it models |
|---|---|---|
| `Wrappers` | wrappers.dfy | `Option` |
| `Text` | text.dfy | the Python string operations used: `str(n)`, `int(s)`, `split()`, `split(':')`, `replace(c, "")`, `in`, `lower()`, `endswith`, `os.path.basename` |
| `JsonData` | json_data.dfy | decoded JSON values, truthiness, `dict.get` with a default, `int(...)` of a value |
| `Receiver` | receiver.dfy | the record, the message pipeline as functions, the reducer `Handle`, and the class `Display` with one method per endpoint |
| `ReceiverLemmas` | receiver_lemmas.dfy | what the handlers promise |
| `Calendar` | calendar.dfy | events, the all-day filters, the time-ordered upcoming list |
| `Countdown` | countdown.dfy | the `"{h}h {m}m"` / `"{m}m"` countdown text, the minute count read back out of it, the urgency levels |
| `Routines` | routines.dfy | the routine countdown and the popup trigger with its in-run cache entry (class `EventCache`) |
| `CacheFile` | cache.dfy | the events cache file: `load_cache`, `save_cache` and the `last_popup` entry read back by the next run |
| `QuickGlance` | quickglance.dfy | current/next event selection, the quick-glance data, the push decision |
| `Push` | push.dfy | the payload builders |
| `Pipeline` | pipeline.dfy | what the receiver shows for each payload the clients build, and the fetcher's change check against the state its own push installed |

Time is an integer count of seconds on the display's local wall clock.
Calendar days are `t / 86400`, and the weekday is `(day + 3) % 7`, with
Monday as 0 (1 January 1970 was a Thursday). Three things are parameters of
the model, because they are library or operating-system calls:

- the ISO-8601 parse of an event time or a `countdown_to` value is a function
  `string -> Option<int>`, with None where the parse raises;
- `strftime` is a function `(time, pattern) -> string`;
- the ISO text of a stored time stamp is a function `int -> string`.

The calendar lists the fetcher reads (`today`, `upcoming` for a calendar
name), the clock, the dinner and the family tasks are inputs too.

Where the code and its documented intent differ, the model follows the code:

- `dict.get(key, default)` uses the default only when the key is absent. A
  present but empty or null value is kept, so a generic update with
  `"mode": ""` stores `""` rather than `"custom"`.
- `/api/clear` is the dashboard reset (receiver.py:120-123). It does not go
  back to the quick-look view.
- A countdown message whose target has passed, or does not parse, becomes an
  `"info"` message with the full message-mode content and the info colour
  (receiver.py:192-198, then 211-221). Mode `countdown` is not produced.
- The last `else` of the content shaping (receiver.py:245-251) cannot be
  reached: the mode table only yields the four modes handled above it. The
  model has no such branch.
- The message handler imports `datetime` again inside its countdown branch
  (receiver.py:173). That makes `datetime` a local name of the whole
  handler, so stamping the new record (receiver.py:257) raises
  UnboundLocalError unless that import has run, which only a countdown
  with a truthy `countdown_to` does. Every other message request, a null
  or empty body (`request.json or {}`) among them, answers HTTP 500 and
  leaves the record unchanged (`ReceiverLemmas.MessageFailures`). The model
  keeps this as written in `Receiver.MessageReply`, `Receiver.Handle` and
  `Display.SendMessage`, and states what each message type would show in
  `Receiver.IntendedMessageReply`, with `datetime` from the module import
  (see Findings).
- Under either reading, a truthy body that is not a dict or an
  `auto_dismiss` value `int()` rejects makes the handler raise (HTTP 500);
  so, in the intended handler, do a list or dict as the type and countdown
  content that is not a dict. The record is then left unchanged.
- The default celebration icon at receiver.py:230 is the text
  U+00F0 U+0178 U+017D U+2030, the party-popper emoji mis-decoded as
  Windows-1252. The model uses those four characters as written.
- A calendar-matched event that has not started, but whose leave time has
  already passed, reaches the `else` at fetch_data.py:281-282. That branch
  reads `mins` before any assignment, so `get_routine_countdown` raises
  UnboundLocalError, and with it `build_quickglance`. The model returns
  `Raises` there (`Routines.LeaveTimePassedRaises`,
  `QuickGlance.QuickglanceFails`). Line 280, after the two returns, is dead.
- `get_calendar_events` keeps an event whose start dateTime is non-empty
  and has no `"T00:00:00"`. `get_upcoming_events` also drops events whose
  start does not parse, and sorts the rest by parsed start.

## Model

| member | source | states |
|---|---|---|
| Text.DigitsValueOfNatToString | fetch_data.py:269-271 | the decimal numeral `str(n)` writes for a natural number has value n |
| Text.IntToString | push.py:116-118 | `str(i)`: non-empty; the numeral of i for i ≥ 0, "-" followed by the numeral of −i otherwise |
| Text.ParseIntOfIntToString | fetch_data.py:491 | `int(str(i)) == i` for every integer |
| Text.ParseInt | fetch_data.py:491 | `int(s)` on text: surrounding white space, an optional sign and ASCII digits, None where Python raises; `Text.ParseIntOfIntToString` states that it reads back every `str(i)` |
| Text.WordsOfOne | fetch_data.py:490 | `split()` of one non-empty word without white space gives that word |
| Text.WordsOfTwo | fetch_data.py:490 | `split()` of two such words joined by a blank gives the two words |
| Text.DeleteAbsent | fetch_data.py:490 | removing a character that does not occur leaves the text unchanged |
| Text.DeleteAppend | fetch_data.py:490 | removing a character distributes over concatenation |
| Text.Basename | receiver.py:130 | the basename has no '/', is a suffix of the path, and is either the whole path or the part right after its last '/' |
| JsonData.ToInt | receiver.py:165 | `int(v)` of an integer is itself; null, lists and dicts raise |
| Receiver.Decompose | receiver.py:178-181 | a positive span splits into days and hours < 24, minutes < 60, seconds < 60 that add back up to the span |
| Receiver.StatusJson | receiver.py:74-77 | the status reply has exactly the four record keys, the record's mode, title and content, and the update time as ISO text or null |
| Receiver.TemplateFileName | receiver.py:130-132 | the file name ends in ".html" and has no '/'; a basename already ending in ".html" is kept, otherwise ".html" is appended |
| Receiver.UpdateReply | receiver.py:94-106 | the generic update handler as a reply; `ReceiverLemmas.UpdateOutcomes` states its 400, 500 and success cases |
| Receiver.Prepare | receiver.py:162-198 | the countdown pre-processing of a message body; `ReceiverLemmas.LiveCountdown`, `ExpiredOrInvalidCountdown` and `CountdownWithoutTarget` state its three outcomes |
| Receiver.LookupScreen | receiver.py:201-208 | the mode table lookup; `ReceiverLemmas.ModeTable` states it |
| Receiver.ShapeContent | receiver.py:210-251 | the content for each screen; `ReceiverLemmas.MessageModeContent`, `CelebrationRemapsFields`, `AlertShape` and `LiveCountdown` state its four shapes |
| Receiver.MessageReply | receiver.py:143-261 | the message handler as written: the intended reply when the request runs the local import at receiver.py:173, and 500 otherwise, as stamping the record at receiver.py:257 then raises; `ReceiverLemmas.MessageFailures` and `ShownReply` state when it succeeds and what it stores |
| Receiver.TypeColor | receiver.py:264-273 | the colour of a message type; `ReceiverLemmas.ColorTable` states it |
| Receiver.Handle | receiver.py:74-287 | one request applied to the record; the `ReceiverLemmas` lemmas state what each request does to it |
| Receiver.Display.constructor | receiver.py:57-62 | the record starts as quick-look mode, "Quick Look", empty content, no time stamp |
| Receiver.Display.Status | receiver.py:74-77 | the status reply is the record itself |
| Receiver.Display.Refresh | receiver.py:79-87 | only the time stamp changes; the reply carries the new record |
| Receiver.Display.Update | receiver.py:89-106 | the new record and reply are those of the update reducer step |
| Receiver.Display.Dashboard | receiver.py:108-118 | the record becomes the dashboard record stamped `now`; the reply is a bare success |
| Receiver.Display.Clear | receiver.py:120-123 | clear does exactly what the dashboard reset does |
| Receiver.Display.SendMessage | receiver.py:143-261 | the imperative handler, with its in-place rewrites of the body and a flag for whether the local import has run, ends in the state and reply of the handler as written |
| Receiver.IntendedMessageReply | receiver.py:162-258 | the message handler with `datetime` from the module import; `ReceiverLemmas.IntendedMessageFailures` and `ShownReply` state when it succeeds and what it stores |
| Receiver.Display.ClearMessage | receiver.py:276-287 | the record becomes the quick-look record stamped `now`, and the reply carries it |
| ReceiverLemmas.UpdateOutcomes | receiver.py:94-103 | 400 exactly for an absent or falsy body; success exactly for a non-empty dict, with mode, title and content defaulted only when absent; otherwise the record is kept |
| ReceiverLemmas.StatusReadsOnly | receiver.py:74-77 | a status query returns the record and changes nothing |
| ReceiverLemmas.RefreshOnlyRestamps | receiver.py:79-87 | a refresh keeps mode, title and content, and sets the time stamp |
| ReceiverLemmas.ClearIsDashboard | receiver.py:108-123 | clear and dashboard produce the same state and reply: the fixed dashboard record |
| ReceiverLemmas.ClearMessageRestoresInitial | receiver.py:276-287 | clear-message stores the start-up record with a time stamp; the start-up record has none |
| ReceiverLemmas.ResetsIdempotent | receiver.py:108-123 | each of the three resets applied twice equals one application, and what it stores does not depend on the previous record apart from the time stamp |
| ReceiverLemmas.LastWriteWins | receiver.py:98-103 | after any request, a later accepted request other than refresh or status decides the record on its own; a refused one keeps the record |
| ReceiverLemmas.ModeTable | receiver.py:201-208 | celebration, countdown and alert choose their own modes, and every other text chooses message mode; a list or dict type cannot be looked up |
| ReceiverLemmas.CountdownWithoutTarget | receiver.py:168-257 | as written, a countdown without a truthy target answers 500; the intended handler keeps countdown mode, showing the caller's content plus its type and auto-dismiss value, or fails if that content is not a dict |
| ReceiverLemmas.LiveCountdown | receiver.py:178-191 | a future target gives countdown mode: days are null below one day, hours, minutes and seconds are in range and add up to the time left, and event and message are defaulted |
| ReceiverLemmas.NinetyMinutesAhead | receiver.py:178-191 | a target 5400 s ahead shows exactly no days, 1 hour, 30 minutes, 0 seconds, event "Event" |
| ReceiverLemmas.ShownReply | receiver.py:253-258 | once pre-processing, lookup, auto-dismiss and content succeed, the intended record is the mode name, the title (default "Message"), that content and `now`; as written it is stored only when the local import has run, and the reply is 500 otherwise |
| ReceiverLemmas.ExpiredOrInvalidCountdown | receiver.py:192-198 | a past or unparseable target becomes message mode of type "info" with "Event has passed!" or "Invalid countdown time", all eight message keys, and the info colour unless one is given |
| ReceiverLemmas.MessageModeContent | receiver.py:211-221 | as written, every type other than celebration, countdown and alert answers 500; the intended handler gives message mode with the eight keys, the "4rem"/"2rem" defaults, the original type and the given or the type's colour |
| ReceiverLemmas.ColorTable | receiver.py:264-273 | the five listed colours, and #667eea for every other type |
| ReceiverLemmas.WarningIsAMessage | receiver.py:205 | as written, a warning answers 500; the intended handler shows it in message mode, keeping type "warning", orange by default |
| ReceiverLemmas.CelebrationRemapsFields | receiver.py:226-234 | as written, a celebration answers 500; the intended handler shows message as `name`, sub_message as `message`, "Celebration!" as its default title, and exactly its six keys |
| ReceiverLemmas.GrandmaTurnsEighty | receiver.py:226-234 | the worked example "Grandma" / "Turns 80!": 500 as written, and the whole record the intended handler stores |
| ReceiverLemmas.AlertShape | receiver.py:235-244 | as written, an alert answers 500; under the intended handler it has severity "alert", details [] and action "" by default, and exactly its seven keys |
| ReceiverLemmas.MessageWithoutBody | receiver.py:162 | as written, a missing body answers 500; the intended handler shows the empty info message with every default: "4rem"/"2rem", no auto-dismiss, the info colour, not sticky |
| ReceiverLemmas.MessageFailures | receiver.py:162-261 | as written, a message request either succeeds or fails with 500 and keeps the record; it fails exactly when it does not run the local import or `int()` rejects its auto-dismiss value, so only a countdown with a truthy target can succeed |
| ReceiverLemmas.RefusedWithoutImport | receiver.py:173-257 | as written, a request that does not run the local import answers 500 |
| ReceiverLemmas.PlainMessageRefused | receiver.py:173-257 | as written, the plain message "hi" answers 500 and keeps the record, while the intended handler shows it |
| ReceiverLemmas.IntendedMessageFailures | receiver.py:162-251 | the intended handler either succeeds or fails with 500 and keeps the record, and it fails exactly when it raises: a non-dict body, an auto-dismiss value `int()` rejects, a list or dict type, or a countdown without `countdown_to` whose content is not a dict |
| ReceiverLemmas.TemplateFileNameIdempotent | receiver.py:130-132 | sanitising a sanitised name changes nothing |
| Calendar.Weekday | fetch_data.py:225 | the weekday is in 0..6, and the epoch day 1 January 1970 (a Thursday) is 3 |
| Calendar.NextDayWeekday | fetch_data.py:225 | one day later the weekday advances by one, Sunday wrapping to Monday |
| Calendar.TodayEvents | fetch_data.py:86-92 | the filter loop keeps exactly the timed-event subsequence |
| Calendar.TimedOnlyMembers | fetch_data.py:86-92 | an event is kept exactly when it is an input with a non-empty start that does not contain "T00:00:00" |
| Calendar.TimedOnlyAppend | fetch_data.py:86-92 | the filter commutes with concatenation, so order is kept |
| Calendar.Insert | fetch_data.py:139 | inserting one entry adds exactly that entry to the multiset |
| Calendar.InsertSorted | fetch_data.py:139 | insertion into a time-ordered list keeps it ordered |
| Calendar.SortByTime | fetch_data.py:139 | the sort yields a time-ordered permutation of its input |
| Calendar.UpcomingEvents | fetch_data.py:125-139 | the loop and sort compute the sorted list of schedulable events |
| Calendar.SchedulableMembers | fetch_data.py:125-136 | an entry is scheduled exactly when its event is a timed input whose start parses to the entry's time |
| Calendar.UpcomingOrdered | fetch_data.py:125-139 | the upcoming list is time-ordered, a permutation of the schedulable events, and each entry's time is the parse of its start |
| Countdown.CountdownText | fetch_data.py:268-271 | the countdown text is non-empty and ends in "m" |
| Countdown.CountdownShowsHours | fetch_data.py:268-271 | the text shows an hours field exactly when there are whole hours; its fields are the decimal hours and minutes, or the minutes alone |
| Countdown.TotalMinutes | fetch_data.py:490-491 | the minutes the urgency check reads from a countdown; `Countdown.TotalMinutesOfCountdown` states that they are 60·h + m |
| Countdown.Level | fetch_data.py:492-495 | critical exactly below 6 minutes, urgent exactly from 6 to 15, safe exactly above 15 |
| Countdown.UrgencyOf | fetch_data.py:488-495 | no countdown is "safe"; otherwise an urgency exists exactly when the minutes read back |
| Countdown.TotalMinutesOfCountdown | fetch_data.py:490-491 | reading the minutes back out of the text for h hours and m minutes gives 60·h + m |
| Countdown.TotalMinutesOfSpan | fetch_data.py:266-271 | the minutes read back out of the countdown for a span are its whole minutes |
| Countdown.UrgencyOfCountdown | fetch_data.py:488-495 | the urgency of a formatted countdown is the level of its total minutes |
| Routines.SecondsOfDay | fetch_data.py:266 | `timedelta.seconds` is below one day, differs from the span by whole days, and is the span itself when that is shorter than a day |
| Routines.Label | fetch_data.py:274-279 | the routine's name when it leaves 0 minutes before the event, otherwise "Leave (" with the leave time formatted as "%-I:%M" and ")" |
| Routines.ScanUnmatched | fetch_data.py:251-258 | the calendar scan finds nothing exactly when no event's summary contains the trigger, ignoring case |
| Routines.ClockTime | fetch_data.py:303-304 | a default time that reads is an hour below 24 and a minute below 60 |
| Routines.ScanOne | fetch_data.py:252-290 | one event of the calendar loop computes that event's scan step |
| Routines.ScanToday | fetch_data.py:248-290 | the calendar loop with its early returns computes the scan of the event list |
| Routines.RoutineOne | fetch_data.py:228-323 | one routine of the loop computes that routine's step |
| Routines.GetRoutineCountdown | fetch_data.py:219-325 | the routine loop computes the first deciding routine's outcome, or no countdown |
| Routines.RoutineCountdown | fetch_data.py:219-325 | the outcome of the first routine that decides; `Routines.SkippedRoutine`, `LeaveTimePassedRaises` and `QuickGlance.RoutineCountdownReadable` state its properties |
| Routines.DefaultTime | fetch_data.py:301-323 | the default-time path; `Routines.DefaultTimeShown`, `DefaultTimeHidden` and `MalformedDefaultTimeRaises` state its cases |
| Routines.SkippedRoutine | fetch_data.py:227-299 | a disabled, popup, not-today routine, or one that requires an event none matches, is skipped |
| Routines.DefaultTimeShown | fetch_data.py:301-323 | a shown default-time countdown has a valid time, a leave time ahead whose `.seconds` part is under two hours, the whole minutes of that part, and the routine's label and name; with a leave offset that is not negative, the leave time is under two hours away and the minutes are those left |
| Routines.LeaveWithinDay | fetch_data.py:301-304 | a leave time on today's clock that is still ahead is less than a day away |
| Routines.DefaultTimeHidden | fetch_data.py:306-312 | a passed leave time skips the routine; two or more hours ahead shows no countdown |
| Routines.MalformedDefaultTimeRaises | fetch_data.py:303-304 | a default time that is not a valid "H:M" raises |
| Routines.SplitOnJoined | fetch_data.py:303 | `split(":")` of two colon-free texts joined by ':' gives the two texts |
| Routines.ClockTimeOfText | fetch_data.py:303-304 | a valid "H:M" written with `str` reads back as its hour and minute |
| Routines.LeaveTimePassedRaises | fetch_data.py:281-290 | when a calendar's only event today matches and has not started but its leave time has passed, the whole countdown raises |
| Routines.WindowOne | fetch_data.py:180-215 | one upcoming event gives a popup exactly when it is in the window and not the last one shown |
| Routines.WindowScan | fetch_data.py:179-215 | the inner popup loop finds the first event in the window |
| Routines.EventCache.constructor | fetch_data.py:158 | no popup has been recorded |
| Routines.EventCache.CheckPopupRoutines | fetch_data.py:148-217 | the popup returned is that of the popup search, and the cache records its id and time exactly when one fires |
| Routines.FirstInWindowFound | fetch_data.py:179-197 | a routine finds a popup exactly when some upcoming event is in its window, and the popup is that event's |
| Routines.FirstInWindowIsFirst | fetch_data.py:179-197 | the popup is that of the first upcoming event in the window: every event before it is outside the window or was the last one shown |
| Routines.FirstInWindow | fetch_data.py:179-197 | the inner popup loop as a function; `Routines.FirstInWindowFound` and `FirstInWindowIsFirst` state it |
| Routines.PopupFires | fetch_data.py:160-197 | a popup fires exactly when an enabled popup routine for today has an upcoming event in its window that is not the last shown |
| Routines.PopupSearchIsFirst | fetch_data.py:160-197 | the popup is that of the first popup routine active today that finds an event in its window |
| Routines.PopupSearch | fetch_data.py:148-217 | the popup check as a function; `Routines.PopupFires`, `PopupSearchIsFirst` and `PopupNotRepeated` state it |
| Routines.FiringInWindow | fetch_data.py:193-205 | a popup's countdown spells the whole minutes left, which are within the warning window, and its id is new |
| Routines.PopupIsNew | fetch_data.py:195-197 | the popup raised never carries the last shown id |
| Routines.PopupNotRepeated | fetch_data.py:195-197 | given the id it raised as the last one shown, the search does not return that popup again |
| CacheFile.SaveCache | fetch_data.py:47-53 | as written, the saved file holds exactly "events", which is the argument, and "timestamp" |
| CacheFile.WithLastPopup | fetch_data.py:207-208 | recording a popup makes its id the last popup id, and leaves every other key as it was |
| CacheFile.SavedPopupIsLost | fetch_data.py:36-158 | as written, a file the fetcher saved yields no last popup id when loaded, whatever was recorded |
| CacheFile.PopupRepeatsAsWritten | fetch_data.py:157-209 | as written, the popup one run raises and records is raised again by the next run with the same events |
| CacheFile.SaveCacheKeepingKeys | fetch_data.py:47-53 | the corrected save stores the cache dict's own keys, plus the time stamp |
| CacheFile.SavedPopupIsKept | fetch_data.py:36-209 | with the corrected save, the next run reads back the id the last run recorded |
| CacheFile.PopupNotRepeatedAcrossRuns | fetch_data.py:157-209 | with the corrected save, a popup raised and recorded is not raised again by any later run |
| QuickGlance.SelectCurrent | fetch_data.py:449-461 | the first loop selects the last current event, with its end time and location |
| QuickGlance.LastCurrentNone | fetch_data.py:449-461 | there is no current event exactly when none of today's events is current |
| QuickGlance.LastCurrentIsLast | fetch_data.py:449-461 | the selected event is current, and no event after it is current |
| QuickGlance.FirstFuture | fetch_data.py:464-475 | the next event is an upcoming event that has not started |
| QuickGlance.SelectNext | fetch_data.py:464-475 | the second loop, with its break, selects the first event not started, with the weekday added when it is not today |
| QuickGlance.NextIsEarliest | fetch_data.py:464-475 | on the ordered list the next event is the earliest future one; there is none exactly when all have started |
| QuickGlance.BuildQuickglance | fetch_data.py:432-518 | the builder computes the quick-glance data, or raises where the routine countdown does |
| QuickGlance.QuickglanceData | fetch_data.py:432-518 | the quick-glance data as a function; `QuickGlance.QuickglanceFails`, `QuickglanceUrgency` and `QuickglanceEvents` state its fields |
| QuickGlance.RoutineCountdownReadable | fetch_data.py:219-325 | every routine countdown is empty or the text for some span |
| QuickGlance.ScanReadable | fetch_data.py:251-279 | every countdown a calendar match decides is the text for some span |
| QuickGlance.QuickglanceFails | fetch_data.py:482-491 | building fails exactly when the routine countdown raises; the urgency parse never does |
| QuickGlance.QuickglanceUrgency | fetch_data.py:487-495 | the data carries the routine's countdown and label, and "safe" or the level of its minutes |
| QuickGlance.QuickglanceEvents | fetch_data.py:505-510 | "Free Time" exactly when no current event is found or its summary is empty or "Free Time"; otherwise its summary; "None" and no time when nothing lies ahead, otherwise the next event's summary |
| QuickGlance.DataMapEvents | fetch_data.py:505-510 | the event fields fall back to "Free Time", "None" and "" |
| QuickGlance.PushSkipped | fetch_data.py:542-553 | the push is skipped exactly when it is not forced, the status and its content are objects, and the six key fields agree |
| QuickGlance.ShouldPush | fetch_data.py:542-553 | the push decision; `QuickGlance.PushSkipped` states when it skips |
| QuickGlance.SubsetsAgree | fetch_data.py:548-551 | two key subsets are equal exactly when every key field agrees |
| QuickGlance.QuickglancePayload | fetch_data.py:559 | the posted payload is an object whose content is the data |
| Push.PushCountdown | push.py:113-125 | event and message always, and days, hours, minutes exactly when given, as decimal text |
| Push.PushMessage | push.py:157-204 | the seven fixed keys; color and speak only when truthy; countdown_to with its label (falling back to the message) only when truthy |
| Push.PushRun | push.py:24-32 | the run payload; `Pipeline.FixedModesShown` states what the receiver shows for it |
| Push.PushMeals | push.py:34-42 | the meals payload; `Pipeline.FixedModesShown` states what the receiver shows for it |
| Push.PushRoutine | push.py:44-52 | the routine payload with the steps wrapped; `Pipeline.FixedModesShown` states what the receiver shows for it |
| Push.PushQuickglance | push.py:68-79 | the quick-glance payload; `Pipeline.FixedModesShown` states what the receiver shows for it |
| Push.PushCustom | push.py:54-66 | the custom payload; `Pipeline.CustomShown` states its speak key and what the receiver shows |
| Push.PushAlert | push.py:142-155 | the alert payload; `Pipeline.AlertShown` states what the receiver shows for it |
| Pipeline.UpdateShown | receiver.py:98-103 | a builder's mode, title and content are what the update stores |
| Pipeline.FixedModesShown | push.py:24-79 | the run, meals, routine and quick-glance builders show their fixed modes and titles with the given data |
| Pipeline.CustomShown | push.py:54-61 | a custom push shows `{"text": text}` and always carries a speak key, null without speech |
| Pipeline.AlertShown | push.py:142-151 | an alert push shows alert mode with its severity and details, [] when none |
| Pipeline.CountdownPushShown | push.py:119-123 | a countdown push shows countdown mode with the pushed content |
| Pipeline.PushedMessageReceived | push.py:157-204 | as written, the receiver accepts a pushed message exactly when its type is "countdown" and it has a target; any other answers 500 and keeps the record |
| Pipeline.PushedMessageShown | push.py:186-202 | as written, a pushed plain message answers 500; the intended handler shows its text, the given or type colour, and its auto-dismiss and sticky values |
| Pipeline.DefaultWarningShown | push.py:157-169 | as written, a warning pushed with the defaults answers 500; the intended handler makes it orange, dismissed after 10 s and not sticky |
| Pipeline.UnchangedQuickglanceNotRepushed | fetch_data.py:539-559 | after its push is installed, the same data is not pushed again, and new data is pushed exactly when a key field differs |

## Findings

| source | as written | input that shows it | evidently intended | confidence | as-written member | corrected member |
|---|---|---|---|---|---|---|
| receiver.py:173 | `from datetime import datetime` inside the countdown branch makes `datetime` local to `send_message`, so `datetime.now()` at receiver.py:257 raises UnboundLocalError whenever that branch did not run | `{"message": "hi"}`, an empty body, any warning, celebration or alert, or a countdown without `countdown_to`: 500 and the record kept | `datetime` is the module import of receiver.py:12, so every valid message is shown | not executed | ReceiverLemmas.PlainMessageRefused | ReceiverLemmas.IntendedMessageFailures |
| fetch_data.py:47-53 | `save_cache(events)` writes `{"events": events, "timestamp": ...}`, and `check_popup_routines` passes the whole cache dict, so the recorded `last_popup` is saved only under `["events"]` | any run that raises a popup; the next run with the event still in its window loads the file, finds no top-level `last_popup` and raises the same popup again | the cache dict is saved with its own keys, so the next run reads `last_popup` back and skips that event | not executed | CacheFile.PopupRepeatsAsWritten | CacheFile.PopupNotRepeatedAcrossRuns |

## Left out

- Flask routing, `jsonify`, template rendering, logging, the index, config and health pages, and the config file I/O. The reply datatype stands for the JSON answers.
- The template upload's file write (receiver.py:133-135). Only the file-name sanitising is modelled.
- The subprocess, `curl`, Todoist and `requests` calls, YAML loading, the cache file's reads and writes and secrets in the fetcher. Their results (event lists, dinner, tasks, the status reply, the decoded cache file) are inputs; what is saved and read back is modelled in `CacheFile`.
- Routines.PopupNotRepeated: it is about one search given the last shown id. The program as written never reads back the id it records (see Findings), so across runs the popup repeats; the model proves no repeat only for the corrected save, in `CacheFile.PopupNotRepeatedAcrossRuns`.
- CacheFile.LastPopupId: a cache whose `last_popup` is present but not a dict makes `.get` raise AttributeError; the model reads no last popup instead. A file that holds valid JSON but not a dict is treated the same way.
- `datetime.now`, `fromisoformat` and `strftime`. They are parameters, so the fixed −6 h offset and the TypeError between naive and aware times are not modelled.
- Sub-second time: microseconds, and the float `mins_until` of the popup check. Times are whole seconds.
- The shadowed first `parse_event_time` (fetch_data.py:327-338). It is replaced at import by the later definition, which is the one modelled.
- The `__main__` popup payload and its minute extraction (fetch_data.py:582-600). For an "Xh Ym" countdown it reads the hours as the minutes.
- The placeholder weather is a constant. The Todoist dinner and the list of family tasks are inputs.
- Concurrency between Flask's request threads.
- The Android WebView client (MainActivity.java). Its source is not part of this model.
- `push_weather`, `push_celebration`, `push_verse`, `push_dashboard`, `clear_display`, `push_template` and the argparse `main` functions. They are fixed dictionaries or plain requests.
- Calendar.SortByTime: the model proves the result sorted and a permutation. It does not prove that equal start times keep their input order, as Python's stable sort does.
- Text: white space is the ASCII set Python recognises, including U+001C to U+001F. Non-ASCII white space (U+0085, U+00A0, U+2000 and others), non-ASCII digits and letters, and `int()`'s underscores are not modelled.
- JsonData: Python's `True == 1` when a type value is compared or looked up is not modelled.
- JsonData: JSON numbers are integers only. A float value is not modelled, so `int()` truncating a float `auto_dismiss` (receiver.py:165) and float values in content are not covered.
- Routines: YAML's sexagesimal reading of an unquoted `event_time` is not modelled, and routine flags are taken to be booleans or absent.
- Routines: an event whose `summary` key holds null would raise on `.lower()`; summaries are text or absent.
- ReceiverLemmas.MessageWithoutBody: a missing body is taken to reach the handler as `request.json` being None, which a JSON `null` body gives; as written it then answers 500 like any request that skips the local import. Flask versions that refuse a request without a JSON content type (400 or 415) before the handler runs are not modelled.
