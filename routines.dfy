/** The configured routines: the countdown a quick-glance routine shows
    (from a matching calendar event or from its default time), and the
    popup a popup routine raises shortly before an upcoming event, with the
    cache entry that keeps it from repeating. */
module Routines {
  import opened Wrappers
  import Text
  import opened Calendar
  import opened Countdown

  /** One entry of the routines configuration. Optional keys are None when
      absent; `trigger_days`, `trigger_event_contains`, `event_time` and
      `require_event` hold their defaults ([], "", "", false) when absent. */
  datatype Routine = Routine(
    name: Option<string>,
    enabled: Option<bool>,
    showOnQuickglance: Option<bool>,
    triggerDays: seq<int>,
    triggerCalendar: Option<string>,
    triggerEventContains: string,
    eventTime: string,
    requireEvent: bool,
    minutesBefore: Option<int>,
    leaveMinutesBefore: Option<int>)
  {
    function Name(): string { name.GetOr("Event") }
    predicate IsEnabled() { enabled.GetOr(true) }
    predicate OnQuickglance() { showOnQuickglance.GetOr(true) }
    function CalendarName(): string { triggerCalendar.GetOr("Me and You") }
    function WarnMinutes(): int { minutesBefore.GetOr(15) }
    function LeaveMinutes(): int { leaveMinutesBefore.GetOr(15) }
  }

  /** What the fetcher reads from outside: the clock, the time parser and
      formatter, and the lists the two calendar fetchers return for a
      calendar name. */
  datatype Env = Env(
    now: Time,
    parse: TimeParser,
    format: Formatter,
    today: string -> seq<Event>,
    upcoming: string -> seq<Scheduled>)

  /** The triple `get_routine_countdown` returns (countdown, label, routine
      name), or the exception it raises. */
  datatype Outcome = Show(countdown: string, countdownLabel: string, routine: string) | Raises

  const NoCountdown: Outcome := Show("", "", "")

  /** A routine that is considered today; popup routines are those with
      `show_on_quickglance` false. */
  predicate ActiveToday(r: Routine, env: Env, popup: bool) {
    r.IsEnabled() && r.OnQuickglance() == !popup && Weekday(env.now) in r.triggerDays
  }

  /** `timedelta.seconds` of a span: what is left after whole days, which
      is the span itself when it is shorter than a day. */
  function SecondsOfDay(span: int): (s: nat)
    ensures s < 86400
    ensures (span - s) % 86400 == 0
    ensures 0 <= span < 86400 ==> s == span
  {
    span % 86400
  }

  /** The label: the routine name for a bedtime-like routine (leaving 0
      minutes before), otherwise the clock time to leave. */
  function Label(r: Routine, leave: Time, env: Env): (l: string)
    ensures r.LeaveMinutes() == 0 ==> l == r.Name()
    ensures r.LeaveMinutes() != 0 ==> l == "Leave (" + env.format(leave, "%-I:%M") + ")"
  {
    if r.LeaveMinutes() == 0 then r.Name() else "Leave (" + env.format(leave, "%-I:%M") + ")"
  }

  // ---------------------------------------------------------------------
  // Calendar match
  // ---------------------------------------------------------------------

  /** The event's summary contains the trigger text, ignoring case. */
  predicate Matches(r: Routine, e: Event) {
    Text.Contains(Text.Lower(e.summary.GetOr("")), Text.Lower(r.triggerEventContains))
  }

  /** The scan of today's events: nothing matched, something matched but
      decided nothing, or the routine's outcome was decided. */
  datatype Scan = Unmatched | MatchedOnly | Decided(outcome: Outcome)

  /** One event of the scan. A matching event that starts later today decides
      the outcome: its countdown to the leave time, or, when the leave time
      has already passed, the UnboundLocalError the code raises there. */
  function EventStep(r: Routine, e: Event, env: Env): Scan {
    if !Matches(r, e) then Unmatched
    else match ParseEventTime(env.parse, e.start)
      case None => MatchedOnly
      case Some(t) =>
        if t <= env.now then MatchedOnly
        else
          var leave := t - r.LeaveMinutes() * 60;
          if leave > env.now then
            Decided(Show(CountdownFor(SecondsOfDay(leave - env.now)), Label(r, leave, env), r.Name()))
          else Decided(Raises)
  }

  /** Joins what the events before have found with the scan of the rest. */
  function Merge(found: bool, rest: Scan): Scan {
    if found && rest.Unmatched? then MatchedOnly else rest
  }

  /** One event's step followed by the scan of the events after it. */
  function ScanStep(step: Scan, rest: Scan): Scan {
    if step.Decided? then step else Merge(step.MatchedOnly?, rest)
  }

  function ScanEvents(r: Routine, events: seq<Event>, env: Env): Scan
    decreases |events|
  {
    if events == [] then Unmatched
    else ScanStep(EventStep(r, events[0], env), ScanEvents(r, events[1..], env))
  }

  /** The scan finds nothing exactly when no event matches. */
  lemma {:induction false} ScanUnmatched(r: Routine, events: seq<Event>, env: Env)
    ensures ScanEvents(r, events, env).Unmatched? <==> forall e :: e in events ==> !Matches(r, e)
    decreases |events|
  {
    if events != [] {
      ScanUnmatched(r, events[1..], env);
      assert events == [events[0]] + events[1..];
    }
  }

  // ---------------------------------------------------------------------
  // Default time
  // ---------------------------------------------------------------------

  /** `hour, minute = map(int, text.split(":"))` followed by the range check
      of `datetime.replace`; None where either raises ValueError. */
  function ClockTime(text: string): (r: Option<(int, int)>)
    ensures r.Some? ==> 0 <= r.value.0 < 24 && 0 <= r.value.1 < 60
  {
    var parts := Text.SplitOn(text, ':');
    if |parts| != 2 then None
    else match (Text.ParseInt(parts[0]), Text.ParseInt(parts[1]))
      case (Some(h), Some(m)) => if 0 <= h < 24 && 0 <= m < 60 then Some((h, m)) else None
      case _ => None
  }

  /** Today at the given clock time, less the minutes to leave early. */
  function LeaveAt(r: Routine, h: int, m: int, now: Time): Time {
    Day(now) * 86400 + h * 3600 + m * 60 - r.LeaveMinutes() * 60
  }

  /** The default-time path: None to go on with the next routine. */
  function DefaultTime(r: Routine, env: Env): Option<Outcome> {
    if r.eventTime == "" then None
    else match ClockTime(r.eventTime)
      case None => Some(Raises)
      case Some((h, m)) =>
        var leave := LeaveAt(r, h, m, env.now);
        if leave <= env.now then None
        else
          var secs := SecondsOfDay(leave - env.now);
          if secs / 3600 >= 2 then Some(NoCountdown)
          else Some(Show(CountdownFor(secs), Label(r, leave, env), r.Name()))
  }

  /** One routine: None to go on with the next one. */
  function RoutineStep(r: Routine, env: Env): Option<Outcome> {
    if !ActiveToday(r, env, false) then None
    else
      var scan := if r.triggerEventContains != "" then ScanEvents(r, env.today(r.CalendarName()), env) else Unmatched;
      if scan.Decided? then Some(scan.outcome)
      else if r.requireEvent && scan.Unmatched? then None
      else DefaultTime(r, env)
  }

  /** `get_routine_countdown`: the first routine that decides, or no countdown. */
  function RoutineCountdown(routines: seq<Routine>, env: Env): Outcome
    decreases |routines|
  {
    if routines == [] then NoCountdown
    else match RoutineStep(routines[0], env)
      case Some(o) => o
      case None => RoutineCountdown(routines[1..], env)
  }

  /** The body of the calendar loop for one event. */
  method ScanOne(r: Routine, e: Event, env: Env) returns (step: Scan)
    ensures step == EventStep(r, e, env)
  {
    if !Text.Contains(Text.Lower(e.summary.GetOr("")), Text.Lower(r.triggerEventContains)) {
      return Unmatched;
    }
    var start := ParseEventTime(env.parse, e.start);
    if start.Some? && start.value > env.now {
      var leave := start.value - r.LeaveMinutes() * 60;
      if leave > env.now {
        var secs := SecondsOfDay(leave - env.now);
        var countdown := CountdownText(secs / 3600, secs % 3600 / 60);
        if r.LeaveMinutes() == 0 {
          return Decided(Show(countdown, r.Name(), r.Name()));
        }
        return Decided(Show(countdown, "Leave (" + env.format(leave, "%-I:%M") + ")", r.Name()));
      }
      return Decided(Raises);
    }
    return MatchedOnly;
  }

  /** The calendar scan of one routine, with early return. */
  method ScanToday(r: Routine, events: seq<Event>, env: Env) returns (scan: Scan)
    ensures scan == ScanEvents(r, events, env)
  {
    var found := false;
    var i := 0;
    while i < |events|
      invariant 0 <= i <= |events|
      invariant ScanEvents(r, events, env) == Merge(found, ScanEvents(r, events[i..], env))
    {
      var e := events[i];
      ghost var rest := events[i..];
      assert rest[0] == e && rest[1..] == events[i + 1..];
      var step := ScanOne(r, e, env);
      if step.Decided? {
        return step;
      }
      found := found || step.MatchedOnly?;
      i := i + 1;
    }
    scan := if found then MatchedOnly else Unmatched;
  }

  /** The body of the routine loop for one routine: None to go on. */
  method RoutineOne(r: Routine, env: Env) returns (o: Option<Outcome>)
    ensures o == RoutineStep(r, env)
  {
    if !r.IsEnabled() || !r.OnQuickglance() || Weekday(env.now) !in r.triggerDays {
      return None;
    }
    var scan := Unmatched;
    if r.triggerEventContains != "" {
      scan := ScanToday(r, env.today(r.CalendarName()), env);
      if scan.Decided? {
        return Some(scan.outcome);
      }
    }
    if r.requireEvent && scan.Unmatched? {
      return None;
    }
    if r.eventTime != "" {
      var clock := ClockTime(r.eventTime);
      if clock.None? {
        return Some(Raises);
      }
      var (h, m) := clock.value;
      var leave := LeaveAt(r, h, m, env.now);
      if leave > env.now {
        var secs := SecondsOfDay(leave - env.now);
        if secs / 3600 >= 2 {
          return Some(NoCountdown);
        }
        return Some(Show(CountdownFor(secs), Label(r, leave, env), r.Name()));
      }
    }
    return None;
  }

  /** The loop of `get_routine_countdown`. */
  method GetRoutineCountdown(routines: seq<Routine>, env: Env) returns (out: Outcome)
    ensures out == RoutineCountdown(routines, env)
  {
    var i := 0;
    while i < |routines|
      invariant 0 <= i <= |routines|
      invariant RoutineCountdown(routines, env) == RoutineCountdown(routines[i..], env)
    {
      var r := routines[i];
      assert routines[i..][0] == r && routines[i..][1..] == routines[i + 1..];
      var o := RoutineOne(r, env);
      if o.Some? {
        return o.value;
      }
      i := i + 1;
    }
    out := NoCountdown;
  }

  // ---------------------------------------------------------------------
  // Properties of the routine countdown
  // ---------------------------------------------------------------------

  /** A routine that is disabled, is a popup routine, is not for today, or
      requires an event that no event of its calendar matches, is skipped. */
  lemma SkippedRoutine(r: Routine, rest: seq<Routine>, env: Env)
    requires !ActiveToday(r, env, false)
          || (r.requireEvent && (r.triggerEventContains == ""
                || forall e :: e in env.today(r.CalendarName()) ==> !Matches(r, e)))
    ensures RoutineCountdown([r] + rest, env) == RoutineCountdown(rest, env)
  {
    assert ([r] + rest)[0] == r && ([r] + rest)[1..] == rest;
    if ActiveToday(r, env, false) && r.triggerEventContains != "" {
      ScanUnmatched(r, env.today(r.CalendarName()), env);
    }
  }

  /** A default-time countdown is shown only while the leave time is ahead and
      less than two hours away; then its minutes are the minutes left, under
      120, its label follows the routine's leave setting and it names the
      routine. */
  lemma DefaultTimeShown(r: Routine, env: Env)
    requires DefaultTime(r, env).Some? && DefaultTime(r, env).value.Show?
    requires DefaultTime(r, env).value.countdown != ""
    ensures ClockTime(r.eventTime).Some?
    ensures var (h, m) := ClockTime(r.eventTime).value;
      var leave := LeaveAt(r, h, m, env.now);
      var o := DefaultTime(r, env).value;
      && leave > env.now
      && SecondsOfDay(leave - env.now) < 7200
      && TotalMinutes(o.countdown) == Some(SecondsOfDay(leave - env.now) / 60)
      && o.countdownLabel == Label(r, leave, env)
      && o.routine == r.Name()
      && (r.LeaveMinutes() >= 0 ==>
            leave - env.now < 7200 && TotalMinutes(o.countdown) == Some((leave - env.now) / 60))
  {
    var (h, m) := ClockTime(r.eventTime).value;
    var leave := LeaveAt(r, h, m, env.now);
    assert leave > env.now;
    var secs := SecondsOfDay(leave - env.now);
    assert secs / 3600 < 2;
    assert DefaultTime(r, env) == Some(Show(CountdownFor(secs), Label(r, leave, env), r.Name()));
    TotalMinutesOfSpan(secs);
    if r.LeaveMinutes() >= 0 {
      LeaveWithinDay(r, h, m, env.now);
    }
  }

  /** A leave time on the clock of today, when it is still ahead, is less than
      a day away. */
  lemma LeaveWithinDay(r: Routine, h: int, m: int, now: Time)
    requires 0 <= h < 24 && 0 <= m < 60 && r.LeaveMinutes() >= 0
    requires LeaveAt(r, h, m, now) > now
    ensures LeaveAt(r, h, m, now) - now < 86400
  {
    assert now == Day(now) * 86400 + now % 86400;
  }

  /** The default-time path skips the routine once the leave time has passed,
      and shows nothing when it is two or more hours away. */
  lemma DefaultTimeHidden(r: Routine, env: Env, h: int, m: int)
    requires r.eventTime != "" && ClockTime(r.eventTime) == Some((h, m))
    ensures var leave := LeaveAt(r, h, m, env.now);
      && (leave <= env.now ==> DefaultTime(r, env).None?)
      && (leave > env.now && SecondsOfDay(leave - env.now) >= 7200 ==> DefaultTime(r, env) == Some(NoCountdown))
  {
  }

  /** A default time that is not "H:M" with an hour below 24 and a minute
      below 60 raises. */
  lemma MalformedDefaultTimeRaises(r: Routine, env: Env)
    requires r.eventTime != "" && ClockTime(r.eventTime).None?
    ensures DefaultTime(r, env) == Some(Raises)
  {
  }

  /** `split(":")` of two colon-free fields joined by a colon. */
  lemma {:induction false} SplitOnJoined(a: string, b: string)
    requires ':' !in a && ':' !in b
    ensures Text.SplitOn(a + ":" + b, ':') == [a, b]
    decreases |a|
  {
    if a == [] {
      assert a + ":" + b == [':'] + b;
      assert ([':'] + b)[1..] == b;
      SplitOnWhole(b);
    } else {
      assert (a + ":" + b)[1..] == a[1..] + ":" + b;
      SplitOnJoined(a[1..], b);
      assert [a[0]] + a[1..] == a;
    }
  }

  lemma {:induction false} SplitOnWhole(s: string)
    requires ':' !in s
    ensures Text.SplitOn(s, ':') == [s]
    decreases |s|
  {
    if s != [] {
      SplitOnWhole(s[1..]);
      assert [s[0]] + s[1..] == s;
    }
  }

  /** An "H:M" default time written with `str` reads back as its hour and minute. */
  lemma ClockTimeOfText(h: nat, m: nat)
    requires h < 24 && m < 60
    ensures ClockTime(Text.NatToString(h) + ":" + Text.NatToString(m)) == Some((h, m))
  {
    var hs := Text.NatToString(h);
    var ms := Text.NatToString(m);
    assert ':' !in hs && ':' !in ms;
    SplitOnJoined(hs, ms);
    Text.ParseIntOfIntToString(h);
    Text.ParseIntOfIntToString(m);
  }

  /** A matching event that has not started but whose leave time has passed
      makes the whole countdown raise, whatever routines follow. */
  lemma LeaveTimePassedRaises(r: Routine, rest: seq<Routine>, env: Env, e: Event, t: Time)
    requires ActiveToday(r, env, false) && r.triggerEventContains != ""
    requires env.today(r.CalendarName()) == [e]
    requires Matches(r, e) && ParseEventTime(env.parse, e.start) == Some(t)
    requires env.now < t <= env.now + r.LeaveMinutes() * 60
    ensures RoutineCountdown([r] + rest, env) == Raises
  {
    assert ([r] + rest)[0] == r;
    assert ScanEvents(r, [e], env) == Decided(Raises);
  }

  // ---------------------------------------------------------------------
  // Popup routines
  // ---------------------------------------------------------------------

  /** The popup data: event summary, countdown text and start time. */
  datatype Popup = Popup(event: string, countdown: string, time: string)

  /** The cache entry of the last popup shown. */
  datatype PopupRecord = PopupRecord(eventId: string, time: Time)

  /** A popup and the event id it is recorded under. */
  datatype Firing = Firing(popup: Popup, eventId: string)

  /** The id of an event starting at `t`: summary, "_", and the start as
      year, month, day, hour and minute. */
  function EventId(e: Event, t: Time, env: Env): string {
    e.summary.GetOr("") + "_" + env.format(t, "%Y%m%d%H%M")
  }

  /** An upcoming event starting within the routine's warning window that is
      not the one last shown. */
  predicate InWindow(r: Routine, s: Scheduled, env: Env, last: Option<string>) {
    var t := ParseEventTime(env.parse, s.event.start);
    && t.Some?
    && env.now < t.value
    && t.value - env.now <= r.WarnMinutes() * 60
    && last != Some(EventId(s.event, t.value, env))
  }

  /** The popup for an event in the window. */
  function FiringOf(r: Routine, s: Scheduled, env: Env, last: Option<string>): Firing
    requires InWindow(r, s, env, last)
  {
    var t := ParseEventTime(env.parse, s.event.start).value;
    Firing(Popup(s.event.summary.GetOr(""), CountdownFor(t - env.now), env.format(t, "%-I:%M %p")),
           EventId(s.event, t, env))
  }

  function FirstInWindow(r: Routine, events: seq<Scheduled>, env: Env, last: Option<string>): Option<Firing>
    decreases |events|
  {
    if events == [] then None
    else if InWindow(r, events[0], env, last) then Some(FiringOf(r, events[0], env, last))
    else FirstInWindow(r, events[1..], env, last)
  }

  /** The popup `check_popup_routines` raises, given the id last shown. */
  function PopupSearch(routines: seq<Routine>, env: Env, last: Option<string>): Option<Firing>
    decreases |routines|
  {
    if routines == [] then None
    else
      var r := routines[0];
      var f := if ActiveToday(r, env, true) then FirstInWindow(r, env.upcoming(r.CalendarName()), env, last) else None;
      if f.Some? then f else PopupSearch(routines[1..], env, last)
  }

  /** The body of the inner popup loop for one upcoming event. */
  method WindowOne(r: Routine, s: Scheduled, env: Env, last: Option<string>) returns (found: Option<Firing>)
    ensures found == (if InWindow(r, s, env, last) then Some(FiringOf(r, s, env, last)) else None)
  {
    var start := ParseEventTime(env.parse, s.event.start);
    if start.None? || start.value <= env.now {
      return None;
    }
    var diff := start.value - env.now;
    if diff <= r.WarnMinutes() * 60 {
      var id := s.event.summary.GetOr("") + "_" + env.format(start.value, "%Y%m%d%H%M");
      if last == Some(id) {
        return None;
      }
      var countdown := CountdownText(diff / 3600, diff % 3600 / 60);
      return Some(Firing(Popup(s.event.summary.GetOr(""), countdown, env.format(start.value, "%-I:%M %p")), id));
    }
    return None;
  }

  /** The inner loop of `check_popup_routines`: the first upcoming event in
      the routine's window, with its popup. */
  method WindowScan(r: Routine, events: seq<Scheduled>, env: Env, last: Option<string>) returns (found: Option<Firing>)
    ensures found == FirstInWindow(r, events, env, last)
  {
    var j := 0;
    while j < |events|
      invariant 0 <= j <= |events|
      invariant FirstInWindow(r, events, env, last) == FirstInWindow(r, events[j..], env, last)
    {
      var s := events[j];
      assert events[j..][0] == s && events[j..][1..] == events[j + 1..];
      found := WindowOne(r, s, env, last);
      if found.Some? {
        return;
      }
      j := j + 1;
    }
    found := None;
  }

  /** The `last_popup` entry of the cache dict during one run of the popup
      check. How that dict reaches the next run is modelled in `CacheFile`. */
  class EventCache {
    var lastPopup: Option<PopupRecord>

    constructor ()
      ensures lastPopup == None
    {
      lastPopup := None;
    }

    function LastEventId(): Option<string>
      reads this
    {
      if lastPopup.Some? then Some(lastPopup.value.eventId) else None
    }

    /** `check_popup_routines`: the first popup routine with an event in its
        window raises the popup, and the cache records it. */
    method CheckPopupRoutines(routines: seq<Routine>, env: Env) returns (popup: Option<Popup>)
      modifies this
      ensures var f := PopupSearch(routines, env, old(LastEventId()));
        && popup == (if f.Some? then Some(f.value.popup) else None)
        && lastPopup == (if f.Some? then Some(PopupRecord(f.value.eventId, env.now)) else old(lastPopup))
    {
      var last := LastEventId();
      var i := 0;
      while i < |routines|
        invariant 0 <= i <= |routines|
        invariant lastPopup == old(lastPopup) && last == old(LastEventId())
        invariant PopupSearch(routines, env, last) == PopupSearch(routines[i..], env, last)
      {
        var r := routines[i];
        assert routines[i..][0] == r && routines[i..][1..] == routines[i + 1..];
        if !r.IsEnabled() || r.OnQuickglance() || Weekday(env.now) !in r.triggerDays {
          i := i + 1;
          continue;
        }
        var found := WindowScan(r, env.upcoming(r.CalendarName()), env, last);
        if found.Some? {
          lastPopup := Some(PopupRecord(found.value.eventId, env.now));
          return Some(found.value.popup);
        }
        i := i + 1;
      }
      popup := None;
    }
  }

  // ---------------------------------------------------------------------
  // Properties of the popup
  // ---------------------------------------------------------------------

  lemma {:induction false} FirstInWindowFound(r: Routine, events: seq<Scheduled>, env: Env, last: Option<string>)
    ensures FirstInWindow(r, events, env, last).Some?
        <==> exists s :: s in events && InWindow(r, s, env, last)
    ensures FirstInWindow(r, events, env, last).Some? ==>
        exists s :: s in events && InWindow(r, s, env, last)
          && FirstInWindow(r, events, env, last).value == FiringOf(r, s, env, last)
    decreases |events|
  {
    if events != [] {
      FirstInWindowFound(r, events[1..], env, last);
      assert events == [events[0]] + events[1..];
    }
  }

  /** The popup is that of the first upcoming event in the window: every
      event before it is outside the window or was the last one shown. */
  lemma {:induction false} FirstInWindowIsFirst(r: Routine, events: seq<Scheduled>, env: Env, last: Option<string>)
    ensures FirstInWindow(r, events, env, last).Some? ==>
      exists i :: 0 <= i < |events| && InWindow(r, events[i], env, last)
        && FirstInWindow(r, events, env, last).value == FiringOf(r, events[i], env, last)
        && forall j :: 0 <= j < i ==> !InWindow(r, events[j], env, last)
    decreases |events|
  {
    if events != [] && !InWindow(r, events[0], env, last) {
      FirstInWindowIsFirst(r, events[1..], env, last);
      if FirstInWindow(r, events[1..], env, last).Some? {
        var k :| 0 <= k < |events[1..]| && InWindow(r, events[1..][k], env, last)
          && FirstInWindow(r, events[1..], env, last).value == FiringOf(r, events[1..][k], env, last)
          && forall j :: 0 <= j < k ==> !InWindow(r, events[1..][j], env, last);
        assert forall j :: 0 <= j < k + 1 ==> !InWindow(r, events[j], env, last) by {
          forall j | 0 <= j < k + 1 ensures !InWindow(r, events[j], env, last) {
            if j > 0 { assert events[j] == events[1..][j - 1]; }
          }
        }
        assert events[k + 1] == events[1..][k];
      }
    }
  }

  /** Routines are tried in order: the popup is that of the first popup
      routine active today that finds an event in its window. */
  lemma {:induction false} PopupSearchIsFirst(routines: seq<Routine>, env: Env, last: Option<string>)
    ensures PopupSearch(routines, env, last).Some? ==>
      exists i :: 0 <= i < |routines| && ActiveToday(routines[i], env, true)
        && PopupSearch(routines, env, last)
           == FirstInWindow(routines[i], env.upcoming(routines[i].CalendarName()), env, last)
        && forall j :: 0 <= j < i ==>
             (!ActiveToday(routines[j], env, true)
              || FirstInWindow(routines[j], env.upcoming(routines[j].CalendarName()), env, last).None?)
    decreases |routines|
  {
    if routines != [] {
      var r := routines[0];
      var f := if ActiveToday(r, env, true) then FirstInWindow(r, env.upcoming(r.CalendarName()), env, last) else None;
      if f.None? {
        PopupSearchIsFirst(routines[1..], env, last);
        if PopupSearch(routines[1..], env, last).Some? {
          var rest := routines[1..];
          var k :| 0 <= k < |rest| && ActiveToday(rest[k], env, true)
            && PopupSearch(rest, env, last) == FirstInWindow(rest[k], env.upcoming(rest[k].CalendarName()), env, last)
            && forall j :: 0 <= j < k ==>
                 (!ActiveToday(rest[j], env, true)
                  || FirstInWindow(rest[j], env.upcoming(rest[j].CalendarName()), env, last).None?);
          forall j | 0 <= j < k + 1
            ensures !ActiveToday(routines[j], env, true)
                 || FirstInWindow(routines[j], env.upcoming(routines[j].CalendarName()), env, last).None?
          {
            if j > 0 { assert routines[j] == rest[j - 1]; }
          }
          assert routines[k + 1] == rest[k];
        }
      }
    }
  }

  /** A popup is raised exactly when some popup routine active today has an
      upcoming event in its window that is not the last one shown; the popup
      is that event's, so it is never the last one shown again. */
  lemma {:induction false} PopupFires(routines: seq<Routine>, env: Env, last: Option<string>)
    ensures PopupSearch(routines, env, last).Some?
        <==> exists r, s :: r in routines && ActiveToday(r, env, true)
               && s in env.upcoming(r.CalendarName()) && InWindow(r, s, env, last)
    ensures PopupSearch(routines, env, last).Some? ==>
        exists r, s :: r in routines && ActiveToday(r, env, true)
          && s in env.upcoming(r.CalendarName()) && InWindow(r, s, env, last)
          && PopupSearch(routines, env, last).value == FiringOf(r, s, env, last)
    decreases |routines|
  {
    if routines != [] {
      var r := routines[0];
      PopupFires(routines[1..], env, last);
      FirstInWindowFound(r, env.upcoming(r.CalendarName()), env, last);
      assert routines == [r] + routines[1..];
    }
  }

  /** A popup's countdown gives the minutes left until the event, which are
      within the routine's warning window, and its id differs from the last
      one shown. */
  lemma FiringInWindow(r: Routine, s: Scheduled, env: Env, last: Option<string>)
    requires InWindow(r, s, env, last)
    ensures var t := ParseEventTime(env.parse, s.event.start).value;
      var f := FiringOf(r, s, env, last);
      && last != Some(f.eventId)
      && TotalMinutes(f.popup.countdown) == Some((t - env.now) / 60)
      && (t - env.now) / 60 <= r.WarnMinutes()
  {
    var t := ParseEventTime(env.parse, s.event.start).value;
    var f := FiringOf(r, s, env, last);
    assert f.popup.countdown == CountdownFor(t - env.now) && f.eventId == EventId(s.event, t, env);
    TotalMinutesOfSpan(t - env.now);
    MinutesWithin(t - env.now, r.WarnMinutes());
  }

  lemma MinutesWithin(secs: nat, minutes: int)
    requires secs <= minutes * 60
    ensures secs / 60 <= minutes
  {
    assert 60 * (secs / 60) <= secs;
  }

  /** The popup raised never carries the id of the last one shown. */
  lemma PopupIsNew(routines: seq<Routine>, env: Env, last: Option<string>)
    requires PopupSearch(routines, env, last).Some?
    ensures last != Some(PopupSearch(routines, env, last).value.eventId)
  {
    PopupFires(routines, env, last);
    var r, s :| r in routines && ActiveToday(r, env, true)
          && s in env.upcoming(r.CalendarName()) && InWindow(r, s, env, last)
          && PopupSearch(routines, env, last).value == FiringOf(r, s, env, last);
    FiringInWindow(r, s, env, last);
  }

  /** Given the id of the popup it raised as the last one shown, a second
      check with the same routines and events does not raise it again. */
  lemma PopupNotRepeated(routines: seq<Routine>, env: Env, last: Option<string>)
    requires PopupSearch(routines, env, last).Some?
    ensures var again := PopupSearch(routines, env, Some(PopupSearch(routines, env, last).value.eventId));
      again.None? || again.value.eventId != PopupSearch(routines, env, last).value.eventId
  {
    var id := PopupSearch(routines, env, last).value.eventId;
    if PopupSearch(routines, env, Some(id)).Some? {
      PopupIsNew(routines, env, Some(id));
    }
  }
}
