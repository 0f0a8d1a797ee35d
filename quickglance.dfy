/** The quick-glance data the fetcher builds: the current and the next
    event, the routine countdown with its urgency, and the decision whether
    the built data differs enough from what the display shows to be pushed. */
module QuickGlance {
  import opened Wrappers
  import opened JsonData
  import opened Calendar
  import opened Countdown
  import opened Routines

  /** The calendar both event lists are read from. */
  const HomeCalendar := "Me and You"

  /** What a selection loop leaves in its three variables: event name, time
      text and location, each None while no event was selected. */
  datatype Selection = Selection(event: Option<string>, time: Option<string>, location: Option<string>)

  const Unselected := Selection(None, None, None)

  // ---------------------------------------------------------------------
  // Current event
  // ---------------------------------------------------------------------

  /** An event that has started and has not ended; an event without an end,
      or whose end does not parse, has not ended. */
  predicate IsCurrent(e: Event, env: Env) {
    var start := ParseEventTime(env.parse, e.start);
    var end := ParseEventTime(env.parse, e.end);
    start.Some? && start.value <= env.now && (end.None? || end.value > env.now)
  }

  /** The last current event of the list. */
  function LastCurrent(events: seq<Event>, env: Env): Option<Event>
    decreases |events|
  {
    if events == [] then None
    else if IsCurrent(events[|events| - 1], env) then Some(events[|events| - 1])
    else LastCurrent(events[..|events| - 1], env)
  }

  /** The end time shown for the current event, "" when it has none. */
  function EndText(e: Event, env: Env): string {
    match ParseEventTime(env.parse, e.end)
    case Some(t) => env.format(t, "%-I:%M %p")
    case None => ""
  }

  function CurrentSelection(c: Option<Event>, env: Env): Selection {
    match c
    case None => Unselected
    case Some(e) => Selection(Some(e.summary.GetOr("Event")), Some(EndText(e, env)), Some(e.location.GetOr("")))
  }

  /** The first loop of `build_quickglance`: every current event overwrites
      the selection, so the last one wins. */
  method SelectCurrent(events: seq<Event>, env: Env) returns (sel: Selection)
    ensures sel == CurrentSelection(LastCurrent(events, env), env)
  {
    sel := Unselected;
    var i := 0;
    while i < |events|
      invariant 0 <= i <= |events|
      invariant sel == CurrentSelection(LastCurrent(events[..i], env), env)
    {
      var e := events[i];
      assert events[..i + 1][..i] == events[..i];
      var start := ParseEventTime(env.parse, e.start);
      var end := if e.end != "" then ParseEventTime(env.parse, e.end) else None;
      if start.Some? && start.value <= env.now {
        if end.None? || end.value > env.now {
          var time := if end.Some? then env.format(end.value, "%-I:%M %p") else "";
          sel := Selection(Some(e.summary.GetOr("Event")), Some(time), Some(e.location.GetOr("")));
        }
      }
      i := i + 1;
    }
    assert events[..|events|] == events;
  }

  /** No event after position `i` is current. */
  predicate NoneCurrentAfter(events: seq<Event>, i: int, env: Env) {
    forall j :: 0 <= j < |events| && i < j ==> !IsCurrent(events[j], env)
  }

  /** There is no current event exactly when no event of the list is current. */
  lemma {:induction false} LastCurrentNone(events: seq<Event>, env: Env)
    ensures LastCurrent(events, env).None? <==> NoneCurrentAfter(events, -1, env)
    decreases |events|
  {
    if events != [] {
      var init := events[..|events| - 1];
      LastCurrentNone(init, env);
      if !IsCurrent(events[|events| - 1], env) {
        assert NoneCurrentAfter(events, -1, env) <==> NoneCurrentAfter(init, -1, env) by {
          forall j | 0 <= j < |init| ensures events[j] == init[j] { }
        }
      }
    }
  }

  /** The current event is a current event of the list with no current
      event after it. */
  lemma {:induction false} LastCurrentIsLast(events: seq<Event>, env: Env)
    requires LastCurrent(events, env).Some?
    ensures exists i :: 0 <= i < |events| && events[i] == LastCurrent(events, env).value &&
                        IsCurrent(events[i], env) && NoneCurrentAfter(events, i, env)
    decreases |events|
  {
    var n := |events| - 1;
    if IsCurrent(events[n], env) {
      assert events[n] == LastCurrent(events, env).value && NoneCurrentAfter(events, n, env);
    } else {
      var init := events[..n];
      assert LastCurrent(events, env) == LastCurrent(init, env);
      LastCurrentIsLast(init, env);
      var i :| 0 <= i < |init| && init[i] == LastCurrent(init, env).value
        && IsCurrent(init[i], env) && NoneCurrentAfter(init, i, env);
      assert events[i] == init[i];
      assert NoneCurrentAfter(events, i, env) by {
        forall j | i < j < |events| ensures !IsCurrent(events[j], env) {
          if j < n { assert events[j] == init[j]; }
        }
      }
    }
  }

  // ---------------------------------------------------------------------
  // Next event
  // ---------------------------------------------------------------------

  predicate IsFuture(s: Scheduled, env: Env) {
    var start := ParseEventTime(env.parse, s.event.start);
    start.Some? && start.value > env.now
  }

  /** The first upcoming event that has not started. */
  function FirstFuture(upcoming: seq<Scheduled>, env: Env): (r: Option<Scheduled>)
    ensures r.Some? ==> r.value in upcoming && IsFuture(r.value, env)
    decreases |upcoming|
  {
    if upcoming == [] then None
    else if IsFuture(upcoming[0], env) then Some(upcoming[0])
    else FirstFuture(upcoming[1..], env)
  }

  /** The start shown for the next event, with the weekday when it is not today. */
  function StartText(t: Time, env: Env): string {
    if Day(t) > Day(env.now) then env.format(t, "%a %-I:%M %p") else env.format(t, "%-I:%M %p")
  }

  function NextSelection(n: Option<Scheduled>, env: Env): Selection {
    match n
    case None => Unselected
    case Some(s) =>
      match ParseEventTime(env.parse, s.event.start)
      case None => Unselected
      case Some(t) => Selection(Some(s.event.summary.GetOr("Event")), Some(StartText(t, env)), Some(s.event.location.GetOr("")))
  }

  /** The second loop of `build_quickglance`, which stops at the first event
      that has not started. */
  method SelectNext(upcoming: seq<Scheduled>, env: Env) returns (sel: Selection)
    ensures sel == NextSelection(FirstFuture(upcoming, env), env)
  {
    sel := Unselected;
    var i := 0;
    while i < |upcoming|
      invariant 0 <= i <= |upcoming|
      invariant FirstFuture(upcoming, env) == FirstFuture(upcoming[i..], env)
      invariant sel == Unselected
    {
      var s := upcoming[i];
      assert upcoming[i..][0] == s && upcoming[i..][1..] == upcoming[i + 1..];
      var start := ParseEventTime(env.parse, s.event.start);
      if start.Some? && start.value > env.now {
        var time := env.format(start.value, "%-I:%M %p");
        if Day(start.value) > Day(env.now) {
          time := env.format(start.value, "%a %-I:%M %p");
        }
        sel := Selection(Some(s.event.summary.GetOr("Event")), Some(time), Some(s.event.location.GetOr("")));
        break;
      }
      i := i + 1;
    }
  }

  /** On a time-ordered upcoming list whose times are the parses of the
      starts, the next event is the earliest one that has not started, and
      there is none exactly when every event has started. */
  lemma {:induction false} NextIsEarliest(upcoming: seq<Scheduled>, env: Env)
    requires SortedByTime(upcoming) && Consistent(upcoming, env.parse)
    ensures FirstFuture(upcoming, env).None? <==> forall s :: s in upcoming ==> s.at <= env.now
    ensures FirstFuture(upcoming, env).Some? ==>
      var n := FirstFuture(upcoming, env).value;
      n.at > env.now && forall s :: s in upcoming && s.at > env.now ==> n.at <= s.at
    decreases |upcoming|
  {
    if upcoming != [] {
      var rest := upcoming[1..];
      assert upcoming == [upcoming[0]] + rest;
      TailOrdered(upcoming, env.parse);
      assert ParseEventTime(env.parse, upcoming[0].event.start) == Some(upcoming[0].at);
      NextIsEarliest(rest, env);
      if upcoming[0].at > env.now {
        HeadEarliest(upcoming);
      }
    }
  }

  lemma TailOrdered(upcoming: seq<Scheduled>, parse: TimeParser)
    requires upcoming != [] && SortedByTime(upcoming) && Consistent(upcoming, parse)
    ensures SortedByTime(upcoming[1..]) && Consistent(upcoming[1..], parse)
  {
    var rest := upcoming[1..];
    forall i | 0 <= i < |rest| ensures ParseEventTime(parse, rest[i].event.start) == Some(rest[i].at) {
      assert rest[i] == upcoming[i + 1];
    }
    forall i, j | 0 <= i < j < |rest| ensures rest[i].at <= rest[j].at {
      assert rest[i] == upcoming[i + 1] && rest[j] == upcoming[j + 1];
    }
  }

  lemma HeadEarliest(upcoming: seq<Scheduled>)
    requires upcoming != [] && SortedByTime(upcoming)
    ensures forall s :: s in upcoming ==> upcoming[0].at <= s.at
  {
    forall s | s in upcoming ensures upcoming[0].at <= s.at {
      var k :| 0 <= k < |upcoming| && upcoming[k] == s;
      if k > 0 {
        assert upcoming[0].at <= upcoming[k].at;
      }
    }
  }

  // ---------------------------------------------------------------------
  // The quick-glance data
  // ---------------------------------------------------------------------

  /** The placeholder weather. */
  const Weather: map<string, string> := map[
    "icon" := "\U{2600}\U{FE0F}", "temp" := "58\U{B0}", "high" := "62", "low" := "40", "desc" := "Sunny"]

  /** The routine countdown and its urgency, None where either raises. */
  function CountdownPart(routines: seq<Routine>, env: Env): Option<(Outcome, string)> {
    var outcome := RoutineCountdown(routines, env);
    if outcome.Raises? then None
    else match UrgencyOf(outcome.countdown)
      case None => None
      case Some(u) => Some((outcome, u))
  }

  function DataMap(now: string, date: string, current: Selection, next: Selection, dinner: string,
                   tasks: Json, outcome: Outcome, urgency: string): map<string, Json>
    requires outcome.Show?
  {
    map[
      "time" := Str(now),
      "date" := Str(date),
      "weather_icon" := Str(Weather["icon"]),
      "weather_temp" := Str(Weather["temp"]),
      "weather_high" := Str(Weather["high"]),
      "weather_low" := Str(Weather["low"]),
      "weather_desc" := Str(Weather["desc"]),
      "current_event" := Str(OrText(current.event, "Free Time")),
      "current_event_time" := Str(OrText(current.time, "")),
      "current_location" := Str(OrText(current.location, "")),
      "next_event" := Str(OrText(next.event, "None")),
      "next_event_time" := Str(OrText(next.time, "")),
      "next_location" := Str(OrText(next.location, "")),
      "dinner" := Str(dinner),
      "tasks" := tasks,
      "countdown_label" := Str(outcome.countdownLabel),
      "countdown" := Str(outcome.countdown),
      "countdown_urgency" := Str(urgency)]
  }

  /** `build_quickglance`, given the dinner and the family tasks the Todoist
      fetchers return; None where it raises. */
  function QuickglanceData(routines: seq<Routine>, env: Env, dinner: string, tasks: Json): Option<map<string, Json>> {
    match CountdownPart(routines, env)
    case None => None
    case Some((outcome, urgency)) =>
      Some(DataMap(env.format(env.now, "%-I:%M %p"), env.format(env.now, "%A, %b %d"),
                   CurrentSelection(LastCurrent(env.today(HomeCalendar), env), env),
                   NextSelection(FirstFuture(env.upcoming(HomeCalendar), env), env),
                   dinner, tasks, outcome, urgency))
  }

  method BuildQuickglance(routines: seq<Routine>, env: Env, dinner: string, tasks: Json)
    returns (data: Option<map<string, Json>>)
    ensures data == QuickglanceData(routines, env, dinner, tasks)
  {
    var current := SelectCurrent(env.today(HomeCalendar), env);
    var next := SelectNext(env.upcoming(HomeCalendar), env);
    var outcome := GetRoutineCountdown(routines, env);
    if outcome.Raises? {
      return None;
    }
    var urgency := "safe";
    if outcome.countdown != "" {
      var total := TotalMinutes(outcome.countdown);
      if total.None? {
        return None;
      }
      if total.value <= 5 {
        urgency := "critical";
      } else if total.value <= 15 {
        urgency := "urgent";
      }
    }
    assert CountdownPart(routines, env) == Some((outcome, urgency));
    data := Some(DataMap(env.format(env.now, "%-I:%M %p"), env.format(env.now, "%A, %b %d"),
                         current, next, dinner, tasks, outcome, urgency));
  }

  // ---------------------------------------------------------------------
  // Properties of the quick-glance data
  // ---------------------------------------------------------------------

  /** Every countdown a routine shows is empty or a formatted span. */
  ghost predicate Readable(o: Outcome) {
    o.Show? ==> o.countdown == "" || exists secs: nat :: o.countdown == CountdownFor(secs)
  }

  lemma {:induction false} RoutineCountdownReadable(routines: seq<Routine>, env: Env)
    ensures Readable(RoutineCountdown(routines, env))
    decreases |routines|
  {
    if routines != [] {
      var r := routines[0];
      RoutineCountdownReadable(routines[1..], env);
      if ActiveToday(r, env, false) && r.triggerEventContains != "" {
        ScanReadable(r, env.today(r.CalendarName()), env);
      }
    }
  }

  lemma {:induction false} ScanReadable(r: Routine, events: seq<Event>, env: Env)
    ensures var s := ScanEvents(r, events, env); s.Decided? ==> Readable(s.outcome)
    decreases |events|
  {
    if events != [] {
      ScanReadable(r, events[1..], env);
    }
  }

  /** Building fails exactly when the routine countdown raises: the countdown
      a routine shows always reads back, so the urgency is always found. */
  lemma QuickglanceFails(routines: seq<Routine>, env: Env, dinner: string, tasks: Json)
    ensures QuickglanceData(routines, env, dinner, tasks).None? <==> RoutineCountdown(routines, env).Raises?
  {
    var o := RoutineCountdown(routines, env);
    RoutineCountdownReadable(routines, env);
    if o.Show? && o.countdown != "" {
      var secs: nat :| o.countdown == CountdownFor(secs);
      TotalMinutesOfSpan(secs);
    }
  }

  /** The urgency shown: "safe" without a countdown, otherwise the level of
      the minutes the countdown spells out. */
  lemma QuickglanceUrgency(routines: seq<Routine>, env: Env, dinner: string, tasks: Json, secs: nat)
    requires RoutineCountdown(routines, env).Show?
    requires RoutineCountdown(routines, env).countdown in {"", CountdownFor(secs)}
    ensures var data := QuickglanceData(routines, env, dinner, tasks);
      var o := RoutineCountdown(routines, env);
      && data.Some?
      && data.value["countdown"] == Str(o.countdown)
      && data.value["countdown_label"] == Str(o.countdownLabel)
      && data.value["countdown_urgency"] == Str(if o.countdown == "" then "safe" else Level(secs / 60))
  {
    TotalMinutesOfSpan(secs);
  }

  /** The event fields: "Free Time" unless a current event with a non-empty
      summary is found, "None" unless an event lies ahead. */
  lemma QuickglanceEvents(routines: seq<Routine>, env: Env, dinner: string, tasks: Json)
    requires QuickglanceData(routines, env, dinner, tasks).Some?
    ensures var data := QuickglanceData(routines, env, dinner, tasks).value;
      var c := LastCurrent(env.today(HomeCalendar), env);
      var n := FirstFuture(env.upcoming(HomeCalendar), env);
      && (data["current_event"] == Str("Free Time") <==> c.None? || c.value.summary.GetOr("Event") in {"", "Free Time"})
      && (c.Some? && c.value.summary.GetOr("Event") != "" ==> data["current_event"] == Str(c.value.summary.GetOr("Event")))
      && (n.None? ==> data["next_event"] == Str("None") && data["next_event_time"] == Str(""))
      && (n.Some? ==> data["next_event"] == Str(OrText(Some(n.value.event.summary.GetOr("Event")), "None")))
  {
    var (outcome, urgency) := CountdownPart(routines, env).value;
    var current := CurrentSelection(LastCurrent(env.today(HomeCalendar), env), env);
    var next := NextSelection(FirstFuture(env.upcoming(HomeCalendar), env), env);
    var now := env.format(env.now, "%-I:%M %p");
    var date := env.format(env.now, "%A, %b %d");
    assert QuickglanceData(routines, env, dinner, tasks).value
        == DataMap(now, date, current, next, dinner, tasks, outcome, urgency);
    DataMapEvents(now, date, current, next, dinner, tasks, outcome, urgency);
  }

  lemma DataMapEvents(now: string, date: string, current: Selection, next: Selection, dinner: string,
                      tasks: Json, outcome: Outcome, urgency: string)
    requires outcome.Show?
    ensures var data := DataMap(now, date, current, next, dinner, tasks, outcome, urgency);
      && data["current_event"] == Str(OrText(current.event, "Free Time"))
      && data["next_event"] == Str(OrText(next.event, "None"))
      && data["next_event_time"] == Str(OrText(next.time, ""))
  {
  }

  // ---------------------------------------------------------------------
  // Change detection
  // ---------------------------------------------------------------------

  /** The fields that decide whether the display needs new data. */
  const KeyFields: seq<string> := ["current_event", "next_event", "next_event_time", "dinner", "countdown", "countdown_label"]

  /** `{k: d.get(k) for k in key_fields}`, absent keys read as null. */
  function KeySubset(m: map<string, Json>): map<string, Json> {
    map k | k in KeyFields :: Get(m, k, Null)
  }

  /** `push_display`'s decision to post. `status` is the decoded reply of the
      status request; None when the request failed, did not answer 200 or
      was not JSON. A reply or content that is not an object makes the check
      raise, which the code catches before pushing. */
  function ShouldPush(status: Option<Json>, data: map<string, Json>, force: bool): bool {
    if status.None? || !status.value.Obj? then true
    else
      var current := Get(status.value.fields, "content", Obj(map[]));
      if !current.Obj? then true
      else force || KeySubset(current.fields) != KeySubset(data)
  }

  /** The push is skipped exactly when it is not forced, the status reply is
      an object whose content is an object, and the six key fields agree. */
  lemma PushSkipped(status: Option<Json>, data: map<string, Json>, force: bool)
    ensures !ShouldPush(status, data, force) <==>
      && !force
      && status.Some? && status.value.Obj?
      && Get(status.value.fields, "content", Obj(map[])).Obj?
      && forall k :: k in KeyFields ==> Get(Get(status.value.fields, "content", Obj(map[])).fields, k, Null) == Get(data, k, Null)
  {
    if status.Some? && status.value.Obj? && Get(status.value.fields, "content", Obj(map[])).Obj? {
      var current := Get(status.value.fields, "content", Obj(map[])).fields;
      SubsetsAgree(current, data);
    }
  }

  /** Two key subsets are equal exactly when the key fields agree. */
  lemma SubsetsAgree(a: map<string, Json>, b: map<string, Json>)
    ensures KeySubset(a) == KeySubset(b) <==> forall k :: k in KeyFields ==> Get(a, k, Null) == Get(b, k, Null)
  {
    if forall k :: k in KeyFields ==> Get(a, k, Null) == Get(b, k, Null) {
      assert KeySubset(a).Keys == KeySubset(b).Keys;
      forall k | k in KeySubset(a) ensures KeySubset(a)[k] == KeySubset(b)[k] {
        assert KeySubset(a)[k] == Get(a, k, Null);
      }
    }
    if KeySubset(a) == KeySubset(b) {
      forall k | k in KeyFields ensures Get(a, k, Null) == Get(b, k, Null) {
        assert KeySubset(a)[k] == Get(a, k, Null) && KeySubset(b)[k] == Get(b, k, Null);
      }
    }
  }

  /** The `/api/update` payload `push_display` posts. */
  function QuickglancePayload(data: map<string, Json>): (p: Json)
    ensures p.Obj? && "content" in p.fields && p.fields["content"] == Obj(data)
  {
    Obj(map["mode" := Str("quickglance"), "title" := Str("Quick Look"), "content" := Obj(data)])
  }
}
