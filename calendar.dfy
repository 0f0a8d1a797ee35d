/** Calendar events as the quick-glance fetcher receives them, the all-day
    filters applied to today's and the upcoming events, and the ordering of
    the upcoming list by start time. */
module Calendar {
  import opened Wrappers
  import Text

  /** Seconds since 1 January 1970 on the display's local wall clock. */
  type Time = int

  /** `datetime.fromisoformat` together with the fixed offset it applies:
      None where the text is not an ISO date-time. */
  type TimeParser = string -> Option<Time>

  /** `t.strftime(pattern)`. */
  type Formatter = (Time, string) -> string

  /** The calendar date of a time, as a day count. */
  function Day(t: Time): int {
    t / 86400
  }

  /** `datetime.weekday()`: 0 for Monday up to 6 for Sunday
      (1 January 1970 was a Thursday). */
  function Weekday(t: Time): (d: int)
    ensures 0 <= d < 7
    ensures Day(t) == 0 ==> d == 3
  {
    (Day(t) + 3) % 7
  }

  /** The weekday advances by one, Sunday wrapping to Monday, every 86400 seconds. */
  lemma NextDayWeekday(t: Time)
    ensures Weekday(t + 86400) == (Weekday(t) + 1) % 7
  {
    assert Day(t + 86400) == Day(t) + 1;
  }

  /** A calendar event: its summary and location (None when the key is
      absent) and the `dateTime` text of its start and end ("" when absent). */
  datatype Event = Event(summary: Option<string>, location: Option<string>, start: string, end: string)

  /** `parse_event_time`: no time for empty text, otherwise the parse. */
  function ParseEventTime(parse: TimeParser, s: string): Option<Time> {
    if s == "" then None else parse(s)
  }

  /** An event with a start date-time that is not at midnight; events starting
      at "T00:00:00" are taken to be all-day events. */
  predicate IsTimed(e: Event) {
    e.start != "" && !Text.Contains(e.start, "T00:00:00")
  }

  // ---------------------------------------------------------------------
  // Today's events
  // ---------------------------------------------------------------------

  /** The timed events, in their original order. */
  function TimedOnly(events: seq<Event>): seq<Event>
    decreases |events|
  {
    if events == [] then []
    else
      var e := events[|events| - 1];
      TimedOnly(events[..|events| - 1]) + (if IsTimed(e) then [e] else [])
  }

  /** The filter loop of `get_calendar_events`. */
  method TodayEvents(events: seq<Event>) returns (filtered: seq<Event>)
    ensures filtered == TimedOnly(events)
  {
    filtered := [];
    var i := 0;
    while i < |events|
      invariant 0 <= i <= |events|
      invariant filtered == TimedOnly(events[..i])
    {
      var e := events[i];
      assert events[..i + 1][..i] == events[..i];
      if e.start != "" && !Text.Contains(e.start, "T00:00:00") {
        filtered := filtered + [e];
      }
      i := i + 1;
    }
    assert events[..|events|] == events;
  }

  /** An event is kept exactly when it is one of the inputs and is timed. */
  lemma {:induction false} TimedOnlyMembers(events: seq<Event>, e: Event)
    ensures e in TimedOnly(events) <==> e in events && IsTimed(e)
    decreases |events|
  {
    if events != [] {
      var init := events[..|events| - 1];
      TimedOnlyMembers(init, e);
      assert events == init + [events[|events| - 1]];
    }
  }

  /** Filtering commutes with concatenation, so the kept events keep their order. */
  lemma {:induction false} TimedOnlyAppend(a: seq<Event>, b: seq<Event>)
    ensures TimedOnly(a + b) == TimedOnly(a) + TimedOnly(b)
    decreases |b|
  {
    if b == [] {
      assert a + b == a;
    } else {
      var init := b[..|b| - 1];
      assert (a + b)[..|a + b| - 1] == a + init;
      TimedOnlyAppend(a, init);
    }
  }

  // ---------------------------------------------------------------------
  // Upcoming events
  // ---------------------------------------------------------------------

  /** An upcoming event with the start time it is sorted by (`_sort_time`). */
  datatype Scheduled = Scheduled(event: Event, at: Time)

  /** The timed events whose start parses, with that start, in their original order. */
  function Schedulable(events: seq<Event>, parse: TimeParser): seq<Scheduled>
    decreases |events|
  {
    if events == [] then []
    else
      var e := events[|events| - 1];
      var t := parse(e.start);
      Schedulable(events[..|events| - 1], parse)
        + (if IsTimed(e) && t.Some? then [Scheduled(e, t.value)] else [])
  }

  predicate SortedByTime(s: seq<Scheduled>) {
    forall i, j :: 0 <= i < j < |s| ==> s[i].at <= s[j].at
  }

  /** Insertion before the first element that does not start earlier. */
  function Insert(x: Scheduled, s: seq<Scheduled>): (r: seq<Scheduled>)
    ensures multiset(r) == multiset(s) + multiset{x}
    ensures |r| == |s| + 1
    ensures r[0] == x || (s != [] && r[0] == s[0])
  {
    if s == [] || x.at <= s[0].at then [x] + s
    else
      var rest := Insert(x, s[1..]);
      assert multiset(s) == multiset{s[0]} + multiset(s[1..]) by { assert s == [s[0]] + s[1..]; }
      [s[0]] + rest
  }

  lemma {:induction false} InsertSorted(x: Scheduled, s: seq<Scheduled>)
    requires SortedByTime(s)
    ensures SortedByTime(Insert(x, s))
    decreases |s|
  {
    if s != [] && x.at > s[0].at {
      InsertSorted(x, s[1..]);
      var rest := Insert(x, s[1..]);
      assert rest[0].at >= s[0].at;
      assert forall k :: 0 <= k < |rest| ==> rest[k].at >= s[0].at by {
        forall k | 0 <= k < |rest| ensures rest[k].at >= s[0].at {
          assert rest[0].at >= s[0].at;
        }
      }
    }
  }

  /** `list.sort(key=_sort_time)`: ascending by start time. */
  function SortByTime(s: seq<Scheduled>): (r: seq<Scheduled>)
    ensures SortedByTime(r)
    ensures multiset(r) == multiset(s)
  {
    if s == [] then []
    else
      assert multiset(s) == multiset{s[0]} + multiset(s[1..]) by { assert s == [s[0]] + s[1..]; }
      InsertSorted(s[0], SortByTime(s[1..]));
      Insert(s[0], SortByTime(s[1..]))
  }

  /** The filter-and-sort of `get_upcoming_events`. */
  method UpcomingEvents(events: seq<Event>, parse: TimeParser) returns (upcoming: seq<Scheduled>)
    ensures upcoming == SortByTime(Schedulable(events, parse))
  {
    var filtered := [];
    var i := 0;
    while i < |events|
      invariant 0 <= i <= |events|
      invariant filtered == Schedulable(events[..i], parse)
    {
      var e := events[i];
      assert events[..i + 1][..i] == events[..i];
      if e.start != "" && !Text.Contains(e.start, "T00:00:00") {
        var t := ParseEventTime(parse, e.start);
        if t.Some? {
          filtered := filtered + [Scheduled(e, t.value)];
        }
      }
      i := i + 1;
    }
    assert events[..|events|] == events;
    upcoming := SortByTime(filtered);
  }

  /** Every upcoming entry carries the parse of its own start. */
  predicate Consistent(s: seq<Scheduled>, parse: TimeParser) {
    forall i :: 0 <= i < |s| ==> ParseEventTime(parse, s[i].event.start) == Some(s[i].at)
  }

  /** The upcoming entries are exactly the timed input events whose start
      parses, each paired with its parsed start. */
  lemma {:induction false} SchedulableMembers(events: seq<Event>, parse: TimeParser, x: Scheduled)
    ensures x in Schedulable(events, parse)
        <==> x.event in events && IsTimed(x.event) && parse(x.event.start) == Some(x.at)
    decreases |events|
  {
    if events != [] {
      var init := events[..|events| - 1];
      SchedulableMembers(init, parse, x);
      assert events == init + [events[|events| - 1]];
    }
  }

  /** The upcoming list is time-ordered, a permutation of the schedulable
      events, and each entry's time is the parse of its start. */
  lemma UpcomingOrdered(events: seq<Event>, parse: TimeParser)
    ensures var up := SortByTime(Schedulable(events, parse));
      && SortedByTime(up)
      && multiset(up) == multiset(Schedulable(events, parse))
      && Consistent(up, parse)
  {
    var sched := Schedulable(events, parse);
    var up := SortByTime(sched);
    forall i | 0 <= i < |up|
      ensures ParseEventTime(parse, up[i].event.start) == Some(up[i].at)
    {
      assert up[i] in multiset(sched);
      SchedulableMembers(events, parse, up[i]);
    }
  }
}
