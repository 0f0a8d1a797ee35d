/** The display-state controller of the receiver service: one display-state
    record, replaced (or, for a refresh, re-stamped) by each request handler,
    and the two-stage message pipeline that turns a typed message request into
    a display mode and content.

    Time is an integer count of seconds supplied by the caller (`now`); the
    ISO-8601 parse of `countdown_to` is supplied as a function that yields
    seconds on the same clock, or None when the text does not parse. */
module Receiver {
  import opened Wrappers
  import opened JsonData
  import Text

  /** The one display-state record. `updated` is None until the first change. */
  datatype DisplayState = DisplayState(mode: Json, title: Json, content: Json, updated: Option<int>)

  /** The state at process start. */
  const InitialState: DisplayState := DisplayState(Str("quickglance"), Str("Quick Look"), Obj(map[]), None)

  /** What a handler answers. */
  datatype Reply =
    | Snapshot(state: DisplayState)   // the state itself (status query)
    | Success(state: DisplayState)    // {"success": true, "state": ...}
    | Acknowledged                    // {"success": true}
    | NoDataProvided                  // 400 {"error": "No data provided"}
    | InternalError                   // 500: the handler raised before storing anything

  /** Parses an ISO-8601 timestamp to seconds; None when it does not parse. */
  type IsoParser = string -> Option<int>

  // ---------------------------------------------------------------------
  // Fixed states
  // ---------------------------------------------------------------------

  function DashboardState(now: int): DisplayState {
    DisplayState(Str("dashboard"), Str("Family Dashboard"), Obj(map[]), Some(now))
  }

  function QuickLookState(now: int): DisplayState {
    DisplayState(Str("quickglance"), Str("Quick Look"), Obj(map[]), Some(now))
  }

  // ---------------------------------------------------------------------
  // Generic update
  // ---------------------------------------------------------------------

  /** The reply to a generic update with request body `body` (None: no JSON). */
  function UpdateReply(body: Option<Json>, now: int): Reply {
    if body.None? || !Truthy(body.value) then NoDataProvided
    else if !body.value.Obj? then InternalError
    else
      var m := body.value.fields;
      Success(DisplayState(Get(m, "mode", Str("custom")),
                           Get(m, "title", Str("Dobby Display")),
                           Get(m, "content", Obj(map[])),
                           Some(now)))
  }

  // ---------------------------------------------------------------------
  // Message pipeline
  // ---------------------------------------------------------------------

  /** The display modes a message request can end in. */
  datatype Screen = MessageScreen | CountdownScreen | CelebrationScreen | AlertScreen

  function ScreenName(screen: Screen): string {
    match screen
    case MessageScreen => "message"
    case CountdownScreen => "countdown"
    case CelebrationScreen => "celebration"
    case AlertScreen => "alert"
  }

  /** The type-to-mode table with its "message" default ("warning" is listed
      explicitly with the same target). None: a list or dict cannot be looked up. */
  function LookupScreen(messageType: Json): Option<Screen> {
    if !Hashable(messageType) then None
    else if messageType == Str("celebration") then Some(CelebrationScreen)
    else if messageType == Str("countdown") then Some(CountdownScreen)
    else if messageType == Str("alert") then Some(AlertScreen)
    else if messageType == Str("warning") then Some(MessageScreen)
    else Some(MessageScreen)
  }

  /** The default colour of a message type. */
  function TypeColor(messageType: Json): string {
    if messageType == Str("info") then "#667eea"
    else if messageType == Str("warning") then "#ffa502"
    else if messageType == Str("alert") then "#ff4757"
    else if messageType == Str("celebration") then "#f093fb"
    else if messageType == Str("sticky") then "#2ed573"
    else "#667eea"
  }

  /** Whole days and the hours, minutes and seconds left over. */
  datatype Remaining = Remaining(days: nat, hours: nat, minutes: nat, seconds: nat)

  /** A positive whole number of seconds split into days and a 24/60/60 clock. */
  function Decompose(delta: int): (r: Remaining)
    requires delta > 0
    ensures r.hours < 24 && r.minutes < 60 && r.seconds < 60
    ensures r.days * 86400 + r.hours * 3600 + r.minutes * 60 + r.seconds == delta
  {
    var days, daySeconds := delta / 86400, delta % 86400;
    var hours, remainder := daySeconds / 3600, daySeconds % 3600;
    Remaining(days, hours, remainder / 60, remainder % 60)
  }

  /** The content of a live countdown, `delta` seconds before its target. */
  function CountdownContent(data: map<string, Json>, delta: int): map<string, Json>
    requires delta > 0
  {
    var r := Decompose(delta);
    map[
      "days" := (if r.days > 0 then Int(r.days) else Null),
      "hours" := Int(r.hours),
      "minutes" := Int(r.minutes),
      "seconds" := Int(r.seconds),
      "event" := Get(data, "countdown_label", Str("Event")),
      "message" := Get(data, "message", Str("")),
      "type" := Str("countdown")
    ]
  }

  /** The target of a countdown; text that does not parse, or a value that
      is not text at all, fails and is caught. */
  function ParseTarget(countdownTo: Json, parseIso: IsoParser): Option<int> {
    if countdownTo.Str? then parseIso(countdownTo.s) else None
  }

  /** The request body and message type after the countdown pre-processing. */
  datatype Prepared = Prepared(data: map<string, Json>, messageType: Json)

  /** Stage 1: a countdown request with a target gets its content computed,
      or is turned into an "info" message when the target has passed or does
      not parse. */
  function Prepare(data: map<string, Json>, now: int, parseIso: IsoParser): Prepared {
    var messageType := Get(data, "type", Str("info"));
    var countdownTo := Get(data, "countdown_to", Null);
    if messageType != Str("countdown") || !Truthy(countdownTo) then Prepared(data, messageType)
    else
      match ParseTarget(countdownTo, parseIso)
      case None => Prepared(data["message" := Str("Invalid countdown time")], Str("info"))
      case Some(target) =>
        if target - now > 0 then Prepared(data["content" := Obj(CountdownContent(data, target - now))], messageType)
        else Prepared(data["message" := Str("Event has passed!")], Str("info"))
  }

  function MessageContent(data: map<string, Json>, messageType: Json, autoDismiss: int, sticky: Json): map<string, Json> {
    map[
      "message" := Get(data, "message", Str("")),
      "sub_message" := Get(data, "sub_message", Str("")),
      "font_size" := Get(data, "font_size", Str("4rem")),
      "sub_size" := Get(data, "sub_size", Str("2rem")),
      "auto_dismiss" := Int(autoDismiss),
      "type" := messageType,
      "color" := Get(data, "color", Str(TypeColor(messageType))),
      "sticky" := sticky
    ]
  }

  /** The celebration fields: the message becomes the name, the sub-message the message. */
  function CelebrationContent(data: map<string, Json>, autoDismiss: int): map<string, Json> {
    map[
      "title" := Get(data, "title", Str("Celebration!")),
      "name" := Get(data, "message", Str("")),
      "icon" := Get(data, "icon", Str("\U{F0}\U{178}\U{17D}\U{2030}")),
      "message" := Get(data, "sub_message", Str("")),
      "type" := Str("celebration"),
      "auto_dismiss" := Int(autoDismiss)
    ]
  }

  function AlertContent(data: map<string, Json>, severity: Json, autoDismiss: int): map<string, Json> {
    map[
      "title" := Get(data, "title", Str("Alert")),
      "message" := Get(data, "message", Str("")),
      "severity" := severity,
      "details" := Get(data, "details", Arr([])),
      "action" := Get(data, "action", Str("")),
      "type" := Str("alert"),
      "auto_dismiss" := Int(autoDismiss)
    ]
  }

  /** Stage 2: the content for the chosen mode; None when the countdown
      content given by the caller is not a dict and cannot take new keys. */
  function ShapeContent(screen: Screen, p: Prepared, autoDismiss: int, sticky: Json): Option<map<string, Json>> {
    match screen
    case MessageScreen => Some(MessageContent(p.data, p.messageType, autoDismiss, sticky))
    case CountdownScreen =>
      var given := Get(p.data, "content", Obj(map[]));
      if given.Obj? then Some(given.fields["type" := Str("countdown")]["auto_dismiss" := Int(autoDismiss)])
      else None
    case CelebrationScreen => Some(CelebrationContent(p.data, autoDismiss))
    case AlertScreen => Some(AlertContent(p.data, p.messageType, autoDismiss))
  }

  /** The request body as the message handler reads it: a falsy or absent
      body counts as an empty dict. */
  function MessageBody(body: Option<Json>): Json {
    if body.Some? && Truthy(body.value) then body.value else Obj(map[])
  }

  /** Whether a message request runs the `from datetime import datetime`
      inside the handler's countdown branch: only a countdown with a truthy
      target does. */
  predicate ImportsDatetime(body: Option<Json>) {
    var raw := MessageBody(body);
    && raw.Obj?
    && Get(raw.fields, "type", Str("info")) == Str("countdown")
    && Truthy(Get(raw.fields, "countdown_to", Null))
  }

  /** The reply to a message request, as written. The import inside the
      handler makes `datetime` a local name of the whole handler, so stamping
      the new record raises UnboundLocalError unless that import has run;
      the request then fails like any other that raises. */
  function MessageReply(body: Option<Json>, now: int, parseIso: IsoParser): Reply {
    if ImportsDatetime(body) then IntendedMessageReply(body, now, parseIso) else InternalError
  }

  /** The reply to a message request with `datetime` taken from the module's
      own import, as the handler evidently intends. */
  function IntendedMessageReply(body: Option<Json>, now: int, parseIso: IsoParser): Reply {
    var raw := MessageBody(body);
    if !raw.Obj? then InternalError
    else
      var data := raw.fields;
      var autoDismiss := ToInt(Get(data, "auto_dismiss", Int(0)));
      var sticky := Get(data, "sticky", Bool(false));
      var p := Prepare(data, now, parseIso);
      var screen := LookupScreen(p.messageType);
      if autoDismiss.None? || screen.None? then InternalError
      else
        match ShapeContent(screen.value, p, autoDismiss.value, sticky)
        case None => InternalError
        case Some(content) =>
          Success(DisplayState(Str(ScreenName(screen.value)), Get(p.data, "title", Str("Message")), Obj(content), Some(now)))
  }

  // ---------------------------------------------------------------------
  // The controller as a reducer
  // ---------------------------------------------------------------------

  datatype Request =
    | StatusQuery
    | RefreshRequest
    | UpdateRequest(body: Option<Json>)
    | DashboardRequest
    | ClearRequest
    | MessageRequest(body: Option<Json>)
    | ClearMessageRequest

  /** A reply that carries a new state installs it; any other leaves `s`. */
  function Settle(s: DisplayState, reply: Reply): (DisplayState, Reply) {
    if reply.Success? then (reply.state, reply) else (s, reply)
  }

  /** The state after, and the reply to, one request. */
  function Handle(s: DisplayState, req: Request, now: int, parseIso: IsoParser): (DisplayState, Reply) {
    match req
    case StatusQuery => (s, Snapshot(s))
    case RefreshRequest => (s.(updated := Some(now)), Success(s.(updated := Some(now))))
    case UpdateRequest(body) => Settle(s, UpdateReply(body, now))
    case DashboardRequest => (DashboardState(now), Acknowledged)
    case ClearRequest => (DashboardState(now), Acknowledged)
    case MessageRequest(body) => Settle(s, MessageReply(body, now, parseIso))
    case ClearMessageRequest => (QuickLookState(now), Success(QuickLookState(now)))
  }

  /** The JSON body of the status reply: the record's four keys, with the
      update time written out by `iso` (the ISO-8601 text of a time). */
  function StatusJson(s: DisplayState, iso: int -> string): (j: Json)
    ensures j.Obj? && j.fields.Keys == {"mode", "title", "content", "updated"}
    ensures j.fields["mode"] == s.mode && j.fields["title"] == s.title
    ensures j.fields["content"] == s.content
    ensures j.fields["updated"] == (if s.updated.Some? then Str(iso(s.updated.value)) else Null)
  {
    Obj(map["mode" := s.mode, "title" := s.title, "content" := s.content,
            "updated" := if s.updated.Some? then Str(iso(s.updated.value)) else Null])
  }

  /** The file name a template upload is written to: the last path
      component, with ".html" appended unless it already ends so. */
  function TemplateFileName(name: string): (r: string)
    ensures Text.EndsWith(r, ".html") && '/' !in r
    ensures Text.EndsWith(Text.Basename(name), ".html") ==> r == Text.Basename(name)
    ensures !Text.EndsWith(Text.Basename(name), ".html") ==> r == Text.Basename(name) + ".html"
  {
    var base := Text.Basename(name);
    if Text.EndsWith(base, ".html") then base else base + ".html"
  }

  // ---------------------------------------------------------------------
  // The controller object
  // ---------------------------------------------------------------------

  /** The receiver process: its one display-state record and one method per endpoint. */
  class Display {
    var state: DisplayState

    constructor ()
      ensures state == InitialState
    {
      state := InitialState;
    }

    /** GET /api/status. */
    method Status() returns (reply: Reply)
      ensures reply == Snapshot(state)
    {
      reply := Snapshot(state);
    }

    /** POST /api/refresh: re-stamps the record in place. */
    method Refresh(now: int) returns (reply: Reply)
      modifies this
      ensures state == old(state).(updated := Some(now))
      ensures reply == Success(state)
    {
      state := state.(updated := Some(now));
      reply := Success(state);
    }

    /** POST /api/update. */
    method Update(body: Option<Json>, now: int) returns (reply: Reply)
      modifies this
      ensures (state, reply) == Settle(old(state), UpdateReply(body, now))
    {
      if body.None? || !Truthy(body.value) {
        return NoDataProvided;
      }
      if !body.value.Obj? {
        return InternalError;
      }
      var data := body.value.fields;
      state := DisplayState(Get(data, "mode", Str("custom")),
                            Get(data, "title", Str("Dobby Display")),
                            Get(data, "content", Obj(map[])),
                            Some(now));
      reply := Success(state);
    }

    /** GET /api/dashboard. */
    method Dashboard(now: int) returns (reply: Reply)
      modifies this
      ensures state == DashboardState(now) && reply == Acknowledged
    {
      state := DisplayState(Str("dashboard"), Str("Family Dashboard"), Obj(map[]), Some(now));
      reply := Acknowledged;
    }

    /** GET /api/clear: the dashboard handler under another route. */
    method Clear(now: int) returns (reply: Reply)
      modifies this
      ensures state == DashboardState(now) && reply == Acknowledged
    {
      reply := Dashboard(now);
    }

    /** POST /api/message: countdown pre-processing, then the mode lookup and
        the content for that mode. The request body is rewritten in place as
        the handler goes; `datetimeBound` records whether the handler's local
        import of `datetime` has run, which stamping the record needs. */
    method SendMessage(body: Option<Json>, now: int, parseIso: IsoParser) returns (reply: Reply)
      modifies this
      ensures (state, reply) == Settle(old(state), MessageReply(body, now, parseIso))
    {
      var raw := MessageBody(body);
      if !raw.Obj? {
        return InternalError;
      }
      var data := raw.fields;
      var messageType := Get(data, "type", Str("info"));
      var autoDismiss := ToInt(Get(data, "auto_dismiss", Int(0)));
      var sticky := Get(data, "sticky", Bool(false));
      var datetimeBound := false;

      if messageType == Str("countdown") {
        var countdownTo := Get(data, "countdown_to", Null);
        if Truthy(countdownTo) {
          datetimeBound := true;
          var target := ParseTarget(countdownTo, parseIso);
          if target.None? {
            data := data["message" := Str("Invalid countdown time")];
            messageType := Str("info");
          } else if target.value - now > 0 {
            data := data["content" := Obj(CountdownContent(data, target.value - now))];
          } else {
            data := data["message" := Str("Event has passed!")];
            messageType := Str("info");
          }
        }
      }
      assert Prepare(raw.fields, now, parseIso) == Prepared(data, messageType);

      var screen := LookupScreen(messageType);
      if autoDismiss.None? || screen.None? {
        return InternalError;
      }
      var content: map<string, Json>;
      match screen.value {
        case MessageScreen =>
          content := MessageContent(data, messageType, autoDismiss.value, sticky);
        case CountdownScreen =>
          var given := Get(data, "content", Obj(map[]));
          if !given.Obj? {
            return InternalError;
          }
          content := given.fields;
          content := content["type" := Str("countdown")];
          content := content["auto_dismiss" := Int(autoDismiss.value)];
        case CelebrationScreen =>
          content := CelebrationContent(data, autoDismiss.value);
        case AlertScreen =>
          content := AlertContent(data, messageType, autoDismiss.value);
      }
      if !datetimeBound {
        return InternalError;
      }
      state := DisplayState(Str(ScreenName(screen.value)), Get(data, "title", Str("Message")), Obj(content), Some(now));
      reply := Success(state);
    }

    /** POST /api/clear-message: back to the quick-look view. */
    method ClearMessage(now: int) returns (reply: Reply)
      modifies this
      ensures state == QuickLookState(now) && reply == Success(state)
    {
      state := DisplayState(Str("quickglance"), Str("Quick Look"), Obj(map[]), Some(now));
      reply := Success(state);
    }
  }
}
