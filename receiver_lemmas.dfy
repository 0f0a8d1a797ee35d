/** What the display-state controller promises, stated over the reducer
    `Receiver.Handle`, the message handler as written (`Receiver.MessageReply`)
    and the message handler as intended (`Receiver.IntendedMessageReply`). */
module ReceiverLemmas {
  import opened Wrappers
  import opened JsonData
  import opened Receiver

  predicate Accepted(reply: Reply) {
    reply.Success? || reply.Acknowledged?
  }

  // ---------------------------------------------------------------------
  // Whole-record handlers
  // ---------------------------------------------------------------------

  /** A generic update with a non-empty dict replaces the record with the
      body's mode, title and content (each defaulted when absent) stamped
      `now`. An absent or falsy body is refused with 400, and a truthy body
      that is not a dict makes the handler raise; both leave the record. */
  lemma UpdateOutcomes(s: DisplayState, body: Option<Json>, now: int, parseIso: IsoParser)
    ensures var (s', reply) := Handle(s, UpdateRequest(body), now, parseIso);
      && (reply == NoDataProvided <==> body.None? || !Truthy(body.value))
      && (reply.Success? <==> body.Some? && body.value.Obj? && body.value.fields != map[])
      && (reply.Success? ==>
            var m := body.value.fields;
            s' == DisplayState(Get(m, "mode", Str("custom")), Get(m, "title", Str("Dobby Display")),
                               Get(m, "content", Obj(map[])), Some(now)))
      && (!reply.Success? ==> s' == s && reply in {NoDataProvided, InternalError})
  {
  }

  /** A status query reads the record and changes nothing. */
  lemma StatusReadsOnly(s: DisplayState, now: int, parseIso: IsoParser)
    ensures Handle(s, StatusQuery, now, parseIso) == (s, Snapshot(s))
  {
  }

  /** A refresh changes only the time stamp. */
  lemma RefreshOnlyRestamps(s: DisplayState, now: int, parseIso: IsoParser)
    ensures var s' := Handle(s, RefreshRequest, now, parseIso).0;
      s'.mode == s.mode && s'.title == s.title && s'.content == s.content && s'.updated == Some(now)
  {
  }

  /** Clear is the dashboard reset, and the reset is the fixed dashboard record. */
  lemma ClearIsDashboard(s: DisplayState, now: int, parseIso: IsoParser)
    ensures Handle(s, ClearRequest, now, parseIso) == Handle(s, DashboardRequest, now, parseIso)
    ensures Handle(s, DashboardRequest, now, parseIso)
         == (DisplayState(Str("dashboard"), Str("Family Dashboard"), Obj(map[]), Some(now)), Acknowledged)
  {
  }

  /** Clearing a message restores the start-up record, stamped `now`. */
  lemma ClearMessageRestoresInitial(s: DisplayState, now: int, parseIso: IsoParser)
    ensures Handle(s, ClearMessageRequest, now, parseIso).0 == InitialState.(updated := Some(now))
    ensures InitialState.updated == None
  {
  }

  /** The three resets are idempotent, and what they store does not depend
      on the previous record except through the time stamp. */
  lemma ResetsIdempotent(s: DisplayState, other: DisplayState, req: Request, t1: int, t2: int, parseIso: IsoParser)
    requires req == DashboardRequest || req == ClearRequest || req == ClearMessageRequest
    ensures Handle(Handle(s, req, t1, parseIso).0, req, t2, parseIso) == Handle(s, req, t2, parseIso)
    ensures Handle(s, req, t1, parseIso).0.(updated := None) == Handle(other, req, t2, parseIso).0.(updated := None)
  {
  }

  /** Every request other than a refresh or a status query either installs a
      record that does not depend on the previous one or keeps the previous
      one: two callers' records are never merged, and the later accepted
      request decides the state. */
  lemma LastWriteWins(s: DisplayState, first: Request, second: Request, t1: int, t2: int, parseIso: IsoParser)
    requires !second.RefreshRequest? && !second.StatusQuery?
    ensures var mid := Handle(s, first, t1, parseIso).0;
      var (final, reply) := Handle(mid, second, t2, parseIso);
      && (Accepted(reply) ==> final == Handle(s, second, t2, parseIso).0)
      && (!Accepted(reply) ==> final == mid)
  {
  }

  // ---------------------------------------------------------------------
  // Type-to-mode lookup
  // ---------------------------------------------------------------------

  /** "celebration", "countdown" and "alert" choose their own mode; every
      other text, "warning", "info" and "sticky" among them, chooses
      "message"; values that are not text choose "message" too, except lists
      and dicts, which cannot be looked up. */
  lemma ModeTable(t: string, j: Json)
    ensures LookupScreen(Str(t)) == Some(CelebrationScreen) <==> t == "celebration"
    ensures LookupScreen(Str(t)) == Some(CountdownScreen) <==> t == "countdown"
    ensures LookupScreen(Str(t)) == Some(AlertScreen) <==> t == "alert"
    ensures LookupScreen(Str(t)) == Some(MessageScreen) <==> t !in {"celebration", "countdown", "alert"}
    ensures LookupScreen(Str(t)) != Some(MessageScreen) ==> ScreenName(LookupScreen(Str(t)).value) == t
    ensures LookupScreen(j).None? <==> j.Arr? || j.Obj?
    ensures !j.Str? && Hashable(j) ==> LookupScreen(j) == Some(MessageScreen)
  {
  }

  /** A dict body whose pre-processing, mode lookup, auto-dismiss value
      and content all succeed gives that record, stamped `now`, under the
      intended handler. As written, the record is installed only when the
      handler's local import has run; otherwise the request answers 500. */
  lemma ShownReply(data: map<string, Json>, now: int, parseIso: IsoParser, p: Prepared, screen: Screen,
                   dismiss: int, content: map<string, Json>)
    requires Prepare(data, now, parseIso) == p
    requires LookupScreen(p.messageType) == Some(screen)
    requires ToInt(Get(data, "auto_dismiss", Int(0))) == Some(dismiss)
    requires ShapeContent(screen, p, dismiss, Get(data, "sticky", Bool(false))) == Some(content)
    ensures var shown := Success(DisplayState(Str(ScreenName(screen)), Get(p.data, "title", Str("Message")), Obj(content), Some(now)));
      && IntendedMessageReply(Some(Obj(data)), now, parseIso) == shown
      && MessageReply(Some(Obj(data)), now, parseIso) == if ImportsDatetime(Some(Obj(data))) then shown else InternalError
  {
    assert MessageBody(Some(Obj(data))) == Obj(data);
  }

  /** As written, a request that does not run the handler's local import
      answers 500. */
  lemma RefusedWithoutImport(body: Option<Json>, now: int, parseIso: IsoParser)
    requires !ImportsDatetime(body)
    ensures MessageReply(body, now, parseIso) == InternalError
  {
  }

  // ---------------------------------------------------------------------
  // Countdown pre-processing
  // ---------------------------------------------------------------------

  /** A countdown with no (or a falsy) target never runs the handler's local
      import, so as written it answers 500. The intended handler keeps it a
      countdown and shows the caller's content, marked with its type and
      auto-dismiss time. */
  lemma CountdownWithoutTarget(data: map<string, Json>, now: int, parseIso: IsoParser, dismiss: int)
    requires Get(data, "type", Str("info")) == Str("countdown")
    requires !Truthy(Get(data, "countdown_to", Null))
    requires ToInt(Get(data, "auto_dismiss", Int(0))) == Some(dismiss)
    ensures MessageReply(Some(Obj(data)), now, parseIso) == InternalError
    ensures var given := Get(data, "content", Obj(map[]));
      IntendedMessageReply(Some(Obj(data)), now, parseIso)
        == if given.Obj? then
             Success(DisplayState(Str("countdown"), Get(data, "title", Str("Message")),
                                  Obj(given.fields["type" := Str("countdown")]["auto_dismiss" := Int(dismiss)]), Some(now)))
           else InternalError
  {
  }

  /** A countdown whose target lies ahead shows days, hours, minutes and
      seconds that add up to the time left, with days null below one day. */
  lemma LiveCountdown(data: map<string, Json>, now: int, parseIso: IsoParser, when: string, target: int, dismiss: int)
    requires Get(data, "type", Str("info")) == Str("countdown")
    requires Get(data, "countdown_to", Null) == Str(when) && when != ""
    requires parseIso(when) == Some(target) && target > now
    requires ToInt(Get(data, "auto_dismiss", Int(0))) == Some(dismiss)
    ensures var reply := MessageReply(Some(Obj(data)), now, parseIso);
      && reply.Success?
      && reply.state.mode == Str("countdown")
      && reply.state.title == Get(data, "title", Str("Message"))
      && reply.state.updated == Some(now)
      && reply.state.content.Obj?
      && LiveCountdownContent(reply.state.content.fields, data, target - now, dismiss)
  {
    var delta := target - now;
    var filled := data["content" := Obj(CountdownContent(data, delta))];
    assert Prepare(data, now, parseIso) == Prepared(filled, Str("countdown"));
    var c := CountdownContent(data, delta)["type" := Str("countdown")]["auto_dismiss" := Int(dismiss)];
    ShownReply(data, now, parseIso, Prepared(filled, Str("countdown")), CountdownScreen, dismiss, c);
    assert Get(filled, "title", Str("Message")) == Get(data, "title", Str("Message"));
    CountdownContentFields(data, delta, dismiss);
  }

  /** The keys and values of a live countdown's content, `delta` seconds ahead. */
  ghost predicate LiveCountdownContent(c: map<string, Json>, data: map<string, Json>, delta: int, dismiss: int) {
    && c.Keys == {"days", "hours", "minutes", "seconds", "event", "message", "type", "auto_dismiss"}
    && c["hours"].Int? && 0 <= c["hours"].i < 24
    && c["minutes"].Int? && 0 <= c["minutes"].i < 60
    && c["seconds"].Int? && 0 <= c["seconds"].i < 60
    && (c["days"] == Null <==> delta < 86400)
    && (c["days"] != Null ==> c["days"].Int? && c["days"].i > 0)
    && (if c["days"] == Null then 0 else c["days"].i) * 86400
         + c["hours"].i * 3600 + c["minutes"].i * 60 + c["seconds"].i == delta
    && c["event"] == Get(data, "countdown_label", Str("Event"))
    && c["message"] == Get(data, "message", Str(""))
    && c["type"] == Str("countdown")
    && c["auto_dismiss"] == Int(dismiss)
  }

  lemma CountdownContentFields(data: map<string, Json>, delta: int, dismiss: int)
    requires delta > 0
    ensures LiveCountdownContent(CountdownContent(data, delta)["type" := Str("countdown")]["auto_dismiss" := Int(dismiss)],
                                 data, delta, dismiss)
  {
    var r := Decompose(delta);
    assert r.days == 0 <==> delta < 86400;
  }

  /** A countdown 90 minutes ahead shows 1 hour, 30 minutes, 0 seconds and no days. */
  lemma NinetyMinutesAhead(now: int, parseIso: IsoParser, when: string)
    requires when != "" && parseIso(when) == Some(now + 5400)
    ensures MessageReply(Some(Obj(map["type" := Str("countdown"), "countdown_to" := Str(when)])), now, parseIso)
         == Success(DisplayState(Str("countdown"), Str("Message"), Obj(map[
              "days" := Null, "hours" := Int(1), "minutes" := Int(30), "seconds" := Int(0),
              "event" := Str("Event"), "message" := Str(""), "type" := Str("countdown"), "auto_dismiss" := Int(0)]), Some(now)))
  {
    var data := map["type" := Str("countdown"), "countdown_to" := Str(when)];
    assert Get(data, "type", Str("info")) == Str("countdown");
    assert Get(data, "countdown_to", Null) == Str(when);
    assert Get(data, "auto_dismiss", Int(0)) == Int(0);
    assert Decompose(5400) == Remaining(0, 1, 30, 0);
    var c := CountdownContent(data, 5400);
    var filled := data["content" := Obj(c)];
    assert Prepare(data, now, parseIso) == Prepared(filled, Str("countdown"));
    ShownReply(data, now, parseIso, Prepared(filled, Str("countdown")), CountdownScreen, 0,
               c["type" := Str("countdown")]["auto_dismiss" := Int(0)]);
    assert Get(filled, "title", Str("Message")) == Str("Message");
    assert Get(data, "countdown_label", Str("Event")) == Str("Event");
    assert Get(data, "message", Str("")) == Str("");
    assert c == map["days" := Null, "hours" := Int(1), "minutes" := Int(30), "seconds" := Int(0),
                    "event" := Str("Event"), "message" := Str(""), "type" := Str("countdown")];
    assert c["type" := Str("countdown")]["auto_dismiss" := Int(0)]
        == map["days" := Null, "hours" := Int(1), "minutes" := Int(30), "seconds" := Int(0),
               "event" := Str("Event"), "message" := Str(""), "type" := Str("countdown"), "auto_dismiss" := Int(0)];
    assert ScreenName(CountdownScreen) == "countdown";
  }

  /** A countdown whose target has passed, or does not parse, becomes an
      "info" message with the matching text; it never shows countdown mode. */
  lemma ExpiredOrInvalidCountdown(data: map<string, Json>, now: int, parseIso: IsoParser, dismiss: int)
    requires Get(data, "type", Str("info")) == Str("countdown")
    requires Truthy(Get(data, "countdown_to", Null))
    requires var target := ParseTarget(Get(data, "countdown_to", Null), parseIso); target.None? || target.value <= now
    requires ToInt(Get(data, "auto_dismiss", Int(0))) == Some(dismiss)
    ensures var reply := MessageReply(Some(Obj(data)), now, parseIso);
      var target := ParseTarget(Get(data, "countdown_to", Null), parseIso);
      var text := if target.None? then "Invalid countdown time" else "Event has passed!";
      && reply.Success?
      && reply.state.mode == Str("message")
      && reply.state.title == Get(data, "title", Str("Message"))
      && reply.state.content.Obj?
      && MessageFields(reply.state.content.fields, data["message" := Str(text)], Str("info"), dismiss)
      && reply.state.content.fields["color"] == Get(data, "color", Str("#667eea"))
  {
    var target := ParseTarget(Get(data, "countdown_to", Null), parseIso);
    var text := if target.None? then "Invalid countdown time" else "Event has passed!";
    var rewritten := data["message" := Str(text)];
    assert MessageBody(Some(Obj(data))) == Obj(data) && ImportsDatetime(Some(Obj(data)));
    assert Prepare(data, now, parseIso) == Prepared(rewritten, Str("info"));
    var sticky := Get(data, "sticky", Bool(false));
    ShownReply(data, now, parseIso, Prepared(rewritten, Str("info")), MessageScreen, dismiss,
               MessageContent(rewritten, Str("info"), dismiss, sticky));
    assert Get(rewritten, "title", Str("Message")) == Get(data, "title", Str("Message"));
    assert Get(rewritten, "sticky", Bool(false)) == sticky;
    assert Get(rewritten, "color", Str("#667eea")) == Get(data, "color", Str("#667eea"));
    MessageContentFields(rewritten, Str("info"), dismiss, sticky);
  }

  // ---------------------------------------------------------------------
  // Content by mode
  // ---------------------------------------------------------------------

  /** The eight keys of message-mode content and where each value comes from. */
  ghost predicate MessageFields(c: map<string, Json>, data: map<string, Json>, messageType: Json, dismiss: int) {
    && c.Keys == {"message", "sub_message", "font_size", "sub_size", "auto_dismiss", "type", "color", "sticky"}
    && c["message"] == Get(data, "message", Str(""))
    && c["sub_message"] == Get(data, "sub_message", Str(""))
    && c["font_size"] == Get(data, "font_size", Str("4rem"))
    && c["sub_size"] == Get(data, "sub_size", Str("2rem"))
    && c["auto_dismiss"] == Int(dismiss)
    && c["type"] == messageType
    && c["color"] == (if "color" in data then data["color"] else Str(TypeColor(messageType)))
    && c["sticky"] == Get(data, "sticky", Bool(false))
  }

  lemma MessageContentFields(data: map<string, Json>, messageType: Json, dismiss: int, sticky: Json)
    requires sticky == Get(data, "sticky", Bool(false))
    ensures MessageFields(MessageContent(data, messageType, dismiss, sticky), data, messageType, dismiss)
  {
  }

  /** A message request of any type that is not "celebration", "countdown"
      or "alert" answers 500 as written, since it never runs the handler's
      local import. The intended handler shows message mode with the eight
      message keys: the defaults "4rem" and "2rem", the original type, and
      the explicit colour or the type's colour. */
  lemma MessageModeContent(data: map<string, Json>, now: int, parseIso: IsoParser, dismiss: int)
    requires var t := Get(data, "type", Str("info")); Hashable(t) && t !in {Str("celebration"), Str("countdown"), Str("alert")}
    requires ToInt(Get(data, "auto_dismiss", Int(0))) == Some(dismiss)
    ensures MessageReply(Some(Obj(data)), now, parseIso) == InternalError
    ensures var reply := IntendedMessageReply(Some(Obj(data)), now, parseIso);
      && reply.Success?
      && reply.state.mode == Str("message")
      && reply.state.title == Get(data, "title", Str("Message"))
      && reply.state.updated == Some(now)
      && reply.state.content.Obj?
      && MessageFields(reply.state.content.fields, data, Get(data, "type", Str("info")), dismiss)
  {
    var t := Get(data, "type", Str("info"));
    assert Prepare(data, now, parseIso) == Prepared(data, t);
    assert LookupScreen(t) == Some(MessageScreen);
    var sticky := Get(data, "sticky", Bool(false));
    ShownReply(data, now, parseIso, Prepared(data, t), MessageScreen, dismiss, MessageContent(data, t, dismiss, sticky));
    MessageContentFields(data, t, dismiss, sticky);
  }

  /** The colour table: info, warning, alert, celebration and sticky have
      their own colours, and every other type gets the info colour. */
  lemma ColorTable(t: Json)
    ensures TypeColor(Str("info")) == "#667eea" && TypeColor(Str("warning")) == "#ffa502"
    ensures TypeColor(Str("alert")) == "#ff4757" && TypeColor(Str("celebration")) == "#f093fb"
    ensures TypeColor(Str("sticky")) == "#2ed573"
    ensures t !in {Str("info"), Str("warning"), Str("alert"), Str("celebration"), Str("sticky")} ==> TypeColor(t) == "#667eea"
  {
  }

  /** As written, a warning answers 500. The intended handler shows it in
      message mode (not alert mode), keeps its type, and makes it orange
      unless a colour is given. */
  lemma WarningIsAMessage(message: string, now: int, parseIso: IsoParser)
    ensures MessageReply(Some(Obj(map["message" := Str(message), "type" := Str("warning")])), now, parseIso) == InternalError
    ensures var reply := IntendedMessageReply(Some(Obj(map["message" := Str(message), "type" := Str("warning")])), now, parseIso);
      && reply.Success?
      && reply.state.mode == Str("message")
      && reply.state.title == Str("Message")
      && reply.state.content.Obj?
      && reply.state.content.fields["type"] == Str("warning")
      && reply.state.content.fields["color"] == Str("#ffa502")
      && reply.state.content.fields["font_size"] == Str("4rem")
  {
    var data := map["message" := Str(message), "type" := Str("warning")];
    assert Get(data, "type", Str("info")) == Str("warning");
    assert Get(data, "auto_dismiss", Int(0)) == Int(0);
    MessageModeContent(data, now, parseIso, 0);
  }

  /** The six keys of celebration content and where each value comes from. */
  ghost predicate CelebrationFields(c: map<string, Json>, data: map<string, Json>, dismiss: int) {
    && c.Keys == {"title", "name", "icon", "message", "type", "auto_dismiss"}
    && c["name"] == Get(data, "message", Str(""))
    && c["message"] == Get(data, "sub_message", Str(""))
    && c["title"] == Get(data, "title", Str("Celebration!"))
    && c["icon"] == Get(data, "icon", Str("\U{F0}\U{178}\U{17D}\U{2030}"))
    && c["type"] == Str("celebration")
    && c["auto_dismiss"] == Int(dismiss)
  }

  /** As written, a celebration answers 500. The intended handler moves the
      message into `name` and the sub-message into `message`, and defaults
      its own title to "Celebration!" and the record's title to "Message". */
  lemma CelebrationRemapsFields(data: map<string, Json>, now: int, parseIso: IsoParser, dismiss: int)
    requires Get(data, "type", Str("info")) == Str("celebration")
    requires ToInt(Get(data, "auto_dismiss", Int(0))) == Some(dismiss)
    ensures MessageReply(Some(Obj(data)), now, parseIso) == InternalError
    ensures var reply := IntendedMessageReply(Some(Obj(data)), now, parseIso);
      && reply.Success?
      && reply.state.mode == Str("celebration")
      && reply.state.title == Get(data, "title", Str("Message"))
      && reply.state.content.Obj?
      && CelebrationFields(reply.state.content.fields, data, dismiss)
  {
    var p := Prepared(data, Str("celebration"));
    RefusedWithoutImport(Some(Obj(data)), now, parseIso);
    assert Prepare(data, now, parseIso) == p;
    ShownReply(data, now, parseIso, p, CelebrationScreen, dismiss, CelebrationContent(data, dismiss));
    CelebrationContentFields(data, dismiss);
  }

  lemma CelebrationContentFields(data: map<string, Json>, dismiss: int)
    ensures CelebrationFields(CelebrationContent(data, dismiss), data, dismiss)
  {
  }

  /** The worked example "Grandma" / "Turns 80!": the record the intended
      handler stores; as written, the request answers 500. */
  lemma GrandmaTurnsEighty(now: int, parseIso: IsoParser)
    ensures MessageReply(Some(Obj(map["type" := Str("celebration"), "message" := Str("Grandma"), "sub_message" := Str("Turns 80!")])), now, parseIso)
         == InternalError
    ensures IntendedMessageReply(Some(Obj(map["type" := Str("celebration"), "message" := Str("Grandma"), "sub_message" := Str("Turns 80!")])), now, parseIso)
         == Success(DisplayState(Str("celebration"), Str("Message"), Obj(map[
              "title" := Str("Celebration!"), "name" := Str("Grandma"), "icon" := Str("\U{F0}\U{178}\U{17D}\U{2030}"),
              "message" := Str("Turns 80!"), "type" := Str("celebration"), "auto_dismiss" := Int(0)]), Some(now)))
  {
    var body := map["type" := Str("celebration"), "message" := Str("Grandma"), "sub_message" := Str("Turns 80!")];
    assert Get(body, "type", Str("info")) == Str("celebration");
    assert Get(body, "auto_dismiss", Int(0)) == Int(0);
    var p := Prepared(body, Str("celebration"));
    assert Prepare(body, now, parseIso) == p;
    ShownReply(body, now, parseIso, p, CelebrationScreen, 0, CelebrationContent(body, 0));
  }

  /** The seven keys of alert content and where each value comes from. */
  ghost predicate AlertFields(c: map<string, Json>, data: map<string, Json>, dismiss: int) {
    && c.Keys == {"title", "message", "severity", "details", "action", "type", "auto_dismiss"}
    && c["title"] == Get(data, "title", Str("Alert"))
    && c["message"] == Get(data, "message", Str(""))
    && c["severity"] == Str("alert")
    && c["details"] == Get(data, "details", Arr([]))
    && c["action"] == Get(data, "action", Str(""))
    && c["type"] == Str("alert")
    && c["auto_dismiss"] == Int(dismiss)
  }

  /** As written, an alert answers 500. Under the intended handler it always
      has severity "alert", and no details and no action by default. */
  lemma AlertShape(data: map<string, Json>, now: int, parseIso: IsoParser, dismiss: int)
    requires Get(data, "type", Str("info")) == Str("alert")
    requires ToInt(Get(data, "auto_dismiss", Int(0))) == Some(dismiss)
    ensures MessageReply(Some(Obj(data)), now, parseIso) == InternalError
    ensures var reply := IntendedMessageReply(Some(Obj(data)), now, parseIso);
      && reply.Success?
      && reply.state.mode == Str("alert")
      && reply.state.title == Get(data, "title", Str("Message"))
      && reply.state.content.Obj?
      && AlertFields(reply.state.content.fields, data, dismiss)
  {
    var p := Prepared(data, Str("alert"));
    RefusedWithoutImport(Some(Obj(data)), now, parseIso);
    assert Prepare(data, now, parseIso) == p;
    ShownReply(data, now, parseIso, p, AlertScreen, dismiss, AlertContent(data, Str("alert"), dismiss));
    AlertContentFields(data, dismiss);
  }

  lemma AlertContentFields(data: map<string, Json>, dismiss: int)
    ensures AlertFields(AlertContent(data, Str("alert"), dismiss), data, dismiss)
  {
  }

  /** A missing body is read as an empty dict. As written, it answers 500;
      the intended handler shows an empty "info" message that stays until
      dismissed. */
  lemma MessageWithoutBody(now: int, parseIso: IsoParser)
    ensures MessageReply(None, now, parseIso) == InternalError
    ensures IntendedMessageReply(None, now, parseIso)
         == Success(DisplayState(Str("message"), Str("Message"), Obj(map[
              "message" := Str(""), "sub_message" := Str(""), "font_size" := Str("4rem"),
              "sub_size" := Str("2rem"), "auto_dismiss" := Int(0), "type" := Str("info"),
              "color" := Str("#667eea"), "sticky" := Bool(false)]), Some(now)))
  {
  }

  /** As written, a message request either succeeds or is refused with the
      record kept, and it is refused exactly when the handler raises
      (`MessageRaises`): only a countdown with a truthy target can succeed. */
  lemma MessageFailures(s: DisplayState, body: Option<Json>, now: int, parseIso: IsoParser)
    ensures var (s', reply) := Handle(s, MessageRequest(body), now, parseIso);
      && (reply.Success? || reply == InternalError)
      && (reply == InternalError ==> s' == s)
      && (reply.Success? ==> ImportsDatetime(body))
      && (reply == InternalError <==> MessageRaises(body))
  {
    if ImportsDatetime(body) {
      IntendedMessageFailures(s, body, now, parseIso);
    }
  }

  /** The two ways the handler as written raises: the request does not run
      its local import of `datetime`, which stamping the record needs, or
      `int()` rejects the auto-dismiss value, which is read first. */
  ghost predicate MessageRaises(body: Option<Json>) {
    || !ImportsDatetime(body)
    || ToInt(Get(MessageBody(body).fields, "auto_dismiss", Int(0))).None?
  }

  /** The discrepancy on one request: a plain message "hi" answers 500 and
      leaves the record, where the intended handler shows it. */
  lemma PlainMessageRefused(s: DisplayState, now: int, parseIso: IsoParser)
    ensures Handle(s, MessageRequest(Some(Obj(map["message" := Str("hi")]))), now, parseIso) == (s, InternalError)
    ensures IntendedMessageReply(Some(Obj(map["message" := Str("hi")])), now, parseIso).Success?
  {
    var data := map["message" := Str("hi")];
    assert Get(data, "type", Str("info")) == Str("info");
    RefusedWithoutImport(Some(Obj(data)), now, parseIso);
    assert Get(data, "auto_dismiss", Int(0)) == Int(0);
    assert Prepare(data, now, parseIso) == Prepared(data, Str("info"));
    ShownReply(data, now, parseIso, Prepared(data, Str("info")), MessageScreen, 0,
               MessageContent(data, Str("info"), 0, Get(data, "sticky", Bool(false))));
  }

  /** The intended handler's request either succeeds or is refused with the
      record kept, and it is refused exactly when that handler raises
      (`IntendedMessageRaises`). */
  lemma IntendedMessageFailures(s: DisplayState, body: Option<Json>, now: int, parseIso: IsoParser)
    ensures var (s', reply) := Settle(s, IntendedMessageReply(body, now, parseIso));
      && (reply.Success? || reply == InternalError)
      && (reply == InternalError ==> s' == s)
      && (!MessageBody(body).Obj? ==> reply == InternalError)
      && (MessageBody(body).Obj? && ToInt(Get(MessageBody(body).fields, "auto_dismiss", Int(0))).None? ==> reply == InternalError)
      && (reply == InternalError <==> IntendedMessageRaises(body))
  {
    var raw := MessageBody(body);
    if raw.Obj? {
      var data := raw.fields;
      var t := Get(data, "type", Str("info"));
      var p := Prepare(data, now, parseIso);
      if t.Arr? || t.Obj? {
        assert p.messageType == t;
      } else if t == Str("countdown") && Truthy(Get(data, "countdown_to", Null)) {
        assert LookupScreen(p.messageType).Some?;
        assert LookupScreen(p.messageType) == Some(CountdownScreen) ==> Get(p.data, "content", Obj(map[])).Obj?;
      } else {
        assert p == Prepared(data, t);
      }
    }
  }

  /** The four ways the intended handler raises: a truthy body that is not a
      dict, an auto-dismiss value `int()` rejects, a type that is a list or
      dict (it cannot be looked up), or a countdown without a target whose
      content is not a dict. */
  ghost predicate IntendedMessageRaises(body: Option<Json>) {
    var raw := MessageBody(body);
    !raw.Obj? ||
      var data := raw.fields;
      var t := Get(data, "type", Str("info"));
      || ToInt(Get(data, "auto_dismiss", Int(0))).None?
      || t.Arr? || t.Obj?
      || (t == Str("countdown") && !Truthy(Get(data, "countdown_to", Null))
          && !Get(data, "content", Obj(map[])).Obj?)
  }

  // ---------------------------------------------------------------------
  // Template names
  // ---------------------------------------------------------------------

  /** Sanitising a template name twice changes nothing more. */
  lemma TemplateFileNameIdempotent(name: string)
    ensures TemplateFileName(TemplateFileName(name)) == TemplateFileName(name)
  {
    var r := TemplateFileName(name);
    assert Text.Basename(r) == r;
  }
}
