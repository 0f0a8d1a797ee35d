/** What the receiver makes of the payloads its two clients post: the
    screen each push builder produces, and the quick-glance fetcher's
    change check against the state its own push installed. */
module Pipeline {
  import opened Wrappers
  import opened JsonData
  import opened Receiver
  import opened ReceiverLemmas
  import opened Push
  import opened QuickGlance

  /** A generic update installs the builder's mode, title and content. */
  lemma UpdateShown(mode: string, title: string, content: Json, now: int)
    ensures var p := Update(mode, title, content);
      && p.endpoint == UpdateEndpoint
      && UpdateReply(Some(Obj(p.body)), now) == Success(DisplayState(Str(mode), Str(title), content, Some(now)))
  {
    var p := Update(mode, title, content);
    assert Truthy(Obj(p.body)) by { assert "mode" in p.body; }
  }

  /** Each fixed-mode builder shows its mode and title with the given data. */
  lemma FixedModesShown(data: map<string, Json>, steps: seq<Json>, now: int)
    ensures UpdateReply(Some(Obj(PushRun(data).body)), now)
      == Success(DisplayState(Str("run"), Str("\U{1F3C3} Latest Run"), Obj(data), Some(now)))
    ensures UpdateReply(Some(Obj(PushMeals(data).body)), now)
      == Success(DisplayState(Str("meals"), Str("\U{1F37D}\U{FE0F} This Week's Meals"), Obj(data), Some(now)))
    ensures UpdateReply(Some(Obj(PushRoutine(steps).body)), now)
      == Success(DisplayState(Str("routine"), Str("Bedtime Routine"), Obj(map["steps" := Arr(steps)]), Some(now)))
    ensures UpdateReply(Some(Obj(PushQuickglance(data).body)), now)
      == Success(DisplayState(Str("quickglance"), Str("Quick Look"), Obj(data), Some(now)))
  {
    UpdateShown("run", "\U{1F3C3} Latest Run", Obj(data), now);
    UpdateShown("meals", "\U{1F37D}\U{FE0F} This Week's Meals", Obj(data), now);
    UpdateShown("routine", "Bedtime Routine", Obj(map["steps" := Arr(steps)]), now);
    UpdateShown("quickglance", "Quick Look", Obj(data), now);
  }

  /** A custom push shows its text under its title; the receiver ignores the
      `speak` key, which the payload carries even without speech. */
  lemma CustomShown(title: string, text: string, speak: Option<string>, now: int)
    ensures var p := PushCustom(title, text, speak);
      && "speak" in p.body && (speak.None? <==> p.body["speak"] == Null)
      && UpdateReply(Some(Obj(p.body)), now)
         == Success(DisplayState(Str("custom"), Str(title), Obj(map["text" := Str(text)]), Some(now)))
  {
    var p := PushCustom(title, text, speak);
    assert "mode" in p.body;
  }

  /** An alert push shows alert mode; missing details show as an empty list. */
  lemma AlertShown(message: string, severity: string, title: string, details: Option<seq<Json>>, action: string, now: int)
    ensures var reply := UpdateReply(Some(Obj(PushAlert(message, severity, title, details, action).body)), now);
      && reply.Success?
      && reply.state.mode == Str("alert")
      && reply.state.title == Str(title)
      && reply.state.content.Obj?
      && reply.state.content.fields["details"] == Arr(if details.Some? then details.value else [])
      && reply.state.content.fields["severity"] == Str(severity)
  {
    var items := if details.Some? && details.value != [] then details.value else [];
    UpdateShown("alert", title, Obj(map["severity" := Str(severity), "message" := Str(message),
                                        "details" := Arr(items), "action" := Str(action)]), now);
  }

  /** A countdown push shows countdown mode with the pushed content. */
  lemma CountdownPushShown(p: Post, now: int)
    requires p.body.Keys == {"mode", "title", "content"}
    requires p.body["mode"] == Str("countdown") && p.body["title"] == Str("Countdown")
    ensures UpdateReply(Some(Obj(p.body)), now)
      == Success(DisplayState(Str("countdown"), Str("Countdown"), p.body["content"], Some(now)))
  {
    assert "mode" in p.body;
  }

  /** As written, the receiver accepts a pushed message exactly when it is a
      countdown with a target; every other one answers 500 and leaves the
      record. */
  lemma PushedMessageReceived(s: DisplayState, a: MessageArgs, body: map<string, Json>, now: int, parseIso: IsoParser)
    requires MessagePayload(a, body)
    ensures var (s', reply) := Handle(s, MessageRequest(Some(Obj(body))), now, parseIso);
      && (reply.Success? <==> a.messageType == "countdown" && Given(a.countdownTo))
      && (!reply.Success? ==> reply == InternalError && s' == s)
  {
    assert "message" in body;
    assert Get(body, "type", Str("info")) == Str(a.messageType);
    assert Get(body, "auto_dismiss", Int(0)) == Int(a.autoDismiss);
    assert Truthy(Get(body, "countdown_to", Null)) <==> Given(a.countdownTo);
    MessageFailures(s, Some(Obj(body)), now, parseIso);
  }

  /** A pushed message of a plain type (not "celebration", "countdown" or
      "alert") answers 500 as written. The intended handler shows it in
      message mode under the title "Message", with the given colour or the
      type's colour, and the pushed auto-dismiss and sticky settings. */
  lemma PushedMessageShown(a: MessageArgs, body: map<string, Json>, now: int, parseIso: IsoParser)
    requires MessagePayload(a, body)
    requires a.messageType !in {"celebration", "countdown", "alert"}
    ensures MessageReply(Some(Obj(body)), now, parseIso) == InternalError
    ensures var reply := IntendedMessageReply(Some(Obj(body)), now, parseIso);
      && reply.Success?
      && reply.state.mode == Str("message")
      && reply.state.title == Str("Message")
      && reply.state.content.Obj?
      && reply.state.content.fields["message"] == Str(a.message)
      && reply.state.content.fields["color"] == Str(if Given(a.color) then a.color.value else TypeColor(Str(a.messageType)))
      && reply.state.content.fields["auto_dismiss"] == Int(a.autoDismiss)
      && reply.state.content.fields["sticky"] == Bool(a.sticky)
  {
    assert Get(body, "type", Str("info")) == Str(a.messageType);
    assert Get(body, "auto_dismiss", Int(0)) == Int(a.autoDismiss);
    assert "title" !in body;
    MessageModeContent(body, now, parseIso, a.autoDismiss);
    assert Get(body, "message", Str("")) == Str(a.message);
    assert Get(body, "sticky", Bool(false)) == Bool(a.sticky);
    assert "color" in body <==> Given(a.color);
  }

  /** As written, a warning pushed with the defaults answers 500. The
      intended handler makes it orange, dismissed after ten seconds and not
      sticky. */
  lemma DefaultWarningShown(message: string, body: map<string, Json>, now: int, parseIso: IsoParser)
    requires MessagePayload(DefaultMessage(message).(messageType := "warning"), body)
    ensures MessageReply(Some(Obj(body)), now, parseIso) == InternalError
    ensures var reply := IntendedMessageReply(Some(Obj(body)), now, parseIso);
      && reply.Success?
      && reply.state.content.Obj?
      && reply.state.content.fields["color"] == Str("#ffa502")
      && reply.state.content.fields["auto_dismiss"] == Int(10)
      && reply.state.content.fields["sticky"] == Bool(false)
  {
    PushedMessageShown(DefaultMessage(message).(messageType := "warning"), body, now, parseIso);
  }

  /** After the fetcher's push has been installed, the status reply carries the
      same data, so an unforced check of the same data skips the next push,
      while a change in any key field pushes again. */
  lemma UnchangedQuickglanceNotRepushed(s: DisplayState, data: map<string, Json>, next: map<string, Json>,
                                        now: int, parseIso: IsoParser, iso: int -> string)
    ensures var (after, reply) := Handle(s, UpdateRequest(Some(QuickglancePayload(data))), now, parseIso);
      && reply.Success?
      && after.content == Obj(data)
      && !ShouldPush(Some(StatusJson(after, iso)), data, false)
      && (ShouldPush(Some(StatusJson(after, iso)), next, false) <==>
            exists k :: k in KeyFields && Get(data, k, Null) != Get(next, k, Null))
  {
    var payload := QuickglancePayload(data);
    assert Truthy(payload) by { assert "content" in payload.fields; }
    var (after, reply) := Handle(s, UpdateRequest(Some(payload)), now, parseIso);
    assert after.content == Obj(data);
    var status := Some(StatusJson(after, iso));
    assert Get(status.value.fields, "content", Obj(map[])) == Obj(data);
    PushSkipped(status, data, false);
    PushSkipped(status, next, false);
  }
}
