/** The payloads the push client posts to the receiver: one builder per
    display mode, with the fixed mode and title each sets, its defaults and
    the keys it adds only when an argument is given. The POST itself is not
    modelled; a builder yields the endpoint and the JSON body. */
module Push {
  import opened Wrappers
  import opened JsonData
  import Text

  /** A request to the receiver: its endpoint path and JSON body. */
  datatype Post = Post(endpoint: string, body: map<string, Json>)

  const UpdateEndpoint := "/api/update"
  const MessageEndpoint := "/api/message"

  /** A generic update with a fixed mode and title. */
  function Update(mode: string, title: string, content: Json): Post {
    Post(UpdateEndpoint, map["mode" := Str(mode), "title" := Str(title), "content" := content])
  }

  /** `push_run`. */
  function PushRun(data: map<string, Json>): Post {
    Update("run", "\U{1F3C3} Latest Run", Obj(data))
  }

  /** `push_meals`. */
  function PushMeals(data: map<string, Json>): Post {
    Update("meals", "\U{1F37D}\U{FE0F} This Week's Meals", Obj(data))
  }

  /** `push_routine`: the steps wrapped as `{"steps": steps}`. */
  function PushRoutine(steps: seq<Json>): Post {
    Update("routine", "Bedtime Routine", Obj(map["steps" := Arr(steps)]))
  }

  /** `push_quickglance`. */
  function PushQuickglance(data: map<string, Json>): Post {
    Update("quickglance", "Quick Look", Obj(data))
  }

  /** `push_custom`: the text wrapped as `{"text": text}`, and a `speak`
      key that is null when no speech is given. */
  function PushCustom(title: string, text: string, speak: Option<string>): Post {
    Post(UpdateEndpoint, map[
      "mode" := Str("custom"),
      "title" := Str(title),
      "content" := Obj(map["text" := Str(text)]),
      "speak" := if speak.Some? then Str(speak.value) else Null])
  }

  /** `push_alert`: no details (None or an empty list, `details or []`)
      becomes the empty list. */
  function PushAlert(message: string, severity: string, title: string, details: Option<seq<Json>>, action: string): Post {
    var items := if details.Some? && details.value != [] then details.value else [];
    Update("alert", title, Obj(map[
      "severity" := Str(severity),
      "message" := Str(message),
      "details" := Arr(items),
      "action" := Str(action)]))
  }

  /** Python truthiness of an optional text argument. */
  predicate Given(x: Option<string>) {
    x.Some? && x.value != ""
  }

  /** `push_countdown`: `days`, `hours` and `minutes` are added, as decimal
      text, only when given. */
  method PushCountdown(event: string, days: Option<int>, hours: Option<int>, minutes: Option<int>, message: string)
    returns (p: Post)
    ensures p.endpoint == UpdateEndpoint
    ensures p.body.Keys == {"mode", "title", "content"}
    ensures p.body["mode"] == Str("countdown") && p.body["title"] == Str("Countdown")
    ensures p.body["content"].Obj?
    ensures var c := p.body["content"].fields;
      && c.Keys == {"event", "message"} + (if days.Some? then {"days"} else {})
                   + (if hours.Some? then {"hours"} else {}) + (if minutes.Some? then {"minutes"} else {})
      && c["event"] == Str(event) && c["message"] == Str(message)
      && (days.Some? ==> c["days"] == Str(Text.IntToString(days.value)))
      && (hours.Some? ==> c["hours"] == Str(Text.IntToString(hours.value)))
      && (minutes.Some? ==> c["minutes"] == Str(Text.IntToString(minutes.value)))
  {
    var content := map["event" := Str(event), "message" := Str(message)];
    if days.Some? {
      content := content["days" := Str(Text.IntToString(days.value))];
    }
    if hours.Some? {
      content := content["hours" := Str(Text.IntToString(hours.value))];
    }
    if minutes.Some? {
      content := content["minutes" := Str(Text.IntToString(minutes.value))];
    }
    p := Post(UpdateEndpoint, map["mode" := Str("countdown"), "title" := Str("Countdown"), "content" := Obj(content)]);
  }

  /** The arguments of `push_message`. */
  datatype MessageArgs = MessageArgs(
    message: string,
    messageType: string,
    subMessage: string,
    autoDismiss: int,
    sticky: bool,
    color: Option<string>,
    fontSize: string,
    subSize: string,
    speak: Option<string>,
    countdownTo: Option<string>,
    countdownLabel: Option<string>)

  /** `push_message` with every argument at its default. */
  function DefaultMessage(message: string): MessageArgs {
    MessageArgs(message, "info", "", 10, false, None, "4rem", "2rem", None, None, None)
  }

  /** The keys every message payload has. */
  const FixedMessageKeys: set<string> := {"message", "sub_message", "type", "auto_dismiss", "sticky", "font_size", "sub_size"}

  /** The message payload for the arguments: seven fixed keys; `color` and
      `speak` only when given; `countdown_to` only when given, and then with
      `countdown_label`, which falls back to the message. */
  ghost predicate MessagePayload(a: MessageArgs, body: map<string, Json>) {
    && body.Keys == FixedMessageKeys
      + (if Given(a.color) then {"color"} else {})
      + (if Given(a.speak) then {"speak"} else {})
      + (if Given(a.countdownTo) then {"countdown_to", "countdown_label"} else {})
    && body["message"] == Str(a.message)
    && body["sub_message"] == Str(a.subMessage)
    && body["type"] == Str(a.messageType)
    && body["auto_dismiss"] == Int(a.autoDismiss)
    && body["sticky"] == Bool(a.sticky)
    && body["font_size"] == Str(a.fontSize)
    && body["sub_size"] == Str(a.subSize)
    && (Given(a.color) ==> body["color"] == Str(a.color.value))
    && (Given(a.speak) ==> body["speak"] == Str(a.speak.value))
    && (Given(a.countdownTo) ==>
         body["countdown_to"] == Str(a.countdownTo.value)
         && body["countdown_label"] == Str(OrText(a.countdownLabel, a.message)))
  }

  /** `push_message`, posted to the message endpoint. */
  method PushMessage(a: MessageArgs) returns (p: Post)
    ensures p.endpoint == MessageEndpoint
    ensures MessagePayload(a, p.body)
  {
    var payload := map[
      "message" := Str(a.message),
      "sub_message" := Str(a.subMessage),
      "type" := Str(a.messageType),
      "auto_dismiss" := Int(a.autoDismiss),
      "sticky" := Bool(a.sticky),
      "font_size" := Str(a.fontSize),
      "sub_size" := Str(a.subSize)];
    if a.color.Some? && a.color.value != "" {
      payload := payload["color" := Str(a.color.value)];
    }
    if a.speak.Some? && a.speak.value != "" {
      payload := payload["speak" := Str(a.speak.value)];
    }
    if a.countdownTo.Some? && a.countdownTo.value != "" {
      payload := payload["countdown_to" := Str(a.countdownTo.value)];
      payload := payload["countdown_label" := Str(if a.countdownLabel.Some? && a.countdownLabel.value != "" then a.countdownLabel.value else a.message)];
    }
    p := Post(MessageEndpoint, payload);
  }
}
