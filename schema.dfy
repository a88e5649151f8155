/**
 * The shared record shapes: messages, conversations, catalog entries and sampling settings,
 * as typed values, and the runtime validators (`messageSchema`, `conversationSchema`,
 * `settingsSchema`) as functions from a JSON value to an optional typed value.
 */
module Schema {
  import opened Options

  /**
   * A JavaScript number. The client only stores and compares numbers (timestamps,
   * temperatures), so exact reals stand in for doubles.
   */
  type Number = real

  datatype Role = User | Assistant | System

  /** A chat message; `model` is the display label of the model that wrote an assistant reply. */
  datatype Message = Message(id: string, role: Role, content: string, timestamp: Number, model: Option<string>)

  /** A stored conversation. It has no system-prompt or preset field. */
  datatype Conversation = Conversation(
    id: string,
    title: string,
    messages: seq<Message>,
    model: string,
    temperature: Number,
    createdAt: Number,
    updatedAt: Number)

  /** A catalog entry; `supportsVision` is present only on some entries. */
  datatype AIModel = AIModel(id: string, name: string, provider: string, category: string, supportsVision: Option<bool>)

  /** The sampling settings record of `settingsSchema`. */
  datatype Settings = Settings(temperature: Number, stream: bool, testMode: bool)

  /** The temperature bound `settingsSchema` enforces. */
  predicate ValidSettings(s: Settings) {
    0.0 <= s.temperature <= 2.0
  }

  /** A parsed JSON value, the input of the validators. */
  datatype Json =
    | JNull
    | JBool(b: bool)
    | JNum(n: real)
    | JStr(s: string)
    | JArr(items: seq<Json>)
    | JObj(fields: map<string, Json>)

  function RoleName(r: Role): string {
    match r
    case User => "user"
    case Assistant => "assistant"
    case System => "system"
  }

  /** `z.enum(['user', 'assistant', 'system'])`. */
  function ParseRole(j: Json): (r: Option<Role>)
    ensures r.Some? <==> j.JStr? && j.s in {"user", "assistant", "system"}
    ensures r.Some? ==> j == JStr(RoleName(r.value))
  {
    match j
    case JStr(s) =>
      if s == "user" then Some(User)
      else if s == "assistant" then Some(Assistant)
      else if s == "system" then Some(System)
      else None
    case _ => None
  }

  // Readers for one key of an object: the value when the key is present with the right type.

  function StrAt(f: map<string, Json>, k: string): Option<string> {
    if k in f && f[k].JStr? then Some(f[k].s) else None
  }

  function NumAt(f: map<string, Json>, k: string): Option<real> {
    if k in f && f[k].JNum? then Some(f[k].n) else None
  }

  function BoolAt(f: map<string, Json>, k: string): Option<bool> {
    if k in f && f[k].JBool? then Some(f[k].b) else None
  }

  /** An optional string key: `Some(None)` when absent, `None` when present with another type. */
  function OptStrAt(f: map<string, Json>, k: string): Option<Option<string>> {
    if k !in f then Some(None) else if f[k].JStr? then Some(Some(f[k].s)) else None
  }

  /** The part of an object the validator looks at; other keys are stripped. */
  function Known(f: map<string, Json>, keys: set<string>): map<string, Json> {
    map k | k in f && k in keys :: f[k]
  }

  const MESSAGE_KEYS: set<string> := {"id", "role", "content", "timestamp", "model"}

  /** `messageSchema.safeParse`. */
  function ParseMessage(j: Json): Option<Message> {
    match j
    case JObj(f) =>
      var id := StrAt(f, "id");
      var role := if "role" in f then ParseRole(f["role"]) else None;
      var content := StrAt(f, "content");
      var timestamp := NumAt(f, "timestamp");
      var model := OptStrAt(f, "model");
      if id.Some? && role.Some? && content.Some? && timestamp.Some? && model.Some? then
        Some(Message(id.value, role.value, content.value, timestamp.value, model.value))
      else None
    case _ => None
  }

  /** The JSON form of a message: the optional label is left out when there is none. */
  function MessageJson(m: Message): Json {
    var base := map["id" := JStr(m.id), "role" := JStr(RoleName(m.role)), "content" := JStr(m.content),
                    "timestamp" := JNum(m.timestamp)];
    JObj(if m.model.Some? then base["model" := JStr(m.model.value)] else base)
  }

  /** A message read from a JSON object is what that object's known keys encode. */
  lemma ValidatedMessageEncoded(f: map<string, Json>, m: Message)
    requires ParseMessage(JObj(f)) == Some(m)
    ensures Known(f, MESSAGE_KEYS) == MessageJson(m).fields
  {
    assert "role" in f && f["role"] == JStr(RoleName(m.role));
    assert Known(f, MESSAGE_KEYS).Keys == MessageJson(m).fields.Keys;
  }

  /** An object whose known keys encode `m` validates as `m`. */
  lemma EncodedMessageValidates(f: map<string, Json>, m: Message)
    requires Known(f, MESSAGE_KEYS) == MessageJson(m).fields
    ensures ParseMessage(JObj(f)) == Some(m)
  {
    var e := MessageJson(m).fields;
    var kf := Known(f, MESSAGE_KEYS);
    assert forall k :: k in e ==> k in f && f[k] == kf[k] == e[k];
    assert StrAt(f, "id") == Some(m.id);
    assert StrAt(f, "content") == Some(m.content);
    assert NumAt(f, "timestamp") == Some(m.timestamp);
    assert OptStrAt(f, "model") == Some(m.model) by {
      if m.model.Some? { assert "model" in e; } else { assert "model" !in kf; }
    }
    assert ParseRole(f["role"]) == Some(m.role) by {
      match m.role
      case User =>
      case Assistant =>
      case System =>
    }
  }

  /**
   * A JSON value validates as message `m` exactly when it is an object whose known keys hold
   * `m`'s encoding: a string id and content, one of the three role names, a number timestamp
   * and, when present, a string model label. Other keys do not matter.
   */
  lemma MessageValidation(j: Json, m: Message)
    ensures ParseMessage(j) == Some(m) <==> j.JObj? && Known(j.fields, MESSAGE_KEYS) == MessageJson(m).fields
  {
    if j.JObj? {
      if ParseMessage(j) == Some(m) {
        ValidatedMessageEncoded(j.fields, m);
      }
      if Known(j.fields, MESSAGE_KEYS) == MessageJson(m).fields {
        EncodedMessageValidates(j.fields, m);
      }
    }
  }

  /** Every message survives encoding and validation unchanged. */
  lemma MessageRoundTrip(m: Message)
    ensures ParseMessage(MessageJson(m)) == Some(m)
  {
    MessageValidation(MessageJson(m), m);
    assert Known(MessageJson(m).fields, MESSAGE_KEYS) == MessageJson(m).fields;
  }

  /** `z.array(messageSchema)`: every element must validate. */
  function ParseMessages(items: seq<Json>): (r: Option<seq<Message>>)
    ensures r.Some? <==> forall i :: 0 <= i < |items| ==> ParseMessage(items[i]).Some?
    ensures r.Some? ==> (|r.value| == |items|
                         && forall i :: 0 <= i < |items| ==> ParseMessage(items[i]) == Some(r.value[i]))
  {
    if |items| == 0 then Some([])
    else
      match (ParseMessage(items[0]), ParseMessages(items[1..]))
      case (Some(m), Some(ms)) =>
        assert forall i :: 1 <= i < |items| ==> items[i] == items[1..][i - 1];
        Some([m] + ms)
      case (None, _) => None
      case (_, None) =>
        assert forall i :: 1 <= i < |items| ==> items[i] == items[1..][i - 1];
        None
  }

  /**
   * `conversationSchema.safeParse`. A record validates only when its message list does: a single
   * invalid element (say, an unknown role) rejects the whole conversation.
   */
  function ParseConversation(j: Json): (r: Option<Conversation>)
    ensures r.Some? <==> (j.JObj? && StrAt(j.fields, "id").Some? && StrAt(j.fields, "title").Some?
                          && StrAt(j.fields, "model").Some? && NumAt(j.fields, "temperature").Some?
                          && NumAt(j.fields, "createdAt").Some? && NumAt(j.fields, "updatedAt").Some?
                          && "messages" in j.fields && j.fields["messages"].JArr?
                          && forall i :: 0 <= i < |j.fields["messages"].items| ==>
                               ParseMessage(j.fields["messages"].items[i]).Some?)
    ensures r.Some? ==> (Some(r.value.id) == StrAt(j.fields, "id") && Some(r.value.title) == StrAt(j.fields, "title")
                         && Some(r.value.model) == StrAt(j.fields, "model")
                         && Some(r.value.temperature) == NumAt(j.fields, "temperature")
                         && Some(r.value.createdAt) == NumAt(j.fields, "createdAt")
                         && Some(r.value.updatedAt) == NumAt(j.fields, "updatedAt"))
    ensures r.Some? ==> (j.JObj? && "messages" in j.fields && j.fields["messages"].JArr?
                         && |j.fields["messages"].items| == |r.value.messages|
                         && forall i :: 0 <= i < |r.value.messages| ==>
                              ParseMessage(j.fields["messages"].items[i]) == Some(r.value.messages[i]))
  {
    match j
    case JObj(f) =>
      var id := StrAt(f, "id");
      var title := StrAt(f, "title");
      var messages := if "messages" in f && f["messages"].JArr? then ParseMessages(f["messages"].items) else None;
      var model := StrAt(f, "model");
      var temperature := NumAt(f, "temperature");
      var createdAt := NumAt(f, "createdAt");
      var updatedAt := NumAt(f, "updatedAt");
      if id.Some? && title.Some? && messages.Some? && model.Some? && temperature.Some?
         && createdAt.Some? && updatedAt.Some? then
        Some(Conversation(id.value, title.value, messages.value, model.value, temperature.value,
                          createdAt.value, updatedAt.value))
      else None
    case _ => None
  }

  const CONVERSATION_KEYS: set<string> := {"id", "title", "messages", "model", "temperature", "createdAt", "updatedAt"}

  /** Keys the schema does not name are stripped: adding one never changes the validation result. */
  lemma ConversationIgnoresExtraKeys(f: map<string, Json>, k: string, v: Json)
    requires k !in CONVERSATION_KEYS
    ensures ParseConversation(JObj(f[k := v])) == ParseConversation(JObj(f))
  {
    var g := f[k := v];
    assert StrAt(g, "id") == StrAt(f, "id") && StrAt(g, "title") == StrAt(f, "title");
    assert StrAt(g, "model") == StrAt(f, "model") && NumAt(g, "temperature") == NumAt(f, "temperature");
    assert NumAt(g, "createdAt") == NumAt(f, "createdAt") && NumAt(g, "updatedAt") == NumAt(f, "updatedAt");
    assert ("messages" in g) == ("messages" in f);
    assert "messages" in f ==> g["messages"] == f["messages"];
  }

  function MessagesJson(ms: seq<Message>): (r: seq<Json>)
    ensures |r| == |ms|
    ensures forall i :: 0 <= i < |ms| ==> r[i] == MessageJson(ms[i])
  {
    if |ms| == 0 then [] else [MessageJson(ms[0])] + MessagesJson(ms[1..])
  }

  function ConversationJson(c: Conversation): Json {
    JObj(map["id" := JStr(c.id), "title" := JStr(c.title), "messages" := JArr(MessagesJson(c.messages)),
             "model" := JStr(c.model), "temperature" := JNum(c.temperature),
             "createdAt" := JNum(c.createdAt), "updatedAt" := JNum(c.updatedAt)])
  }

  /** Every list of messages survives encoding and validation unchanged. */
  lemma {:induction false} MessagesRoundTrip(ms: seq<Message>)
    ensures ParseMessages(MessagesJson(ms)) == Some(ms)
  {
    if |ms| > 0 {
      var items := MessagesJson(ms);
      assert items[0] == MessageJson(ms[0]) && items[1..] == MessagesJson(ms[1..]);
      MessageRoundTrip(ms[0]);
      MessagesRoundTrip(ms[1..]);
      assert ParseMessage(items[0]) == Some(ms[0]);
      assert ParseMessages(items[1..]) == Some(ms[1..]);
      assert ParseMessages(items) == Some([ms[0]] + ms[1..]);
      assert [ms[0]] + ms[1..] == ms;
    }
  }

  /** The scalar fields of an encoded conversation read back as they were. */
  lemma ConversationFields(c: Conversation)
    ensures var f := ConversationJson(c).fields;
            && StrAt(f, "id") == Some(c.id) && StrAt(f, "title") == Some(c.title)
            && StrAt(f, "model") == Some(c.model) && NumAt(f, "temperature") == Some(c.temperature)
            && NumAt(f, "createdAt") == Some(c.createdAt) && NumAt(f, "updatedAt") == Some(c.updatedAt)
            && "messages" in f && f["messages"] == JArr(MessagesJson(c.messages))
  {
  }

  /** Every conversation, with all its messages, survives encoding and validation unchanged. */
  lemma ConversationRoundTrip(c: Conversation)
    ensures ParseConversation(ConversationJson(c)) == Some(c)
  {
    MessagesRoundTrip(c.messages);
    ConversationFields(c);
  }

  /** `settingsSchema.safeParse`: a number temperature in [0, 2] and two booleans. */
  function ParseSettings(j: Json): (r: Option<Settings>)
    ensures r.Some? <==> (j.JObj? && NumAt(j.fields, "temperature").Some?
                          && 0.0 <= NumAt(j.fields, "temperature").value <= 2.0
                          && BoolAt(j.fields, "stream").Some? && BoolAt(j.fields, "testMode").Some?)
    ensures r.Some? ==> ValidSettings(r.value)
    ensures r.Some? ==> Some(r.value.temperature) == NumAt(j.fields, "temperature")
                        && Some(r.value.stream) == BoolAt(j.fields, "stream")
                        && Some(r.value.testMode) == BoolAt(j.fields, "testMode")
  {
    match j
    case JObj(f) =>
      var temperature := NumAt(f, "temperature");
      var stream := BoolAt(f, "stream");
      var testMode := BoolAt(f, "testMode");
      if temperature.Some? && 0.0 <= temperature.value <= 2.0 && stream.Some? && testMode.Some? then
        Some(Settings(temperature.value, stream.value, testMode.value))
      else None
    case _ => None
  }

  function SettingsJson(s: Settings): Json {
    JObj(map["temperature" := JNum(s.temperature), "stream" := JBool(s.stream), "testMode" := JBool(s.testMode)])
  }

  /** A settings record survives encoding and validation exactly when its temperature is in range. */
  lemma SettingsRoundTrip(s: Settings)
    ensures ParseSettings(SettingsJson(s)) == if ValidSettings(s) then Some(s) else None
  {
  }
}
