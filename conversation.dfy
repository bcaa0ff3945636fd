/** The request and response shapes of the chat endpoint (schemas/conversation.py),
    modelled as validators from a JSON body to typed values, each with its
    serialising inverse. */
module Conversation {
  import opened Common

  datatype Role = User | Assistant | System

  /** One turn of the incoming history. */
  datatype MessageItem = MessageItem(role: Role, content: string)

  /** The body of a chat request after validation. */
  datatype InputChat = InputChat(userId: string, conversationId: string, history: seq<MessageItem>)

  datatype ResponseRAG = ResponseRAG(response: string, agentState: map<string, Value>)

  const DefaultUserId: string := "test0001"
  const DefaultConversationId: string := "convtest0001"
  const MaxIdLength: nat := 10000
  const MinUserIdLength: nat := 1
  const MinConversationIdLength: nat := 5
  const MinHistory: nat := 1
  const MaxHistory: nat := 100

  function RoleName(role: Role): string
  {
    match role
    case User => "user"
    case Assistant => "assistant"
    case System => "system"
  }

  /** The role literal: only the three names are accepted. */
  function ParseRole(v: Value): (r: Result<Role>)
    ensures r.Ok? ==> v == VStr(RoleName(r.value))
    ensures r.Err? <==> v !in {VStr("user"), VStr("assistant"), VStr("system")}
  {
    if v == VStr("user") then Ok(User)
    else if v == VStr("assistant") then Ok(Assistant)
    else if v == VStr("system") then Ok(System)
    else Err(ValidationError("role"))
  }

  function MessageToJson(m: MessageItem): Value
  {
    VDict(map["role" := VStr(RoleName(m.role)), "content" := VStr(m.content)])
  }

  /** A message needs a valid `role` and a string `content`; other keys are ignored. */
  function ParseMessageItem(raw: Value): (r: Result<MessageItem>)
    ensures r.Ok? ==>
              && raw.VDict? && "role" in raw.entries && "content" in raw.entries
              && raw.entries["role"] == VStr(RoleName(r.value.role))
              && raw.entries["content"] == VStr(r.value.content)
    ensures (&& raw.VDict? && "role" in raw.entries && ParseRole(raw.entries["role"]).Ok?
             && "content" in raw.entries && raw.entries["content"].VStr?) ==> r.Ok?
  {
    if !raw.VDict? then Err(ValidationError("message"))
    else if "role" !in raw.entries then Err(ValidationError("role"))
    else if "content" !in raw.entries || !raw.entries["content"].VStr? then Err(ValidationError("content"))
    else
      match ParseRole(raw.entries["role"])
      case Err(e) => Err(e)
      case Ok(role) => Ok(MessageItem(role, raw.entries["content"].s))
  }

  lemma MessageRoundTrip(m: MessageItem)
    ensures ParseMessageItem(MessageToJson(m)) == Ok(m)
  {
    var raw := MessageToJson(m);
    assert raw.entries["role"] == VStr(RoleName(m.role));
    assert ParseRole(VStr(RoleName(m.role))) == Ok(m.role) by {
      match m.role
      case User =>
      case Assistant =>
      case System =>
    }
  }

  /** Validates every history item, in order; the first invalid one is reported. */
  function ParseItems(items: seq<Value>): (r: Result<seq<MessageItem>>)
    ensures r.Ok? ==>
              && |r.value| == |items|
              && forall i :: 0 <= i < |items| ==> ParseMessageItem(items[i]) == Ok(r.value[i])
    ensures r.Err? ==> exists i :: 0 <= i < |items| && ParseMessageItem(items[i]).Err?
  {
    if |items| == 0 then Ok([])
    else
      match ParseMessageItem(items[0])
      case Err(e) => Err(e)
      case Ok(m) =>
        match ParseItems(items[1..])
        case Err(e) => Err(e)
        case Ok(ms) => Ok([m] + ms)
  }

  predicate ValidUserId(s: string) { MinUserIdLength <= |s| <= MaxIdLength }
  predicate ValidConversationId(s: string) { MinConversationIdLength <= |s| <= MaxIdLength }
  predicate ValidHistory(h: seq<MessageItem>) { MinHistory <= |h| <= MaxHistory }

  predicate ValidInputChat(c: InputChat)
  {
    ValidUserId(c.userId) && ValidConversationId(c.conversationId) && ValidHistory(c.history)
  }

  /** An identifier field with a default: absent means the default, present
      means a string within the length bounds. */
  function ParseId(entries: map<string, Value>, key: string, default: string, minLength: nat): (r: Result<string>)
    ensures key !in entries ==> r == Ok(default)
    ensures key in entries ==> (r.Ok? <==> entries[key].VStr? && minLength <= |entries[key].s| <= MaxIdLength)
    ensures key in entries && r.Ok? ==> entries[key] == VStr(r.value)
  {
    if key !in entries then Ok(default)
    else
      match entries[key]
      case VStr(s) => if minLength <= |s| <= MaxIdLength then Ok(s) else Err(ValidationError(key))
      case _ => Err(ValidationError(key))
  }

  /** The request body validator: defaults for the two identifiers, a required
      history of 1 to 100 valid messages. */
  function ParseInputChat(raw: Value): (r: Result<InputChat>)
    ensures r.Ok? ==> ValidInputChat(r.value)
    ensures r.Ok? ==>
              && raw.VDict? && "history" in raw.entries && raw.entries["history"].VList?
              && |raw.entries["history"].items| == |r.value.history|
    ensures r.Ok? ==>
              && ParseItems(raw.entries["history"].items) == Ok(r.value.history)
              && ParseId(raw.entries, "user_id", DefaultUserId, MinUserIdLength) == Ok(r.value.userId)
              && ParseId(raw.entries, "conversation_id", DefaultConversationId, MinConversationIdLength) == Ok(r.value.conversationId)
    ensures raw.VDict? ==>
              (r.Ok? <==>
                 && ParseId(raw.entries, "user_id", DefaultUserId, MinUserIdLength).Ok?
                 && ParseId(raw.entries, "conversation_id", DefaultConversationId, MinConversationIdLength).Ok?
                 && "history" in raw.entries && raw.entries["history"].VList?
                 && MinHistory <= |raw.entries["history"].items| <= MaxHistory
                 && ParseItems(raw.entries["history"].items).Ok?)
    ensures !raw.VDict? || "history" !in raw.entries ==> r.Err?
  {
    DefaultsAreValid();
    if !raw.VDict? then Err(ValidationError("body"))
    else
      var e := raw.entries;
      match ParseId(e, "user_id", DefaultUserId, MinUserIdLength)
      case Err(err) => Err(err)
      case Ok(userId) =>
        match ParseId(e, "conversation_id", DefaultConversationId, MinConversationIdLength)
        case Err(err) => Err(err)
        case Ok(conversationId) =>
          if "history" !in e || !e["history"].VList? then Err(ValidationError("history"))
          else if !(MinHistory <= |e["history"].items| <= MaxHistory) then Err(ValidationError("history"))
          else
            match ParseItems(e["history"].items)
            case Err(err) => Err(err)
            case Ok(history) => Ok(InputChat(userId, conversationId, history))
  }

  /** The defaults satisfy the bounds they are declared with. */
  lemma DefaultsAreValid()
    ensures ValidUserId(DefaultUserId) && ValidConversationId(DefaultConversationId)
  {
  }

  function ChatToJson(c: InputChat): Value
  {
    VDict(map["user_id" := VStr(c.userId), "conversation_id" := VStr(c.conversationId),
              "history" := VList(HistoryToJson(c.history))])
  }

  function HistoryToJson(h: seq<MessageItem>): seq<Value>
  {
    if |h| == 0 then [] else [MessageToJson(h[0])] + HistoryToJson(h[1..])
  }

  lemma {:induction false} ItemsRoundTrip(h: seq<MessageItem>)
    ensures ParseItems(HistoryToJson(h)) == Ok(h)
  {
    if |h| > 0 {
      MessageRoundTrip(h[0]);
      assert HistoryToJson(h)[1..] == HistoryToJson(h[1..]);
      ItemsRoundTrip(h[1..]);
      assert [h[0]] + h[1..] == h;
    }
  }

  /** Serialising a valid request and validating it again gives it back; and a
      request whose identifiers break their bounds is refused. */
  lemma InputChatRoundTrip(c: InputChat)
    ensures ValidInputChat(c) ==> ParseInputChat(ChatToJson(c)) == Ok(c)
    ensures !ValidInputChat(c) ==> ParseInputChat(ChatToJson(c)).Err?
  {
    ItemsRoundTrip(c.history);
    var e := ChatToJson(c).entries;
    assert e["user_id"] == VStr(c.userId);
    assert e["conversation_id"] == VStr(c.conversationId);
    var items := HistoryToJson(c.history);
    assert e["history"] == VList(items);
    if ValidInputChat(c) {
      assert ParseId(e, "user_id", DefaultUserId, MinUserIdLength) == Ok(c.userId);
      assert ParseId(e, "conversation_id", DefaultConversationId, MinConversationIdLength) == Ok(c.conversationId);
      assert ParseItems(items) == Ok(c.history);
    }
  }

  /** A body with only a history gets both default identifiers. */
  lemma DefaultsApplied(history: seq<MessageItem>)
    requires ValidHistory(history)
    ensures ParseInputChat(VDict(map["history" := VList(HistoryToJson(history))]))
      == Ok(InputChat(DefaultUserId, DefaultConversationId, history))
  {
    ItemsRoundTrip(history);
  }

  function ParseResponseRAG(raw: Value): (r: Result<ResponseRAG>)
    ensures r.Ok? <==>
              && raw.VDict? && "response" in raw.entries && raw.entries["response"].VStr?
              && "agent_state" in raw.entries && raw.entries["agent_state"].VDict?
    ensures r.Ok? ==>
              && raw.entries["response"] == VStr(r.value.response)
              && raw.entries["agent_state"] == VDict(r.value.agentState)
  {
    if !raw.VDict? then Err(ValidationError("body"))
    else if "response" !in raw.entries || !raw.entries["response"].VStr? then Err(ValidationError("response"))
    else if "agent_state" !in raw.entries || !raw.entries["agent_state"].VDict? then Err(ValidationError("agent_state"))
    else Ok(ResponseRAG(raw.entries["response"].s, raw.entries["agent_state"].entries))
  }
}
