/** The agent graph's state and the guardrail's structured output
    (agents/rag/schemas/graph.py), with the per-field merge the graph applies
    to a node's update: messages are appended, scalar fields overwritten. */
module GraphSchema {
  import opened Common

  datatype Classification = Accepted | Rejected

  /** The guardrail's structured answer. */
  datatype GuardrailVerdict = GuardrailVerdict(classification: Classification, reason: string)

  function ClassificationName(c: Classification): string
  {
    match c
    case Accepted => "accepted"
    case Rejected => "rejected"
  }

  /** Validation of the structured output: `classification` must be one of the
      two literals and `reason` a string, both required. */
  function ParseVerdict(raw: Value): (r: Result<GuardrailVerdict>)
    ensures r.Ok? ==>
              && raw.VDict?
              && "classification" in raw.entries && raw.entries["classification"] == VStr(ClassificationName(r.value.classification))
              && "reason" in raw.entries && raw.entries["reason"] == VStr(r.value.reason)
    ensures (&& raw.VDict?
             && "classification" in raw.entries
             && raw.entries["classification"] in {VStr("accepted"), VStr("rejected")}
             && "reason" in raw.entries && raw.entries["reason"].VStr?) ==> r.Ok?
  {
    if !raw.VDict? then Err(ValidationError("GuardialSchema"))
    else if "classification" !in raw.entries then Err(ValidationError("classification"))
    else if "reason" !in raw.entries || !raw.entries["reason"].VStr? then Err(ValidationError("reason"))
    else
      var c := raw.entries["classification"];
      if c == VStr("accepted") then Ok(GuardrailVerdict(Accepted, raw.entries["reason"].s))
      else if c == VStr("rejected") then Ok(GuardrailVerdict(Rejected, raw.entries["reason"].s))
      else Err(ValidationError("classification"))
  }

  /** A tool invocation requested by the model. */
  datatype ToolCall = ToolCall(name: string, args: map<string, Value>, id: string)

  /** The messages the graph carries. Every kind has a `content`. */
  datatype Message =
    | Human(content: string)
    | AI(content: string, toolCalls: seq<ToolCall>)
    | SystemMessage(content: string)
    | ToolMessage(content: string, toolCallId: string)

  predicate RequestsTools(m: Message)
  {
    m.AI? && |m.toolCalls| > 0
  }

  /** The graph state. An unset optional channel is None. */
  datatype AgentState = AgentState(
    userId: string,
    conversationId: string,
    messages: seq<Message>,
    rejectReason: Option<string>,
    classification: Option<Classification>)

  /** A node's return value: messages to append and scalar channels to write. */
  datatype Update = Update(
    messages: seq<Message>,
    userId: Option<string>,
    conversationId: Option<string>,
    rejectReason: Option<string>,
    classification: Option<Classification>)

  function Overwrite<T>(old_: T, new_: Option<T>): T
  {
    if new_.Some? then new_.value else old_
  }

  function OverwriteOption<T>(old_: Option<T>, new_: Option<T>): Option<T>
  {
    if new_.Some? then new_ else old_
  }

  /** Merging an update into the state: `messages` appends (`add_messages`,
      new messages only), every other channel keeps its last written value. */
  function Apply(s: AgentState, u: Update): (r: AgentState)
    ensures |r.messages| == |s.messages| + |u.messages|
    ensures r.messages[..|s.messages|] == s.messages && r.messages[|s.messages|..] == u.messages
    ensures r.userId == (if u.userId.Some? then u.userId.value else s.userId)
    ensures r.conversationId == (if u.conversationId.Some? then u.conversationId.value else s.conversationId)
    ensures u.rejectReason.Some? ==> r.rejectReason == u.rejectReason
    ensures u.rejectReason.None? ==> r.rejectReason == s.rejectReason
    ensures u.classification.Some? ==> r.classification == u.classification
    ensures u.classification.None? ==> r.classification == s.classification
  {
    AgentState(
      Overwrite(s.userId, u.userId),
      Overwrite(s.conversationId, u.conversationId),
      s.messages + u.messages,
      OverwriteOption(s.rejectReason, u.rejectReason),
      OverwriteOption(s.classification, u.classification))
  }

  /** The update holding only new messages. */
  function MessagesUpdate(ms: seq<Message>): Update
  {
    Update(ms, None, None, None, None)
  }

  /** Two updates in a row, as one: messages concatenated, the later write wins. */
  function Compose(u1: Update, u2: Update): Update
  {
    Update(
      u1.messages + u2.messages,
      OverwriteOption(u1.userId, u2.userId),
      OverwriteOption(u1.conversationId, u2.conversationId),
      OverwriteOption(u1.rejectReason, u2.rejectReason),
      OverwriteOption(u1.classification, u2.classification))
  }

  /** Applying two updates in sequence equals applying their composition. */
  lemma ApplyCompose(s: AgentState, u1: Update, u2: Update)
    ensures Apply(Apply(s, u1), u2) == Apply(s, Compose(u1, u2))
  {
    assert (s.messages + u1.messages) + u2.messages == s.messages + (u1.messages + u2.messages);
  }

  /** The messages channel is append-only and a messages-only update leaves
      every other channel as it was. */
  lemma ApplyAppends(s: AgentState, u: Update)
    ensures Apply(s, u).messages[..|s.messages|] == s.messages
    ensures |Apply(s, u).messages| == |s.messages| + |u.messages|
    ensures u == MessagesUpdate(u.messages) ==> Apply(s, u) == s.(messages := s.messages + u.messages)
  {
  }
}
