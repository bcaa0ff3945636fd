/** The RAG agent graph (agents/rag/base.py): a guardrail node that accepts or
    rejects the request, a refusal node, the tool-calling model node, and the
    tool node, wired as
      START -> guardrail -> (agent_brain | friendly_response),
      friendly_response -> END, tools -> agent_brain,
      agent_brain -> (tools | END) by `route_condition`.
    Each node is a transition on (node, state); the language model, the search
    backend and the serialisation of tool results are oracles in `Env`. */
module AgentGraph {
  import opened Common
  import opened Conversation
  import opened GraphSchema
  import opened Retriever
  import opened Tools
  import opened ToolPrompt

  datatype Node = Guardrail | FriendlyResponse | AgentBrain | ToolsNode | End

  /** The tool-calling model's answer: its text and the tool calls it requests. */
  datatype Reply = Reply(content: string, toolCalls: seq<ToolCall>)

  /** The outside world of the graph. */
  datatype Env = Env(
    guardrail: (string, seq<Message>) -> Result<Value>,  // structured-output model: last user text, history
    refusal: (string, seq<Message>) -> Result<string>,   // plain model: reject reason, history
    brain: (string, seq<Message>) -> Result<Reply>,      // tool-bound model: system message, then the history
    systemPrompt: string,                                // the system message the model node sends
    backend: Backend,                                    // embeddings and search index
    inject: AgentState -> map<string, Value>,            // the state dictionary passed to tools
    render: ToolOutcome -> string)                       // a tool result or error as message text

  /** More than this many messages ends the loop. */
  const MessageCap: nat := 12

  /** LangGraph's default limit on the number of steps of one run. */
  const RecursionLimit: nat := 25

  datatype Route = ToTools | ToEnd

  /** `route_condition`, read after the model's update has been merged. */
  function RouteCondition(messages: seq<Message>): (r: Result<Route>)
    ensures |messages| > MessageCap ==> r == Ok(ToEnd)
    ensures |messages| == 0 ==> r == Err(IndexError)
    ensures 0 < |messages| <= MessageCap ==>
              r.Ok? && (r.value == ToTools <==> RequestsTools(messages[|messages| - 1]))
  {
    if |messages| > MessageCap then Ok(ToEnd)
    else if |messages| == 0 then Err(IndexError)
    else if RequestsTools(messages[|messages| - 1]) then Ok(ToTools)
    else Ok(ToEnd)
  }

  /** The agent prompt template AGENT_SYSTEM_PROMPT_PIC
      (agents/rag/prompts/agent.py) before and after its one placeholder,
      `{textual_description_tool}`. */
  const PromptHead: string :=
    " \nYou are an autonomous agent, an intelligent agent with planning, tool use, and reflection.\n\n"
    + "Process:\n"
    + "- First: Decompose user goal into subtasks (chain-of-thought planning).\n"
    + "- Then: For each subtask, decide which retrieval tool(s) to use.\n"
    + "- After retrieving, reflect: \U{201C}Is this enough?\U{201D} \U{2192} if no, refine query or change tool.\n"
    + "- Once all evidence gathered, synthesize answer and provide citations.\n\n"
    + "You have access to the following tools: "
  const PromptTail: string := "\n"

  /** The model node's system message: the template filled in with the
      prompt blocks of the available tools, joined by blank lines. */
  function SystemMessage(tools: seq<ToolName>): string
  {
    PromptHead + ToolsDescription(tools) + PromptTail
  }

  /** An environment whose model node sends the system message built from
      `AVAILABLE_TOOLS`, as `agent_brain` does on every call. */
  predicate PromptedBy(env: Env)
  {
    env.systemPrompt == SystemMessage(AvailableTools)
  }

  /** In the agent's environment the model node's system message is the
      template's head, the block of the first available tool (general search),
      a blank line, the block of the second (domain search), and the tail. */
  lemma SystemMessageDescribesTools(env: Env, tools: seq<ToolName>)
    requires PromptedBy(env) && tools == AvailableTools
    ensures |Blocks(tools)| == 2
    ensures env.systemPrompt == PromptHead + (Blocks(tools)[0] + "\n\n" + Blocks(tools)[1]) + PromptTail
  {
    JoinTwo(Blocks(tools), "\n\n");
  }

  /** One tool message per requested call, in call order. */
  function ToolMessages(calls: seq<ToolCall>, injected: map<string, Value>, env: Env): (r: seq<Message>)
    ensures |r| == |calls|
    ensures forall i :: 0 <= i < |calls| ==>
              r[i] == ToolMessage(env.render(Invoke(calls[i], injected, env.backend)), calls[i].id)
  {
    if |calls| == 0 then []
    else [ToolMessage(env.render(Invoke(calls[0], injected, env.backend)), calls[0].id)]
         + ToolMessages(calls[1..], injected, env)
  }

  datatype Transition = Transition(next: Node, state: AgentState)

  /** Steps the model node can still take from a state with `m` messages. */
  function BrainPotential(m: nat): nat
  {
    if m >= MessageCap + 1 then 1 else MessageCap + 2 - m
  }

  /** A bound on the steps left, strictly decreasing along every transition. */
  function Measure(node: Node, s: AgentState): nat
  {
    var m := |s.messages|;
    match node
    case End => 0
    case FriendlyResponse => 1
    case AgentBrain => BrainPotential(m)
    case ToolsNode => BrainPotential(if m > 0 && RequestsTools(s.messages[m - 1]) then m + 1 else m) + 1
    case Guardrail => BrainPotential(m) + 1
  }

  /** The state after a step only appended messages and kept the identifiers. */
  predicate Extends(s: AgentState, s': AgentState)
  {
    && |s'.messages| >= |s.messages| && s'.messages[..|s.messages|] == s.messages
    && s'.userId == s.userId && s'.conversationId == s.conversationId
  }

  /** The guardrail node: it reads the last message and the whole history. */
  function GuardrailStep(s: AgentState, env: Env): (r: Result<Transition>)
    ensures r.Ok? ==>
              && r.value.state == s.(classification := r.value.state.classification, rejectReason := r.value.state.rejectReason)
              && (r.value.next == AgentBrain || r.value.next == FriendlyResponse)
              && (r.value.next == AgentBrain ==> r.value.state == s.(classification := Some(Accepted)))
              && (r.value.next == FriendlyResponse ==>
                    r.value.state.classification == Some(Rejected) && r.value.state.rejectReason.Some?)
    ensures |s.messages| == 0 ==> r == Err(IndexError)
  {
    if |s.messages| == 0 then Err(IndexError)
    else
      var raw :- env.guardrail(s.messages[|s.messages| - 1].content, s.messages);
      var verdict :- ParseVerdict(raw);
      if verdict.classification == Accepted then
        Ok(Transition(AgentBrain, Apply(s, Update([], None, None, None, Some(Accepted)))))
      else
        Ok(Transition(FriendlyResponse, Apply(s, Update([], None, None, Some(verdict.reason), Some(Rejected)))))
  }

  /** The refusal node: one model message answering the reject reason. */
  function FriendlyStep(s: AgentState, env: Env): (r: Result<Transition>)
    ensures r.Ok? ==>
              && r.value.next == End
              && exists text :: r.value.state == s.(messages := s.messages + [AI(text, [])])
    ensures s.rejectReason.None? ==> r == Err(KeyError("reject_reason"))
  {
    if s.rejectReason.None? then Err(KeyError("reject_reason"))
    else
      var text :- env.refusal(s.rejectReason.value, s.messages);
      Ok(Transition(End, Apply(s, MessagesUpdate([AI(text, [])]))))
  }

  /** Merging the model node's update appends the answer and rewrites the
      identifiers with their own values. */
  lemma BrainUpdate(s: AgentState, answer: Message)
    ensures var s' := Apply(s, Update([answer], Some(s.userId), Some(s.conversationId), None, None));
            && s' == s.(messages := s.messages + [answer])
            && |s'.messages| == |s.messages| + 1 && s'.messages[..|s.messages|] == s.messages
            && s'.messages[|s.messages|] == answer
  {
  }

  /** The model node: one model message appended, identifiers written back
      unchanged, then `route_condition` on the merged history. */
  function BrainStep(s: AgentState, env: Env): (r: Result<Transition>)
    ensures r.Ok? ==>
              var m := r.value.state.messages;
              && r.value.state == s.(messages := m)
              && |m| == |s.messages| + 1 && m[..|s.messages|] == s.messages && m[|s.messages|].AI?
              && (r.value.next == ToolsNode || r.value.next == End)
              && (r.value.next == ToolsNode <==> |m| <= MessageCap && RequestsTools(m[|s.messages|]))
    ensures var ask := env.brain(env.systemPrompt, s.messages);
            && (ask.Err? ==> r == Err(ask.error))
            && (ask.Ok? ==> r.Ok? && r.value.state.messages[|s.messages|] == AI(ask.value.content, ask.value.toolCalls))
  {
    match env.brain(env.systemPrompt, s.messages)
    case Err(e) => Err(e)
    case Ok(reply) =>
      var answer := AI(reply.content, reply.toolCalls);
      var s' := Apply(s, Update([answer], Some(s.userId), Some(s.conversationId), None, None));
      BrainUpdate(s, answer);
      Ok(Transition(if RouteCondition(s'.messages) == Ok(ToTools) then ToolsNode else End, s'))
  }

  /** The tool node: one message per call of the last model message. */
  function ToolsStep(s: AgentState, env: Env): (r: Result<Transition>)
    ensures r.Ok? ==>
              && |s.messages| > 0 && s.messages[|s.messages| - 1].AI?
              && r.value.next == AgentBrain
              && r.value.state == s.(messages := s.messages + ToolMessages(s.messages[|s.messages| - 1].toolCalls, env.inject(s), env))
    ensures |s.messages| == 0 || !s.messages[|s.messages| - 1].AI? ==> r.Err?
  {
    if |s.messages| == 0 then Err(ValueError("No message found in input"))
    else if !s.messages[|s.messages| - 1].AI? then Err(ValueError("Last message is not an AIMessage"))
    else
      var calls := s.messages[|s.messages| - 1].toolCalls;
      Ok(Transition(AgentBrain, Apply(s, MessagesUpdate(ToolMessages(calls, env.inject(s), env)))))
  }

  /** One node execution with its merged update and the edge taken. */
  function Step(node: Node, s: AgentState, env: Env): (r: Result<Transition>)
    requires node != End
    ensures r.Ok? ==> Measure(r.value.next, r.value.state) < Measure(node, s)
    ensures r.Ok? ==> Extends(s, r.value.state)
  {
    match node
    case Guardrail => GuardrailStep(s, env)
    case FriendlyResponse => FriendlyStep(s, env)
    case AgentBrain => BrainStep(s, env)
    case ToolsNode =>
      var r := ToolsStep(s, env);
      if r.Ok? then
        var calls := s.messages[|s.messages| - 1].toolCalls;
        var m := r.value.state.messages;
        assert |m| == |s.messages| + |calls|;
        assert m[..|s.messages|] == s.messages;
        r
      else r
  }

  /** The outcome of a run: the final state and the nodes executed, in order. */
  datatype GraphRun = GraphRun(final: AgentState, trace: seq<Node>)

  /** Running the compiled graph from a node until END. */
  function Execute(node: Node, s: AgentState, env: Env): (r: Result<GraphRun>)
    ensures r.Ok? ==> |r.value.trace| <= Measure(node, s)
    ensures r.Ok? ==> (r.value.trace == [] <==> node == End)
    ensures r.Ok? && node != End ==> r.value.trace[0] == node
    decreases Measure(node, s)
  {
    if node == End then Ok(GraphRun(s, []))
    else
      var t :- Step(node, s, env);
      var rest :- Execute(t.next, t.state, env);
      Ok(GraphRun(rest.final, [node] + rest.trace))
  }

  // ------------------------------------------------------- routing facts

  /** After the model answers, the run goes to the tools exactly when the
      merged history is within the cap and the answer requests tools; above
      the cap it ends even if tools were requested. */
  lemma BrainRouting(s: AgentState, env: Env, reply: Reply)
    requires env.brain(env.systemPrompt, s.messages) == Ok(reply)
    ensures Step(AgentBrain, s, env).Ok?
    ensures Step(AgentBrain, s, env).value.next == ToolsNode
            <==> |s.messages| + 1 <= MessageCap && |reply.toolCalls| > 0
    ensures Step(AgentBrain, s, env).value.state
            == s.(messages := s.messages + [AI(reply.content, reply.toolCalls)])
  {
    var s' := s.(messages := s.messages + [AI(reply.content, reply.toolCalls)]);
    assert s'.messages[|s'.messages| - 1] == AI(reply.content, reply.toolCalls);
  }

  /** An accepted request goes on to the model with only `classification`
      written; a rejected one goes to the refusal with the reason recorded. */
  lemma GuardrailRouting(s: AgentState, env: Env, raw: Value, verdict: GuardrailVerdict)
    requires |s.messages| > 0
    requires env.guardrail(s.messages[|s.messages| - 1].content, s.messages) == Ok(raw)
    requires ParseVerdict(raw) == Ok(verdict)
    ensures verdict.classification == Accepted ==>
              Step(Guardrail, s, env) == Ok(Transition(AgentBrain, s.(classification := Some(Accepted))))
    ensures verdict.classification == Rejected ==>
              Step(Guardrail, s, env)
              == Ok(Transition(FriendlyResponse, s.(classification := Some(Rejected), rejectReason := Some(verdict.reason))))
  {
    assert s.messages + [] == s.messages;
  }

  /** The tool node answers each call of the last model message, in order,
      with a message carrying that call's id. */
  lemma ToolsAnswerEveryCall(s: AgentState, env: Env)
    requires |s.messages| > 0 && s.messages[|s.messages| - 1].AI?
    ensures var calls := s.messages[|s.messages| - 1].toolCalls;
            && Step(ToolsNode, s, env).Ok?
            && var added := Step(ToolsNode, s, env).value.state.messages[|s.messages|..];
            && |added| == |calls|
            && forall i :: 0 <= i < |calls| ==> added[i].ToolMessage? && added[i].toolCallId == calls[i].id
  {
    var calls := s.messages[|s.messages| - 1].toolCalls;
    var ms := ToolMessages(calls, env.inject(s), env);
    assert (s.messages + ms)[|s.messages|..] == ms;
  }

  /** What the tools see of the state does not matter: the injected state
      dictionary leaves the tool node's result unchanged. */
  lemma ToolsIgnoreInjectedState(s: AgentState, env: Env, other: AgentState -> map<string, Value>)
    ensures Step(ToolsNode, s, env) == Step(ToolsNode, s, env.(inject := other))
  {
    if |s.messages| > 0 && s.messages[|s.messages| - 1].AI? {
      var calls := s.messages[|s.messages| - 1].toolCalls;
      var a, b := ToolMessages(calls, env.inject(s), env), ToolMessages(calls, other(s), env.(inject := other));
      forall i | 0 <= i < |calls| ensures a[i] == b[i] {
        InvokeIgnoresState(calls[i], env.inject(s), other(s), env.backend);
      }
      assert a == b;
    }
  }

  // -------------------------------------------------------- whole runs

  /** The model/tool loop: model, then tools and model again any number of times. */
  predicate LoopTrace(t: seq<Node>)
  {
    t == [AgentBrain] || (|t| >= 3 && t[0] == AgentBrain && t[1] == ToolsNode && LoopTrace(t[2..]))
  }

  /** In the loop every tool step follows a model step and the model has the
      last word; neither the guardrail nor the refusal occurs. */
  lemma {:induction false} LoopTraceShape(t: seq<Node>)
    requires LoopTrace(t)
    ensures |t| > 0 && t[0] == AgentBrain && t[|t| - 1] == AgentBrain
    ensures forall i :: 0 <= i < |t| && t[i] == ToolsNode ==> i > 0 && t[i - 1] == AgentBrain
    ensures Guardrail !in t && FriendlyResponse !in t && End !in t
  {
    if t != [AgentBrain] {
      LoopTraceShape(t[2..]);
      assert t == [AgentBrain, ToolsNode] + t[2..];
      forall i | 0 <= i < |t| && t[i] == ToolsNode ensures i > 0 && t[i - 1] == AgentBrain {
        if i >= 2 {
          assert t[i] == t[2..][i - 2];
          if i > 2 { assert t[i - 1] == t[2..][i - 3]; }
        }
      }
    }
  }

  /** The number of steps is bounded by the measure. */
  lemma {:induction false} TraceBounded(node: Node, s: AgentState, env: Env)
    requires Execute(node, s, env).Ok?
    ensures |Execute(node, s, env).value.trace| <= Measure(node, s)
    decreases Measure(node, s)
  {
    if node != End {
      var t := Step(node, s, env).value;
      TraceBounded(t.next, t.state, env);
    }
  }

  /** A run from the guardrail takes at most 15 steps, so it never reaches the
      framework's step limit: the message cap alone ends the loop. */
  lemma WithinRecursionLimit(s: AgentState, env: Env)
    requires Execute(Guardrail, s, env).Ok?
    ensures |Execute(Guardrail, s, env).value.trace| <= MessageCap + 3 < RecursionLimit
  {
    TraceBounded(Guardrail, s, env);
  }

  /** A run of the model/tool loop from `s`: model and tool steps alternate
      and the model has the last word, the history is only appended to, the
      identifiers and the guardrail's channels are kept, and the last model
      message requests no tools unless the message cap was passed. */
  ghost predicate LoopRun(s: AgentState, run: GraphRun)
  {
    var ms := run.final.messages;
    && LoopTrace(run.trace)
    && |ms| > |s.messages| && ms[..|s.messages|] == s.messages
    && run.final == s.(messages := ms)
    && ms[|ms| - 1].AI?
    && (|ms| <= MessageCap ==> !RequestsTools(ms[|ms| - 1]))
  }

  /** Every completed run entering the model node is a loop run. */
  lemma {:induction false} BrainLoop(s: AgentState, env: Env)
    requires Execute(AgentBrain, s, env).Ok?
    ensures LoopRun(s, Execute(AgentBrain, s, env).value)
    decreases Measure(AgentBrain, s)
  {
    BrainFirst(s, env);
    if BrainStep(s, env).value.next == ToolsNode {
      var s2 := BrainRound(s, env);
      BrainLoop(s2, env);
      LoopCompose(s, s2, Execute(AgentBrain, s2, env).value);
    } else {
      BrainStops(s, env);
    }
  }

  /** A model step and a tool step in front of a loop run from `s2` make a
      loop run from `s`. */
  lemma LoopCompose(s: AgentState, s2: AgentState, rest: GraphRun)
    requires |s2.messages| > |s.messages| && s2.messages[..|s.messages|] == s.messages
    requires s2 == s.(messages := s2.messages)
    requires LoopRun(s2, rest)
    ensures LoopRun(s, GraphRun(rest.final, [AgentBrain, ToolsNode] + rest.trace))
  {
    assert ([AgentBrain, ToolsNode] + rest.trace)[2..] == rest.trace;
    var ms := rest.final.messages;
    assert ms[..|s.messages|] == ms[..|s2.messages|][..|s.messages|];
  }

  /** A completed run from the model node starts with a model step that
      succeeded. */
  lemma BrainFirst(s: AgentState, env: Env)
    requires Execute(AgentBrain, s, env).Ok?
    ensures BrainStep(s, env).Ok?
  {
    ExecuteUnfold(AgentBrain, s, env);
  }

  /** A run whose first model step ends the loop is that one step. */
  lemma BrainStops(s: AgentState, env: Env)
    requires BrainStep(s, env).Ok? && BrainStep(s, env).value.next == End
    ensures Execute(AgentBrain, s, env).Ok?
    ensures LoopRun(s, Execute(AgentBrain, s, env).value)
  {
    BrainEnds(s, env);
  }

  /** A model step that requests no tools (or passes the cap) ends the run. */
  lemma BrainEnds(s: AgentState, env: Env)
    requires BrainStep(s, env).Ok? && BrainStep(s, env).value.next == End
    ensures Execute(AgentBrain, s, env) == Ok(GraphRun(BrainStep(s, env).value.state, [AgentBrain]))
  {
    var t := BrainStep(s, env).value;
    assert Step(AgentBrain, s, env) == BrainStep(s, env);
    assert Execute(End, t.state, env) == Ok(GraphRun(t.state, []));
    assert [AgentBrain] + [] == [AgentBrain];
  }

  /** A model step that requests tools, followed by the tool step: the run
      goes on from a strictly longer history with the other channels kept. */
  lemma BrainRound(s: AgentState, env: Env) returns (s2: AgentState)
    requires Execute(AgentBrain, s, env).Ok?
    requires BrainStep(s, env).Ok? && BrainStep(s, env).value.next == ToolsNode
    ensures Execute(AgentBrain, s2, env).Ok?
    ensures Execute(AgentBrain, s, env).value
            == GraphRun(Execute(AgentBrain, s2, env).value.final, [AgentBrain, ToolsNode] + Execute(AgentBrain, s2, env).value.trace)
    ensures |s2.messages| > |s.messages| && s2.messages[..|s.messages|] == s.messages
    ensures s2 == s.(messages := s2.messages)
    ensures Measure(AgentBrain, s2) < Measure(AgentBrain, s)
  {
    var t := BrainStep(s, env).value;
    ExecuteUnfold(AgentBrain, s, env);
    ExecuteUnfold(ToolsNode, t.state, env);
    var t2 := ToolsStep(t.state, env).value;
    s2 := t2.state;
    var rest := Execute(AgentBrain, s2, env).value;
    assert [AgentBrain] + ([ToolsNode] + rest.trace) == [AgentBrain, ToolsNode] + rest.trace;
    PrefixOfPrefix(s.messages, t.state.messages, s2.messages);
  }

  lemma PrefixOfPrefix<T>(a: seq<T>, b: seq<T>, c: seq<T>)
    requires |a| <= |b| <= |c| && b[..|a|] == a && c[..|b|] == b
    ensures c[..|a|] == a
  {
    assert c[..|a|] == c[..|b|][..|a|];
  }

  /** One step of a completed run: the node's transition succeeded and the run
      continues from its target. */
  lemma ExecuteUnfold(node: Node, s: AgentState, env: Env)
    requires node != End && Execute(node, s, env).Ok?
    ensures Step(node, s, env).Ok?
    ensures var t := Step(node, s, env).value;
            && Execute(t.next, t.state, env).Ok?
            && Execute(node, s, env).value
               == GraphRun(Execute(t.next, t.state, env).value.final, [node] + Execute(t.next, t.state, env).value.trace)
    ensures node == Guardrail ==> Step(node, s, env) == GuardrailStep(s, env)
    ensures node == FriendlyResponse ==> Step(node, s, env) == FriendlyStep(s, env)
    ensures node == AgentBrain ==> Step(node, s, env) == BrainStep(s, env)
    ensures node == ToolsNode ==> Step(node, s, env) == ToolsStep(s, env)
  {
  }

  /** The shape of every completed run: a rejected request is answered by the
      refusal alone and never reaches the model or the tools; an accepted one
      runs the model/tool loop and never reaches the refusal. */
  lemma RunShape(s: AgentState, env: Env)
    requires Execute(Guardrail, s, env).Ok?
    ensures var run := Execute(Guardrail, s, env).value;
            && run.final.classification.Some?
            && (run.final.classification == Some(Rejected) <==> run.trace == [Guardrail, FriendlyResponse])
            && (run.final.classification == Some(Accepted) <==> run.trace[0] == Guardrail && LoopTrace(run.trace[1..]))
            && (run.final.classification == Some(Rejected) ==> AgentBrain !in run.trace && ToolsNode !in run.trace)
            && (run.final.classification == Some(Accepted) ==> FriendlyResponse !in run.trace)
            && |run.final.messages| > |s.messages| && run.final.messages[..|s.messages|] == s.messages
            && run.final.messages[|run.final.messages| - 1].AI?
            && run.final.userId == s.userId && run.final.conversationId == s.conversationId
  {
    ExecuteUnfold(Guardrail, s, env);
    if Step(Guardrail, s, env).value.next == AgentBrain {
      AcceptedShape(s, env);
    } else {
      RejectedShape(s, env);
    }
  }

  /** The properties `RunShape` states of a run from `s`. */
  ghost predicate Shape(s: AgentState, run: GraphRun)
  {
    && run.final.classification.Some?
    && (run.final.classification == Some(Rejected) <==> run.trace == [Guardrail, FriendlyResponse])
    && (run.final.classification == Some(Accepted) <==> |run.trace| > 0 && run.trace[0] == Guardrail && LoopTrace(run.trace[1..]))
    && (run.final.classification == Some(Rejected) ==> AgentBrain !in run.trace && ToolsNode !in run.trace)
    && (run.final.classification == Some(Accepted) ==> FriendlyResponse !in run.trace)
    && |run.final.messages| > |s.messages| && run.final.messages[..|s.messages|] == s.messages
    && run.final.messages[|run.final.messages| - 1].AI?
    && run.final.userId == s.userId && run.final.conversationId == s.conversationId
  }

  /** An accepted request runs the loop after the guardrail. */
  lemma AcceptedShape(s: AgentState, env: Env)
    requires Execute(Guardrail, s, env).Ok? && Step(Guardrail, s, env).Ok?
    requires Step(Guardrail, s, env).value.next == AgentBrain
    ensures Shape(s, Execute(Guardrail, s, env).value)
  {
    ExecuteUnfold(Guardrail, s, env);
    var t := Step(Guardrail, s, env).value;
    BrainLoop(t.state, env);
    AcceptedCompose(s, t.state, Execute(AgentBrain, t.state, env).value);
  }

  /** The guardrail's acceptance in front of a loop run. */
  lemma AcceptedCompose(s: AgentState, s1: AgentState, rest: GraphRun)
    requires s1 == s.(classification := Some(Accepted)) && LoopRun(s1, rest)
    ensures Shape(s, GraphRun(rest.final, [Guardrail] + rest.trace))
  {
    var trace := [Guardrail] + rest.trace;
    assert trace[1..] == rest.trace;
    LoopTraceShape(rest.trace);
    assert trace != [Guardrail, FriendlyResponse];
    assert FriendlyResponse !in trace;
  }

  /** A rejected request is answered by the refusal alone. */
  lemma RejectedShape(s: AgentState, env: Env)
    requires Execute(Guardrail, s, env).Ok? && Step(Guardrail, s, env).Ok?
    requires Step(Guardrail, s, env).value.next != AgentBrain
    ensures Shape(s, Execute(Guardrail, s, env).value)
  {
    ExecuteUnfold(Guardrail, s, env);
    var t := Step(Guardrail, s, env).value;
    var run := Execute(Guardrail, s, env).value;
    ExecuteUnfold(FriendlyResponse, t.state, env);
    var t2 := Step(FriendlyResponse, t.state, env).value;
    assert Execute(End, t2.state, env) == Ok(GraphRun(t2.state, []));
    assert run.trace == [Guardrail, FriendlyResponse];
    assert !LoopTrace(run.trace[1..]);
  }

  /** A rejected request: the refusal text is the only message added, and the
      reason and the classification are recorded. */
  lemma RejectedRun(s: AgentState, env: Env, raw: Value, reason: string, text: string)
    requires |s.messages| > 0
    requires env.guardrail(s.messages[|s.messages| - 1].content, s.messages) == Ok(raw)
    requires ParseVerdict(raw) == Ok(GuardrailVerdict(Rejected, reason))
    requires env.refusal(reason, s.messages) == Ok(text)
    ensures Execute(Guardrail, s, env)
            == Ok(GraphRun(s.(messages := s.messages + [AI(text, [])], classification := Some(Rejected), rejectReason := Some(reason)),
                           [Guardrail, FriendlyResponse]))
  {
    GuardrailRouting(s, env, raw, GuardrailVerdict(Rejected, reason));
    var s1 := s.(classification := Some(Rejected), rejectReason := Some(reason));
    var s2 := s1.(messages := s1.messages + [AI(text, [])]);
    assert Step(FriendlyResponse, s1, env) == Ok(Transition(End, s2));
    assert Execute(End, s2, env) == Ok(GraphRun(s2, []));
    assert [FriendlyResponse] + [] == [FriendlyResponse];
    assert Execute(FriendlyResponse, s1, env) == Ok(GraphRun(s2, [FriendlyResponse]));
    assert [Guardrail] + [FriendlyResponse] == [Guardrail, FriendlyResponse];
  }

  // ------------------------------------------------ entering the graph

  /** The graph's message for one history item; system items have none. */
  function ConvertItem(m: MessageItem): Option<Message>
  {
    match m.role
    case User => Some(Human(m.content))
    case Assistant => Some(AI(m.content, []))
    case System => None
  }

  /** The list the conversion loop builds, item by item. */
  function Converted(items: seq<MessageItem>): seq<Message>
  {
    if |items| == 0 then []
    else
      var c := ConvertItem(items[|items| - 1]);
      Converted(items[..|items| - 1]) + (if c.Some? then [c.value] else [])
  }

  /** The loop of `_run_graph` over the history. */
  method ToLangchainMessages(items: seq<MessageItem>) returns (ms: seq<Message>)
    ensures ms == Converted(items)
  {
    ms := [];
    var i := 0;
    while i < |items|
      invariant 0 <= i <= |items|
      invariant ms == Converted(items[..i])
    {
      var msg := items[i];
      assert items[..i + 1][..i] == items[..i];
      if msg.role == User {
        ms := ms + [Human(msg.content)];
      } else if msg.role == Assistant {
        ms := ms + [AI(msg.content, [])];
      }
      i := i + 1;
    }
    assert items[..|items|] == items;
  }

  /** The conversational items, in order: the history without its system items. */
  function Conversational(items: seq<MessageItem>): (r: seq<MessageItem>)
    ensures forall i :: 0 <= i < |r| ==> r[i].role != System
  {
    if |items| == 0 then []
    else if items[0].role == System then Conversational(items[1..])
    else [items[0]] + Conversational(items[1..])
  }

  /** The message a conversational item becomes. */
  function ToMessage(m: MessageItem): Message
  {
    if m.role == User then Human(m.content) else AI(m.content, [])
  }

  lemma {:induction false} ConversationalAppend(a: seq<MessageItem>, b: seq<MessageItem>)
    ensures Conversational(a + b) == Conversational(a) + Conversational(b)
  {
    if |a| > 0 {
      assert (a + b)[1..] == a[1..] + b;
      ConversationalAppend(a[1..], b);
    } else {
      assert a + b == b;
    }
  }

  /** The conversion keeps the user and assistant items, in order, with their
      content, as human and AI messages, and drops every other item. */
  lemma {:induction false} ConversionKeepsConversation(items: seq<MessageItem>)
    ensures |Converted(items)| == |Conversational(items)|
    ensures forall i :: 0 <= i < |Converted(items)| ==>
              Converted(items)[i] == ToMessage(Conversational(items)[i])
  {
    if |items| > 0 {
      var n := |items| - 1;
      var init, last := items[..n], items[n];
      ConversionKeepsConversation(init);
      assert items == init + [last];
      ConversationalAppend(init, [last]);
      assert [last][1..] == [];
      var ci := Conversational(init);
      var cv := Converted(init);
      if last.role == System {
        assert Conversational([last]) == [];
        assert Converted(items) == cv + [];
        assert Conversational(items) == ci + [];
      } else {
        assert Conversational([last]) == [last];
        assert Converted(items) == cv + [ToMessage(last)];
      }
    }
  }

  /** A history without system items is converted one to one. */
  lemma ConversionOfConversation(items: seq<MessageItem>)
    requires forall i :: 0 <= i < |items| ==> items[i].role != System
    ensures |Converted(items)| == |items|
  {
    ConversationalOfClean(items);
    ConversionKeepsConversation(items);
  }

  lemma {:induction false} ConversationalOfClean(items: seq<MessageItem>)
    requires forall i :: 0 <= i < |items| ==> items[i].role != System
    ensures Conversational(items) == items
  {
    if |items| > 0 {
      ConversationalOfClean(items[1..]);
    }
  }

  /** How many history items reach the graph. */
  const HistoryWindow: nat := 20

  /** `history[-n:]`. */
  function LastN<T>(h: seq<T>, n: nat): (r: seq<T>)
    ensures |r| == if |h| < n then |h| else n
    ensures r == h[|h| - |r|..]
  {
    if |h| <= n then h else h[|h| - n..]
  }

  /** The per-run data the caller passes alongside the history. */
  type Metadata = map<string, string>

  function Lookup(metadata: Metadata, key: string): (r: Result<string>)
    ensures r.Ok? <==> key in metadata
    ensures r.Ok? ==> r.value == metadata[key]
    ensures r.Err? ==> r.error == KeyError(key)
  {
    if key in metadata then Ok(metadata[key]) else Err(KeyError(key))
  }

  /** The state the graph starts from: converted messages, the two
      identifiers, and unset guardrail channels. */
  function InitialState(items: seq<MessageItem>, metadata: Metadata): Result<AgentState>
  {
    var conversationId :- Lookup(metadata, "conversation_id");
    var userId :- Lookup(metadata, "user_id");
    Ok(AgentState(userId, conversationId, Converted(items), None, None))
  }

  function GraphResult(items: seq<MessageItem>, metadata: Metadata, env: Env): Result<GraphRun>
  {
    var s0 :- InitialState(items, metadata);
    Execute(Guardrail, s0, env)
  }

  /** `_run_graph`: convert, build the initial state, run from the guardrail. */
  method RunGraph(items: seq<MessageItem>, metadata: Metadata, env: Env) returns (r: Result<GraphRun>)
    ensures r == GraphResult(items, metadata, env)
  {
    var ms := ToLangchainMessages(items);
    if "conversation_id" !in metadata {
      return Err(KeyError("conversation_id"));
    }
    if "user_id" !in metadata {
      return Err(KeyError("user_id"));
    }
    var s0 := AgentState(metadata["user_id"], metadata["conversation_id"], ms, None, None);
    r := Execute(Guardrail, s0, env);
  }

  /** `run`: only the last 20 history items reach the graph. */
  method Run(history: seq<MessageItem>, metadata: Metadata, env: Env) returns (r: Result<GraphRun>)
    ensures r == GraphResult(LastN(history, HistoryWindow), metadata, env)
  {
    var window := if |history| <= HistoryWindow then history else history[|history| - HistoryWindow..];
    r := RunGraph(window, metadata, env);
  }

  /** A completed run starts from the converted last 20 items, keeps them as
      the prefix of its history, ends on a model message, and records the
      caller's identifiers. */
  lemma RunOutcome(history: seq<MessageItem>, metadata: Metadata, env: Env)
    requires GraphResult(LastN(history, HistoryWindow), metadata, env).Ok?
    ensures var run := GraphResult(LastN(history, HistoryWindow), metadata, env).value;
            var start := Converted(LastN(history, HistoryWindow));
            && "conversation_id" in metadata && "user_id" in metadata
            && run.final.conversationId == metadata["conversation_id"] && run.final.userId == metadata["user_id"]
            && |run.final.messages| > |start| && run.final.messages[..|start|] == start
            && run.final.messages[|run.final.messages| - 1].AI?
            && |run.trace| < RecursionLimit
  {
    var s0 := InitialState(LastN(history, HistoryWindow), metadata).value;
    RunShape(s0, env);
    WithinRecursionLimit(s0, env);
  }

  /** When none of the last 20 items is a user or assistant message, the
      guardrail has no message to read and the run fails. */
  lemma NoConversationFails(history: seq<MessageItem>, metadata: Metadata, env: Env)
    requires "conversation_id" in metadata && "user_id" in metadata
    requires forall i :: 0 <= i < |LastN(history, HistoryWindow)| ==> LastN(history, HistoryWindow)[i].role == System
    ensures GraphResult(LastN(history, HistoryWindow), metadata, env) == Err(IndexError)
  {
    var w := LastN(history, HistoryWindow);
    ConversionKeepsConversation(w);
    AllSystemIsSilent(w);
  }

  lemma {:induction false} AllSystemIsSilent(items: seq<MessageItem>)
    requires forall i :: 0 <= i < |items| ==> items[i].role == System
    ensures Conversational(items) == []
  {
    if |items| > 0 {
      AllSystemIsSilent(items[1..]);
    }
  }
}
