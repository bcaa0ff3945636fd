# A verified model of the RAG agent's deterministic core

The repository is a retrieval-augmented chat agent built from Azure OpenAI,
Azure AI Search and LangGraph, plus an evaluation harness and a hand-written
ReAct demo. This project models, in Dafny, the parts of it that are plain
logic. The language models, the embedding service and the search index are
treated as oracles: total functions passed in as parameters, which may fail.

- **The agent graph** (`AgentGraph`, agents/rag/base.py). It has four nodes:
  - the guardrail, which accepts or rejects the request;
  - the friendly refusal;
  - the tool-bound model, `agent_brain`;
  - the tool node.

  Each node is a transition on (node, state). `route_condition` applies the
  12-message cap. The graph is run by an `Execute` function whose
  termination is proved, so a run is a finite trace. Also modelled: the
  conversion of the request history into graph messages, and the 20-item
  window of `run`.
- **The graph state** (`GraphSchema`, agents/rag/schemas/graph.py). This is
  the state, its updates, and the append reducer of `messages`. It also
  covers the parsing of the guardrail's structured verdict.
- **The search client** (`Retriever`, agents/rag/retriever/cognitivesearch.py):
  - the OData `$filter` builder (string values, lists whose elements are
    spliced in as `str` renders them, unsupported values; clauses joined
    with ` and `; no quote escaping);
  - the keep-first de-duplication by `id_content`, with Python's equality
    of ids (`1`, `1.0` and `True` are one id);
  - the search call: the query is embedded first, then a filter is built
    only for a non-empty dictionary, the index is queried and the hits are
    de-duplicated.
- **The tools** (`Tools`, `ToolSchemas`, `ToolPrompt`). This covers:
  - the field projection of both search tools and the requests they send;
  - the `AVAILABLE_TOOLS` list;
  - the pydantic input schemas, written as validators;
  - `format_tool_for_prompt`, written as a method with two loops and proved
    against a specification function.
- **The request schema** (`Conversation`, schemas/conversation.py). It holds
  validators for `MessageItem`, `InputChat` and `ResponseRAG`, with their
  bounds and defaults, and round-trip lemmas.
- **The evaluation harness** (`Evaluation`, agents/evaluation.py):
  - session dictionaries are objects updated in place;
  - `load_data` annotates each session with its single user message;
  - the sample size is clamped and the sample is drawn without replacement;
  - the sample is cut into batches of four;
  - every batch is retried exactly once, and `evaluate_batch` annotates and
    pops keys in place.

  `RagPipeline` plugs the agent graph in. Its output never carries
  `ids_content`, so a prediction run over a non-empty sample always raises.
- **The metrics script** (`RunEvaluation`, scripts/run_evaluation.py). This is
  the score list, the histogram in the fixed order none/few/most/all, and the
  numbering of run directories.
- **The ReAct demo** (`ScratchAgent`, scripts/agent_from_scratch.py):
  - the `Agent` class and its chat log;
  - the parsing of `Action: name: input` lines;
  - `average_dog_weight`;
  - the `query` loop, written as a method proved against a recursive
    specification of its turns.

Where the code and its own documentation disagree, the model follows the
code:
- The docstring of `agent_brain` speaks of the last 12 messages, but the
  whole state is sent. The 12-message cap lives only in `route_condition`.
- `evaluate_batch` reads `result["ids_content"]`, which no node produces.

## Model

| member | source | states |
|---|---|---|
| Conversation.ParseRole | schemas/conversation.py:5 | A role is accepted exactly when it is "user", "assistant" or "system", and it is then the role named. |
| Conversation.ParseMessageItem | schemas/conversation.py:4-6 | A message validates exactly when it is a dict with a valid role and a string content, and then carries those two values. |
| Conversation.MessageRoundTrip | schemas/conversation.py:4-6 | Serialising a message and validating it again gives the message back. |
| Conversation.ParseItems | schemas/conversation.py:11 | A history validates item by item, in order, and one invalid item rejects it. |
| Conversation.ParseId | schemas/conversation.py:9-10 | A missing id takes its default; a present one is accepted exactly when it is a string within its length bounds, and is kept as given. |
| Conversation.ParseInputChat | schemas/conversation.py:8-11 | A dict is accepted exactly when both ids validate (or are absent), the history is a list of 1 to 100 items and every item validates. An accepted chat meets every bound, its history is the validated items and its ids are what the id validator gives; a non-dict or a missing history is rejected. |
| Conversation.DefaultsAreValid | schemas/conversation.py:9-10 | "test0001" and "convtest0001" meet their own length bounds. |
| Conversation.ItemsRoundTrip | schemas/conversation.py:11 | Any list of messages serialises and validates back to itself. |
| Conversation.InputChatRoundTrip | schemas/conversation.py:8-11 | A chat serialises and validates back to itself exactly when it meets the bounds; otherwise it is rejected. |
| Conversation.DefaultsApplied | schemas/conversation.py:9-11 | A dict holding only a valid history gets the two default ids. |
| Conversation.ParseResponseRAG | schemas/conversation.py:13-15 | A response validates exactly when `response` is a string and `agent_state` a dict, and keeps both. |
| GraphSchema.ParseVerdict | agents/rag/schemas/graph.py:13-20 | A verdict parses exactly when classification is "accepted" or "rejected" and reason a string, and carries both. |
| GraphSchema.Apply | agents/rag/schemas/graph.py:6-11 | The merged state's messages are the old ones followed by the update's. Each other channel takes the update's value when it carries one and keeps the old value otherwise. |
| GraphSchema.ApplyAppends | agents/rag/schemas/graph.py:6-11 | An update appends its messages: the old messages stay as a prefix and the length adds up. A messages-only update changes nothing else. |
| GraphSchema.ApplyCompose | agents/rag/schemas/graph.py:9 | Two updates applied in turn equal their composition applied once. |
| ToolSchemas.ParseQuery | agents/rag/schemas/tools.py:7 | `query` is required and must be a string. |
| ToolSchemas.ParseState | agents/rag/schemas/tools.py:8 | `state` is optional, defaults to None, and must otherwise be a dict. |
| ToolSchemas.ParseDomain | agents/rag/schemas/tools.py:13 | `domain` is required and must be exactly "manuales" or "garantias". |
| ToolSchemas.ValidateGeneralSearch | agents/rag/schemas/tools.py:5-8 | General search input validates exactly when query and state do, and holds them. |
| ToolSchemas.ValidateDomainSearch | agents/rag/schemas/tools.py:10-14 | Domain search input validates exactly when query, domain and state do, and holds them. |
| ToolSchemas.GeneralSearchIgnoresDomain | agents/rag/schemas/tools.py:5-8 | General search has no domain field: adding one never changes validation. |
| ToolSchemas.QueryAloneSuffices | agents/rag/schemas/tools.py:5-14 | A query (plus a valid domain) alone validates, with state None. |
| Retriever.Str | agents/rag/retriever/cognitivesearch.py:101 | A list element is spliced in as `str` renders it: None as "None", booleans as "True"/"False", integers in decimal, strings as they are. |
| Retriever.EqClauses | agents/rag/retriever/cognitivesearch.py:101 | One `key eq 'v'` clause per list value, in list order, each value rendered by `str`. |
| Retriever.BuildFilters | agents/rag/retriever/cognitivesearch.py:94-109 | The loop computes the filter expression of the whole dictionary, error included. |
| Retriever.ClausesAppend | agents/rag/retriever/cognitivesearch.py:96-107 | The clauses of two dictionary parts are those of the first, then those of the second; the first error wins. |
| Retriever.TextFilter | agents/rag/retriever/cognitivesearch.py:104-105 | A string value gives `key eq 'value'`. |
| Retriever.ListFilter | agents/rag/retriever/cognitivesearch.py:97-103 | A non-empty list gives its clauses joined by ` or ` in parentheses. |
| Retriever.ListElementsRendered | agents/rag/retriever/cognitivesearch.py:101 | The list `[1, None]` gives `(key eq '1' or key eq 'None')`. |
| Retriever.EmptyListIgnored | agents/rag/retriever/cognitivesearch.py:98-99 | An empty list, wherever it stands, contributes nothing. |
| Retriever.UnsupportedFails | agents/rag/retriever/cognitivesearch.py:106-107 | A value that is neither list nor string makes the whole build fail. |
| Retriever.ConjunctionOfParts | agents/rag/retriever/cognitivesearch.py:109 | Two parts with clauses give their expressions joined by ` and `. |
| Retriever.NoClausesIsEmpty | agents/rag/retriever/cognitivesearch.py:109 | No surviving clause gives the empty string. |
| Retriever.DocumentedExample | agents/rag/retriever/cognitivesearch.py:85-92 | The docstring's example shape holds for any keys and values. |
| Retriever.QuotesAreNotEscaped | agents/rag/retriever/cognitivesearch.py:101-105 | A value holding a quote can forge a second clause: its expression equals that of two separate filters. |
| Retriever.FirstKeyError | agents/rag/retriever/cognitivesearch.py:116 | There is no error exactly when every document has a hashable `id_content`. |
| Retriever.DeleteDuplicates | agents/rag/retriever/cognitivesearch.py:111-116 | The loop with its growing seen set computes the keep-first de-duplication, comparing ids as Python's set does. |
| Retriever.KeyOfIsPythonEquality | agents/rag/retriever/cognitivesearch.py:116 | Two ids are one set element exactly when Python's `==` calls them equal, with booleans, integers and floats compared by value. |
| Retriever.KeepFirstIsFirstOccurrences | agents/rag/retriever/cognitivesearch.py:116 | De-duplication equals an independent definition: keep a document when no earlier one has its id. |
| Retriever.KeepFirstProperties | agents/rag/retriever/cognitivesearch.py:116 | The result is a subsequence of the input, has distinct ids, and covers every id not already seen. |
| Retriever.KeepFirstOfDistinct | agents/rag/retriever/cognitivesearch.py:116 | A list with distinct, unseen ids is kept whole. |
| Retriever.DeduplicatedIdempotent | agents/rag/retriever/cognitivesearch.py:111-116 | De-duplicating twice is the same as once. |
| Retriever.DuplicateCollapses | agents/rag/retriever/cognitivesearch.py:116 | Of two documents with one id, the first is kept. |
| Retriever.NumericIdsCollapse | agents/rag/retriever/cognitivesearch.py:116 | A document with id `1` followed by one with id `true` keeps only the first. |
| Retriever.Request | agents/rag/retriever/cognitivesearch.py:40-74 | The request carries the query text, its vector, `top` neighbours and `top` hits. A filter is sent only for a non-empty dictionary, and a filter that cannot be built is the error. |
| Retriever.Search | agents/rag/retriever/cognitivesearch.py:38-79 | The method embeds the query, builds the request, queries the index and de-duplicates, as SearchResult specifies. The hits it returns have distinct ids. |
| Retriever.SearchHitsDistinct | agents/rag/retriever/cognitivesearch.py:76-77 | Every hit of a successful search has a usable id, and no two ids are equal. |
| Retriever.EmbeddingFailsFirst | agents/rag/retriever/cognitivesearch.py:38 | A failing embedding is the search's error, whatever the filters. |
| Retriever.BadFilterSkipsIndex | agents/rag/retriever/cognitivesearch.py:38-61 | A filter that cannot be built fails the search after the embedding, and the index's answers do not matter. |
| Tools.Project | agents/rag/tools/base.py:26-29 | Each record has exactly the seven included fields, with None for a missing field. |
| Tools.ProjectAll | agents/rag/tools/base.py:26-29 | The records match the hits one for one, in order. |
| Tools.ProjectIdempotent | agents/rag/tools/base.py:27 | Projecting twice is the same as once. |
| Tools.ProjectKeepsIncludedFields | agents/rag/tools/base.py:27 | A hit with exactly the included fields is returned unchanged. |
| Tools.GeneralSearch | agents/rag/tools/base.py:21-31 | A failing embedding is the tool's error. The records of a success keep distinct, usable ids. |
| Tools.DomainSearch | agents/rag/tools/base.py:46-56 | A failing embedding is the tool's error. The records of a success keep distinct, usable ids. |
| Tools.ProjectAllKeepsIds | agents/rag/tools/base.py:26-29 | Projection keeps every hit's id, so distinct ids stay distinct. |
| Tools.GeneralSearchRequest | agents/rag/tools/base.py:21-25 | General search sends the query with top 20 and no filter, and depends only on the backend's answer to that request. |
| Tools.DomainSearchRequest | agents/rag/tools/base.py:46-51 | Domain search sends top 20 and the filter `domain eq '<domain>'`. |
| Tools.GeneralSearchOutput | agents/rag/tools/base.py:26-31 | The tool's output is the projection of the search result, one record per hit. |
| Tools.DomainSearchOutput | agents/rag/tools/base.py:46-56 | The domain tool's output is the projection of the domain-filtered search result, one record per hit, in order. |
| Tools.LookupTool | agents/rag/tools/base.py:59 | A name is found exactly when it names an available tool. |
| Tools.LookupFindsEveryTool | agents/rag/tools/base.py:59 | Both tools are available and found under their own names. |
| Tools.Invoke | agents/rag/tools/base.py:59 | An unknown tool name fails as an unknown action. Records come back only from a known tool, with distinct ids. |
| Tools.InvokeIgnoresState | agents/rag/tools/base.py:19 | A tool call's outcome does not depend on the injected state. |
| Tools.InvokeValidatesQuery | agents/rag/tools/base.py:10-14 | A general search call with a string query searches; without one it fails validation. |
| ToolPrompt.Strip | agents/rag/utils.py:14 | The result is no longer than the input, and it neither starts nor ends with whitespace. |
| ToolPrompt.StripSpec | agents/rag/utils.py:14 | Stripping removes exactly the leading and trailing whitespace. |
| ToolPrompt.StripIdempotent | agents/rag/utils.py:14 | Stripping twice is the same as once. |
| ToolPrompt.FormatToolForPrompt | agents/rag/utils.py:8-51 | The two loops and the template compute the tool's prompt block: the stripped description, the signature of the visible fields, and one doc line per documented field. |
| ToolPrompt.OneField | agents/rag/utils.py:20-37 | One field shows in the signature unless it is state or tool_call_id, and in the docs unless it is state. |
| ToolPrompt.HiddenFields | agents/rag/utils.py:18-38 | A state or tool_call_id field adds nothing to the signature wherever it stands; tool_call_id is still documented. |
| ToolPrompt.VisibleFieldsListed | agents/rag/utils.py:19-38 | Without hidden fields, every field appears in the signature and the docs, in field order. |
| ToolPrompt.RequirednessIgnored | agents/rag/utils.py:25-28 | As written, a field's signature text ignores whether it is required and what its default is. |
| ToolPrompt.OptionalDefaultDropped | agents/rag/utils.py:25-28 | As written, the optional field `k: int = 5` renders as `k: int`; the intended rendering is `k: int = 5`. |
| ToolPrompt.ParamRendering | agents/rag/utils.py:25-28 | In the intended rendering, a required field renders as `name: Type`, and an optional one as `name: Type = default`. The required case is the as-written text. |
| ToolPrompt.AvailableToolsUnaffected | agents/rag/utils.py:25-28 | Every visible field of both available tools renders the same either way, so no prompt block changes. |
| ToolPrompt.Blocks | agents/rag/base.py:175-176 | One prompt block per tool: the i-th block is the i-th tool's formatted prompt. |
| ToolPrompt.AvailableSignatures | agents/rag/utils.py:19-38 | Both tools show the query and neither shows state; only the domain tool shows the domain. |
| ToolPrompt.GeneralSignature | agents/rag/utils.py:19-38 | The general search signature lists only the query parameter. |
| ToolPrompt.DomainSignature | agents/rag/utils.py:19-38 | The domain search signature and docs list query, then domain, and nothing else. |
| AgentGraph.RouteCondition | agents/rag/base.py:45-57 | More than 12 messages ends, tool calls or not; an empty list raises; otherwise it is tools exactly when the last message has tool calls. |
| AgentGraph.GuardrailStep | agents/rag/base.py:90-131 | The guardrail sets only the classification fields, going either to the model with "accepted" or to the refusal with a reason. An empty message list raises. |
| AgentGraph.GuardrailRouting | agents/rag/base.py:119-131 | "accepted" goes to agent_brain with only the classification set; "rejected" goes to friendly_response with the reason. |
| AgentGraph.FriendlyStep | agents/rag/base.py:134-160 | The refusal appends one model message and ends; without a reject reason it raises. |
| AgentGraph.SystemMessageDescribesTools | agents/rag/base.py:175-178 | In the agent's environment, the model node's system message is the `AGENT_SYSTEM_PROMPT_PIC` text (agents/rag/prompts/agent.py:17-27) with the two tools' blocks, in list order and separated by a blank line, in place of `{textual_description_tool}`. |
| AgentGraph.BrainUpdate | agents/rag/base.py:183-187 | The model node's update appends one message and passes the ids through unchanged. |
| AgentGraph.BrainStep | agents/rag/base.py:163-187 | The model is asked with the environment's system message and the whole history; its failure is the step's. Otherwise the node appends exactly its reply as one AI message, touches nothing else, and routes to tools exactly when under the cap with tool calls. |
| AgentGraph.BrainRouting | agents/rag/base.py:45-57 | After the model's reply, the run goes to tools exactly when the grown list is within 12 and the reply has tool calls. |
| AgentGraph.ToolMessages | agents/rag/base.py:67 | One tool message per call, in order, answering that call's id. |
| AgentGraph.ToolsStep | agents/rag/base.py:67-75 | The tool node answers the last AI message's calls and returns to agent_brain; with no AI message last it raises. |
| AgentGraph.ToolsAnswerEveryCall | agents/rag/base.py:67 | Every requested call gets exactly one answer, matched by id. |
| AgentGraph.ToolsIgnoreInjectedState | agents/rag/tools/base.py:19 | The tool node's step is the same whatever state is injected. |
| AgentGraph.Execute | agents/rag/base.py:63-77 | A completed run takes at most its measure's number of steps. Its trace is empty exactly when it starts at the end, and otherwise starts at the start node. |
| AgentGraph.Step | agents/rag/base.py:63-77 | Every step strictly decreases a measure and only extends the state, so every run terminates. |
| AgentGraph.LoopTraceShape | agents/rag/base.py:69-77 | The model loop starts and ends at agent_brain, tools always follow agent_brain, and it never visits the other nodes. |
| AgentGraph.TraceBounded | agents/rag/base.py:50-51 | A run takes no more steps than its measure. |
| AgentGraph.WithinRecursionLimit | agents/rag/base.py:218-224 | A run takes at most 15 steps, within LangGraph's default limit of 25. |
| AgentGraph.BrainLoop | agents/rag/base.py:70-75 | A run from agent_brain alternates model and tool steps and keeps the state's other fields. |
| AgentGraph.RunShape | agents/rag/base.py:69-77 | A rejected run is exactly guardrail then refusal and never reaches agent_brain or tools. An accepted run never visits the refusal. Both end on an AI message with the history kept as a prefix and the ids unchanged. |
| AgentGraph.AcceptedShape | agents/rag/base.py:119-131 | An accepted request runs guardrail then the model loop, never the refusal, and ends on an AI message with the ids kept. |
| AgentGraph.RejectedShape | agents/rag/base.py:119-160 | A rejected request runs exactly guardrail then refusal, and ends on the refusal message. |
| AgentGraph.BrainEnds | agents/rag/base.py:45-57 | A model step with no tool calls, or past the cap, ends the run right after agent_brain. |
| AgentGraph.RejectedRun | agents/rag/base.py:119-160 | A rejection yields exactly one refusal message, with the classification and reason recorded. |
| AgentGraph.ToLangchainMessages | agents/rag/base.py:202-207 | The loop computes the converted list. |
| AgentGraph.Conversational | agents/rag/base.py:204-207 | The kept items contain no system message. |
| AgentGraph.ConversionKeepsConversation | agents/rag/base.py:202-207 | Conversion maps user and assistant items one for one, in order, and drops only system ones. |
| AgentGraph.ConversationalOfClean | agents/rag/base.py:202-207 | A history without system items is kept whole. |
| AgentGraph.AllSystemIsSilent | agents/rag/base.py:202-207 | A history of only system items converts to nothing. |
| AgentGraph.ConversionOfConversation | agents/rag/base.py:202-207 | A history without system items converts to as many messages as it has items. |
| AgentGraph.LastN | agents/rag/base.py:231 | The window is the last min(20, n) items, in order. |
| AgentGraph.Lookup | agents/rag/base.py:212-213 | A missing metadata key raises KeyError with that key. |
| AgentGraph.RunGraph | agents/rag/base.py:189-224 | `_run_graph` converts the messages, builds the initial state from the metadata, and runs from the guardrail. |
| AgentGraph.Run | agents/rag/base.py:226-235 | `run` hands the graph exactly the last 20 history items. |
| AgentGraph.RunOutcome | agents/rag/base.py:226-235 | A completed run carries the caller's ids, extends the converted window, ends on an AI message, and stays under 25 steps. |
| AgentGraph.NoConversationFails | agents/rag/base.py:114-117 | A window of only system items leaves no message, so the guardrail raises IndexError. |
| Evaluation.ConversationFormat | agents/evaluation.py:36-37 | A session yields one user message with its question, and raises without a question or with a non-string one. |
| Evaluation.Loaded | agents/evaluation.py:31-32 | Loading adds only "messages" to a session and keeps every other key. |
| Evaluation.LoadAll | agents/evaluation.py:31-34 | All sessions load in order; the first session that fails decides the error. |
| Evaluation.LoadData | agents/evaluation.py:27-34 | The in-place loop leaves the sessions loaded, or stops at the first failing session with the earlier ones already loaded. |
| Evaluation.LoadAllStops | agents/evaluation.py:31-32 | The first failing session decides the error. |
| Evaluation.LoadAllSucceeds | agents/evaluation.py:31-34 | When every session can be loaded, loading all of them succeeds. |
| Evaluation.SampleSize | agents/evaluation.py:48-51 | The sample size is min(size_sample, len(dataset)). |
| Evaluation.Sample | agents/evaluation.py:54 | The sample has exactly k members, drawn at the given positions; a negative k raises. |
| Evaluation.SampleWithoutReplacement | agents/evaluation.py:54 | A sample of distinct sessions is distinct and drawn from the population. |
| Evaluation.BatchCount | agents/evaluation.py:69 | There are ceil(n / 4) batches. |
| Evaluation.BatchAt | agents/evaluation.py:69 | Batch i is the slice from 4i to 4i + 4, cut off at the end. |
| Evaluation.BatchesConcat | agents/evaluation.py:69 | The batches concatenate back to the sample. |
| Evaluation.BatchSizes | agents/evaluation.py:69 | Every batch has 1 to 4 sessions, and all but the last have 4. |
| Evaluation.AgentInputs | agents/evaluation.py:58 | The agent receives each session's "messages", in batch order. |
| Evaluation.Gathered | agents/evaluation.py:58-59 | A gathered batch has one successful answer per input. |
| Evaluation.Annotated | agents/evaluation.py:61-65 | The session gains `result` (last message content and ids) and loses "messages", with all else kept. No message or no ids raises. |
| Evaluation.AnnotateAllDone | agents/evaluation.py:60-65 | A whole batch annotates exactly when every session does. |
| Evaluation.AnnotateAllStops | agents/evaluation.py:60-65 | An annotation that raises leaves the earlier sessions annotated and the later ones untouched. |
| Evaluation.EvaluateBatch | agents/evaluation.py:57-65 | The in-place batch evaluation produces the specified new sessions and error. |
| Evaluation.Retried | agents/evaluation.py:74-80 | A batch tried and, on failure, retried once keeps its number of sessions. |
| Evaluation.AnnotateSessions | agents/evaluation.py:60-65 | The in-place annotation loop produces the specified sessions and error. |
| Evaluation.RetryBatch | agents/evaluation.py:74-80 | A failing batch is tried again exactly once, and a second failure propagates. |
| Evaluation.RunBatches | agents/evaluation.py:72-80 | Batches run in order, each retried once, and the first batch failing twice stops the run. |
| Evaluation.RunPrediction | agents/evaluation.py:46-94 | `run_prediction` returns the specified sessions: loaded, sampled, batched and annotated. |
| Evaluation.BatchAnswered | agents/evaluation.py:57-65 | After a successful batch, every session holds the pipeline's answer to its own messages. |
| Evaluation.RetryAfterPartialAnnotation | agents/evaluation.py:57-80 | A first attempt that annotated some sessions before raising makes the retry fail on the popped "messages". |
| Evaluation.RetriedAnnotates | agents/evaluation.py:74-80 | After a batch and its retry succeed, each session holds the answer of the attempt that succeeded. |
| Evaluation.PredictAnnotates | agents/evaluation.py:72-80 | A completed run annotates every sampled session, position by position. |
| Evaluation.PredictionAnnotatesSample | agents/evaluation.py:46-94 | A successful prediction loads the data, draws the sample and returns it annotated. |
| Evaluation.AnnotationShape | agents/evaluation.py:61-65 | An annotated session has "result" in place of "messages" and keeps every other key. |
| Evaluation.PredictBatchesStops | agents/evaluation.py:72-80 | The first batch whose retry fails decides the error of the whole run. |
| Evaluation.RagPipeline | agents/evaluation.py:58 | The RAG agent's output never carries `ids_content`. |
| Evaluation.NoIdsBatchFails | agents/evaluation.py:63 | Without `ids_content`, every non-empty batch raises before changing any session. |
| Evaluation.NoIdsNoPrediction | agents/evaluation.py:72-80 | Without `ids_content`, no prediction over a non-empty sample completes. |
| Evaluation.RagBatchError | agents/evaluation.py:63 | With the RAG agent, a batch the agent answers fails with KeyError("ids_content"), its sessions unchanged. |
| Evaluation.RagPredictionFails | agents/evaluation.py:46-94 | With the RAG agent, a prediction run completes only for an empty sample. |
| Evaluation.EvaluatePrediction | agents/evaluation.py:96-97 | The stub returns None whatever the sample. |
| RunEvaluation.Subscript | scripts/run_evaluation.py:65 | Subscripting works only on a dict holding the key; a missing key raises KeyError, anything else TypeError. |
| RunEvaluation.ScoresOf | scripts/run_evaluation.py:65 | The scores are taken in dataset order, and the first item without one raises. |
| RunEvaluation.ExtractScores | scripts/run_evaluation.py:65 | A list gives its items' scores. A dict or string succeeds only when empty, and other values raise TypeError. |
| RunEvaluation.Count | scripts/run_evaluation.py:69-70 | A label's count is its number of occurrences, zero exactly when absent. |
| RunEvaluation.ScoreCounts | scripts/run_evaluation.py:68-70 | The counts come in the order none, few, most, all, each the label's occurrences; an unhashable score raises TypeError. |
| RunEvaluation.CountsTotal | scripts/run_evaluation.py:68-70 | The four counts add up to at most the number of scores, with equality exactly when every score is a label. |
| RunEvaluation.AbsentLabelCountsZero | scripts/run_evaluation.py:70 | A label counts zero exactly when it does not occur. |
| RunEvaluation.MetricsOfStubEvaluation | scripts/run_evaluation.py:52 | The saved evaluation is `evaluate_prediction`'s None, whose metrics raise TypeError. |
| RunEvaluation.RunEntries | scripts/run_evaluation.py:37 | The glob finds exactly the names starting with `run_`. |
| RunEvaluation.RunDirName | scripts/run_evaluation.py:39 | Run directories are named `run_` followed by the id. |
| RunEvaluation.RunDirNameInjective | scripts/run_evaluation.py:39 | Distinct ids give distinct directory names. |
| RunEvaluation.NextRunId | scripts/run_evaluation.py:37-40 | Saving into a new directory raises the next id by one. |
| RunEvaluation.RunIdCollision | scripts/run_evaluation.py:37-40 | With only `run_2` present, the id is 2 and the new run reuses `run_2`. |
| RunEvaluation.FreshRunId | scripts/run_evaluation.py:37-40 | The corrected id is the smallest one whose directory does not exist. |
| RunEvaluation.NewRunDir | scripts/run_evaluation.py:39-40 | The corrected directory is a new `run_` name. |
| RunEvaluation.FreshAgreesWhenContiguous | scripts/run_evaluation.py:37-38 | While runs 1 to k exist and nothing else, both rules give k + 1. |
| ScratchAgent.Opening | scripts/agent_from_scratch.py:27-31 | A new log is just the system message when there is one, and empty otherwise. |
| ScratchAgent.Agent.constructor | scripts/agent_from_scratch.py:27-31 | A new agent's log is its opening. |
| ScratchAgent.Agent.Execute | scripts/agent_from_scratch.py:39-44 | The model answers the whole log. |
| ScratchAgent.Agent.Call | scripts/agent_from_scratch.py:33-37 | A call logs the user message, then the reply, and returns the reply; a failing call leaves only the user message logged. |
| ScratchAgent.SplitLines | scripts/agent_from_scratch.py:109 | Splitting gives at least one piece, and no piece holds a newline. |
| ScratchAgent.SplitJoin | scripts/agent_from_scratch.py:109 | The pieces joined with newlines give the reply back. |
| ScratchAgent.JoinSplit | scripts/agent_from_scratch.py:109 | Newline-free pieces joined with newlines split back into themselves. |
| ScratchAgent.WordPrefix | scripts/agent_from_scratch.py:97 | The longest run of word characters at the start of a string. |
| ScratchAgent.ParseActionLine | scripts/agent_from_scratch.py:97 | A parsed action has a word name and a newline-free input, and the line starts with `Action: `, the name and `: `. |
| ScratchAgent.ParseActionRoundTrip | scripts/agent_from_scratch.py:97 | `Action: name: input` with a word name parses back to that name and input. |
| ScratchAgent.ParseActionShape | scripts/agent_from_scratch.py:97 | A newline-free line that parses is exactly such an action line. |
| ScratchAgent.FirstActionSpec | scripts/agent_from_scratch.py:107-114 | There is an action exactly when some line matches, and it is that of the first matching line. |
| ScratchAgent.FirstActionLine | scripts/agent_from_scratch.py:107-114 | Lines after the first action line do not matter. |
| ScratchAgent.DogWeightAnswers | scripts/agent_from_scratch.py:82-90 | For every name, both directions of each answer: the first breed whose name contains the argument picks the answer, and the default is for names in none. |
| ScratchAgent.AnswersDistinct | scripts/agent_from_scratch.py:82-90 | The four answers are different texts. |
| ScratchAgent.EmptyNameIsScottish | scripts/agent_from_scratch.py:82-84 | "" is a substring of every breed, so it gets the Scottish Terrier answer. |
| ScratchAgent.CollieIsBorderCollie | scripts/agent_from_scratch.py:85-86 | "Collie" gets the Border Collie answer. |
| ScratchAgent.PoodleIsToyPoodle | scripts/agent_from_scratch.py:87-88 | "Poodle" gets the toy poodle answer. |
| ScratchAgent.LowerCaseBreedIsDefault | scripts/agent_from_scratch.py:82-90 | The test is case-sensitive: "border collie" gets the default answer. |
| ScratchAgent.FirstBreedWins | scripts/agent_from_scratch.py:83-86 | Breeds are tried in order: "ie" is in "Border Collie" but gets the Scottish Terrier answer. |
| ScratchAgent.Observe | scripts/agent_from_scratch.py:115-118 | An unknown action raises, naming the action and its input; the two known ones run on the input. |
| ScratchAgent.Query | scripts/agent_from_scratch.py:99-122 | The loop over the agent object ends with the log and exception of the specified turns. |
| ScratchAgent.Turn | scripts/agent_from_scratch.py:104-120 | One pass either stops, logging what the loop would stop with, or hands the rest of the loop its next prompt. |
| ScratchAgent.TurnGoesOn | scripts/agent_from_scratch.py:112-120 | A turn whose action runs makes "Observation: " plus its result the next prompt. |
| ScratchAgent.TurnsShape | scripts/agent_from_scratch.py:99-122 | The loop only appends, at most two messages per turn, alternating prompts and replies. It stops early only on a reply without an action or on an exception, whose source is named. |
| ScratchAgent.QueryShape | scripts/agent_from_scratch.py:99-122 | A query makes at most max_turns model calls and ends as the turns lemma says. |
| ScratchAgent.UnknownActionRaises | scripts/agent_from_scratch.py:115-116 | A first reply naming an unknown action ends the query with that exception. |

## Findings

| source | as written | input that shows it | evidently intended | confidence | as-written member | corrected member |
|---|---|---|---|---|---|---|
| agents/rag/utils.py:25 | `if model_field.is_required:` tests the method without calling it. A bound method is true, so every field renders as `name: T`. | The field `k: int = 5`, not required, renders as `k: int`. | An optional field renders as `name: T = default`. | not executed | ToolPrompt.OptionalDefaultDropped | ToolPrompt.ParamRendering |
| scripts/run_evaluation.py:37-40 | The new run id is the number of `run_*` entries plus one, and the directory is opened with `exist_ok=True`. | Entries {`run_2`} (run 1 deleted) give id 2, so the new run's predictions overwrite `run_2`'s. | A new run gets a directory that does not exist yet. | not executed | RunEvaluation.RunIdCollision | RunEvaluation.FreshRunId |

The model's `SignatureParam` follows the code as written. `ToolPrompt.IntendedSignatureParam` is the corrected rendering. `ToolPrompt.AvailableToolsUnaffected` shows that both available tools have only required visible fields, so the correction changes no prompt the agent sends.

The corrected id is used by `RunEvaluation.NewRunDir`. `RunEvaluation.FreshAgreesWhenContiguous` shows that both rules agree as long as the runs are numbered 1 to k with no gaps.

## Left out

- The language models, embeddings and the search index are oracles in `Env`, `Oracles` and `Backend`. The guardrail's and the refusal's prompt templates, sampling temperature and seeds are not modelled. The model node's system message is the `systemPrompt` of `Env`. `AgentGraph.PromptedBy` fixes it to the `AGENT_SYSTEM_PROMPT_PIC` text around the tool descriptions of `AVAILABLE_TOOLS`, as `agent_brain` builds it.
- AgentGraph.RunGraph and AgentGraph.Run are stated for every environment, not only those satisfying `PromptedBy`. None of their properties depends on the prompt text. `AgentGraph.SystemMessageDescribesTools` states what that text is in the agent's environment.
- The internals of LangGraph's `StateGraph`, `Command`, `ToolNode` and `add_messages` are not modelled. Their effects are modelled instead:
  - updates are merged with messages appended;
  - the tool node answers every call with one tool message;
  - a tool exception becomes an error message, rendered by an oracle.
- The `document` entry of `_run_graph`'s initial state is dropped, because `AgentState` declares no such channel.
- `use_hybrid` is not modelled: `_search` receives it and never reads it. The `fields` name of the vector query is environment configuration and is not modelled.
- Retriever.BuildFilters: a float, list or dict inside a filter list is carried as its `str` text, given with the value; Python's float formatting is not modelled.
- Retrieved-id accumulation is not modelled, because the code does not implement it.
- `stream_run`, the graph PNG written by `create`, logging, tracing and the FastAPI routers are left out as I/O or serving code.
- JSON and JSONL file reading and writing are left out; the dataset is a list of session dictionaries.
- Matplotlib plotting is left out.
- The randomness of `random.sample` is a parameter: the positions drawn.
- `time.sleep(60)` is left out.
- The concurrency of `asyncio.gather` is not modelled. A batch is all-or-nothing for the agent calls, and the first failing call decides the error.
- The module-level OpenAI calls of scripts/agent_from_scratch.py are left out, as are its `print` calls.
- `calculate`'s `eval` is an oracle returning the observation's text or an exception.
- ScratchAgent.Agent.Execute: the reply text is never None. A choice without content is not modelled.
- ScratchAgent.WordChar: `\w` is taken on ASCII letters, digits and underscore; Python's Unicode word characters are not modelled.
- ToolPrompt.StripSpec: whitespace is the set `str.isspace` accepts (tab to carriage return, \x1c to \x1f, space, \x85, no-break space, the Unicode space separators U+1680, U+2000 to U+200A, U+202F, U+205F and U+3000, and the line and paragraph separators U+2028 and U+2029). Strings are sequences of code points, with no normalisation.
- ToolPrompt.FormatToolForPrompt reads an abstract list of field records, not pydantic's `model_fields`. A field's type name is given as text.
- CollieIsBorderCollie, PoodleIsToyPoodle and LowerCaseBreedIsDefault take the breed name as a parameter fixed by their precondition, not as a literal.
