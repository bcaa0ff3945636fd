/** The evaluation harness (agents/evaluation.py): the golden dataset is
    loaded into session dictionaries, a sample is drawn, and the sample is
    sent to the agent in consecutive batches of four, each retried once on
    failure, with every session annotated in place with the agent's answer. */
module Evaluation {
  import opened Common
  import opened Conversation
  import opened GraphSchema
  import opened AgentGraph

  // ------------------------------------------------------------ sessions

  /** A value held by a session dictionary: JSON read from the dataset, the
      message items `load_data` stores, or the result `evaluate_batch` stores. */
  datatype Entry =
    | Json(value: Value)
    | Items(items: seq<MessageItem>)
    | Prediction(answer: string, idsContent: Value)

  type Record = map<string, Entry>

  /** One session dictionary of the dataset, updated in place. */
  class Session {
    var entries: Record

    constructor (entries: Record)
      ensures this.entries == entries
    {
      this.entries := entries;
    }
  }

  /** The dictionaries the sessions currently hold, in order. */
  function Snapshot(sessions: seq<Session>): (r: seq<Record>)
    reads sessions
    ensures |r| == |sessions|
    ensures forall i :: 0 <= i < |sessions| ==> r[i] == sessions[i].entries
  {
    if |sessions| == 0 then [] else [sessions[0].entries] + Snapshot(sessions[1..])
  }

  predicate Distinct<T(==)>(xs: seq<T>)
  {
    forall i, j :: 0 <= i < j < |xs| ==> xs[i] != xs[j]
  }

  // ------------------------------------------------------------ loading

  /** `_conversation_format`: a single user item whose content is the
      session's question; a missing question raises, a question that is not
      a string fails the message validation. */
  function ConversationFormat(session: Record): (r: Result<seq<MessageItem>>)
    ensures "question" !in session ==> r == Err(KeyError("question"))
    ensures r.Ok? <==> "question" in session && session["question"].Json? && session["question"].value.VStr?
    ensures r.Ok? ==> r.value == [MessageItem(User, session["question"].value.s)]
  {
    if "question" !in session then Err(KeyError("question"))
    else if !session["question"].Json? then Err(ValidationError("content"))
    else
      match ParseMessageItem(VDict(map["role" := VStr(RoleName(User)), "content" := session["question"].value]))
      case Err(e) => Err(e)
      case Ok(item) =>
        UserRole(item.role);
        Ok([item])
  }

  lemma UserRole(role: Role)
    requires RoleName(role) == RoleName(User)
    ensures role == User
  {
  }

  /** What `load_data` makes of one session: the message list is stored
      under "messages" and nothing else changes. */
  function Loaded(session: Record): (r: Result<Record>)
    ensures r.Ok? <==> ConversationFormat(session).Ok?
    ensures r.Ok? ==>
              && r.value.Keys == session.Keys + {"messages"}
              && r.value["messages"] == Items([MessageItem(User, session["question"].value.s)])
              && forall k :: k in session && k != "messages" ==> r.value[k] == session[k]
  {
    var items :- ConversationFormat(session);
    Ok(session["messages" := Items(items)])
  }

  /** The loading loop over the whole dataset, in order: every session is
      loaded, or the first one that cannot be stops the loop. */
  function LoadAll(records: seq<Record>): (r: Result<seq<Record>>)
    ensures r.Ok? ==> |r.value| == |records| && forall i :: 0 <= i < |records| ==> Loaded(records[i]) == Ok(r.value[i])
    ensures r.Err? ==>
              exists k :: 0 <= k < |records| && Loaded(records[k]) == Err(r.error)
                          && forall j :: 0 <= j < k ==> Loaded(records[j]).Ok?
  {
    if |records| == 0 then Ok([])
    else
      match Loaded(records[0])
      case Err(e) => Err(e)
      case Ok(first) =>
        match LoadAll(records[1..])
        case Err(e) =>
          assert forall j :: 1 <= j < |records| ==> records[1..][j - 1] == records[j];
          Err(e)
        case Ok(rest) => Ok([first] + rest)
  }

  /** `load_data` after the file is read: each session gets its message list,
      in dataset order, until a session without a usable question raises;
      `stopped` is the position of that session. */
  method LoadData(dataset: seq<Session>) returns (err: Option<Error>, ghost stopped: nat)
    requires Distinct(dataset)
    modifies dataset
    ensures err.None? <==> LoadAll(old(Snapshot(dataset))).Ok?
    ensures err.None? ==> Snapshot(dataset) == LoadAll(old(Snapshot(dataset))).value
    ensures err.Some? ==> LoadAll(old(Snapshot(dataset))) == Err(err.value)
    ensures err.Some? ==>
              && stopped < |dataset| && Loaded(old(Snapshot(dataset))[stopped]) == Err(err.value)
              && LoadProgress(old(Snapshot(dataset)), stopped, Snapshot(dataset))
  {
    ghost var start := Snapshot(dataset);
    var i := 0;
    stopped := 0;
    while i < |dataset|
      invariant i <= |dataset| && LoadProgress(start, i, Snapshot(dataset))
    {
      var items := ConversationFormat(dataset[i].entries);
      if items.Err? {
        LoadStops(start, i, Snapshot(dataset));
        return Some(items.error), i;
      }
      ghost var now := Snapshot(dataset);
      SetEntries(dataset, i, dataset[i].entries["messages" := Items(items.value)]);
      LoadAdvance(start, i, now, items.value);
      i := i + 1;
    }
    LoadDone(start, Snapshot(dataset));
    return None, i;
  }

  /** The loading loop has loaded the first `i` sessions of `start` into
      `now` and left the others as they were. */
  ghost predicate LoadProgress(start: seq<Record>, i: nat, now: seq<Record>)
  {
    && i <= |start| && |now| == |start|
    && (forall j :: 0 <= j < i ==> Loaded(start[j]) == Ok(now[j]))
    && (forall j :: i <= j < |start| ==> now[j] == start[j])
  }

  /** Replacing the dictionary of the `i`-th of distinct sessions changes
      no other session. */
  method SetEntries(sessions: seq<Session>, i: nat, entries: Record)
    requires Distinct(sessions) && i < |sessions|
    modifies sessions[i]
    ensures Snapshot(sessions) == old(Snapshot(sessions))[i := entries]
  {
    ghost var before := Snapshot(sessions);
    sessions[i].entries := entries;
    forall j | 0 <= j < |sessions| && j != i ensures sessions[j].entries == before[j] {
      assert sessions[j] != sessions[i];
    }
  }

  lemma LoadStops(start: seq<Record>, i: nat, now: seq<Record>)
    requires LoadProgress(start, i, now) && i < |start| && ConversationFormat(now[i]).Err?
    ensures Loaded(start[i]) == Err(ConversationFormat(now[i]).error)
    ensures LoadAll(start) == Err(ConversationFormat(now[i]).error)
  {
    LoadAllStops(start, i);
  }

  lemma LoadAdvance(start: seq<Record>, i: nat, now: seq<Record>, items: seq<MessageItem>)
    requires LoadProgress(start, i, now) && i < |start| && ConversationFormat(now[i]) == Ok(items)
    ensures LoadProgress(start, i + 1, now[i := now[i]["messages" := Items(items)]])
  {
  }

  lemma LoadDone(start: seq<Record>, now: seq<Record>)
    requires LoadProgress(start, |start|, now)
    ensures LoadAll(start) == Ok(now)
  {
    LoadAllSucceeds(start);
    var loaded := LoadAll(start).value;
    forall j | 0 <= j < |start| ensures loaded[j] == now[j] {
      assert Loaded(start[j]) == Ok(loaded[j]) == Ok(now[j]);
    }
    assert loaded == now;
  }

  /** The loading loop raises the exception of the first session it cannot load. */
  lemma {:induction false} LoadAllStops(records: seq<Record>, k: nat)
    requires k < |records| && Loaded(records[k]).Err?
    requires forall j :: 0 <= j < k ==> Loaded(records[j]).Ok?
    ensures LoadAll(records) == Err(Loaded(records[k]).error)
  {
    if k > 0 {
      assert forall j :: 0 <= j < k - 1 ==> records[1..][j] == records[j + 1];
      LoadAllStops(records[1..], k - 1);
    }
  }

  lemma {:induction false} LoadAllSucceeds(records: seq<Record>)
    requires forall j :: 0 <= j < |records| ==> Loaded(records[j]).Ok?
    ensures LoadAll(records).Ok?
  {
    if |records| > 0 {
      assert forall j :: 0 <= j < |records| - 1 ==> records[1..][j] == records[j + 1];
      LoadAllSucceeds(records[1..]);
    }
  }

  // ----------------------------------------------------------- sampling

  /** The clamp of `run_prediction`: the requested size, or the size of the
      dataset when that is smaller. */
  function SampleSize(sizeSample: int, n: nat): (k: int)
    ensures k <= sizeSample && k <= n
    ensures k == sizeSample || k == n
  {
    if n >= sizeSample then sizeSample else n
  }

  /** The positions `random.sample` draws: `k` distinct positions of the population. */
  predicate IsSampleOf(picks: seq<nat>, n: nat, k: nat)
  {
    |picks| == k && Distinct(picks) && forall i :: 0 <= i < |picks| ==> picks[i] < n
  }

  /** `random.sample(population, k)`, with the random choice given as `picks`. */
  function Sample<T>(population: seq<T>, k: int, picks: seq<nat>): (r: Result<seq<T>>)
    requires 0 <= k <= |population| ==> IsSampleOf(picks, |population|, k)
    ensures r.Err? <==> k < 0 || k > |population|
    ensures r.Ok? ==> |r.value| == k && forall i :: 0 <= i < k ==> r.value[i] == population[picks[i]]
  {
    if k < 0 || k > |population| then Err(ValueError("Sample larger than population or is negative"))
    else Ok(seq(k, i requires 0 <= i < k => population[picks[i]]))
  }

  /** The sample is drawn without replacement: a population of distinct
      sessions gives a sample of distinct sessions. */
  lemma SampleWithoutReplacement<T>(population: seq<T>, k: int, picks: seq<nat>)
    requires 0 <= k <= |population| ==> IsSampleOf(picks, |population|, k)
    requires Distinct(population) && Sample(population, k, picks).Ok?
    ensures Distinct(Sample(population, k, picks).value)
    ensures forall x :: x in Sample(population, k, picks).value ==> x in population
  {
    var s := Sample(population, k, picks).value;
    forall i, j | 0 <= i < j < |s| ensures s[i] != s[j] {
      assert picks[i] != picks[j];
    }
  }

  // ----------------------------------------------------------- batching

  /** `[s[i:i + 4] for i in range(0, len(s), 4)]`: consecutive batches of four. */
  function Batches<T>(s: seq<T>): seq<seq<T>>
    decreases |s|
  {
    if |s| == 0 then []
    else if |s| <= 4 then [s]
    else [s[..4]] + Batches(s[4..])
  }

  function Concat<T>(xs: seq<seq<T>>): seq<T>
  {
    if |xs| == 0 then [] else xs[0] + Concat(xs[1..])
  }

  /** There are ceil(|s| / 4) batches. */
  lemma {:induction false} BatchCount<T>(s: seq<T>)
    ensures |Batches(s)| == (|s| + 3) / 4
    decreases |s|
  {
    if |s| > 4 {
      BatchCount(s[4..]);
    }
  }

  /** The batches cover the sequence: every batch but the last is full, so
      the count is the smallest `n` with `|s| <= 4 * n`. */
  lemma {:induction false} BatchSpan<T>(s: seq<T>)
    ensures |s| <= 4 * |Batches(s)|
    ensures |Batches(s)| > 0 ==> 4 * (|Batches(s)| - 1) < |s|
    decreases |s|
  {
    if |s| > 4 {
      BatchSpan(s[4..]);
    }
  }

  /** Two sequences of the same length are cut into as many batches. */
  lemma {:induction false} BatchesSameCount<T, U>(s: seq<T>, t: seq<U>)
    requires |s| == |t|
    ensures |Batches(s)| == |Batches(t)|
    decreases |s|
  {
    if |s| > 4 {
      BatchesSameCount(s[4..], t[4..]);
    }
  }

  /** The i-th batch is the slice `s[4 * i:4 * i + 4]` of the comprehension. */
  lemma {:induction false} BatchAt<T>(s: seq<T>, i: nat)
    requires i < |Batches(s)|
    ensures 4 * i < |s|
    ensures Batches(s)[i] == s[4 * i .. if 4 * i + 4 <= |s| then 4 * i + 4 else |s|]
    decreases |s|
  {
    if i > 0 {
      BatchAt(s[4..], i - 1);
      assert Batches(s)[i] == Batches(s[4..])[i - 1];
      var lo := 4 * (i - 1);
      var hi := if lo + 4 <= |s| - 4 then lo + 4 else |s| - 4;
      assert s[4..][lo..hi] == s[4 + lo..4 + hi];
    }
  }

  /** Concatenating the batches gives back the sample. */
  lemma {:induction false} BatchesConcat<T>(s: seq<T>)
    ensures Concat(Batches(s)) == s
    decreases |s|
  {
    if |s| > 4 {
      BatchesConcat(s[4..]);
      assert s[..4] + s[4..] == s;
    } else if |s| > 0 {
      assert Concat([s]) == s + [];
    }
  }

  /** Every batch has one to four sessions, and all but the last have exactly four. */
  lemma {:induction false} BatchSizes<T>(s: seq<T>)
    ensures forall i :: 0 <= i < |Batches(s)| ==> 1 <= |Batches(s)[i]| <= 4
    ensures forall i :: 0 <= i < |Batches(s)| - 1 ==> |Batches(s)[i]| == 4
    decreases |s|
  {
    if |s| > 4 {
      BatchSizes(s[4..]);
      assert forall i :: 1 <= i < |Batches(s)| ==> Batches(s)[i] == Batches(s[4..])[i - 1];
    }
  }

  // ------------------------------------------------------ one batch

  /** What `run` hands back to the harness: the final messages, and the
      `ids_content` entry when the pipeline's result has one. */
  datatype AgentOutput = AgentOutput(messages: seq<Message>, idsContent: Option<Value>)

  /** The batch an agent call belongs to, and whether it is the retry. */
  datatype Attempt = Attempt(batch: nat, retry: bool)

  /** The agent pipeline; the attempt stands for the moment of the call,
      since the same history may fail on a first attempt (the quota) and
      succeed on the retry. */
  type Pipeline = (Attempt, seq<MessageItem>) -> Result<AgentOutput>

  /** The dictionaries of a batch after an attempt, and the exception that
      ended it, if any. */
  datatype Attempted = Attempted(records: seq<Record>, error: Option<Error>)

  function Prepend<T>(xs: seq<T>, r: Result<seq<T>>): Result<seq<T>>
  {
    match r
    case Ok(ys) => Ok(xs + ys)
    case Err(e) => Err(e)
  }

  /** The list of agent calls: each session's "messages", read in batch order. */
  function AgentInputs(batch: seq<Record>): (r: Result<seq<seq<MessageItem>>>)
    ensures r.Ok? ==>
              && |r.value| == |batch|
              && forall i :: 0 <= i < |batch| ==> "messages" in batch[i] && batch[i]["messages"] == Items(r.value[i])
  {
    if |batch| == 0 then Ok([])
    else if "messages" !in batch[0] then Err(KeyError("messages"))
    else if !batch[0]["messages"].Items? then Err(TypeError)
    else
      Prepend([batch[0]["messages"].items], AgentInputs(batch[1..]))
  }

  /** `asyncio.gather` of the calls: all results, in call order, or a
      failure of one of the calls. */
  function Gathered(inputs: seq<seq<MessageItem>>, p: Pipeline, a: Attempt): (r: Result<seq<AgentOutput>>)
    ensures r.Ok? ==> |r.value| == |inputs| && forall i :: 0 <= i < |inputs| ==> p(a, inputs[i]) == Ok(r.value[i])
  {
    if |inputs| == 0 then Ok([])
    else
      match p(a, inputs[0])
      case Err(e) => Err(e)
      case Ok(out) =>
        Prepend([out], Gathered(inputs[1..], p, a))
  }

  /** The annotation of one session: the last message's content and the
      result's `ids_content` become "result", and "messages" is removed. */
  function Annotated(session: Record, out: AgentOutput): (r: Result<Record>)
    ensures |out.messages| == 0 ==> r == Err(IndexError)
    ensures r.Ok? <==> |out.messages| > 0 && out.idsContent.Some?
    ensures r.Ok? ==>
              && r.value.Keys == session.Keys - {"messages"} + {"result"}
              && r.value["result"] == Prediction(out.messages[|out.messages| - 1].content, out.idsContent.value)
              && forall k :: k in session && k != "messages" && k != "result" ==> r.value[k] == session[k]
  {
    if |out.messages| == 0 then Err(IndexError)
    else if out.idsContent.None? then Err(KeyError("ids_content"))
    else
      Ok((session["result" := Prediction(out.messages[|out.messages| - 1].content, out.idsContent.value)]) - {"messages"})
  }

  /** The annotation loop over `zip(batch, results)`: the sessions are
      annotated in order until one raises; those after it keep their state. */
  function AnnotateAll(batch: seq<Record>, outs: seq<AgentOutput>): (r: Attempted)
    ensures |r.records| == |batch|
  {
    if |batch| == 0 || |outs| == 0 then Attempted(batch, None)
    else
      match Annotated(batch[0], outs[0])
      case Err(e) => Attempted(batch, Some(e))
      case Ok(first) =>
        var rest := AnnotateAll(batch[1..], outs[1..]);
        Attempted([first] + rest.records, rest.error)
  }

  /** The annotation loop completes exactly when no session raises, and then
      every session is annotated. */
  lemma {:induction false} AnnotateAllDone(batch: seq<Record>, outs: seq<AgentOutput>)
    requires |outs| == |batch|
    ensures AnnotateAll(batch, outs).error.None? <==> forall i :: 0 <= i < |batch| ==> Annotated(batch[i], outs[i]).Ok?
    ensures AnnotateAll(batch, outs).error.None? ==>
              forall i :: 0 <= i < |batch| ==> Annotated(batch[i], outs[i]) == Ok(AnnotateAll(batch, outs).records[i])
  {
    if |batch| > 0 {
      AnnotateAllDone(batch[1..], outs[1..]);
      if Annotated(batch[0], outs[0]).Ok? {
        var rs := AnnotateAll(batch, outs).records;
        var rest := AnnotateAll(batch[1..], outs[1..]).records;
        assert rs == [Annotated(batch[0], outs[0]).value] + rest;
        forall i | 1 <= i < |batch|
          ensures Annotated(batch[i], outs[i]) == Annotated(batch[1..][i - 1], outs[1..][i - 1])
          ensures rest[i - 1] == rs[i]
        {
          assert batch[1..][i - 1] == batch[i] && outs[1..][i - 1] == outs[i];
        }
      }
    }
  }

  /** When a session raises, those before it are annotated, and it and those
      after it are untouched. */
  lemma {:induction false} AnnotateAllStops(batch: seq<Record>, outs: seq<AgentOutput>, k: nat)
    requires |outs| == |batch| && k < |batch| && Annotated(batch[k], outs[k]).Err?
    requires forall j :: 0 <= j < k ==> Annotated(batch[j], outs[j]).Ok?
    ensures AnnotateAll(batch, outs).error == Some(Annotated(batch[k], outs[k]).error)
    ensures AnnotateAll(batch, outs).records[k..] == batch[k..]
    ensures forall j :: 0 <= j < k ==> Annotated(batch[j], outs[j]) == Ok(AnnotateAll(batch, outs).records[j])
  {
    if k > 0 {
      forall j | 0 <= j < k - 1 ensures Annotated(batch[1..][j], outs[1..][j]).Ok? {
        assert batch[1..][j] == batch[j + 1] && outs[1..][j] == outs[j + 1];
      }
      AnnotateAllStops(batch[1..], outs[1..], k - 1);
      var rs := AnnotateAll(batch, outs).records;
      var rest := AnnotateAll(batch[1..], outs[1..]).records;
      assert rs == [Annotated(batch[0], outs[0]).value] + rest;
      assert rs[k..] == rest[k - 1..];
      assert batch[k..] == batch[1..][k - 1..];
      forall j | 1 <= j < k ensures Annotated(batch[j], outs[j]) == Ok(rs[j]) {
        assert batch[1..][j - 1] == batch[j] && outs[1..][j - 1] == outs[j] && rest[j - 1] == rs[j];
      }
    }
  }

  /** `evaluate_batch`: read every session's messages, run all the calls,
      then annotate the sessions in order. */
  function BatchOutcome(batch: seq<Record>, p: Pipeline, a: Attempt): (r: Attempted)
    ensures |r.records| == |batch|
  {
    match AgentInputs(batch)
    case Err(e) => Attempted(batch, Some(e))
    case Ok(inputs) =>
      match Gathered(inputs, p, a)
      case Err(e) => Attempted(batch, Some(e))
      case Ok(outs) => AnnotateAll(batch, outs)
  }

  /** `evaluate_batch` on the session objects: the calls are built, gathered,
      and their results stored. */
  method EvaluateBatch(batch: seq<Session>, p: Pipeline, a: Attempt) returns (err: Option<Error>)
    requires Distinct(batch)
    modifies batch
    ensures Attempted(Snapshot(batch), err) == BatchOutcome(old(Snapshot(batch)), p, a)
  {
    var inputs := ReadInputs(batch);
    if inputs.Err? {
      return Some(inputs.error);
    }
    var results := Gathered(inputs.value, p, a);
    if results.Err? {
      return Some(results.error);
    }
    err := AnnotateSessions(batch, results.value);
  }

  /** The list comprehension of calls: each session's messages, in batch order. */
  method ReadInputs(batch: seq<Session>) returns (r: Result<seq<seq<MessageItem>>>)
    ensures r == AgentInputs(Snapshot(batch))
  {
    ghost var start := Snapshot(batch);
    var inputs: seq<seq<MessageItem>> := [];
    var i := 0;
    InputsFrom(start);
    while i < |batch|
      invariant 0 <= i <= |batch| && |inputs| == i
      invariant AgentInputs(start) == Prepend(inputs, AgentInputs(start[i..]))
    {
      var entries := batch[i].entries;
      InputsStep(start, i, inputs);
      if "messages" !in entries {
        return Err(KeyError("messages"));
      }
      if !entries["messages"].Items? {
        return Err(TypeError);
      }
      inputs := inputs + [entries["messages"].items];
      i := i + 1;
    }
    InputsDone(start, inputs);
    return Ok(inputs);
  }

  lemma InputsFrom(start: seq<Record>)
    ensures AgentInputs(start) == Prepend([], AgentInputs(start[0..]))
  {
    assert start[0..] == start;
    if AgentInputs(start).Ok? {
      assert [] + AgentInputs(start).value == AgentInputs(start).value;
    }
  }

  /** One round of the comprehension: a session without "messages" or with
      a value that is not a message list raises, any other adds its list. */
  lemma InputsStep(start: seq<Record>, i: nat, inputs: seq<seq<MessageItem>>)
    requires i < |start|
    ensures "messages" !in start[i] ==> Prepend(inputs, AgentInputs(start[i..])) == Err(KeyError("messages"))
    ensures "messages" in start[i] && !start[i]["messages"].Items? ==> Prepend(inputs, AgentInputs(start[i..])) == Err(TypeError)
    ensures "messages" in start[i] && start[i]["messages"].Items? ==>
              Prepend(inputs, AgentInputs(start[i..]))
              == Prepend(inputs + [start[i]["messages"].items], AgentInputs(start[i + 1..]))
  {
    assert start[i..][0] == start[i] && start[i..][1..] == start[i + 1..];
    var rest := AgentInputs(start[i + 1..]);
    if "messages" in start[i] && start[i]["messages"].Items? && rest.Ok? {
      assert (inputs + [start[i]["messages"].items]) + rest.value
             == inputs + ([start[i]["messages"].items] + rest.value);
    }
  }

  lemma InputsDone(start: seq<Record>, inputs: seq<seq<MessageItem>>)
    ensures Prepend(inputs, AgentInputs(start[|start|..])) == Ok(inputs)
  {
    assert start[|start|..] == [];
    assert inputs + [] == inputs;
  }

  /** The loop over `zip(batch, results)`: each session gets its "result" and
      loses "messages", in order, until a result without a last message or
      without `ids_content` raises. The sessions are distinct dictionaries
      that all hold "messages", so removing it never fails. */
  method AnnotateSessions(batch: seq<Session>, outs: seq<AgentOutput>) returns (err: Option<Error>)
    requires Distinct(batch) && |outs| == |batch|
    requires forall j :: 0 <= j < |batch| ==> "messages" in batch[j].entries
    modifies batch
    ensures Attempted(Snapshot(batch), err) == AnnotateAll(old(Snapshot(batch)), outs)
  {
    ghost var start := Snapshot(batch);
    var i := 0;
    while i < |batch|
      invariant i <= |batch| && AnnotateProgress(start, outs, i, Snapshot(batch))
    {
      var out := outs[i];
      if |out.messages| == 0 || out.idsContent.None? {
        AnnotatedPrefix(start, outs, Snapshot(batch), i);
        return Some(if |out.messages| == 0 then IndexError else KeyError("ids_content"));
      }
      var answer := out.messages[|out.messages| - 1].content;
      ghost var now := Snapshot(batch);
      var entries := batch[i].entries;
      var updated := entries["result" := Prediction(answer, out.idsContent.value)] - {"messages"};
      AnnotateAdvance(start, outs, i, now, updated);
      SetEntries(batch, i, updated);
      i := i + 1;
    }
    AnnotatedPrefix(start, outs, Snapshot(batch), |batch|);
    return None;
  }

  /** The annotation loop has annotated the first `i` sessions of `start`
      into `now` and left the others as they were. */
  ghost predicate AnnotateProgress(start: seq<Record>, outs: seq<AgentOutput>, i: nat, now: seq<Record>)
  {
    && i <= |start| && |now| == |start| == |outs|
    && (forall j :: 0 <= j < i ==> Annotated(start[j], outs[j]) == Ok(now[j]))
    && (forall j :: i <= j < |start| ==> now[j] == start[j])
  }

  lemma AnnotateAdvance(start: seq<Record>, outs: seq<AgentOutput>, i: nat, now: seq<Record>, updated: Record)
    requires AnnotateProgress(start, outs, i, now) && i < |start|
    requires |outs[i].messages| > 0 && outs[i].idsContent.Some?
    requires var out := outs[i];
             updated == now[i]["result" := Prediction(out.messages[|out.messages| - 1].content, out.idsContent.value)] - {"messages"}
    ensures AnnotateProgress(start, outs, i + 1, now[i := updated])
  {
  }

  /** The state the annotation loop leaves when it has annotated the first
      `i` sessions and then stops, at a session that raises or at the end. */
  lemma AnnotatedPrefix(start: seq<Record>, outs: seq<AgentOutput>, now: seq<Record>, i: nat)
    requires |outs| == |start| == |now| && i <= |start|
    requires forall j :: 0 <= j < i ==> Annotated(start[j], outs[j]) == Ok(now[j])
    requires forall j :: i <= j < |start| ==> now[j] == start[j]
    requires i < |start| ==> Annotated(start[i], outs[i]).Err?
    ensures AnnotateAll(start, outs)
            == Attempted(now, if i < |start| then Some(Annotated(start[i], outs[i]).error) else None)
  {
    AnnotateAllDone(start, outs);
    if i < |start| {
      AnnotateAllStops(start, outs, i);
      var rs := AnnotateAll(start, outs).records;
      assert forall j :: i <= j < |start| ==> rs[j] == rs[i..][j - i] == start[i..][j - i];
    }
  }

  // ------------------------------------------------------ all batches

  /** A batch with its one retry: the retry runs on the dictionaries as the
      failed attempt left them, and its failure propagates. */
  function Retried(batch: seq<Record>, p: Pipeline, b: nat): (r: Result<seq<Record>>)
    ensures r.Ok? ==> |r.value| == |batch|
  {
    var first := BatchOutcome(batch, p, Attempt(b, false));
    if first.error.None? then Ok(first.records)
    else
      var second := BatchOutcome(first.records, p, Attempt(b, true));
      if second.error.None? then Ok(second.records) else Err(second.error.value)
  }

  /** The batches, one after the other, numbered from `b`; the first batch
      that fails twice ends the run. */
  function PredictBatches(batches: seq<seq<Record>>, p: Pipeline, b: nat): (r: Result<seq<Record>>)
    ensures r.Ok? ==> |r.value| == |Concat(batches)|
  {
    if |batches| == 0 then Ok([])
    else
      match Retried(batches[0], p, b)
      case Err(e) => Err(e)
      case Ok(done) => Prepend(done, PredictBatches(batches[1..], p, b + 1))
  }

  /** `run_prediction` on the parsed dataset file, with the random choice of
      `random.sample` given as `picks`. */
  function PredictionRun(records: seq<Record>, sizeSample: int, picks: seq<nat>, p: Pipeline): Result<seq<Record>>
    requires sizeSample >= 0 ==> IsSampleOf(picks, |records|, SampleSize(sizeSample, |records|))
  {
    var loaded :- LoadAll(records);
    var sampled :- Sample(loaded, SampleSize(sizeSample, |records|), picks);
    PredictBatches(Batches(sampled), p, 0)
  }

  /** The `try`/`except` around one batch: a failure is retried once, and a
      second failure propagates. */
  method RetryBatch(batch: seq<Session>, p: Pipeline, b: nat) returns (err: Option<Error>)
    requires Distinct(batch)
    modifies batch
    ensures Retried(old(Snapshot(batch)), p, b) == if err.None? then Ok(Snapshot(batch)) else Err(err.value)
  {
    err := EvaluateBatch(batch, p, Attempt(b, false));
    if err.Some? {
      err := EvaluateBatch(batch, p, Attempt(b, true));
    }
  }

  /** The sequential loop over the batches of the sample: the `b`-th batch
      is the slice of the sample from `4 * b`, up to four sessions long. */
  method RunBatches(sampled: seq<Session>, p: Pipeline) returns (err: Option<Error>)
    requires Distinct(sampled)
    modifies sampled
    ensures PredictBatches(Batches(old(Snapshot(sampled))), p, 0) == if err.None? then Ok(Snapshot(sampled)) else Err(err.value)
  {
    ghost var start := Snapshot(sampled);
    ghost var done: seq<Record> := [];
    var b := 0;
    err := None;
    ProgressStart(start, p);
    while 4 * b < |sampled|
      invariant err.None? && Progress(start, p, b, done, Snapshot(sampled))
    {
      var hi := if 4 * b + 4 <= |sampled| then 4 * b + 4 else |sampled|;
      ProgressRound(start, p, b, done, Snapshot(sampled));
      ghost var after;
      err, after := RunRound(sampled, 4 * b, hi, p, b, start, done, Batches(start)[b]);
      ProgressStep(start, p, b, done, after, err);
      if err.Some? {
        return;
      }
      done := done + after;
      b := b + 1;
    }
    ProgressEnd(start, p, b, done, Snapshot(sampled));
  }

  /** The state of the batch loop before round `b`, on values: `done` holds
      the annotated records of the first `b` batches, `now` is the sample
      as the sessions hold it, and the run's result is `done` followed by
      the result of the remaining batches. */
  ghost predicate Progress(start: seq<Record>, p: Pipeline, b: nat, done: seq<Record>, now: seq<Record>)
  {
    var chunks := Batches(start);
    && b <= |chunks| && (b < |chunks| <==> 4 * b < |start|)
    && |done| == (if 4 * b <= |start| then 4 * b else |start|)
    && now == done + start[|done|..]
    && PredictBatches(chunks, p, 0) == Prepend(done, PredictBatches(chunks[b..], p, b))
  }

  /** The loop starts with nothing done. */
  lemma ProgressStart(start: seq<Record>, p: Pipeline)
    ensures Progress(start, p, 0, [], start)
  {
    BatchSpan(start);
    PredictFrom(Batches(start), p);
    assert start[0..] == start;
  }

  /** What a round needs: the `b`-th batch is the untouched slice from
      `4 * b`. */
  lemma ProgressRound(start: seq<Record>, p: Pipeline, b: nat, done: seq<Record>, now: seq<Record>)
    requires Progress(start, p, b, done, now) && 4 * b < |start|
    ensures var hi := if 4 * b + 4 <= |start| then 4 * b + 4 else |start|;
            && b < |Batches(start)| && |done| == 4 * b
            && now == done + start[4 * b..]
            && Batches(start)[b] == start[4 * b..hi]
  {
    BatchAt(start, b);
  }

  /** A round that fails ends the run with its error; one that succeeds
      moves the loop on to the next batch. */
  lemma ProgressStep(start: seq<Record>, p: Pipeline, b: nat, done: seq<Record>, after: seq<Record>, err: Option<Error>)
    requires 4 * b < |start| && |done| == 4 * b && Progress(start, p, b, done, done + start[4 * b..])
    requires |after| == (if 4 * b + 4 <= |start| then 4 * b + 4 else |start|) - 4 * b
    requires Retried(Batches(start)[b], p, b) == if err.None? then Ok(after) else Err(err.value)
    ensures err.Some? ==> PredictBatches(Batches(start), p, 0) == Err(err.value)
    ensures err.None? ==>
              var hi := if 4 * b + 4 <= |start| then 4 * b + 4 else |start|;
              Progress(start, p, b + 1, done + after, (done + after) + start[hi..])
  {
    var chunks := Batches(start);
    PredictStep(chunks, p, b, done);
    BatchSpan(start);
  }

  /** When no batch is left the run's result is what was done, and the
      sessions hold it. */
  lemma ProgressEnd(start: seq<Record>, p: Pipeline, b: nat, done: seq<Record>, now: seq<Record>)
    requires Progress(start, p, b, done, now) && 4 * b >= |start|
    ensures PredictBatches(Batches(start), p, 0) == Ok(now)
  {
    PredictDone(Batches(start), p, done, b);
    assert done + start[|done|..] == done;
  }

  /** One round of the batch loop: the sessions before `lo` are annotated
      as `done`, the others hold their dictionaries as they started. */
  method RunRound(sampled: seq<Session>, lo: nat, hi: nat, p: Pipeline, b: nat,
                  ghost start: seq<Record>, ghost done: seq<Record>, ghost chunk: seq<Record>)
    returns (err: Option<Error>, ghost after: seq<Record>)
    requires Distinct(sampled) && |start| == |sampled| && |done| == lo <= hi <= |sampled|
    requires Snapshot(sampled) == done + start[lo..] && chunk == start[lo..hi]
    modifies sampled
    ensures |after| == hi - lo
    ensures Retried(chunk, p, b) == if err.None? then Ok(after) else Err(err.value)
    ensures err.None? ==> Snapshot(sampled) == (done + after) + start[hi..]
  {
    Splice(done, start, lo, hi);
    err, after := RetrySlice(sampled, lo, hi, p, b);
    SpliceIn(done, start, after, lo, hi);
  }

  /** One batch of the loop, the slice `sampled[lo..hi]`, with its retry:
      the slice's dictionaries are replaced by `after`, the others kept. */
  method RetrySlice(sampled: seq<Session>, lo: nat, hi: nat, p: Pipeline, b: nat)
    returns (err: Option<Error>, ghost after: seq<Record>)
    requires Distinct(sampled) && lo <= hi <= |sampled|
    modifies sampled
    ensures |after| == hi - lo
    ensures Retried(old(Snapshot(sampled))[lo..hi], p, b) == if err.None? then Ok(after) else Err(err.value)
    ensures Snapshot(sampled) == old(Snapshot(sampled))[..lo] + after + old(Snapshot(sampled))[hi..]
  {
    var batch := sampled[lo..hi];
    DistinctSlice(sampled, lo, hi);
    SnapshotSlice(sampled, lo, hi);
    ghost var s0 := Snapshot(sampled);
    err := RetryBatch(batch, p, b);
    after := Snapshot(batch);
    forall j | 0 <= j < |sampled| && !(lo <= j < hi)
      ensures sampled[j].entries == s0[j]
    {
      OutsideSlice(sampled, lo, hi, j);
    }
    forall j | lo <= j < hi ensures sampled[j].entries == after[j - lo] {
      assert batch[j - lo] == sampled[j];
    }
    SnapshotSplice(sampled, s0, after, lo, hi);
  }

  lemma DistinctSlice<T>(xs: seq<T>, lo: nat, hi: nat)
    requires Distinct(xs) && lo <= hi <= |xs|
    ensures Distinct(xs[lo..hi])
  {
    var ys := xs[lo..hi];
    forall i, k | 0 <= i < k < |ys| ensures ys[i] != ys[k] {
      assert ys[i] == xs[lo + i] && ys[k] == xs[lo + k];
    }
  }

  lemma SnapshotSlice(sessions: seq<Session>, lo: nat, hi: nat)
    requires lo <= hi <= |sessions|
    ensures Snapshot(sessions[lo..hi]) == Snapshot(sessions)[lo..hi]
  {
  }

  /** The dictionaries after a round: `after` in the slice, `s0` elsewhere. */
  lemma SnapshotSplice(sessions: seq<Session>, s0: seq<Record>, after: seq<Record>, lo: nat, hi: nat)
    requires |s0| == |sessions| && lo <= hi <= |sessions| && |after| == hi - lo
    requires forall j :: 0 <= j < |sessions| && !(lo <= j < hi) ==> sessions[j].entries == s0[j]
    requires forall j :: lo <= j < hi ==> sessions[j].entries == after[j - lo]
    ensures Snapshot(sessions) == s0[..lo] + after + s0[hi..]
  {
    var s1 := s0[..lo] + after + s0[hi..];
    forall j | 0 <= j < |sessions| ensures Snapshot(sessions)[j] == s1[j] {
      if j < lo {
        assert s1[j] == s0[j];
      } else if j < hi {
        assert s1[j] == after[j - lo];
      } else {
        assert s1[j] == s0[j];
      }
    }
  }

  /** The sample at the start of round `b`: `done` annotated, the rest as
      it started; its slice for the round is the untouched chunk. */
  lemma Splice(done: seq<Record>, start: seq<Record>, lo: nat, hi: nat)
    requires |done| == lo <= hi <= |start|
    ensures (done + start[lo..])[lo..hi] == start[lo..hi]
  {
  }

  /** Replacing the round's slice by its annotated records extends `done`. */
  lemma SpliceIn(done: seq<Record>, start: seq<Record>, after: seq<Record>, lo: nat, hi: nat)
    requires |done| == lo <= hi <= |start| && |after| == hi - lo
    ensures (done + start[lo..])[..lo] + after + (done + start[lo..])[hi..] == (done + after) + start[hi..]
  {
    var now := done + start[lo..];
    assert now[..lo] == done;
    assert now[hi..] == start[hi..];
  }

  /** A session of the sample outside a slice is not one of the slice's
      objects. */
  lemma OutsideSlice(sampled: seq<Session>, lo: nat, hi: nat, j: nat)
    requires Distinct(sampled) && lo <= hi <= |sampled| && j < |sampled| && !(lo <= j < hi)
    ensures sampled[j] !in sampled[lo..hi]
  {
    forall k | lo <= k < hi ensures sampled[k] != sampled[j] {
    }
  }

  /** The batch loop starts with nothing done. */
  lemma PredictFrom(chunks: seq<seq<Record>>, p: Pipeline)
    ensures PredictBatches(chunks, p, 0) == Prepend([], PredictBatches(chunks[0..], p, 0))
  {
    assert chunks[0..] == chunks;
    if PredictBatches(chunks, p, 0).Ok? {
      assert [] + PredictBatches(chunks, p, 0).value == PredictBatches(chunks, p, 0).value;
    }
  }

  /** Once every batch is done, the run's result is what was done. */
  lemma PredictDone(chunks: seq<seq<Record>>, p: Pipeline, done: seq<Record>, b: nat)
    requires b == |chunks|
    ensures Prepend(done, PredictBatches(chunks[b..], p, b)) == Ok(done)
  {
    assert chunks[b..] == [];
    assert done + [] == done;
  }

  /** One round of the batch loop on the specification side. */
  lemma PredictStep(chunks: seq<seq<Record>>, p: Pipeline, b: nat, done: seq<Record>)
    requires b < |chunks|
    ensures Retried(chunks[b], p, b).Err? ==>
              Prepend(done, PredictBatches(chunks[b..], p, b)) == Err(Retried(chunks[b], p, b).error)
    ensures Retried(chunks[b], p, b).Ok? ==>
              Prepend(done, PredictBatches(chunks[b..], p, b))
              == Prepend(done + Retried(chunks[b], p, b).value, PredictBatches(chunks[b + 1..], p, b + 1))
  {
    assert chunks[b..][0] == chunks[b] && chunks[b..][1..] == chunks[b + 1..];
    var rest := PredictBatches(chunks[b + 1..], p, b + 1);
    if Retried(chunks[b], p, b).Ok? && rest.Ok? {
      var after := Retried(chunks[b], p, b).value;
      assert (done + after) + rest.value == done + (after + rest.value);
    }
  }

  /** Python builds fresh session dictionaries from the file. */
  method NewSessions(records: seq<Record>) returns (sessions: seq<Session>)
    ensures Distinct(sessions) && Snapshot(sessions) == records
    ensures forall j :: 0 <= j < |sessions| ==> fresh(sessions[j])
  {
    sessions := [];
    var i := 0;
    while i < |records|
      invariant 0 <= i <= |records| && |sessions| == i
      invariant Distinct(sessions)
      invariant forall j :: 0 <= j < i ==> fresh(sessions[j]) && sessions[j].entries == records[j]
    {
      var session := new Session(records[i]);
      sessions := sessions + [session];
      i := i + 1;
    }
  }

  /** `run_prediction`: load, clamp, sample, batch, and return the sample. */
  method RunPrediction(records: seq<Record>, sizeSample: int, picks: seq<nat>, p: Pipeline) returns (r: Result<seq<Session>>)
    requires sizeSample >= 0 ==> IsSampleOf(picks, |records|, SampleSize(sizeSample, |records|))
    ensures r.Err? ==> PredictionRun(records, sizeSample, picks, p) == Err(r.error)
    ensures r.Ok? ==> PredictionRun(records, sizeSample, picks, p) == Ok(Snapshot(r.value))
  {
    var dataset := NewSessions(records);
    var loadError;
    ghost var stopped;
    loadError, stopped := LoadData(dataset);
    if loadError.Some? {
      return Err(loadError.value);
    }
    ghost var loaded := Snapshot(dataset);
    var k := SampleSize(sizeSample, |dataset|);
    if k < 0 {
      return Err(ValueError("Sample larger than population or is negative"));
    }
    var sampled := Sample(dataset, k, picks).value;
    SampleWithoutReplacement(dataset, k, picks);
    assert Snapshot(sampled) == Sample(loaded, k, picks).value;
    var err := RunBatches(sampled, p);
    if err.Some? {
      return Err(err.value);
    }
    return Ok(sampled);
  }

  // ------------------------------------------------------ what a run yields

  /** The session `rec` is the annotation of `session` with the answer the
      pipeline gave, on attempt `a`, to the session's messages. */
  ghost predicate AnsweredBy(p: Pipeline, a: Attempt, session: Record, rec: Record)
  {
    && "messages" in session && session["messages"].Items?
    && p(a, session["messages"].items).Ok?
    && Annotated(session, p(a, session["messages"].items).value) == Ok(rec)
  }

  /** `rec` is the annotation of `session` by some attempt of the pipeline. */
  ghost predicate AnnotationOf(p: Pipeline, session: Record, rec: Record)
  {
    exists a: Attempt :: AnsweredBy(p, a, session, rec)
  }

  /** An attempt that raises nothing annotates every session of its batch
      with the pipeline's answer to that session's messages. */
  lemma BatchAnswered(batch: seq<Record>, p: Pipeline, a: Attempt)
    requires BatchOutcome(batch, p, a).error.None?
    ensures forall i :: 0 <= i < |batch| ==> AnsweredBy(p, a, batch[i], BatchOutcome(batch, p, a).records[i])
  {
    var inputs := AgentInputs(batch).value;
    var outs := Gathered(inputs, p, a).value;
    AnnotateAllDone(batch, outs);
  }

  /** An attempt that raised either left the batch as it found it, or the
      annotation loop had already annotated the first session, which then has
      no "messages": the retry cannot read its inputs and the batch fails with
      `KeyError('messages')`. */
  lemma RetryAfterPartialAnnotation(batch: seq<Record>, p: Pipeline, b: nat)
    requires BatchOutcome(batch, p, Attempt(b, false)).error.Some?
    ensures var first := BatchOutcome(batch, p, Attempt(b, false));
            first.records != batch ==>
              && AgentInputs(first.records) == Err(KeyError("messages"))
              && Retried(batch, p, b) == Err(KeyError("messages"))
  {
    var first := BatchOutcome(batch, p, Attempt(b, false));
    if AgentInputs(batch).Ok? && Gathered(AgentInputs(batch).value, p, Attempt(b, false)).Ok? {
      var outs := Gathered(AgentInputs(batch).value, p, Attempt(b, false)).value;
      if |batch| > 0 && Annotated(batch[0], outs[0]).Ok? {
        assert first.records[0] == Annotated(batch[0], outs[0]).value;
        assert "messages" !in first.records[0];
      }
    }
  }

  /** A batch that succeeds, on its first attempt or on the retry, holds the
      annotations of one attempt. */
  lemma RetriedAnnotates(batch: seq<Record>, p: Pipeline, b: nat)
    requires Retried(batch, p, b).Ok?
    ensures var a := if BatchOutcome(batch, p, Attempt(b, false)).error.None? then Attempt(b, false) else Attempt(b, true);
            forall i :: 0 <= i < |batch| ==> AnsweredBy(p, a, batch[i], Retried(batch, p, b).value[i])
  {
    if BatchOutcome(batch, p, Attempt(b, false)).error.None? {
      BatchAnswered(batch, p, Attempt(b, false));
    } else {
      RetryAfterPartialAnnotation(batch, p, b);
      BatchAnswered(batch, p, Attempt(b, true));
    }
  }

  /** `out` holds, position by position, annotations of the sessions of `src`. */
  ghost predicate AnnotatesAll(p: Pipeline, src: seq<Record>, out: seq<Record>)
  {
    |out| == |src| && forall i :: 0 <= i < |src| ==> AnnotationOf(p, src[i], out[i])
  }

  lemma AnnotatesConcat(p: Pipeline, src1: seq<Record>, out1: seq<Record>, src2: seq<Record>, out2: seq<Record>)
    requires AnnotatesAll(p, src1, out1) && AnnotatesAll(p, src2, out2)
    ensures AnnotatesAll(p, src1 + src2, out1 + out2)
  {
    forall i | 0 <= i < |src1| + |src2| ensures AnnotationOf(p, (src1 + src2)[i], (out1 + out2)[i]) {
      if i >= |src1| {
        assert (src1 + src2)[i] == src2[i - |src1|] && (out1 + out2)[i] == out2[i - |src1|];
      }
    }
  }

  /** A batch that succeeds holds annotations of its sessions. */
  lemma RetriedAnnotatesAll(batch: seq<Record>, p: Pipeline, b: nat)
    requires Retried(batch, p, b).Ok?
    ensures AnnotatesAll(p, batch, Retried(batch, p, b).value)
  {
    RetriedAnnotates(batch, p, b);
    var a := if BatchOutcome(batch, p, Attempt(b, false)).error.None? then Attempt(b, false) else Attempt(b, true);
    forall i | 0 <= i < |batch| ensures AnnotationOf(p, batch[i], Retried(batch, p, b).value[i]) {
      assert AnsweredBy(p, a, batch[i], Retried(batch, p, b).value[i]);
    }
  }

  /** The first batch of a run, on the specification side. */
  lemma PredictHead(chunks: seq<seq<Record>>, p: Pipeline, b: nat)
    requires |chunks| > 0
    ensures Retried(chunks[0], p, b).Err? ==> PredictBatches(chunks, p, b) == Err(Retried(chunks[0], p, b).error)
    ensures Retried(chunks[0], p, b).Ok? ==>
              PredictBatches(chunks, p, b) == Prepend(Retried(chunks[0], p, b).value, PredictBatches(chunks[1..], p, b + 1))
  {
  }

  /** A run over all the batches that succeeds annotates every session of
      their concatenation, in order. */
  lemma {:induction false} PredictAnnotates(chunks: seq<seq<Record>>, p: Pipeline, b: nat)
    requires PredictBatches(chunks, p, b).Ok?
    ensures AnnotatesAll(p, Concat(chunks), PredictBatches(chunks, p, b).value)
  {
    if |chunks| > 0 {
      PredictHead(chunks, p, b);
      RetriedAnnotatesAll(chunks[0], p, b);
      PredictAnnotates(chunks[1..], p, b + 1);
      AnnotatesConcat(p, chunks[0], Retried(chunks[0], p, b).value,
                      Concat(chunks[1..]), PredictBatches(chunks[1..], p, b + 1).value);
    }
  }

  /** `run_prediction` returns the loaded sample with every session annotated
      by the pipeline's answer to its own messages. */
  lemma PredictionAnnotatesSample(records: seq<Record>, sizeSample: int, picks: seq<nat>, p: Pipeline)
    requires sizeSample >= 0 ==> IsSampleOf(picks, |records|, SampleSize(sizeSample, |records|))
    requires PredictionRun(records, sizeSample, picks, p).Ok?
    ensures LoadAll(records).Ok?
    ensures Sample(LoadAll(records).value, SampleSize(sizeSample, |records|), picks).Ok?
    ensures var sampled := Sample(LoadAll(records).value, SampleSize(sizeSample, |records|), picks).value;
            var out := PredictionRun(records, sizeSample, picks, p).value;
            AnnotatesAll(p, sampled, out)
  {
    var sampled := Sample(LoadAll(records).value, SampleSize(sizeSample, |records|), picks).value;
    BatchesConcat(sampled);
    PredictAnnotates(Batches(sampled), p, 0);
  }

  /** An annotated session has a "result" and no "messages", and keeps every
      other entry it had. */
  lemma AnnotationShape(p: Pipeline, session: Record, rec: Record)
    requires AnnotationOf(p, session, rec)
    ensures "messages" !in rec && "result" in rec && rec["result"].Prediction?
    ensures rec.Keys == session.Keys - {"messages"} + {"result"}
    ensures forall k :: k in session && k != "messages" && k != "result" ==> rec[k] == session[k]
  {
    var a :| AnsweredBy(p, a, session, rec);
  }

  /** The batches run in order and the first one that fails twice ends the
      run with its error: when the batches before the `k`-th succeed and the
      `k`-th fails, the run fails with its error, whatever the later
      batches would do. */
  lemma PredictBatchesStops(chunks: seq<seq<Record>>, p: Pipeline, b: nat, k: nat)
    requires k < |chunks| && PredictBatches(chunks[..k], p, b).Ok? && Retried(chunks[k], p, b + k).Err?
    ensures PredictBatches(chunks, p, b) == Err(Retried(chunks[k], p, b + k).error)
  {
    StopsAt(chunks, p, b, k, chunks[k], b + k, Retried(chunks[k], p, b + k).error);
  }

  /** The induction behind `PredictBatchesStops`, with the failing batch, its
      number and its error held fixed. */
  lemma {:induction false} StopsAt(chunks: seq<seq<Record>>, p: Pipeline, b: nat, k: nat, bad: seq<Record>, n: nat, e: Error)
    requires k < |chunks| && chunks[k] == bad && n == b + k
    requires PredictBatches(chunks[..k], p, b).Ok? && Retried(bad, p, n) == Err(e)
    ensures PredictBatches(chunks, p, b) == Err(e)
  {
    PredictHead(chunks, p, b);
    if k > 0 {
      var front := chunks[..k];
      PredictHead(front, p, b);
      assert front[0] == chunks[0];
      assert front[1..] == chunks[1..][..k - 1];
      StopsAt(chunks[1..], p, b + 1, k - 1, bad, n, e);
    }
  }

  /** `evaluate_prediction` is a stub: it returns None whatever the sample. */
  function EvaluatePrediction(sampled: seq<Record>): (r: Value)
    ensures r == VNull
  {
    VNull
  }

  // ------------------------------------------------------ the RAG agent

  /** `METADATA`, passed with every call. */
  const EvalMetadata: Metadata := map["user_id" := "1", "conversation_id" := "1"]

  /** The RAG agent as the harness calls it: `run(session["messages"],
      METADATA)` under the oracles of the attempt.  Its result is the final
      graph state, which has no "ids_content" entry. */
  function RagPipeline(envs: Attempt -> Env): (r: Pipeline)
    ensures forall a, items :: r(a, items).Ok? ==> r(a, items).value.idsContent.None?
  {
    (a: Attempt, items: seq<MessageItem>) =>
      match GraphResult(LastN(items, HistoryWindow), EvalMetadata, envs(a))
      case Ok(run) => Ok(AgentOutput(run.final.messages, None))
      case Err(e) => Err(e)
  }

  /** With a pipeline that never reports `ids_content`, no attempt on a
      non-empty batch succeeds, and a failed attempt touches nothing. */
  lemma NoIdsBatchFails(batch: seq<Record>, p: Pipeline, a: Attempt)
    requires forall a', items :: p(a', items).Ok? ==> p(a', items).value.idsContent.None?
    requires |batch| > 0
    ensures BatchOutcome(batch, p, a).error.Some? && BatchOutcome(batch, p, a).records == batch
  {
  }

  /** So such a pipeline fails every prediction run over a non-empty sample. */
  lemma NoIdsNoPrediction(sampled: seq<Record>, p: Pipeline)
    requires forall a, items :: p(a, items).Ok? ==> p(a, items).value.idsContent.None?
    requires |sampled| > 0
    ensures PredictBatches(Batches(sampled), p, 0).Err?
  {
    BatchSizes(sampled);
    var first := Batches(sampled)[0];
    NoIdsBatchFails(first, p, Attempt(0, false));
    NoIdsBatchFails(first, p, Attempt(0, true));
  }

  /** When the agent answers every session of a batch, the annotation of the
      first session raises `KeyError('ids_content')` and the batch is left as
      it was. */
  lemma RagBatchError(batch: seq<Record>, envs: Attempt -> Env, a: Attempt)
    requires |batch| > 0 && AgentInputs(batch).Ok?
    requires Gathered(AgentInputs(batch).value, RagPipeline(envs), a).Ok?
    ensures BatchOutcome(batch, RagPipeline(envs), a) == Attempted(batch, Some(KeyError("ids_content")))
  {
    var inputs := AgentInputs(batch).value;
    var outs := Gathered(inputs, RagPipeline(envs), a).value;
    RunOutcome(inputs[0], EvalMetadata, envs(a));
    assert |outs[0].messages| > 0;
  }

  /** The RAG agent's prediction runs succeed only on an empty sample. */
  lemma RagPredictionFails(records: seq<Record>, sizeSample: int, picks: seq<nat>, envs: Attempt -> Env)
    requires sizeSample >= 0 ==> IsSampleOf(picks, |records|, SampleSize(sizeSample, |records|))
    ensures PredictionRun(records, sizeSample, picks, RagPipeline(envs)).Ok? ==>
              PredictionRun(records, sizeSample, picks, RagPipeline(envs)).value == [] && SampleSize(sizeSample, |records|) == 0
  {
    if PredictionRun(records, sizeSample, picks, RagPipeline(envs)).Ok? {
      var sampled := Sample(LoadAll(records).value, SampleSize(sizeSample, |records|), picks).value;
      if |sampled| > 0 {
        NoIdsNoPrediction(sampled, RagPipeline(envs));
      }
    }
  }
}
