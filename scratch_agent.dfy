/** The hand-written ReAct loop of scripts/agent_from_scratch.py: an agent
    object keeping the chat log it sends to the model, the parsing of
    `Action: name: input` lines out of a reply, the two known actions, and
    the `query` loop that feeds each observation back as the next prompt
    for at most `max_turns` model calls. */
module ScratchAgent {
  import opened Common
  import opened Conversation

  /** One `{"role": ..., "content": ...}` entry of the chat log. */
  datatype ChatMessage = ChatMessage(role: Role, content: string)

  /** The chat completion endpoint at temperature 0: the reply to a whole
      log, or the failure of the call. */
  type ChatModel = seq<ChatMessage> -> Result<string>

  /** The foreign parts of the loop: the model, and the string form of
      `eval(what)` (or the exception it raises) behind `calculate`. */
  datatype Oracles = Oracles(model: ChatModel, calculate: string -> Result<string>)

  /** The log a new agent starts with: its system message, when it has one. */
  function Opening(system: string): (r: seq<ChatMessage>)
    ensures |r| <= 1
    ensures |r| == 1 <==> system != ""
    ensures |r| == 1 ==> r[0] == ChatMessage(System, system)
  {
    if system != "" then [ChatMessage(System, system)] else []
  }

  /** `Agent`: the system text and the growing chat log. */
  class Agent {
    const system: string
    var messages: seq<ChatMessage>

    constructor (system: string)
      ensures this.system == system && messages == Opening(system)
    {
      this.system := system;
      messages := [];
      if system != "" {
        messages := messages + [ChatMessage(System, system)];
      }
    }

    /** `execute`: the model's reply to the log as it stands. */
    method Execute(model: ChatModel) returns (r: Result<string>)
      ensures r == model(messages)
    {
      r := model(messages);
    }

    /** `__call__`: the message is logged as the user's, the model answers the
        whole log, and the answer is logged as the assistant's.  When the
        call fails the user message stays logged. */
    method Call(message: string, model: ChatModel) returns (r: Result<string>)
      modifies this
      ensures r == model(old(messages) + [ChatMessage(User, message)])
      ensures messages == if r.Ok? then old(messages) + [ChatMessage(User, message), ChatMessage(Assistant, r.value)]
                          else old(messages) + [ChatMessage(User, message)]
    {
      messages := messages + [ChatMessage(User, message)];
      r := Execute(model);
      if r.Ok? {
        messages := messages + [ChatMessage(Assistant, r.value)];
      }
    }
  }

  // ------------------------------------------------------------ splitting

  /** `s.split('\n')`. */
  function SplitLines(s: string): (r: seq<string>)
    ensures |r| >= 1
    ensures forall i :: 0 <= i < |r| ==> '\n' !in r[i]
  {
    if |s| == 0 then [""]
    else
      var rest := SplitLines(s[1..]);
      if s[0] == '\n' then [""] + rest
      else [[s[0]] + rest[0]] + rest[1..]
  }

  lemma JoinConsHead(c: char, parts: seq<string>, sep: string)
    requires |parts| > 0
    ensures Join([[c] + parts[0]] + parts[1..], sep) == [c] + Join(parts, sep)
  {
    var q := [[c] + parts[0]] + parts[1..];
    assert q[1..] == parts[1..];
  }

  /** Joining the pieces with newlines gives the reply back. */
  lemma {:induction false} SplitJoin(s: string)
    ensures Join(SplitLines(s), "\n") == s
  {
    if |s| > 0 {
      var rest := SplitLines(s[1..]);
      SplitJoin(s[1..]);
      if s[0] == '\n' {
        assert ([""] + rest)[1..] == rest;
        assert s == "\n" + s[1..];
      } else {
        JoinConsHead(s[0], rest, "\n");
        assert s == [s[0]] + s[1..];
      }
    }
  }

  /** A piece without a newline splits into itself. */
  lemma {:induction false} SplitSingle(a: string)
    requires '\n' !in a
    ensures SplitLines(a) == [a]
  {
    if |a| > 0 {
      SplitSingle(a[1..]);
      assert [a[0]] + a[1..] == a;
    }
  }

  /** A newline ends the first piece. */
  lemma {:induction false} SplitAtNewline(a: string, b: string)
    requires '\n' !in a
    ensures SplitLines(a + "\n" + b) == [a] + SplitLines(b)
  {
    if |a| == 0 {
      assert a + "\n" + b == "\n" + b;
      assert ("\n" + b)[1..] == b;
    } else {
      var s := a + "\n" + b;
      assert s[0] == a[0] && s[1..] == a[1..] + "\n" + b;
      SplitAtNewline(a[1..], b);
      assert [a[0]] + a[1..] == a;
    }
  }

  /** Splitting newline-free pieces joined by newlines gives them back. */
  lemma {:induction false} JoinSplit(pieces: seq<string>)
    requires |pieces| >= 1 && forall i :: 0 <= i < |pieces| ==> '\n' !in pieces[i]
    ensures SplitLines(Join(pieces, "\n")) == pieces
  {
    if |pieces| == 1 {
      SplitSingle(pieces[0]);
    } else {
      JoinSplit(pieces[1..]);
      SplitAtNewline(pieces[0], Join(pieces[1..], "\n"));
      assert [pieces[0]] + pieces[1..] == pieces;
    }
  }

  // ------------------------------------------------------------ action lines

  /** `\w`, on ASCII. */
  predicate WordChar(c: char)
  {
    ('a' <= c <= 'z') || ('A' <= c <= 'Z') || ('0' <= c <= '9') || c == '_'
  }

  predicate IsWord(s: string)
  {
    |s| > 0 && forall i :: 0 <= i < |s| ==> WordChar(s[i])
  }

  /** The length of the longest run of word characters `s` starts with. */
  function WordPrefix(s: string): (n: nat)
    ensures n <= |s|
    ensures forall i :: 0 <= i < n ==> WordChar(s[i])
    ensures n < |s| ==> !WordChar(s[n])
  {
    if |s| == 0 || !WordChar(s[0]) then 0 else 1 + WordPrefix(s[1..])
  }

  datatype Action = Action(name: string, input: string)

  const ActionPrefix: string := "Action: "
  const ArgumentSeparator: string := ": "

  /** `action_re.match(line)` for `^Action: (\w+): (.*)$`: the name is the
      run of word characters after the prefix (it cannot be cut short, since
      ':' is not a word character), and the input is the rest of the line;
      `.` stops at a newline and `$` also matches before a final one. */
  function ParseActionLine(line: string): (r: Option<Action>)
    ensures r.Some? ==> IsWord(r.value.name) && '\n' !in r.value.input
    ensures r.Some? ==> StartsWith(line, ActionPrefix + r.value.name + ArgumentSeparator)
  {
    if !StartsWith(line, ActionPrefix) then None
    else
      var rest := line[|ActionPrefix|..];
      var n := WordPrefix(rest);
      if n == 0 || !StartsWith(rest[n..], ArgumentSeparator) then None
      else
        var input := rest[n + |ArgumentSeparator|..];
        if '\n' !in input then Some(Action(rest[..n], input))
        else if input[|input| - 1] == '\n' && '\n' !in input[..|input| - 1] then Some(Action(rest[..n], input[..|input| - 1]))
        else None
  }

  /** An action line is parsed back into its name and input. */
  lemma ParseActionRoundTrip(name: string, input: string)
    requires IsWord(name) && '\n' !in input
    ensures ParseActionLine(ActionPrefix + name + ArgumentSeparator + input) == Some(Action(name, input))
  {
    var line := ActionPrefix + name + ArgumentSeparator + input;
    assert line[..|ActionPrefix|] == ActionPrefix;
    var rest := line[|ActionPrefix|..];
    var tail := ArgumentSeparator + input;
    assert rest == name + tail;
    WordPrefixOf(name, tail);
    assert WordPrefix(rest) == |name|;
    assert rest[..|name|] == name;
    assert rest[|name|..] == tail;
    assert StartsWith(rest[|name|..], ArgumentSeparator) by {
      assert tail[..|ArgumentSeparator|] == ArgumentSeparator;
    }
    assert rest[|name| + |ArgumentSeparator|..] == input;
  }

  lemma {:induction false} WordPrefixOf(name: string, tail: string)
    requires forall i :: 0 <= i < |name| ==> WordChar(name[i])
    requires |tail| > 0 && tail[0] == ':'
    ensures WordPrefix(name + tail) == |name|
  {
    if |name| > 0 {
      assert (name + tail)[1..] == name[1..] + tail;
      WordPrefixOf(name[1..], tail);
    }
  }

  /** Conversely, a newline-free line that parses is exactly such a line. */
  lemma ParseActionShape(line: string)
    requires '\n' !in line && ParseActionLine(line).Some?
    ensures var a := ParseActionLine(line).value;
            IsWord(a.name) && '\n' !in a.input && line == ActionPrefix + a.name + ArgumentSeparator + a.input
  {
    var rest := line[|ActionPrefix|..];
    var n := WordPrefix(rest);
    assert line == ActionPrefix + rest;
    assert rest == rest[..n] + ArgumentSeparator + rest[n + |ArgumentSeparator|..];
  }

  /** `actions[0]` of the comprehension: the first line that parses. */
  function FirstAction(lines: seq<string>): Option<Action>
  {
    if |lines| == 0 then None
    else if ParseActionLine(lines[0]).Some? then ParseActionLine(lines[0])
    else FirstAction(lines[1..])
  }

  /** There is an action exactly when some line parses, and it is that of
      the first such line. */
  lemma {:induction false} FirstActionSpec(lines: seq<string>)
    ensures FirstAction(lines).Some? <==> exists k :: 0 <= k < |lines| && ParseActionLine(lines[k]).Some?
    ensures FirstAction(lines).Some? ==>
              exists k :: 0 <= k < |lines| && ParseActionLine(lines[k]) == FirstAction(lines)
                          && forall j :: 0 <= j < k ==> ParseActionLine(lines[j]).None?
  {
    if |lines| > 0 && ParseActionLine(lines[0]).None? {
      FirstActionSpec(lines[1..]);
      assert forall j :: 1 <= j < |lines| ==> lines[1..][j - 1] == lines[j];
      if FirstAction(lines).Some? {
        var k :| 0 <= k < |lines| - 1 && ParseActionLine(lines[1..][k]) == FirstAction(lines)
                 && forall j :: 0 <= j < k ==> ParseActionLine(lines[1..][j]).None?;
        assert ParseActionLine(lines[k + 1]) == FirstAction(lines);
      }
    }
  }

  /** A reply's action is the first action line, wherever it is. */
  lemma FirstActionLine(before: seq<string>, name: string, input: string, after: seq<string>)
    requires forall j :: 0 <= j < |before| ==> ParseActionLine(before[j]).None?
    requires IsWord(name) && '\n' !in input
    ensures FirstAction(before + [ActionPrefix + name + ArgumentSeparator + input] + after) == Some(Action(name, input))
  {
    var lines := before + [ActionPrefix + name + ArgumentSeparator + input] + after;
    ParseActionRoundTrip(name, input);
    FirstActionSpec(lines);
    var k :| 0 <= k < |lines| && ParseActionLine(lines[k]) == FirstAction(lines)
             && forall j :: 0 <= j < k ==> ParseActionLine(lines[j]).None?;
    assert lines[|before|] == ActionPrefix + name + ArgumentSeparator + input;
  }

  // ------------------------------------------------------------ actions

  const ScottishAnswer: string := "Scottish Terriers average 20 lbs"
  const CollieAnswer: string := "a Border Collies average weight is 37 lbs"
  const PoodleAnswer: string := "a toy poodles average weight is 7 lbs"
  const DefaultAnswer: string := "An average dog weights 50 lbs"

  /** `average_dog_weight`: the first breed name the input is a substring
      of decides the answer. */
  function AverageDogWeight(name: string): string
  {
    if IsSubstring(name, "Scottish Terrier") then ScottishAnswer
    else if IsSubstring(name, "Border Collie") then CollieAnswer
    else if IsSubstring(name, "Toy Poodle") then PoodleAnswer
    else DefaultAnswer
  }

  /** Each answer, for every input: the first breed name the input is
      contained in picks it, and an input contained in none gets the
      default. */
  lemma DogWeightAnswers(name: string)
    ensures AverageDogWeight(name) == ScottishAnswer <==> IsSubstring(name, "Scottish Terrier")
    ensures AverageDogWeight(name) == CollieAnswer
            <==> !IsSubstring(name, "Scottish Terrier") && IsSubstring(name, "Border Collie")
    ensures AverageDogWeight(name) == PoodleAnswer
            <==> !IsSubstring(name, "Scottish Terrier") && !IsSubstring(name, "Border Collie") && IsSubstring(name, "Toy Poodle")
    ensures AverageDogWeight(name) == DefaultAnswer
            <==> !IsSubstring(name, "Scottish Terrier") && !IsSubstring(name, "Border Collie") && !IsSubstring(name, "Toy Poodle")
  {
    AnswersDistinct();
  }

  /** The four answers are different texts. */
  lemma AnswersDistinct()
    ensures ScottishAnswer != CollieAnswer && ScottishAnswer != PoodleAnswer && ScottishAnswer != DefaultAnswer
    ensures CollieAnswer != PoodleAnswer && CollieAnswer != DefaultAnswer && PoodleAnswer != DefaultAnswer
  {
    assert ScottishAnswer[0] == 'S' && CollieAnswer[0] == 'a' && PoodleAnswer[0] == 'a' && DefaultAnswer[0] == 'A';
    assert CollieAnswer[2] == 'B' && PoodleAnswer[2] == 't';
  }

  /** A needle with a character the haystack lacks is not a substring of it. */
  lemma MissingChar(needle: string, haystack: string, k: nat)
    requires k < |needle| && needle[k] !in haystack
    ensures !IsSubstring(needle, haystack)
  {
    if IsSubstring(needle, haystack) {
      var i := SubstringPosition(needle, haystack);
    }
  }

  /** The empty name is a substring of every breed, so it gets the first answer. */
  lemma EmptyNameIsScottish()
    ensures AverageDogWeight("") == ScottishAnswer
  {
    assert StartsWith("Scottish Terrier", "");
  }

  /** The prompt's own example, "Collie", gets the Border Collie answer. */
  lemma CollieIsBorderCollie(name: string)
    requires name == "Collie"
    ensures AverageDogWeight(name) == CollieAnswer
  {
    MissingChar(name, "Scottish Terrier", 0);
    SubstringAt(name, "Border Collie", 7);
  }

  /** "Poodle" gets the Toy Poodle answer. */
  lemma PoodleIsToyPoodle(name: string)
    requires name == "Poodle"
    ensures AverageDogWeight(name) == PoodleAnswer
  {
    MissingChar(name, "Scottish Terrier", 0);
    MissingChar(name, "Border Collie", 0);
    SubstringAt(name, "Toy Poodle", 4);
  }

  /** The test is case-sensitive: "border collie", as the question writes
      it, gets the default answer. */
  lemma LowerCaseBreedIsDefault(name: string)
    requires name == "border collie"
    ensures AverageDogWeight(name) == DefaultAnswer
  {
    MissingChar(name, "Scottish Terrier", 0);
    MissingChar(name, "Border Collie", 0);
    MissingChar(name, "Toy Poodle", 0);
  }

  /** The breeds are tried in order: "ie" occurs in "Border Collie" as
      well, but "Scottish Terrier" comes first. */
  lemma FirstBreedWins()
    ensures IsSubstring("ie", "Border Collie")
    ensures AverageDogWeight("ie") == ScottishAnswer
  {
    assert "Border Collie"[11..13] == "ie";
    SubstringAt("ie", "Border Collie", 11);
    assert "Scottish Terrier"[13..15] == "ie";
    SubstringAt("ie", "Scottish Terrier", 13);
  }

  /** `known_actions`. */
  const KnownActions: set<string> := {"calculate", "average_dog_weight"}

  /** Running an action: an unknown name raises, naming the action and its
      input; the known ones run on the input. */
  function Observe(a: Action, calculate: string -> Result<string>): (r: Result<string>)
    ensures a.name !in KnownActions ==> r == Err(Raised("Unknown action: " + a.name + ": " + a.input))
    ensures a.name == "average_dog_weight" ==> r == Ok(AverageDogWeight(a.input))
    ensures a.name == "calculate" ==> r == calculate(a.input)
  {
    if a.name !in KnownActions then Err(Raised("Unknown action: " + a.name + ": " + a.input))
    else if a.name == "calculate" then calculate(a.input)
    else Ok(AverageDogWeight(a.input))
  }

  /** `"Observation: {}".format(observation)`. */
  function ObservationPrompt(observation: string): string
  {
    "Observation: " + observation
  }

  // ------------------------------------------------------------ the loop

  /** How the loop ended: the agent's log, and the exception, if any. */
  datatype Stopped = Stopped(log: seq<ChatMessage>, error: Option<Error>)

  /** The loop from a log and a prompt, with `left` model calls left. */
  function Turns(log: seq<ChatMessage>, prompt: string, left: nat, o: Oracles): Stopped
    decreases left
  {
    if left == 0 then Stopped(log, None)
    else
      var asked := log + [ChatMessage(User, prompt)];
      match o.model(asked)
      case Err(e) => Stopped(asked, Some(e))
      case Ok(reply) =>
        var answered := asked + [ChatMessage(Assistant, reply)];
        match FirstAction(SplitLines(reply))
        case None => Stopped(answered, None)
        case Some(a) =>
          match Observe(a, o.calculate)
          case Err(e) => Stopped(answered, Some(e))
          case Ok(observation) => Turns(answered, ObservationPrompt(observation), left - 1, o)
  }

  /** The number of turns `while i < max_turns` allows. */
  function TurnLimit(maxTurns: int): nat
  {
    if maxTurns > 0 then maxTurns else 0
  }

  /** `query(question, max_turns)` with the agent built on `system`. */
  function QueryOutcome(question: string, maxTurns: int, system: string, o: Oracles): Stopped
  {
    Turns(Opening(system), question, TurnLimit(maxTurns), o)
  }

  /** `query`: the loop over the agent object, ending on a reply without an
      action, an exception, or the turn limit. */
  method Query(question: string, maxTurns: int, system: string, o: Oracles) returns (err: Option<Error>, ghost transcript: seq<ChatMessage>)
    ensures Stopped(transcript, err) == QueryOutcome(question, maxTurns, system, o)
  {
    var i := 0;
    var bot := new Agent(system);
    var nextPrompt := question;
    while i < maxTurns
      invariant 0 <= i <= TurnLimit(maxTurns)
      invariant QueryOutcome(question, maxTurns, system, o) == Turns(bot.messages, nextPrompt, TurnLimit(maxTurns) - i, o)
      decreases maxTurns - i
    {
      i := i + 1;
      var next, error := Turn(bot, nextPrompt, o, TurnLimit(maxTurns) - i + 1);
      if next.None? {
        return error, bot.messages;
      }
      nextPrompt := next.value;
    }
    return None, bot.messages;
  }

  /** The body of `query`'s loop: the prompt goes to the agent, and the
      action of the reply, if there is one, is run.  `next` is the prompt of
      the next pass; it is absent when the loop returns, `err` being the
      exception raised, if any.  With `left` passes to go, the rest of the
      loop is the same from here as from before the pass. */
  method Turn(bot: Agent, prompt: string, o: Oracles, ghost left: nat) returns (next: Option<string>, err: Option<Error>)
    requires left > 0
    modifies bot
    ensures next.Some? ==> Turns(old(bot.messages), prompt, left, o) == Turns(bot.messages, next.value, left - 1, o)
    ensures next.None? ==> Turns(old(bot.messages), prompt, left, o) == Stopped(bot.messages, err)
  {
    ghost var before := bot.messages;
    var result := bot.Call(prompt, o.model);
    if result.Err? {
      return None, Some(result.error);
    }
    var action := FirstAction(SplitLines(result.value));
    if action.None? {
      return None, None;
    }
    var observation := Observe(action.value, o.calculate);
    if observation.Err? {
      return None, Some(observation.error);
    }
    TurnGoesOn(before, prompt, left, o, result.value, action.value, observation.value);
    return Some(ObservationPrompt(observation.value)), None;
  }

  /** A turn whose action runs hands its observation to the next turn. */
  lemma TurnGoesOn(log: seq<ChatMessage>, prompt: string, left: nat, o: Oracles, reply: string, a: Action, observation: string)
    requires left > 0 && o.model(log + [ChatMessage(User, prompt)]) == Ok(reply)
    requires FirstAction(SplitLines(reply)) == Some(a) && Observe(a, o.calculate) == Ok(observation)
    ensures Turns(log, prompt, left, o) == Turns(log + [ChatMessage(User, prompt), ChatMessage(Assistant, reply)], ObservationPrompt(observation), left - 1, o)
  {
    assert log + [ChatMessage(User, prompt)] + [ChatMessage(Assistant, reply)] == log + [ChatMessage(User, prompt), ChatMessage(Assistant, reply)];
  }

  // ------------------------------------------------------------ what a query does

  /** The prompt the loop sends after a reply, if it goes on. */
  function Next(reply: string, o: Oracles): Option<string>
  {
    match FirstAction(SplitLines(reply))
    case None => None
    case Some(a) =>
      match Observe(a, o.calculate)
      case Err(_) => None
      case Ok(observation) => Some(ObservationPrompt(observation))
  }

  /** The messages a loop adds to `log`: user prompts and model replies in
      turn, the first prompt being `first`, every reply the model's answer
      to the whole log before it, and every later prompt the observation of
      the action in the reply before it. */
  ghost predicate Exchange(log: seq<ChatMessage>, t: seq<ChatMessage>, first: string, o: Oracles)
    decreases |t|
  {
    |t| == 0 ||
    (&& t[0] == ChatMessage(User, first)
     && (|t| == 1 ||
         (&& t[1].role == Assistant
          && o.model(log + [t[0]]) == Ok(t[1].content)
          && (|t| == 2 ||
              (Next(t[1].content, o).Some? && Exchange(log + t[..2], t[2..], Next(t[1].content, o).value, o))))))
  }

  /** How a loop from `log` with `left` turns ends: it only appends, two
      messages per turn at most; it stops early only on an exception or on
      a reply without an action; and an exception comes from the model call
      on the whole log, or from running the action of the last reply. */
  ghost predicate Ended(log: seq<ChatMessage>, left: nat, o: Oracles, r: Stopped)
  {
    && |log| <= |r.log| <= |log| + 2 * left && r.log[..|log|] == log
    && (|r.log| < |log| + 2 * left ==>
          r.error.Some? ||
          (|r.log| > |log| && r.log[|r.log| - 1].role == Assistant
           && FirstAction(SplitLines(r.log[|r.log| - 1].content)).None?))
    && (r.error.Some? ==>
          && |r.log| > |log|
          && ((r.log[|r.log| - 1].role == User && o.model(r.log) == Err(r.error.value)) ||
              (&& r.log[|r.log| - 1].role == Assistant
               && FirstAction(SplitLines(r.log[|r.log| - 1].content)).Some?
               && Observe(FirstAction(SplitLines(r.log[|r.log| - 1].content)).value, o.calculate) == Err(r.error.value))))
  }

  lemma {:induction false} TurnsShape(log: seq<ChatMessage>, prompt: string, left: nat, o: Oracles)
    ensures Ended(log, left, o, Turns(log, prompt, left, o))
    ensures Exchange(log, Turns(log, prompt, left, o).log[|log|..], prompt, o)
    decreases left
  {
    if left == 0 {
      assert Turns(log, prompt, left, o).log[|log|..] == [];
    } else {
      var asked := log + [ChatMessage(User, prompt)];
      match o.model(asked)
      case Err(e) =>
        AskFailsShape(log, prompt, left, o, e);
      case Ok(reply) =>
        if Next(reply, o).None? {
          AnsweredShape(log, prompt, left, o, reply);
        } else {
          var answered := asked + [ChatMessage(Assistant, reply)];
          var rest := Turns(answered, Next(reply, o).value, left - 1, o);
          GoesOnShape(log, prompt, left, o, reply);
          TurnsShape(answered, Next(reply, o).value, left - 1, o);
          TurnsCompose(log, prompt, reply, left, o, rest);
        }
    }
  }

  /** A failed model call ends the loop with the prompt logged. */
  lemma AskFailsShape(log: seq<ChatMessage>, prompt: string, left: nat, o: Oracles, e: Error)
    requires left > 0 && o.model(log + [ChatMessage(User, prompt)]) == Err(e)
    ensures Ended(log, left, o, Turns(log, prompt, left, o))
    ensures Exchange(log, Turns(log, prompt, left, o).log[|log|..], prompt, o)
  {
    AskedExchange(log, prompt, o);
  }

  /** A reply that does not go on ends the loop with the reply logged. */
  lemma AnsweredShape(log: seq<ChatMessage>, prompt: string, left: nat, o: Oracles, reply: string)
    requires left > 0 && o.model(log + [ChatMessage(User, prompt)]) == Ok(reply) && Next(reply, o).None?
    ensures Ended(log, left, o, Turns(log, prompt, left, o))
    ensures Exchange(log, Turns(log, prompt, left, o).log[|log|..], prompt, o)
  {
    AnsweredExchange(log, prompt, reply, o);
    assert log + [ChatMessage(User, prompt)] + [ChatMessage(Assistant, reply)] == log + [ChatMessage(User, prompt), ChatMessage(Assistant, reply)];
  }

  /** A reply that goes on hands the rest of the loop its observation. */
  lemma GoesOnShape(log: seq<ChatMessage>, prompt: string, left: nat, o: Oracles, reply: string)
    requires left > 0 && o.model(log + [ChatMessage(User, prompt)]) == Ok(reply) && Next(reply, o).Some?
    ensures Turns(log, prompt, left, o)
            == Turns(log + [ChatMessage(User, prompt)] + [ChatMessage(Assistant, reply)], Next(reply, o).value, left - 1, o)
  {
  }

  lemma AskedExchange(log: seq<ChatMessage>, prompt: string, o: Oracles)
    ensures Exchange(log, (log + [ChatMessage(User, prompt)])[|log|..], prompt, o)
  {
    assert (log + [ChatMessage(User, prompt)])[|log|..] == [ChatMessage(User, prompt)];
  }

  lemma AnsweredExchange(log: seq<ChatMessage>, prompt: string, reply: string, o: Oracles)
    requires o.model(log + [ChatMessage(User, prompt)]) == Ok(reply)
    ensures Exchange(log, (log + [ChatMessage(User, prompt), ChatMessage(Assistant, reply)])[|log|..], prompt, o)
  {
    var t := [ChatMessage(User, prompt), ChatMessage(Assistant, reply)];
    assert (log + t)[|log|..] == t;
    assert log + [t[0]] == log + [ChatMessage(User, prompt)];
  }

  /** One turn that goes on, followed by the rest of the loop. */
  lemma TurnsCompose(log: seq<ChatMessage>, prompt: string, reply: string, left: nat, o: Oracles, rest: Stopped)
    requires left > 0
    requires o.model(log + [ChatMessage(User, prompt)]) == Ok(reply) && Next(reply, o).Some?
    requires var answered := log + [ChatMessage(User, prompt), ChatMessage(Assistant, reply)];
             && Ended(answered, left - 1, o, rest)
             && Exchange(answered, rest.log[|answered|..], Next(reply, o).value, o)
    ensures Ended(log, left, o, rest)
    ensures Exchange(log, rest.log[|log|..], prompt, o)
  {
    var pair := [ChatMessage(User, prompt), ChatMessage(Assistant, reply)];
    var answered := log + pair;
    var t := rest.log[|log|..];
    assert rest.log[..|answered|] == answered;
    assert rest.log[..|log|] == answered[..|log|] == log;
    assert t[..2] == pair;
    assert t[2..] == rest.log[|answered|..];
    assert log + t[..2] == answered;
    assert log + [t[0]] == log + [ChatMessage(User, prompt)];
    assert |t| >= 2;
    if rest.error.Some? && rest.log[|rest.log| - 1].role == User {
      assert |rest.log| > |answered|;
    }
  }

  /** A query makes at most `max_turns` model calls, alternates prompts and
      replies after the system message, feeds back each observation, and
      returns early only on a reply without an action or an exception. */
  lemma QueryShape(question: string, maxTurns: int, system: string, o: Oracles)
    ensures var r := QueryOutcome(question, maxTurns, system, o);
            && Ended(Opening(system), TurnLimit(maxTurns), o, r)
            && Exchange(Opening(system), r.log[|Opening(system)|..], question, o)
  {
    TurnsShape(Opening(system), question, TurnLimit(maxTurns), o);
  }

  /** An action the agent does not know ends the query with the exception
      naming it. */
  lemma UnknownActionRaises(question: string, system: string, o: Oracles, reply: string)
    requires o.model(Opening(system) + [ChatMessage(User, question)]) == Ok(reply)
    requires FirstAction(SplitLines(reply)).Some? && FirstAction(SplitLines(reply)).value.name !in KnownActions
    ensures var a := FirstAction(SplitLines(reply)).value;
            QueryOutcome(question, 5, system, o).error == Some(Raised("Unknown action: " + a.name + ": " + a.input))
  {
  }
}
