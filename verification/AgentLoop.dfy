/**
 The ReAct loop, written twice: a Python generator and a TypeScript async generator.

 The model and the tools are arbitrary: a model's answer may depend on the turn and the whole
 transcript, a tool's on every call made so far, and either may raise. The two programs differ in how
 a tool result is turned into text for the transcript (`json.dumps` or `JSON.stringify`), which is the
 encoder here; it may raise as well.
 */
module AgentLoop {
  import opened Common

  /** A tool's result or input: text, or any other JSON value. */
  datatype Value = Str(text: string) | Data(id: nat)
  datatype Block = TextBlock(text: string) | UseBlock(id: string, name: string, input: Value)
  datatype ToolResult<C> = ToolResult(id: string, content: C, isError: bool)
  datatype Message<C> = User(text: string) | Assistant(content: seq<Block>) | Results(results: seq<ToolResult<C>>)
  type Transcript = seq<Message<string>>

  datatype FinalMessage = FinalMessage(content: seq<Block>, stopReason: Option<string>)
  datatype ModelEvent = TextDelta(text: string) | Final(final: FinalMessage)
  datatype Reply = Reply(events: seq<ModelEvent>, raises: bool)
  datatype Call = Call(name: string, input: Value)

  /**
   What a tool call comes to. Escaped is what the loop's handler does not survive: an exception outside
   Python's Exception, a thrown null or undefined in TypeScript, whose name cannot be read.
   */
  datatype Outcome = Returned(value: Value) | Raised(name: string, message: string) | Escaped

  datatype Failure = NoFinalMessage | HitMaxTurns(max: int)
  datatype Event =
    | Text(text: string)
    | ToolUse(id: string, name: string, input: Value)
    | Result(id: string, name: string, ok: bool, result: Value)
    | Done(stopReason: Option<string>, turns: nat)
    | Error(failure: Failure)

  /**
   `model` gets the turn and the transcript; `tools` every call so far, its own last; None is an
   encoder that raises.
   */
  datatype Env = Env(model: (nat, Transcript) -> Reply, tools: seq<Call> -> Outcome, encode: Value -> Option<string>)

  /** A model call: the transcript passed, and the events already streamed to the client. */
  datatype Prompt = Prompt(messages: Transcript, streamed: seq<Event>)
  datatype Status = Running | Finished | Crashed
  datatype Session = Session(messages: Transcript, events: seq<Event>, prompts: seq<Prompt>, status: Status)

  // --- one model turn ------------------------------------------------------------------------

  function Texts(events: seq<ModelEvent>): seq<Event> {
    if events == [] then []
    else
      var n := |events|;
      Texts(events[..n - 1]) + if events[n - 1].TextDelta? then [Text(events[n - 1].text)] else []
  }

  /** The last final message wins. */
  function LastFinal(events: seq<ModelEvent>): Option<FinalMessage> {
    if events == [] then None
    else
      var n := |events|;
      if events[n - 1].Final? then Some(events[n - 1].final) else LastFinal(events[..n - 1])
  }

  function Calls(events: seq<Event>): seq<Call> {
    if events == [] then []
    else
      var n := |events|;
      Calls(events[..n - 1]) + if events[n - 1].ToolUse? then [Call(events[n - 1].name, events[n - 1].input)] else []
  }

  /** A tool that raises becomes a failed result, never the end of the run. */
  function Answer(id: string, name: string, outcome: Outcome): Event
    requires !outcome.Escaped?
  {
    match outcome
    case Returned(value) => Result(id, name, true, value)
    case Raised(error, message) => Result(id, name, false, Str(error + ": " + message))
  }

  datatype Phase = Phase(events: seq<Event>, results: seq<ToolResult<Value>>, raised: bool)

  /** One block of a message: a tool call is streamed, made and answered. */
  function RunBlock(p: Phase, block: Block, env: Env): Phase {
    match block
    case TextBlock(_) => p
    case UseBlock(id, name, input) =>
      var used := p.events + [ToolUse(id, name, input)];
      var outcome := env.tools(Calls(used));
      if outcome.Escaped? then Phase(used, p.results, true)
      else
        var answer := Answer(id, name, outcome);
        if env.encode(answer.result).None? then Phase(used + [answer], p.results, true)
        else Phase(used + [answer], p.results + [ToolResult(id, answer.result, !answer.ok)], false)
  }

  /** Running the tool calls of a message, after `events`. */
  function Dispatch(content: seq<Block>, events: seq<Event>, env: Env): Phase {
    if content == [] then Phase(events, [], false)
    else
      var n := |content|;
      var p := Dispatch(content[..n - 1], events, env);
      if p.raised then p else RunBlock(p, content[n - 1], env)
  }

  function Encoded(results: seq<ToolResult<Value>>, encode: Value -> Option<string>): seq<ToolResult<string>> {
    seq(|results|, i requires 0 <= i < |results| =>
      ToolResult(results[i].id, encode(results[i].content).GetOr(""), results[i].isError))
  }

  /** What a final message leads to: an answer, or the tools' results in the transcript. */
  function Respond(t: Session, final: FinalMessage, env: Env): Session {
    if final.stopReason != Some("tool_use") then
      t.(messages := t.messages + [Assistant(final.content)],
         events := t.events + [Done(final.stopReason, |t.prompts|)], status := Finished)
    else
      var p := Dispatch(final.content, t.events, env);
      if p.raised then t.(messages := t.messages + [Assistant(final.content)], events := p.events, status := Crashed)
      else t.(messages := t.messages + [Assistant(final.content), Results(Encoded(p.results, env.encode))],
              events := p.events)
  }

  /** One pass of the turn loop. */
  function Turn(s: Session, env: Env): Session {
    var reply := env.model(|s.prompts| + 1, s.messages);
    var t := Session(s.messages, s.events + Texts(reply.events), s.prompts + [Prompt(s.messages, s.events)], Running);
    if reply.raises then t.(status := Crashed)
    else match LastFinal(reply.events)
      case None => t.(events := t.events + [Error(NoFinalMessage)], status := Finished)
      case Some(final) => Respond(t, final, env)
  }

  function OutOfTurns(s: Session, max: int): Session {
    s.(events := s.events + [Error(HitMaxTurns(max))], status := Finished)
  }

  /** The turn loop from a session on, with at most `left` more turns. */
  function Turns(s: Session, left: nat, max: int, env: Env): Session
    decreases left
  {
    if s.status != Running then s
    else if left == 0 then OutOfTurns(s, max)
    else Turns(Turn(s, env), left - 1, max, env)
  }

  function Start(userMessage: string, history: Transcript): Session {
    Session(history + [User(userMessage)], [], [], Running)
  }

  function AtLeastZero(n: int): nat {
    if n < 0 then 0 else n
  }

  function Conversation(userMessage: string, history: Transcript, max: int, env: Env): Session {
    Turns(Start(userMessage, history), AtLeastZero(max), max, env)
  }

  // --- the two programs --------------------------------------------------------------------------

  lemma {:induction false} RaisedStays(content: seq<Block>, i: nat, events: seq<Event>, env: Env)
    requires i <= |content| && Dispatch(content[..i], events, env).raised
    ensures Dispatch(content, events, env) == Dispatch(content[..i], events, env)
  {
    if i < |content| {
      assert content[..|content| - 1][..i] == content[..i];
      RaisedStays(content[..|content| - 1], i, events, env);
    } else {
      assert content[..i] == content;
    }
  }

  lemma EncodedSnoc(results: seq<ToolResult<Value>>, r: ToolResult<Value>, encode: Value -> Option<string>)
    ensures Encoded(results + [r], encode)
         == Encoded(results, encode) + [ToolResult(r.id, encode(r.content).GetOr(""), r.isError)]
  {
  }

  /** Streaming one model turn. */
  method ReadReply(reply: Reply) returns (texts: seq<Event>, final: Option<FinalMessage>)
    ensures texts == Texts(reply.events) && final == LastFinal(reply.events)
  {
    texts, final := [], None;
    for i := 0 to |reply.events|
      invariant texts == Texts(reply.events[..i]) && final == LastFinal(reply.events[..i])
    {
      assert reply.events[..i + 1][..i] == reply.events[..i];
      match reply.events[i] {
        case TextDelta(text) => texts := texts + [Text(text)];
        case Final(f) => final := Some(f);
      }
    }
    assert reply.events[..|reply.events|] == reply.events;
  }

  /** Running the tool calls of one message. */
  method RunTools(content: seq<Block>, streamed: seq<Event>, env: Env)
    returns (events: seq<Event>, toolResults: seq<ToolResult<string>>, raised: bool)
    ensures var p := Dispatch(content, streamed, env);
      events == p.events && raised == p.raised && (!raised ==> toolResults == Encoded(p.results, env.encode))
  {
    events, toolResults := streamed, [];
    for i := 0 to |content|
      invariant var p := Dispatch(content[..i], streamed, env);
        !p.raised && events == p.events && toolResults == Encoded(p.results, env.encode)
    {
      assert content[..i + 1][..i] == content[..i];
      var block := content[i];
      if block.TextBlock? {
        continue;
      }
      events := events + [ToolUse(block.id, block.name, block.input)];
      var outcome := env.tools(Calls(events));
      if outcome.Escaped? {
        RaisedStays(content, i + 1, streamed, env);
        return events, toolResults, true;
      }
      var answer := Answer(block.id, block.name, outcome);
      events := events + [answer];
      var text := env.encode(answer.result);
      if text.None? {
        RaisedStays(content, i + 1, streamed, env);
        return events, toolResults, true;
      }
      EncodedSnoc(Dispatch(content[..i], streamed, env).results,
                  ToolResult(block.id, answer.result, !answer.ok), env.encode);
      toolResults := toolResults + [ToolResult(block.id, text.value, !answer.ok)];
    }
    assert content[..|content|] == content;
    raised := false;
  }

  /** run_agent. `events` is what the generator yields; `crashed` says that it raised. */
  method RunAgent(userMessage: string, history: Transcript, maxTurns: int, env: Env)
    returns (events: seq<Event>, crashed: bool)
    ensures var end := Conversation(userMessage, history, maxTurns, env);
      events == end.events && (crashed <==> end.status == Crashed) && end.status != Running
  {
    var messages := history + [User(userMessage)];
    events, crashed := [], false;
    ghost var end := Start(userMessage, history);
    for turn := 1 to AtLeastZero(maxTurns) + 1
      invariant end == Session(messages, events, end.prompts, Running) && |end.prompts| == turn - 1
      invariant Conversation(userMessage, history, maxTurns, env) ==
        Turns(end, AtLeastZero(maxTurns) + 1 - turn, maxTurns, env)
    {
      var reply := env.model(turn, messages);
      end := Turn(end, env);
      var texts, final := ReadReply(reply);
      events := events + texts;
      if reply.raises {
        return events, true;
      }
      if final.None? {
        return events + [Error(NoFinalMessage)], false;
      }
      messages := messages + [Assistant(final.value.content)];
      if final.value.stopReason != Some("tool_use") {
        return events + [Done(final.value.stopReason, turn)], false;
      }
      var toolResults, raised;
      events, toolResults, raised := RunTools(final.value.content, events, env);
      if raised {
        return events, true;
      }
      messages := messages + [Results(toolResults)];
    }
    events := events + [Error(HitMaxTurns(maxTurns))];
  }

  /** runAgent, the TypeScript loop. */
  method RunAgentTypeScript(userMessage: string, history: Transcript, maxTurns: int, env: Env)
    returns (events: seq<Event>, crashed: bool)
    ensures var end := Conversation(userMessage, history, maxTurns, env);
      events == end.events && (crashed <==> end.status == Crashed) && end.status != Running
  {
    var messages := history + [User(userMessage)];
    events := [];
    ghost var end := Start(userMessage, history);
    var turn := 1;
    ghost var left := AtLeastZero(maxTurns);
    while turn <= maxTurns
      invariant 1 <= turn && left == AtLeastZero(maxTurns + 1 - turn)
      invariant end == Session(messages, events, end.prompts, Running) && |end.prompts| == turn - 1
      invariant Conversation(userMessage, history, maxTurns, env) == Turns(end, left, maxTurns, env)
    {
      left := left - 1;
      var reply := env.model(turn, messages);
      end := Turn(end, env);
      var texts, final := ReadReply(reply);
      events := events + texts;
      if reply.raises {
        return events, true;
      }
      match final {
        case None =>
          return events + [Error(NoFinalMessage)], false;
        case Some(message) =>
          messages := messages + [Assistant(message.content)];
          if message.stopReason != Some("tool_use") {
            return events + [Done(message.stopReason, turn)], false;
          }
          var toolResults, raised;
          events, toolResults, raised := RunTools(message.content, events, env);
          if raised {
            return events, true;
          }
          messages := messages + [Results(toolResults)];
      }
      turn := turn + 1;
    }
    events := events + [Error(HitMaxTurns(maxTurns))];
    crashed := false;
  }
}
