/** What the agent loop guarantees about its event stream and about the transcripts the model sees. */
module AgentTheorems {
  import opened Common
  import opened AgentLoop

  // --- bounded, and ending exactly once ------------------------------------------------------

  predicate Terminal(e: Event) {
    e.Done? || e.Error?
  }

  predicate NoneTerminal(events: seq<Event>) {
    forall e <- events :: !Terminal(e)
  }

  /** How the ending reads against the number of model calls made. */
  predicate EndingFits(e: Event, calls: nat, max: int) {
    match e
    case Done(_, turns) => turns == calls && 1 <= calls <= max
    case Error(NoFinalMessage) => 1 <= calls <= max
    case Error(HitMaxTurns(m)) => m == max && calls == AtLeastZero(max)
    case _ => false
  }

  ghost predicate Ending(s: Session, max: int) {
    match s.status
    case Running => NoneTerminal(s.events)
    case Crashed => NoneTerminal(s.events) && 1 <= |s.prompts| <= max
    case Finished =>
      var n := |s.events|;
      n > 0 && NoneTerminal(s.events[..n - 1]) && EndingFits(s.events[n - 1], |s.prompts|, max)
  }

  lemma {:induction false} TextsNotTerminal(events: seq<ModelEvent>)
    ensures NoneTerminal(Texts(events))
  {
    if events != [] {
      TextsNotTerminal(events[..|events| - 1]);
    }
  }

  lemma {:induction false} DispatchNotTerminal(content: seq<Block>, events: seq<Event>, env: Env)
    requires NoneTerminal(events)
    ensures NoneTerminal(Dispatch(content, events, env).events)
  {
    if content != [] {
      DispatchNotTerminal(content[..|content| - 1], events, env);
    }
  }

  lemma TurnEnding(s: Session, max: int, env: Env)
    requires s.status == Running && Ending(s, max) && |s.prompts| < max
    ensures Ending(Turn(s, env), max) && |Turn(s, env).prompts| == |s.prompts| + 1
  {
    var reply := env.model(|s.prompts| + 1, s.messages);
    TextsNotTerminal(reply.events);
    var events := s.events + Texts(reply.events);
    if LastFinal(reply.events).Some? {
      DispatchNotTerminal(LastFinal(reply.events).value.content, events, env);
    }
  }

  lemma {:induction false} TurnsEnding(s: Session, left: nat, max: int, env: Env)
    requires Ending(s, max) && (s.status == Running ==> |s.prompts| + left == AtLeastZero(max))
    ensures Ending(Turns(s, left, max, env), max) && Turns(s, left, max, env).status != Running
    decreases left
  {
    if s.status == Running && left > 0 {
      TurnEnding(s, max, env);
      TurnsEnding(Turn(s, env), left - 1, max, env);
    }
  }

  // --- exactly when the ending is missing ---------------------------------------------------------

  /** The reply to the last prompt raises. */
  predicate ReplyRaises(s: Session, env: Env) {
    |s.prompts| > 0 && env.model(|s.prompts|, s.prompts[|s.prompts| - 1].messages).raises
  }

  /** The stream stops at a result the encoder rejects, or at a use of a tool that escapes the handler. */
  predicate BreaksOff(events: seq<Event>, env: Env) {
    var n := |events|;
    n > 0 && match events[n - 1]
             case Result(_, _, _, result) => env.encode(result).None?
             case ToolUse(_, _, _) => env.tools(Calls(events)).Escaped?
             case _ => false
  }

  predicate Explained(s: Session, env: Env) {
    if s.status == Crashed then ReplyRaises(s, env) || BreaksOff(s.events, env) else !ReplyRaises(s, env)
  }

  lemma {:induction false} DispatchBreaksOff(content: seq<Block>, events: seq<Event>, env: Env)
    requires Dispatch(content, events, env).raised
    ensures BreaksOff(Dispatch(content, events, env).events, env)
  {
    if Dispatch(content[..|content| - 1], events, env).raised {
      DispatchBreaksOff(content[..|content| - 1], events, env);
    }
  }

  lemma TurnExplained(s: Session, env: Env)
    requires s.status == Running
    ensures Explained(Turn(s, env), env)
  {
    var reply := env.model(|s.prompts| + 1, s.messages);
    var t := Turn(s, env);
    TurnExtends(s, env);
    if t.status == Crashed && !reply.raises {
      DispatchBreaksOff(LastFinal(reply.events).value.content, s.events + Texts(reply.events), env);
    }
  }

  lemma TurnsExplained(s: Session, left: nat, max: int, env: Env)
    requires Explained(s, env)
    ensures Explained(Turns(s, left, max, env), env)
  {
    forall t: Session | t.status == Running ensures Explained(Turn(t, env), env) {
      TurnExplained(t, env);
    }
    TurnsKeep(s, left, max, env, t => Explained(t, env));
  }

  /**
   Whatever the model and the tools do: at most `max` model calls (none when it is not positive), and
   one ending, last. There is no ending exactly when the reply to the last prompt raises, or the last event
   is a result that the encoder rejects or a use of a tool that escapes the handler.
   */
  lemma EndsOnce(userMessage: string, history: Transcript, max: int, env: Env)
    ensures var s := Conversation(userMessage, history, max, env);
      && s.status != Running && Ending(s, max) && |s.prompts| <= AtLeastZero(max)
      && (NoneTerminal(s.events) <==> ReplyRaises(s, env) || BreaksOff(s.events, env))
  {
    TurnsEnding(Start(userMessage, history), AtLeastZero(max), max, env);
    TurnsExplained(Start(userMessage, history), AtLeastZero(max), max, env);
    var s := Conversation(userMessage, history, max, env);
    if s.status == Finished {
      var last := s.events[|s.events| - 1];
      assert EndingFits(last, |s.prompts|, max) && last in s.events && Terminal(last);
    }
  }

  const CALL_ONE_TOOL := Reply([Final(FinalMessage([UseBlock("1", "search", Str("q"))], Some("tool_use")))], false)

  /** A model, an encoder and a tool that each leave the stream without an ending. */
  lemma EndingsMissing() returns (raising: Env, rejecting: Env, escaping: Env)
    ensures Conversation("hi", [], 8, raising).events == []
    ensures Conversation("hi", [], 8, rejecting).events
         == [ToolUse("1", "search", Str("q")), Result("1", "search", true, Data(0))]
    ensures Conversation("hi", [], 8, escaping).events == [ToolUse("1", "search", Str("q"))]
  {
    raising := Env((_, _) => Reply([], true), _ => Returned(Data(0)), _ => None);
    rejecting := Env((_, _) => CALL_ONE_TOOL, _ => Returned(Data(0)), _ => None);
    escaping := Env((_, _) => CALL_ONE_TOOL, _ => Escaped, _ => None);
    OneToolBreaks(rejecting);
    OneToolBreaks(escaping);
  }

  lemma OneToolBreaks(env: Env)
    requires env.model(1, [User("hi")]) == CALL_ONE_TOOL
    requires var use := ToolUse("1", "search", Str("q"));
      env.tools(Calls([use])).Escaped?
      || (env.tools(Calls([use])) == Returned(Data(0)) && env.encode(Data(0)).None?)
    ensures var use := ToolUse("1", "search", Str("q"));
      Conversation("hi", [], 8, env).events ==
        if env.tools(Calls([use])).Escaped? then [use] else [use, Result("1", "search", true, Data(0))]
  {
    var use := ToolUse("1", "search", Str("q"));
    var final := LastFinal(CALL_ONE_TOOL.events);
    assert CALL_ONE_TOOL.events[..0] == [];
    var base: Transcript := [];
    assert base + [User("hi")] == [User("hi")] && [] + [use] == [use];
    var content := [UseBlock("1", "search", Str("q"))];
    assert content[..0] == [];
    assert Dispatch([], [], env) == Phase([], [], false);
    assert final == Some(FinalMessage(content, Some("tool_use")));
    var p := Dispatch(content, [], env);
    assert p.raised;
    var start := Start("hi", []);
    assert Texts(CALL_ONE_TOOL.events) == [];
    assert [] + Texts(CALL_ONE_TOOL.events) == [];
    assert Turn(start, env).events == p.events && Turn(start, env).status == Crashed;
    assert Turns(start, 8, 8, env) == Turns(Turn(start, env), 7, 8, env);
  }

  // --- every tool use is followed by its own result --------------------------------------------

  /** The uses a stream shows. */
  function ShownUses(events: seq<Event>): seq<Block> {
    if events == [] then []
    else
      var e := events[|events| - 1];
      ShownUses(events[..|events| - 1]) + if e.ToolUse? then [UseBlock(e.id, e.name, e.input)] else []
  }

  /** The calls they make. */
  function MadeCalls(events: seq<Event>): seq<Call> {
    var uses := ShownUses(events);
    seq(|uses|, k requires 0 <= k < |uses| => CallOf(uses[k]))
  }

  function CallOf(block: Block): Call {
    match block
    case UseBlock(_, name, input) => Call(name, input)
    case TextBlock(text) => Call("", Str(text))
  }

  lemma {:induction false} CallsMade(events: seq<Event>)
    ensures Calls(events) == MadeCalls(events)
  {
    if events != [] {
      CallsMade(events[..|events| - 1]);
    }
  }

  /** Uses and results alternate in place, and each result is the tool's answer to the calls made so far. */
  ghost predicate Paired(events: seq<Event>, env: Env) {
    forall i :: 0 <= i < |events| ==> PairedAt(events, i, env)
  }

  ghost predicate PairedAt(events: seq<Event>, i: nat, env: Env)
    requires i < |events|
  {
    match events[i]
    case ToolUse(_, _, _) => i + 1 < |events| && events[i + 1].Result?
    case Result(_, _, _, _) => i > 0 && IsAnswer(events[i - 1], events[i], MadeCalls(events[..i]), env)
    case _ => true
  }

  /** All but the last event are paired, and that is a use of a tool that escapes the handler. */
  ghost predicate EndsInEscape(events: seq<Event>, env: Env) {
    var n := |events|;
    n > 0 && Paired(events[..n - 1], env) && events[n - 1].ToolUse? && env.tools(Calls(events)).Escaped?
  }

  /** What the tool returned, or its error as text, marked as failed. */
  ghost predicate IsAnswer(use: Event, result: Event, calls: seq<Call>, env: Env) {
    use.ToolUse? && match env.tools(calls)
                    case Returned(value) => result == Result(use.id, use.name, true, value)
                    case Raised(error, message) =>
                      result == Result(use.id, use.name, false, Str(error + ": " + message))
                    case Escaped => false
  }

  lemma PairedExtends(events: seq<Event>, more: seq<Event>, env: Env)
    requires Paired(events, env) && events <= more
    ensures forall i :: 0 <= i < |events| ==> PairedAt(more, i, env)
  {
    forall i | 0 <= i < |events| ensures PairedAt(more, i, env) {
      assert PairedAt(events, i, env);
      assert more[..i] == events[..i];
    }
  }

  lemma PairedSnoc(events: seq<Event>, e: Event, env: Env)
    requires Paired(events, env) && !e.ToolUse? && !e.Result?
    ensures Paired(events + [e], env)
  {
    PairedExtends(events, events + [e], env);
  }

  lemma {:induction false} PairedTexts(events: seq<Event>, reply: seq<ModelEvent>, env: Env)
    requires Paired(events, env)
    ensures Paired(events + Texts(reply), env)
  {
    if reply == [] {
      assert events + [] == events;
    } else {
      var n := |reply|;
      PairedTexts(events, reply[..n - 1], env);
      var before := events + Texts(reply[..n - 1]);
      if reply[n - 1].TextDelta? {
        PairedSnoc(before, Text(reply[n - 1].text), env);
        assert events + Texts(reply) == before + [Text(reply[n - 1].text)];
      } else {
        assert events + Texts(reply) == before;
      }
    }
  }

  lemma PairedUse(events: seq<Event>, use: Event, env: Env)
    requires Paired(events, env) && use.ToolUse? && !env.tools(Calls(events + [use])).Escaped?
    ensures Paired(events + [use] + [Answer(use.id, use.name, env.tools(Calls(events + [use])))], env)
  {
    var more := events + [use] + [Answer(use.id, use.name, env.tools(Calls(events + [use])))];
    PairedExtends(events, more, env);
    CallsMade(events + [use]);
    assert more[..|events| + 1] == events + [use];
    assert PairedAt(more, |events| + 1, env);
  }

  lemma {:induction false} DispatchPaired(content: seq<Block>, events: seq<Event>, env: Env)
    requires Paired(events, env)
    ensures var p := Dispatch(content, events, env);
      Paired(p.events, env) || (p.raised && EndsInEscape(p.events, env))
  {
    if content != [] {
      var n := |content|;
      DispatchPaired(content[..n - 1], events, env);
      var p := Dispatch(content[..n - 1], events, env);
      if !p.raised && content[n - 1].UseBlock? {
        var UseBlock(id, name, input) := content[n - 1];
        var use := ToolUse(id, name, input);
        if env.tools(Calls(p.events + [use])).Escaped? {
          assert (p.events + [use])[..|p.events|] == p.events;
        } else {
          PairedUse(p.events, use, env);
        }
      }
    }
  }

  ghost predicate SessionPaired(s: Session, env: Env) {
    Paired(s.events, env) || (s.status == Crashed && EndsInEscape(s.events, env))
  }

  lemma TurnPaired(s: Session, env: Env)
    requires s.status == Running && Paired(s.events, env)
    ensures SessionPaired(Turn(s, env), env)
  {
    var reply := env.model(|s.prompts| + 1, s.messages);
    PairedTexts(s.events, reply.events, env);
    var events := s.events + Texts(reply.events);
    PairedSnoc(events, Error(NoFinalMessage), env);
    if LastFinal(reply.events).Some? {
      var final := LastFinal(reply.events).value;
      DispatchPaired(final.content, events, env);
      PairedSnoc(events, Done(final.stopReason, |s.prompts| + 1), env);
    }
  }

  /** Also in a run that is cut short, unless by that use's own tool. */
  lemma EveryUseAnswered(userMessage: string, history: Transcript, max: int, env: Env)
    ensures SessionPaired(Conversation(userMessage, history, max, env), env)
  {
    forall t: Session | SessionPaired(t, env) && t.status == Running ensures SessionPaired(Turn(t, env), env) {
      TurnPaired(t, env);
    }
    forall t: Session | SessionPaired(t, env) && t.status == Running ensures SessionPaired(OutOfTurns(t, max), env) {
      PairedSnoc(t.events, Error(HitMaxTurns(max)), env);
    }
    TurnsKeep(Start(userMessage, history), AtLeastZero(max), max, env, t => SessionPaired(t, env));
  }

  // --- the transcript says what was streamed ----------------------------------------------------

  function Uses(content: seq<Block>): seq<Block> {
    if content == [] then []
    else
      var n := |content|;
      Uses(content[..n - 1]) + if content[n - 1].UseBlock? then [content[n - 1]] else []
  }

  /** Assistant messages and result messages in turn, each use answered once, in order, in the next message. */
  ghost predicate Rounds(ms: Transcript) {
    && |ms| % 2 == 0
    && forall i :: 0 <= i < |ms| && i % 2 == 0 ==>
         ms[i].Assistant? && ms[i + 1].Results? && Answers(ms[i].content, ms[i + 1].results)
  }

  ghost predicate Answers(content: seq<Block>, results: seq<ToolResult<string>>) {
    && |results| == |Uses(content)|
    && forall k :: 0 <= k < |results| ==> Uses(content)[k].UseBlock? && results[k].id == Uses(content)[k].id
  }

  /** The results a stream shows, as they are told to the model. */
  function ShownResults(events: seq<Event>): seq<ToolResult<Value>> {
    if events == [] then []
    else
      var e := events[|events| - 1];
      ShownResults(events[..|events| - 1]) + if e.Result? then [ToolResult(e.id, e.result, !e.ok)] else []
  }

  function ToldUses(ms: Transcript): seq<Block> {
    if ms == [] then []
    else
      var m := ms[|ms| - 1];
      ToldUses(ms[..|ms| - 1]) + if m.Assistant? then Uses(m.content) else []
  }

  function ToldResults(ms: Transcript): seq<ToolResult<string>> {
    if ms == [] then []
    else
      var m := ms[|ms| - 1];
      ToldResults(ms[..|ms| - 1]) + if m.Results? then m.results else []
  }

  /** A transcript that extends `base` by whole rounds telling exactly what `events` shows. */
  ghost predicate Tells(ms: Transcript, events: seq<Event>, base: Transcript, env: Env) {
    && base <= ms
    && var rounds := ms[|base|..];
       Rounds(rounds) && ToldUses(rounds) == ShownUses(events)
         && ToldAs(ShownResults(events), ToldResults(rounds), env)
  }

  /** The model is told each shown result in its encoding. */
  ghost predicate ToldAs(shown: seq<ToolResult<Value>>, told: seq<ToolResult<string>>, env: Env) {
    && |told| == |shown|
    && forall k :: 0 <= k < |told| ==>
         && told[k].id == shown[k].id && told[k].isError == shown[k].isError
         && env.encode(shown[k].content) == Some(told[k].content)
  }

  predicate Encodable(results: seq<ToolResult<Value>>, env: Env) {
    forall r <- results :: env.encode(r.content).Some?
  }

  lemma EncodedTold(results: seq<ToolResult<Value>>, env: Env)
    requires Encodable(results, env)
    ensures ToldAs(results, Encoded(results, env.encode), env)
  {
    forall k | 0 <= k < |results| ensures env.encode(results[k].content).Some? {
      assert results[k] in results;
    }
  }

  lemma {:induction false} DispatchEncodable(content: seq<Block>, events: seq<Event>, env: Env)
    ensures Encodable(Dispatch(content, events, env).results, env)
  {
    if content != [] {
      DispatchEncodable(content[..|content| - 1], events, env);
    }
  }

  lemma TextShowsNothing(events: seq<Event>, text: string)
    ensures ShownUses(events + [Text(text)]) == ShownUses(events)
    ensures ShownResults(events + [Text(text)]) == ShownResults(events)
  {
    assert (events + [Text(text)])[..|events|] == events;
  }

  lemma {:induction false} TextsShowNothing(events: seq<Event>, reply: seq<ModelEvent>)
    ensures ShownUses(events + Texts(reply)) == ShownUses(events)
    ensures ShownResults(events + Texts(reply)) == ShownResults(events)
  {
    if reply == [] {
      assert events + Texts(reply) == events;
    } else {
      var n := |reply|;
      TextsShowNothing(events, reply[..n - 1]);
      var before := events + Texts(reply[..n - 1]);
      if reply[n - 1].TextDelta? {
        TextShowsNothing(before, reply[n - 1].text);
        assert events + Texts(reply) == before + [Text(reply[n - 1].text)];
      } else {
        assert events + Texts(reply) == before;
      }
    }
  }

  lemma ShownPair(events: seq<Event>, use: Event, answer: Event)
    requires use.ToolUse? && answer.Result?
    ensures ShownUses(events + [use] + [answer]) == ShownUses(events) + [UseBlock(use.id, use.name, use.input)]
    ensures ShownResults(events + [use] + [answer]) ==
      ShownResults(events) + [ToolResult(answer.id, answer.result, !answer.ok)]
  {
    assert (events + [use])[..|events|] == events;
    assert (events + [use] + [answer])[..|events| + 1] == events + [use];
  }

  ghost predicate Collected(content: seq<Block>, results: seq<ToolResult<Value>>) {
    && |results| == |Uses(content)|
    && forall k :: 0 <= k < |results| ==> Uses(content)[k].UseBlock? && results[k].id == Uses(content)[k].id
  }

  /** What a finished dispatch shows and collects. */
  ghost predicate Shows(p: Phase, content: seq<Block>, events: seq<Event>) {
    && ShownUses(p.events) == ShownUses(events) + Uses(content)
    && ShownResults(p.events) == ShownResults(events) + p.results
    && Collected(content, p.results)
  }

  lemma UsesSnoc(content: seq<Block>, block: Block)
    ensures Uses(content + [block]) == Uses(content) + if block.UseBlock? then [block] else []
  {
    assert (content + [block])[..|content|] == content;
  }

  lemma CollectedOneMore(content: seq<Block>, results: seq<ToolResult<Value>>, block: Block, r: ToolResult<Value>)
    requires Collected(content, results) && block.UseBlock? && r.id == block.id
    ensures Collected(content + [block], results + [r])
  {
    UsesSnoc(content, block);
  }

  lemma SameEnd<T>(all: seq<T>, shown: seq<T>, more: seq<T>, x: T)
    requires all == shown + more
    ensures all + [x] == shown + (more + [x])
  {
  }

  lemma ShowsOneMore(p: Phase, content: seq<Block>, events: seq<Event>, use: Event, answer: Event)
    requires use.ToolUse? && answer.Result? && answer.id == use.id && Shows(p, content, events)
    ensures Shows(Phase(p.events + [use] + [answer],
                        p.results + [ToolResult(answer.id, answer.result, !answer.ok)], false),
                  content + [UseBlock(use.id, use.name, use.input)], events)
  {
    var block, r := UseBlock(use.id, use.name, use.input), ToolResult(answer.id, answer.result, !answer.ok);
    ShownPair(p.events, use, answer);
    UsesSnoc(content, block);
    CollectedOneMore(content, p.results, block, r);
    SameEnd(ShownUses(p.events), ShownUses(events), Uses(content), block);
    SameEnd(ShownResults(p.events), ShownResults(events), p.results, r);
  }

  lemma RunBlockShows(p: Phase, content: seq<Block>, events: seq<Event>, block: Block, env: Env)
    requires Shows(p, content, events) && !RunBlock(p, block, env).raised
    ensures Shows(RunBlock(p, block, env), content + [block], events)
  {
    UsesSnoc(content, block);
    if block.UseBlock? {
      var use := ToolUse(block.id, block.name, block.input);
      var outcome := env.tools(Calls(p.events + [use]));
      ShowsOneMore(p, content, events, use, Answer(block.id, block.name, outcome));
    }
  }

  lemma {:induction false} DispatchShows(content: seq<Block>, events: seq<Event>, env: Env)
    requires !Dispatch(content, events, env).raised
    ensures Shows(Dispatch(content, events, env), content, events)
  {
    if content != [] {
      var before, block := content[..|content| - 1], content[|content| - 1];
      DispatchShows(before, events, env);
      RunBlockShows(Dispatch(before, events, env), before, events, block, env);
      assert content == before + [block];
    }
  }

  lemma ToldRound(ms: Transcript, content: seq<Block>, results: seq<ToolResult<string>>)
    ensures var more := ms + [Assistant(content), Results(results)];
      ToldUses(more) == ToldUses(ms) + Uses(content) && ToldResults(more) == ToldResults(ms) + results
  {
    var more := ms + [Assistant(content), Results(results)];
    assert more[..|ms| + 1] == ms + [Assistant(content)];
    assert (ms + [Assistant(content)])[..|ms|] == ms;
  }

  lemma RoundsSnoc(ms: Transcript, content: seq<Block>, results: seq<ToolResult<string>>)
    requires Rounds(ms) && Answers(content, results)
    ensures Rounds(ms + [Assistant(content), Results(results)])
  {
  }

  /** A whole round more, of `content` and what its tools returned. */
  lemma TellsOneMore(ms: Transcript, events: seq<Event>, p: Phase, content: seq<Block>, base: Transcript, env: Env)
    requires Tells(ms, events, base, env) && Shows(p, content, events) && Encodable(p.results, env)
    ensures Tells(ms + [Assistant(content), Results(Encoded(p.results, env.encode))], p.events, base, env)
  {
    var told := Encoded(p.results, env.encode);
    var rounds := ms[|base|..];
    EncodedTold(p.results, env);
    assert (ms + [Assistant(content), Results(told)])[|base|..] == rounds + [Assistant(content), Results(told)];
    ToldRound(rounds, content, told);
    RoundsSnoc(rounds, content, told);
  }

  lemma RespondTells(t: Session, final: FinalMessage, base: Transcript, env: Env)
    requires Tells(t.messages, t.events, base, env)
    requires t.status == Running == Respond(t, final, env).status
    ensures var u := Respond(t, final, env);
      Tells(u.messages, u.events, base, env) && t.messages <= u.messages && |u.messages| == |t.messages| + 2
  {
    DispatchShows(final.content, t.events, env);
    DispatchEncodable(final.content, t.events, env);
    TellsOneMore(t.messages, t.events, Dispatch(final.content, t.events, env), final.content, base, env);
  }

  /** Every model call was passed such a transcript, each call's extending the one before by one round. */
  ghost predicate PromptsTell(s: Session, base: Transcript, env: Env) {
    && (forall i :: 0 <= i < |s.prompts| ==> PromptTells(s.prompts[i], i, base, env))
    && (forall i, j :: 0 <= i <= j < |s.prompts| ==> s.prompts[i].messages <= s.prompts[j].messages)
    && (forall i :: 0 <= i < |s.prompts| ==> s.prompts[i].messages <= s.messages && s.prompts[i].streamed <= s.events)
  }

  ghost predicate PromptTells(p: Prompt, i: nat, base: Transcript, env: Env) {
    Tells(p.messages, p.streamed, base, env) && |p.messages| == |base| + 2 * i
  }

  ghost predicate SessionTells(s: Session, base: Transcript, env: Env) {
    && PromptsTell(s, base, env)
    && (s.status == Running ==> Tells(s.messages, s.events, base, env) && |s.messages| == |base| + 2 * |s.prompts|)
  }

  lemma TurnTells(s: Session, base: Transcript, env: Env)
    requires s.status == Running && SessionTells(s, base, env)
    ensures SessionTells(Turn(s, env), base, env)
  {
    var reply := env.model(|s.prompts| + 1, s.messages);
    TextsShowNothing(s.events, reply.events);
    var t := Session(s.messages, s.events + Texts(reply.events), s.prompts + [Prompt(s.messages, s.events)], Running);
    PromptsSnoc(s, t, base, env);
    var u := Turn(s, env);
    if u.status == Running {
      RespondTells(t, LastFinal(reply.events).value, base, env);
    }
    TurnExtends(s, env);
    PromptsKept(t, u, base, env);
  }

  lemma {:induction false} DispatchExtends(content: seq<Block>, events: seq<Event>, env: Env)
    ensures events <= Dispatch(content, events, env).events
  {
    if content != [] {
      DispatchExtends(content[..|content| - 1], events, env);
    }
  }

  /** A turn records its prompt and otherwise only appends. */
  lemma TurnExtends(s: Session, env: Env)
    ensures s.messages <= Turn(s, env).messages
    ensures s.events + Texts(env.model(|s.prompts| + 1, s.messages).events) <= Turn(s, env).events
    ensures Turn(s, env).prompts == s.prompts + [Prompt(s.messages, s.events)]
  {
    var reply := env.model(|s.prompts| + 1, s.messages);
    if LastFinal(reply.events).Some? {
      DispatchExtends(LastFinal(reply.events).value.content, s.events + Texts(reply.events), env);
    }
  }

  lemma PromptsSnoc(s: Session, t: Session, base: Transcript, env: Env)
    requires PromptsTell(s, base, env) && PromptTells(Prompt(s.messages, s.events), |s.prompts|, base, env)
    requires t.prompts == s.prompts + [Prompt(s.messages, s.events)] && t.messages == s.messages && s.events <= t.events
    ensures PromptsTell(t, base, env)
  {
    forall i | 0 <= i < |t.prompts|
      ensures PromptTells(t.prompts[i], i, base, env)
      ensures t.prompts[i].messages <= t.messages && t.prompts[i].streamed <= t.events
    {
      if i < |s.prompts| {
        PrefixOfPrefix(s.prompts[i].streamed, s.events, t.events);
      }
    }
    forall i, j | 0 <= i <= j < |t.prompts| ensures t.prompts[i].messages <= t.prompts[j].messages {
      assert i < |s.prompts| ==> t.prompts[i] == s.prompts[i];
      assert j < |s.prompts| ==> t.prompts[j] == s.prompts[j];
    }
  }

  lemma PrefixOfPrefix<T>(a: seq<T>, b: seq<T>, c: seq<T>)
    requires a <= b <= c
    ensures a <= c
  {
  }

  lemma PromptsKept(t: Session, u: Session, base: Transcript, env: Env)
    requires PromptsTell(t, base, env) && u.prompts == t.prompts && t.messages <= u.messages && t.events <= u.events
    ensures PromptsTell(u, base, env)
  {
  }

  /** What every turn and running out of turns keep, the whole loop keeps. */
  lemma {:induction false} TurnsKeep(s: Session, left: nat, max: int, env: Env, inv: Session -> bool)
    requires inv(s)
    requires forall t {:trigger Turn(t, env)} :: inv(t) && t.status == Running ==> inv(Turn(t, env))
    requires forall t {:trigger OutOfTurns(t, max)} :: inv(t) && t.status == Running ==> inv(OutOfTurns(t, max))
    ensures inv(Turns(s, left, max, env))
    decreases left
  {
    if s.status == Running && left > 0 {
      TurnsKeep(Turn(s, env), left - 1, max, env, inv);
    }
  }

  lemma TurnsTell(s: Session, left: nat, max: int, base: Transcript, env: Env)
    requires SessionTells(s, base, env)
    ensures SessionTells(Turns(s, left, max, env), base, env)
  {
    forall t: Session | SessionTells(t, base, env) && t.status == Running
      ensures SessionTells(Turn(t, env), base, env)
    {
      TurnTells(t, base, env);
    }
    forall t: Session | SessionTells(t, base, env) ensures SessionTells(OutOfTurns(t, max), base, env) {
      PromptsKept(t, OutOfTurns(t, max), base, env);
    }
    TurnsKeep(s, left, max, env, t => SessionTells(t, base, env));
  }

  /**
   Every transcript passed to the model is the history and the user's message, then whole rounds in
   which each tool use is answered once, in order, in the next message; and those rounds hold exactly
   the uses and encoded results the client had been shown by then, a failed result marked as an error.
   */
  lemma TranscriptsTellTheStream(userMessage: string, history: Transcript, max: int, env: Env)
    ensures PromptsTell(Conversation(userMessage, history, max, env), history + [User(userMessage)], env)
  {
    var base := history + [User(userMessage)];
    assert base[|base|..] == [];
    TurnsTell(Start(userMessage, history), AtLeastZero(max), max, base, env);
  }

  // --- two programs, one stream --------------------------------------------------------------------

  function EncodeMessage(m: Message<Value>, encode: Value -> Option<string>): Message<string> {
    match m
    case User(text) => User(text)
    case Assistant(content) => Assistant(content)
    case Results(results) => Results(Encoded(results, encode))
  }

  function EncodeTranscript(raw: seq<Message<Value>>, encode: Value -> Option<string>): Transcript {
    seq(|raw|, i requires 0 <= i < |raw| => EncodeMessage(raw[i], encode))
  }

  /**
   The same tools, encoders that raise on the same values, and models that answer alike what differs
   only in encoding.
   */
  ghost predicate Alike(a: Env, b: Env) {
    && a.tools == b.tools
    && (forall v :: a.encode(v).None? <==> b.encode(v).None?)
    && (forall turn: nat, raw: seq<Message<Value>> ::
          a.model(turn, EncodeTranscript(raw, a.encode)) == b.model(turn, EncodeTranscript(raw, b.encode)))
  }

  ghost predicate InStep(s: Session, t: Session, raw: seq<Message<Value>>, a: Env, b: Env) {
    && s.messages == EncodeTranscript(raw, a.encode) && t.messages == EncodeTranscript(raw, b.encode)
    && s.events == t.events && s.status == t.status && |s.prompts| == |t.prompts|
  }

  lemma {:induction false} DispatchAlike(content: seq<Block>, events: seq<Event>, a: Env, b: Env)
    requires a.tools == b.tools && forall v :: a.encode(v).None? <==> b.encode(v).None?
    ensures Dispatch(content, events, a) == Dispatch(content, events, b)
  {
    if content != [] {
      DispatchAlike(content[..|content| - 1], events, a, b);
    }
  }

  lemma EncodeSnoc(raw: seq<Message<Value>>, m: Message<Value>, encode: Value -> Option<string>)
    ensures EncodeTranscript(raw + [m], encode) == EncodeTranscript(raw, encode) + [EncodeMessage(m, encode)]
  {
  }

  lemma RespondInStep(s: Session, t: Session, final: FinalMessage, raw: seq<Message<Value>>, a: Env, b: Env)
    returns (next: seq<Message<Value>>)
    requires Alike(a, b) && InStep(s, t, raw, a, b)
    ensures InStep(Respond(s, final, a), Respond(t, final, b), next, a, b)
  {
    DispatchAlike(final.content, s.events, a, b);
    var p := Dispatch(final.content, s.events, a);
    var asked := raw + [Assistant(final.content)];
    EncodeSnoc(raw, Assistant(final.content), a.encode);
    EncodeSnoc(raw, Assistant(final.content), b.encode);
    if final.stopReason != Some("tool_use") || p.raised {
      next := asked;
    } else {
      next := asked + [Results(p.results)];
      EncodeSnoc(asked, Results(p.results), a.encode);
      EncodeSnoc(asked, Results(p.results), b.encode);
    }
  }

  lemma TurnInStep(s: Session, t: Session, raw: seq<Message<Value>>, a: Env, b: Env) returns (next: seq<Message<Value>>)
    requires Alike(a, b) && InStep(s, t, raw, a, b)
    ensures InStep(Turn(s, a), Turn(t, b), next, a, b)
  {
    var turn := |s.prompts| + 1;
    var reply := a.model(turn, EncodeTranscript(raw, a.encode));
    assert reply == b.model(turn, EncodeTranscript(raw, b.encode));
    next := raw;
    if !reply.raises && LastFinal(reply.events).Some? {
      var s' := Session(s.messages, s.events + Texts(reply.events),
                        s.prompts + [Prompt(s.messages, s.events)], Running);
      var t' := Session(t.messages, t.events + Texts(reply.events),
                        t.prompts + [Prompt(t.messages, t.events)], Running);
      next := RespondInStep(s', t', LastFinal(reply.events).value, raw, a, b);
    }
  }

  lemma {:induction false} TurnsInStep(s: Session, t: Session, raw: seq<Message<Value>>, left: nat, max: int, a: Env,
                                       b: Env)
    requires Alike(a, b) && InStep(s, t, raw, a, b)
    ensures Turns(s, left, max, a).events == Turns(t, left, max, b).events
    ensures Turns(s, left, max, a).status == Turns(t, left, max, b).status
    decreases left
  {
    if s.status == Running && left > 0 {
      var next := TurnInStep(s, t, raw, a, b);
      TurnsInStep(Turn(s, a), Turn(t, b), next, left - 1, max, a, b);
    }
  }

  /** The Python and the TypeScript agent stream the same events, however each encodes tool results. */
  lemma StreamsCoincide(userMessage: string, history: seq<Message<Value>>, max: int, python: Env, typescript: Env)
    requires Alike(python, typescript)
    ensures var p := Conversation(userMessage, EncodeTranscript(history, python.encode), max, python);
      var t := Conversation(userMessage, EncodeTranscript(history, typescript.encode), max, typescript);
      p.events == t.events && p.status == t.status
  {
    var raw := history + [User(userMessage)];
    EncodeSnoc(history, User(userMessage), python.encode);
    EncodeSnoc(history, User(userMessage), typescript.encode);
    TurnsInStep(Start(userMessage, EncodeTranscript(history, python.encode)),
                Start(userMessage, EncodeTranscript(history, typescript.encode)), raw,
                AtLeastZero(max), max, python, typescript);
  }
}
