/** How the model's replies decide a conversation: what is streamed of them, what goes on and what ends it. */
module AgentReplies {
  import opened Common
  import opened AgentLoop
  import opened AgentTheorems

  /** The texts a stream shows, and those a reply says. */
  function TextsOf(events: seq<Event>): seq<string> {
    if events == [] then [] else (if events[0].Text? then [events[0].text] else []) + TextsOf(events[1..])
  }

  function Deltas(events: seq<ModelEvent>): seq<string> {
    if events == [] then [] else (if events[0].TextDelta? then [events[0].text] else []) + Deltas(events[1..])
  }

  function ReplyTo(prompts: seq<Prompt>, k: nat, env: Env): Reply
    requires k < |prompts|
  {
    env.model(k + 1, prompts[k].messages)
  }

  /** All that the model said in answer to the first n prompts. */
  function Said(prompts: seq<Prompt>, n: nat, env: Env): seq<string>
    requires n <= |prompts|
  {
    if n == 0 then [] else Said(prompts, n - 1, env) + Deltas(ReplyTo(prompts, n - 1, env).events)
  }

  /** The message a reply ends up with: its last final one. */
  ghost predicate EndsWith(reply: Reply, final: FinalMessage) {
    exists i: nat :: EndsAt(reply.events, i, final)
  }

  predicate EndsAt(events: seq<ModelEvent>, i: nat, final: FinalMessage) {
    i < |events| && events[i] == Final(final) && forall j :: i < j < |events| ==> events[j].TextDelta?
  }

  predicate NoFinal(reply: Reply) {
    forall e <- reply.events :: e.TextDelta?
  }

  /** The reply asks for tools, and the transcript `after` goes on from `before` with it and some results. */
  ghost predicate GoesOn(reply: Reply, before: Transcript, after: Transcript) {
    && !reply.raises && |after| == |before| + 2 && before == after[..|before|]
    && after[|before|].Assistant? && after[|before| + 1].Results?
    && EndsWith(reply, FinalMessage(after[|before|].content, Some("tool_use")))
  }

  ghost predicate AllGoOn(prompts: seq<Prompt>, env: Env) {
    forall k :: 0 <= k < |prompts| - 1 ==>
      GoesOn(ReplyTo(prompts, k, env), prompts[k].messages, prompts[k + 1].messages)
  }

  /** How the last reply fits the session's end. */
  ghost predicate LastFits(s: Session, env: Env)
    requires s.prompts != []
  {
    var n := |s.prompts| - 1;
    var reply := ReplyTo(s.prompts, n, env);
    match s.status
    case Running => GoesOn(reply, s.prompts[n].messages, s.messages)
    case Crashed => reply.raises || exists final :: EndsWith(reply, final) && final.stopReason == Some("tool_use")
    case Finished =>
      s.events != [] && match s.events[|s.events| - 1]
                        case Done(stop, _) =>
                          !reply.raises && stop != Some("tool_use")
                            && exists content :: EndsWith(reply, FinalMessage(content, stop))
                        case Error(NoFinalMessage) => !reply.raises && NoFinal(reply)
                        case Error(HitMaxTurns(_)) => GoesOn(reply, s.prompts[n].messages, s.messages)
                        case _ => false
  }

  ghost predicate Decided(s: Session, start: Transcript, env: Env) {
    && AllGoOn(s.prompts, env)
    && (if s.prompts == [] then s.messages == start else s.prompts[0] == Prompt(start, []) && LastFits(s, env))
  }

  // --- one turn ----------------------------------------------------------------------------------------

  lemma {:induction false} LastFinalEnds(events: seq<ModelEvent>)
    ensures LastFinal(events).None? ==> NoFinal(Reply(events, false))
    ensures LastFinal(events).Some? ==> exists i: nat :: EndsAt(events, i, LastFinal(events).value)
  {
    if events != [] {
      var n := |events| - 1;
      LastFinalEnds(events[..n]);
      if events[n].Final? {
        assert EndsAt(events, n, LastFinal(events).value);
      } else if LastFinal(events).Some? {
        var i: nat :| EndsAt(events[..n], i, LastFinal(events).value);
        forall j | i < j < |events| ensures events[j].TextDelta? {
          if j < n { assert events[..n][j] == events[j]; }
        }
        assert EndsAt(events, i, LastFinal(events).value);
      } else {
        assert forall e <- events :: e in events[..n] || e == events[n];
      }
    }
  }

  lemma ReplyEnds(reply: Reply)
    ensures LastFinal(reply.events).None? ==> NoFinal(reply)
    ensures LastFinal(reply.events).Some? ==> EndsWith(reply, LastFinal(reply.events).value)
  {
    LastFinalEnds(reply.events);
  }

  lemma PromptsGoOn(s: Session, env: Env)
    requires AllGoOn(s.prompts, env) && s.status == Running && (s.prompts != [] ==> LastFits(s, env))
    ensures AllGoOn(s.prompts + [Prompt(s.messages, s.events)], env)
  {
    var prompts := s.prompts + [Prompt(s.messages, s.events)];
    forall k | 0 <= k < |prompts| - 1
      ensures GoesOn(ReplyTo(prompts, k, env), prompts[k].messages, prompts[k + 1].messages) {
      assert prompts[k] == s.prompts[k];
      if k < |s.prompts| - 1 {
        assert prompts[k + 1] == s.prompts[k + 1];
        assert GoesOn(ReplyTo(s.prompts, k, env), s.prompts[k].messages, s.prompts[k + 1].messages);
      }
    }
  }

  lemma RespondFits(t: Session, final: FinalMessage, env: Env)
    requires t.prompts != [] && t.status == Running && t.messages == t.prompts[|t.prompts| - 1].messages
    requires var reply := ReplyTo(t.prompts, |t.prompts| - 1, env); !reply.raises && EndsWith(reply, final)
    ensures Respond(t, final, env).prompts == t.prompts && LastFits(Respond(t, final, env), env)
  {
    var u := Respond(t, final, env);
    var reply := ReplyTo(t.prompts, |t.prompts| - 1, env);
    assert final == FinalMessage(final.content, final.stopReason);
    if u.status == Running {
      assert GoesOn(reply, t.messages, u.messages) by {
        assert u.messages[..|t.messages|] == t.messages;
        assert u.messages[|t.messages|] == Assistant(final.content);
      }
    }
  }

  lemma TurnDecided(s: Session, start: Transcript, env: Env)
    requires s.status == Running && Decided(s, start, env) && (s.prompts == [] ==> s.events == [])
    ensures Decided(Turn(s, env), start, env)
  {
    var reply := env.model(|s.prompts| + 1, s.messages);
    var t := Session(s.messages, s.events + Texts(reply.events), s.prompts + [Prompt(s.messages, s.events)], Running);
    PromptsGoOn(s, env);
    ReplyEnds(reply);
    assert ReplyTo(t.prompts, |t.prompts| - 1, env) == reply;
    if !reply.raises && LastFinal(reply.events).Some? {
      RespondFits(t, LastFinal(reply.events).value, env);
    }
  }

  // --- the whole conversation ----------------------------------------------------------------------------

  ghost predicate DecidedAt(s: Session, start: Transcript, env: Env) {
    Decided(s, start, env) && (s.prompts == [] && s.status == Running ==> s.events == [])
  }

  /**
   The replies decide everything: each prompt but the last was answered by a message that asked for tools, with
   which the next prompt's transcript goes on; and the last reply fits the ending. `done` carries the stop reason
   of its last final message, which is not "tool_use"; the error for a missing final message comes exactly
   without one; and the turns run out only on a message that asks for tools, or with no turn at all.
   */
  lemma RepliesDecide(userMessage: string, history: Transcript, max: int, env: Env)
    ensures var s := Conversation(userMessage, history, max, env);
      AllGoOn(s.prompts, env)
      && (if max <= 0 then s.prompts == [] && s.events == [Error(HitMaxTurns(max))]
          else s.prompts != [] && s.prompts[0] == Prompt(history + [User(userMessage)], []) && LastFits(s, env))
  {
    var start := history + [User(userMessage)];
    forall t: Session | DecidedAt(t, start, env) && t.status == Running ensures DecidedAt(Turn(t, env), start, env) {
      TurnDecided(t, start, env);
      TurnExtends(t, env);
    }
    TurnsKeep(Start(userMessage, history), AtLeastZero(max), max, env, t => DecidedAt(t, start, env));
    EndsOnce(userMessage, history, max, env);
    if max > 0 {
      TurnsPrompt(Start(userMessage, history), AtLeastZero(max), max, env);
    }
  }

  lemma {:induction false} TurnsPrompt(s: Session, left: nat, max: int, env: Env)
    requires s.status == Running && left > 0
    ensures |Turns(s, left, max, env).prompts| > |s.prompts|
    decreases left
  {
    var t := Turn(s, env);
    TurnExtends(s, env);
    if t.status == Running && left > 1 {
      TurnsPrompt(t, left - 1, max, env);
    }
  }

  // --- the streamed text is the model's -------------------------------------------------------------------

  lemma {:induction false} TextsOfAppend(a: seq<Event>, b: seq<Event>)
    ensures TextsOf(a + b) == TextsOf(a) + TextsOf(b)
  {
    if a == [] {
      assert a + b == b;
    } else {
      assert (a + b)[1..] == a[1..] + b;
      TextsOfAppend(a[1..], b);
    }
  }

  lemma {:induction false} DeltasAppend(a: seq<ModelEvent>, b: seq<ModelEvent>)
    ensures Deltas(a + b) == Deltas(a) + Deltas(b)
  {
    if a == [] {
      assert a + b == b;
    } else {
      assert (a + b)[1..] == a[1..] + b;
      DeltasAppend(a[1..], b);
    }
  }

  lemma {:induction false} TextsAreDeltas(events: seq<ModelEvent>)
    ensures TextsOf(Texts(events)) == Deltas(events)
  {
    if events != [] {
      var n := |events| - 1;
      TextsAreDeltas(events[..n]);
      assert events == events[..n] + [events[n]];
      DeltasAppend(events[..n], [events[n]]);
      TextsOfAppend(Texts(events[..n]), if events[n].TextDelta? then [Text(events[n].text)] else []);
      assert [events[n]][1..] == [];
      if events[n].TextDelta? {
        assert [Text(events[n].text)][1..] == [];
      }
    }
  }

  lemma {:induction false} DispatchSaysNothing(content: seq<Block>, events: seq<Event>, env: Env)
    ensures TextsOf(Dispatch(content, events, env).events) == TextsOf(events)
  {
    if content != [] {
      var n := |content| - 1;
      DispatchSaysNothing(content[..n], events, env);
      var p := Dispatch(content[..n], events, env);
      if !p.raised && content[n].UseBlock? {
        UseSaysNothing(p, content[n], env);
      }
    }
  }

  lemma UseSaysNothing(p: Phase, block: Block, env: Env)
    requires block.UseBlock?
    ensures TextsOf(RunBlock(p, block, env).events) == TextsOf(p.events)
  {
    var all := RunBlock(p, block, env).events;
    var more := all[|p.events|..];
    assert all == p.events + more;
    TextsOfAppend(p.events, more);
    Silent(more);
  }

  lemma {:induction false} Silent(events: seq<Event>)
    requires forall e <- events :: !e.Text?
    ensures TextsOf(events) == []
  {
    if events != [] {
      Silent(events[1..]);
    }
  }

  lemma {:induction false} SaidPrefix(prompts: seq<Prompt>, p: Prompt, n: nat, env: Env)
    requires n <= |prompts|
    ensures Said(prompts + [p], n, env) == Said(prompts, n, env)
  {
    if n > 0 {
      SaidPrefix(prompts, p, n - 1, env);
    }
  }

  ghost predicate SaysIt(s: Session, env: Env) {
    TextsOf(s.events) == Said(s.prompts, |s.prompts|, env)
  }

  lemma SaidMore(events: seq<Event>, prompts: seq<Prompt>, p: Prompt, env: Env)
    requires TextsOf(events) == Said(prompts, |prompts|, env)
    ensures var reply := env.model(|prompts| + 1, p.messages);
      TextsOf(events + Texts(reply.events)) == Said(prompts + [p], |prompts| + 1, env)
  {
    var reply := env.model(|prompts| + 1, p.messages);
    TextsOfAppend(events, Texts(reply.events));
    TextsAreDeltas(reply.events);
    SaidPrefix(prompts, p, |prompts|, env);
  }

  lemma OneMoreEvent(events: seq<Event>, e: Event)
    requires !e.Text?
    ensures TextsOf(events + [e]) == TextsOf(events)
  {
    TextsOfAppend(events, [e]);
    Silent([e]);
  }

  lemma RespondSaysNothing(t: Session, final: FinalMessage, env: Env)
    ensures Respond(t, final, env).prompts == t.prompts
    ensures TextsOf(Respond(t, final, env).events) == TextsOf(t.events)
  {
    DispatchSaysNothing(final.content, t.events, env);
    OneMoreEvent(t.events, Done(final.stopReason, |t.prompts|));
  }

  lemma TurnSaysIt(s: Session, env: Env)
    requires s.status == Running && SaysIt(s, env)
    ensures SaysIt(Turn(s, env), env)
  {
    var reply := env.model(|s.prompts| + 1, s.messages);
    var events := s.events + Texts(reply.events);
    SaidMore(s.events, s.prompts, Prompt(s.messages, s.events), env);
    var t := Session(s.messages, events, s.prompts + [Prompt(s.messages, s.events)], Running);
    OneMoreEvent(events, Error(NoFinalMessage));
    if !reply.raises && LastFinal(reply.events).Some? {
      RespondSaysNothing(t, LastFinal(reply.events).value, env);
    }
  }

  /** The text streamed to the client is, piece by piece and in order, what the model said in its replies. */
  lemma TextIsTheModels(userMessage: string, history: Transcript, max: int, env: Env)
    ensures var s := Conversation(userMessage, history, max, env);
      TextsOf(s.events) == Said(s.prompts, |s.prompts|, env)
  {
    forall t: Session | SaysIt(t, env) && t.status == Running ensures SaysIt(Turn(t, env), env) {
      TurnSaysIt(t, env);
    }
    forall t: Session | SaysIt(t, env) && t.status == Running ensures SaysIt(OutOfTurns(t, max), env) {
      OneMoreEvent(t.events, Error(HitMaxTurns(max)));
    }
    TurnsKeep(Start(userMessage, history), AtLeastZero(max), max, env, t => SaysIt(t, env));
  }
}
