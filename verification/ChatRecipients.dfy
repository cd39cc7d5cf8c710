/**
 Who is sent a message. The recipients are looked up by the conversation a request names, but the payload
 is the stored row, and under a key that was used before that may be a row of another conversation.
 */
module ChatRecipients {
  import opened Common
  import opened Chat
  import opened ChatTheorems

  // --- one call ------------------------------------------------------------------------------

  /** The key is new, or its row has the requested conversation. */
  predicate Fits(rows: seq<Row>, sender: User, key: string, conversation: nat) {
    var stored := Find(rows, sender, key);
    stored.None? || stored.value.conversation == conversation
  }

  /** A message of one conversation goes to that conversation, for every participants table, exactly if it fits. */
  lemma RecipientsExactly(rows: seq<Row>, row: Row)
    ensures (forall participants :: Distinct(participants) ==>
        var payload := Persist(rows, row).1;
        Others(participants, row.conversation, row.sender) ==
          Others(participants, payload.conversation, payload.sender))
      <==> Fits(rows, row.sender, row.key, row.conversation)
  {
    var payload := Persist(rows, row).1;
    if !Fits(rows, row.sender, row.key, row.conversation) {
      var stranger := row.sender + 1;
      var participants: map<nat, seq<User>> := map[row.conversation := [stranger]];
      assert Distinct(participants);
      WithoutMember([stranger], row.sender, stranger);
      assert Others(participants, payload.conversation, payload.sender) == [];
    }
  }

  // --- all executions ----------------------------------------------------------------------------

  /** Requests of a sender that reuse a key name one conversation. */
  predicate OneConversation(sends: seq<Send>) {
    forall o, p :: 0 <= o < |sends| && 0 <= p < |sends| && sends[o].sender == sends[p].sender
      && sends[o].key == sends[p].key
      ==> sends[o].conversation == sends[p].conversation
  }

  predicate AskedBy(row: Row, send: Send) {
    HasKey(row, send.sender, send.key) && row.conversation == send.conversation
  }

  ghost predicate Asked(row: Row, sends: seq<Send>) {
    exists send <- sends :: AskedBy(row, send)
  }

  predicate Inside(participants: map<nat, seq<User>>, recipients: seq<User>, row: Row) {
    recipients == Others(participants, row.conversation, row.sender)
  }

  predicate EnvelopeInside(participants: map<nat, seq<User>>, e: Envelope) {
    e.Message? ==> Inside(participants, e.recipients, e.payload)
  }

  predicate FrameInside(participants: map<nat, seq<User>>, user: User, f: Frame) {
    f.MessageFrame? ==> user in Others(participants, f.payload.conversation, f.payload.sender)
  }

  predicate SendInside(participants: map<nat, seq<User>>, send: Send) {
    send.phase.Committed? ==> Inside(participants, send.phase.recipients, send.phase.row)
  }

  ghost predicate SocketInside(participants: map<nat, seq<User>>, sock: Socket) {
    forall f <- sock.frames :: FrameInside(participants, sock.user, f)
  }

  ghost predicate KeptInside(s: State) {
    && (forall row <- s.rows :: Asked(row, s.sends))
    && (forall send <- s.sends :: SendInside(s.participants, send))
    && (forall e <- s.bus :: EnvelopeInside(s.participants, e))
    && (forall sock <- s.sockets :: SocketInside(s.participants, sock))
  }

  /** The requests stay as they were made. */
  predicate SendsGrow(before: seq<Send>, after: seq<Send>) {
    |before| <= |after| && forall o :: 0 <= o < |before| ==> after[o] == before[o].(phase := after[o].phase)
  }

  lemma StepSends(s: State, a: Action)
    requires Enabled(s, a)
    ensures SendsGrow(s.sends, Apply(s, a).sends) && Apply(s, a).participants == s.participants
  {
  }

  lemma EarlierOne(before: seq<Send>, after: seq<Send>)
    requires SendsGrow(before, after) && OneConversation(after)
    ensures OneConversation(before)
  {
    forall o, p | 0 <= o < |before| && 0 <= p < |before| && before[o].sender == before[p].sender
      && before[o].key == before[p].key
      ensures before[o].conversation == before[p].conversation
    {
      assert after[o].conversation == after[p].conversation;
    }
  }

  lemma StillAsked(row: Row, before: seq<Send>, after: seq<Send>)
    requires SendsGrow(before, after) && Asked(row, before)
    ensures Asked(row, after)
  {
    var o :| 0 <= o < |before| && AskedBy(row, before[o]);
    assert AskedBy(row, after[o]) && after[o] in after;
  }

  /** Under one conversation a key, a committed send's recipients are those of its row. */
  lemma CommitInside(s: State, o: nat, id: nat, now: int)
    requires Enabled(s, Commit(o, id, now)) && OneConversation(s.sends)
    requires forall row <- s.rows :: Asked(row, s.sends)
    ensures Inside(s.participants, Apply(s, Commit(o, id, now)).sends[o].phase.recipients,
                   Apply(s, Commit(o, id, now)).sends[o].phase.row)
  {
    var send := s.sends[o];
    var stored := Find(s.rows, send.sender, send.key);
    if stored.Some? {
      var p :| 0 <= p < |s.sends| && AskedBy(stored.value, s.sends[p]);
    }
  }

  lemma CommitKeepsInside(s: State, o: nat, id: nat, now: int)
    requires KeptInside(s) && Enabled(s, Commit(o, id, now)) && OneConversation(s.sends)
    ensures KeptInside(Apply(s, Commit(o, id, now)))
  {
    var t := Apply(s, Commit(o, id, now));
    CommitInside(s, o, id, now);
    forall row <- t.rows ensures Asked(row, t.sends) {
      if row in s.rows {
        StillAsked(row, s.sends, t.sends);
      } else {
        assert AskedBy(row, t.sends[o]);
      }
    }
  }

  lemma PushInside(participants: map<nat, seq<User>>, sockets: seq<Socket>, k: nat, f: Frame)
    requires forall sock <- sockets :: SocketInside(participants, sock)
    requires k < |sockets| ==> FrameInside(participants, sockets[k].user, f)
    ensures forall sock <- PushTo(sockets, k, f) :: SocketInside(participants, sock)
  {
    forall j | 0 <= j < |PushTo(sockets, k, f)| ensures SocketInside(participants, PushTo(sockets, k, f)[j]) {
      assert SocketInside(participants, sockets[j]);
    }
  }

  lemma UnregisterInside(s: State, i: nat, user: User)
    requires KeptInside(s) && i < |s.instances|
    ensures KeptInside(Unregister(s, i, user))
  {
    var t := Unregister(s, i, user);
    forall j | 0 <= j < |t.sockets| ensures SocketInside(t.participants, t.sockets[j]) {
      assert SocketInside(s.participants, s.sockets[j]);
    }
  }

  lemma TurnInside(s: State, i: nat)
    requires KeptInside(s) && Enabled(s, Deliver(i)) && RegistryOk(s, i)
    ensures KeptInside(DeliverNext(s, i))
  {
    var inst := s.instances[i];
    var e := s.bus[inst.cursor];
    assert EnvelopeInside(s.participants, e);
    if inst.pos < |e.recipients| && e.recipients[inst.pos] in inst.conns {
      PushInside(s.participants, s.sockets, inst.conns[e.recipients[inst.pos]], FrameOf(e));
    }
  }

  lemma StepKeepsInside(s: State, a: Action)
    requires KeptInside(s) && Delivery(s) && Enabled(s, a) && OneConversation(s.sends)
    ensures KeptInside(Apply(s, a))
  {
    var t := Apply(s, a);
    StepSends(s, a);
    match a {
      case Commit(o, id, now) => CommitKeepsInside(s, o, id, now);
      case Connect(i, user) => UnregisterInside(s, i, user);
      case Disconnect(k) => UnregisterInside(s, s.sockets[k].instance, s.sockets[k].user);
      case Deliver(i) => TurnInside(s, i);
      case Answer(o) =>
        if s.sends[o].socket.Some? {
          PushInside(s.participants, s.sockets, s.sends[o].socket.value, Ack(s.sends[o].phase.row));
        }
        forall row <- s.rows { StillAsked(row, s.sends, t.sends); }
      case Reject(k) => PushInside(s.participants, s.sockets, k, ErrorFrame);
      case Publish(o) =>
        assert SendInside(s.participants, s.sends[o]);
        forall row <- s.rows { StillAsked(row, s.sends, t.sends); }
      case Request(_) =>
        forall row <- s.rows { StillAsked(row, s.sends, t.sends); }
      case _ =>
    }
  }

  lemma {:induction false} InsideHolds(run: seq<State>, actions: seq<Action>, n: nat)
    requires Execution(run, actions) && n < |run| && OneConversation(run[n].sends)
    ensures KeptInside(run[n]) && run[n].participants == run[0].participants
  {
    if n > 0 {
      StepSends(run[n - 1], actions[n - 1]);
      EarlierOne(run[n - 1].sends, run[n].sends);
      InsideHolds(run, actions, n - 1);
      DeliveryHolds(run, actions, n - 1);
      StepKeepsInside(run[n - 1], actions[n - 1]);
    }
  }

  lemma {:induction false} OthersMember(participants: map<nat, seq<User>>, conversation: nat, sender: User, u: User)
    ensures u in Others(participants, conversation, sender)
      <==> conversation in participants && u in participants[conversation] && u != sender
  {
    if conversation in participants {
      WithoutMember(participants[conversation], sender, u);
    }
  }

  /**
   Over every execution in which requests that reuse a key name one conversation: a message is pushed only
   to participants of its own conversation other than its sender.
   */
  lemma MessagesStayInside(run: seq<State>, actions: seq<Action>, k: nat, f: Frame)
    requires Execution(run, actions) && OneConversation(run[|run| - 1].sends)
    requires k < |run[|run| - 1].sockets| && f in run[|run| - 1].sockets[k].frames && f.MessageFrame?
    ensures var sock := run[|run| - 1].sockets[k];
      && f.payload.conversation in run[0].participants && sock.user in run[0].participants[f.payload.conversation]
      && sock.user != f.payload.sender
  {
    var s := run[|run| - 1];
    InsideHolds(run, actions, |run| - 1);
    assert SocketInside(s.participants, s.sockets[k]) && FrameInside(s.participants, s.sockets[k].user, f);
    OthersMember(s.participants, f.payload.conversation, f.payload.sender, s.sockets[k].user);
  }

  // --- a retry that names another conversation -------------------------------------------------------

  ghost predicate LeadsTo(run: seq<State>, actions: seq<Action>, s: State) {
    Execution(run, actions) && run[|run| - 1] == s
  }

  lemma Extend(run: seq<State>, actions: seq<Action>, s: State, a: Action, next: State)
    returns (run': seq<State>, actions': seq<Action>)
    requires LeadsTo(run, actions, s) && Enabled(s, a) && next == Apply(s, a)
    ensures LeadsTo(run', actions', next)
  {
    run', actions' := run + [next], actions + [a];
  }

  /** User 1 talks to user 2 in conversation 1 and to user 3 in conversation 2. */
  const TWO_TALKS: map<nat, seq<User>> := map[1 := [1, 2], 2 := [1, 3]]

  function FirstSend(phase: Phase): Send {
    Send(1, 1, "key", None, phase)
  }

  function Retry(phase: Phase): Send {
    Send(1, 2, "key", None, phase)
  }

  const FIRST_MESSAGE: Row := Row(1, 1, 1, "for user 2", "key", 0)

  /** User 3 is connected. */
  function Talking(rows: seq<Row>, bus: seq<Envelope>, pos: nat, frames: seq<Frame>, sends: seq<Send>): State {
    State({1, 2, 3}, TWO_TALKS, rows, bus, [Instance(map[3 := 0], 0, pos)], [Socket(3, 0, frames, 0, 0)], sends)
  }

  lemma FirstStored() returns (run: seq<State>, actions: seq<Action>)
    ensures LeadsTo(run, actions, Talking([FIRST_MESSAGE], [], 0, [], [FirstSend(Committed(FIRST_MESSAGE, [2]))]))
  {
    var s0 := State({1, 2, 3}, TWO_TALKS, [], [], [], [], []);
    var s1 := s0.(instances := [Instance(map[], 0, 0)]);
    var body := "for user 2";
    run, actions := Extend([s0], [], s0, StartInstance, s1);
    run, actions := Extend(run, actions, s1, Connect(0, 3), Talking([], [], 0, [], []));
    run, actions := Extend(run, actions, Talking([], [], 0, [], []), Request(FirstSend(Requested(body))),
                           Talking([], [], 0, [], [FirstSend(Requested(body))]));
    TwoTalkers();
    run, actions := Extend(run, actions, Talking([], [], 0, [], [FirstSend(Requested(body))]), Commit(0, 1, 0),
                           Talking([FIRST_MESSAGE], [], 0, [], [FirstSend(Committed(FIRST_MESSAGE, [2]))]));
  }

  lemma TwoTalkers()
    ensures Others(TWO_TALKS, 1, 1) == [2] && Others(TWO_TALKS, 2, 1) == [3]
  {
    assert [1, 2][1..] == [2] && [2][1..] == [] && [1, 3][1..] == [3] && [3][1..] == [];
  }

  lemma SecondStored(first: Send) returns (run: seq<State>, actions: seq<Action>)
    requires first == FirstSend(Committed(FIRST_MESSAGE, [2]))
    ensures LeadsTo(run, actions, Talking([FIRST_MESSAGE], [], 0, [], [first, Retry(Committed(FIRST_MESSAGE, [3]))]))
  {
    run, actions := FirstStored();
    var s4 := Talking([FIRST_MESSAGE], [], 0, [], [first]);
    var s5 := Talking([FIRST_MESSAGE], [], 0, [], [first, Retry(Requested("again"))]);
    var s6 := Talking([FIRST_MESSAGE], [], 0, [], [first, Retry(Committed(FIRST_MESSAGE, [3]))]);
    run, actions := Extend(run, actions, s4, Request(Retry(Requested("again"))), s5);
    TwoTalkers();
    run, actions := Extend(run, actions, s5, Commit(1, 2, 0), s6);
  }

  lemma LastTurn(bus: seq<Envelope>, sends: seq<Send>)
    requires bus == [Message([3], FIRST_MESSAGE)]
    ensures var s := Talking([FIRST_MESSAGE], bus, 0, [], sends);
      && Enabled(s, Deliver(0))
      && Apply(s, Deliver(0)) == Talking([FIRST_MESSAGE], bus, 1, [MessageFrame(FIRST_MESSAGE)], sends)
  {
    assert [] + [MessageFrame(FIRST_MESSAGE)] == [MessageFrame(FIRST_MESSAGE)];
  }

  /** A retry under the key of a message in conversation 1 that names conversation 2 pushes that message to user 3. */
  lemma RetryReachesStranger() returns (run: seq<State>, actions: seq<Action>)
    ensures Execution(run, actions) && run[0].participants == TWO_TALKS
    ensures var s := run[|run| - 1];
      |s.sockets| == 1 && s.sockets[0].user == 3 && s.sockets[0].frames == [MessageFrame(FIRST_MESSAGE)]
    ensures FIRST_MESSAGE.conversation == 1 && 3 !in TWO_TALKS[1]
  {
    var first := FirstSend(Committed(FIRST_MESSAGE, [2]));
    run, actions := SecondStored(first);
    var bus := [Message([3], FIRST_MESSAGE)];
    var s6 := Talking([FIRST_MESSAGE], [], 0, [], [first, Retry(Committed(FIRST_MESSAGE, [3]))]);
    var sends := [first, Retry(Published(FIRST_MESSAGE))];
    var s7 := Talking([FIRST_MESSAGE], bus, 0, [], sends);
    assert [] + bus == bus;
    run, actions := Extend(run, actions, s6, Publish(1), s7);
    LastTurn(bus, sends);
    run, actions :=
      Extend(run, actions, s7, Deliver(0), Talking([FIRST_MESSAGE], bus, 1, [MessageFrame(FIRST_MESSAGE)], sends));
    SameTable(run, actions);
  }

  lemma {:induction false} SameTable(run: seq<State>, actions: seq<Action>)
    requires Execution(run, actions)
    ensures run[0].participants == run[|run| - 1].participants
    decreases |actions|
  {
    if actions != [] {
      var n := |actions| - 1;
      StepSends(run[n], actions[n]);
      SameTable(run[..|run| - 1], actions[..n]);
    }
  }
}
