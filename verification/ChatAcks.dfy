/** What the senders are told: the acks on a socket against the sends that were answered on it. */
module ChatAcks {
  import opened Common
  import opened Chat
  import opened ChatTheorems
  import opened Sorting

  /** The messages a socket was acked, in order. */
  function Acks(frames: seq<Frame>): seq<Row> {
    if frames == [] then []
    else
      var f := frames[|frames| - 1];
      Acks(frames[..|frames| - 1]) + if f.Ack? then [f.payload] else []
  }

  function FramesOf(s: State, k: nat): seq<Frame> {
    if k < |s.sockets| then s.sockets[k].frames else []
  }

  /** The sends of socket k among the first n steps' answers, in answering order. */
  ghost function AnsweredOn(run: seq<State>, actions: seq<Action>, n: nat, k: nat): seq<nat>
    requires |run| == |actions| + 1 && n <= |actions|
  {
    if n == 0 then []
    else
      var a := actions[n - 1];
      AnsweredOn(run, actions, n - 1, k)
      + if a.Answer? && a.op < |run[n - 1].sends| && run[n - 1].sends[a.op].socket == Some(k) then [a.op] else []
  }

  lemma AcksSnoc(frames: seq<Frame>, f: Frame)
    ensures Acks(frames + [f]) == Acks(frames) + if f.Ack? then [f.payload] else []
  {
    assert (frames + [f])[..|frames|] == frames;
  }

  /** The row step a acks on socket k, if it does. */
  function Acked(s: State, a: Action, k: nat): seq<Row>
    requires Enabled(s, a)
  {
    if a.Answer? && s.sends[a.op].socket == Some(k) then [s.sends[a.op].phase.row] else []
  }

  lemma PushedFrames(sockets: seq<Socket>, j: nat, f: Frame, k: nat)
    requires k < |sockets|
    ensures |PushTo(sockets, j, f)| == |sockets|
    ensures Acks(PushTo(sockets, j, f)[k].frames)
         == Acks(sockets[k].frames) + if j == k && f.Ack? then [f.payload] else []
  {
    AcksSnoc(sockets[k].frames, f);
  }

  lemma AnswerFrames(s: State, o: nat, k: nat)
    requires Enabled(s, Answer(o)) && (s.sends[o].socket.Some? ==> s.sends[o].socket.value < |s.sockets|)
    ensures |Apply(s, Answer(o)).sockets| == |s.sockets|
    ensures Acks(FramesOf(Apply(s, Answer(o)), k)) == Acks(FramesOf(s, k)) + Acked(s, Answer(o), k)
  {
    if s.sends[o].socket.Some? && k < |s.sockets| {
      PushedFrames(s.sockets, s.sends[o].socket.value, Ack(s.sends[o].phase.row), k);
    }
  }

  lemma RejectFrames(s: State, j: nat, k: nat)
    requires Enabled(s, Reject(j))
    ensures |Apply(s, Reject(j)).sockets| == |s.sockets|
    ensures Acks(FramesOf(Apply(s, Reject(j)), k)) == Acks(FramesOf(s, k))
  {
    if k < |s.sockets| {
      PushedFrames(s.sockets, j, ErrorFrame, k);
    }
  }

  lemma QuietFrames(s: State, a: Action, k: nat)
    requires Enabled(s, a) && !a.Answer? && !a.Reject? && !a.Deliver?
    ensures |s.sockets| <= |Apply(s, a).sockets| && FramesOf(Apply(s, a), k) == FramesOf(s, k)
  {
  }

  /** Only answers put acks on a socket. */
  lemma FramesStep(s: State, a: Action, k: nat)
    requires Enabled(s, a) && SocketsExist(s)
    ensures Acks(FramesOf(Apply(s, a), k)) == Acks(FramesOf(s, k)) + Acked(s, a, k)
    ensures |s.sockets| <= |Apply(s, a).sockets|
  {
    match a {
      case Answer(o) =>
        assert s.sends[o] in s.sends;
        AnswerFrames(s, o, k);
      case Reject(j) => RejectFrames(s, j, k);
      case Deliver(i) => DeliverFrames(s, i, k);
      case _ => QuietFrames(s, a, k);
    }
  }

  lemma DeliverFrames(s: State, i: nat, k: nat)
    requires Enabled(s, Deliver(i))
    ensures |Apply(s, Deliver(i)).sockets| == |s.sockets|
    ensures Acks(FramesOf(Apply(s, Deliver(i)), k)) == Acks(FramesOf(s, k))
  {
    var inst := s.instances[i];
    var e := s.bus[inst.cursor];
    if k < |s.sockets| && inst.pos < |e.recipients| && e.recipients[inst.pos] in inst.conns {
      PushedFrames(s.sockets, inst.conns[e.recipients[inst.pos]], FrameOf(e), k);
    }
  }

  /** A send names a socket that was there when it came in. */
  predicate SocketsExist(s: State) {
    forall send <- s.sends :: send.socket.Some? ==> send.socket.value < |s.sockets|
  }

  /** A send keeps what it asked for; and it is answered by its own answer only, for good. */
  predicate SameSend(before: Send, after: Send) {
    && after.sender == before.sender && after.key == before.key && after.socket == before.socket
    && after.conversation == before.conversation
    && (before.phase.Answered? ==> after == before)
  }

  lemma SendsStep(s: State, a: Action)
    requires Enabled(s, a)
    ensures |s.sends| <= |Apply(s, a).sends|
    ensures forall o :: 0 <= o < |s.sends| ==> SameSend(s.sends[o], Apply(s, a).sends[o])
    ensures forall o :: 0 <= o < |s.sends| ==>
      (Apply(s, a).sends[o].phase.Answered? <==> s.sends[o].phase.Answered? || a == Answer(o))
    ensures forall o :: |s.sends| <= o < |Apply(s, a).sends| ==> !Apply(s, a).sends[o].phase.Answered?
    ensures a.Answer? ==> Apply(s, a).sends[a.op].phase == Answered(s.sends[a.op].phase.row)
  {
  }

  lemma SocketsStep(s: State, a: Action)
    requires Enabled(s, a) && SocketsExist(s)
    ensures SocketsExist(Apply(s, a))
  {
    var t := Apply(s, a);
    FramesStep(s, a, 0);
    SendsStep(s, a);
    forall o | 0 <= o < |t.sends| && t.sends[o].socket.Some? ensures t.sends[o].socket.value < |t.sockets| {
      if o < |s.sends| {
        assert s.sends[o] in s.sends;
      }
    }
  }

  /** These acks are the rows of these sends, which are all that were answered on socket k. */
  ghost predicate AckedBy(sends: seq<Send>, acks: seq<Row>, k: nat, ops: seq<nat>) {
    && NoDup(ops) && |acks| == |ops|
    && (forall o: nat :: o in ops <==> o < |sends| && sends[o].phase.Answered? && sends[o].socket == Some(k))
    && (forall i :: 0 <= i < |ops| ==>
          ops[i] < |sends| && sends[ops[i]].phase.Answered? && acks[i] == sends[ops[i]].phase.row)
  }

  ghost predicate AckedAs(s: State, k: nat, ops: seq<nat>) {
    AckedBy(s.sends, Acks(FramesOf(s, k)), k, ops)
  }

  /** The sends go on as they may, and the one that is answered now, if any, is `done`. */
  ghost predicate SendsGoOn(before: seq<Send>, after: seq<Send>, done: Option<nat>) {
    && |before| <= |after| && (done.Some? ==> done.value < |before| && !before[done.value].phase.Answered?)
    && (forall o :: 0 <= o < |before| ==> SameSend(before[o], after[o]))
    && (forall o :: 0 <= o < |before| ==>
          (after[o].phase.Answered? <==> before[o].phase.Answered? || done == Some(o)))
    && (forall o :: |before| <= o < |after| ==> !after[o].phase.Answered?)
  }

  lemma AckedStays(before: seq<Send>, after: seq<Send>, done: Option<nat>, acks: seq<Row>, k: nat, ops: seq<nat>)
    requires AckedBy(before, acks, k, ops) && SendsGoOn(before, after, done)
    requires done.Some? ==> before[done.value].socket != Some(k)
    ensures AckedBy(after, acks, k, ops)
  {
  }

  lemma AckedMore(before: seq<Send>, after: seq<Send>, o: nat, acks: seq<Row>, k: nat, ops: seq<nat>)
    requires AckedBy(before, acks, k, ops) && SendsGoOn(before, after, Some(o)) && before[o].socket == Some(k)
    ensures after[o].phase.Answered? && AckedBy(after, acks + [after[o].phase.row], k, ops + [o])
  {
  }

  lemma SendsStepOn(s: State, a: Action)
    requires Enabled(s, a)
    ensures SendsGoOn(s.sends, Apply(s, a).sends, if a.Answer? then Some(a.op) else None)
    ensures a.Answer? ==> Apply(s, a).sends[a.op].phase == Answered(s.sends[a.op].phase.row)
  {
    SendsStep(s, a);
  }

  lemma AckStep(s: State, a: Action, k: nat, ops: seq<nat>)
    requires Enabled(s, a) && SocketsExist(s) && AckedAs(s, k, ops)
    ensures AckedAs(Apply(s, a), k, ops + if a.Answer? && s.sends[a.op].socket == Some(k) then [a.op] else [])
  {
    var t, acks := Apply(s, a), Acks(FramesOf(s, k));
    FramesStep(s, a, k);
    SendsStepOn(s, a);
    if a.Answer? && s.sends[a.op].socket == Some(k) {
      AckedMore(s.sends, t.sends, a.op, acks, k, ops);
    } else {
      AckedStays(s.sends, t.sends, if a.Answer? then Some(a.op) else None, acks, k, ops);
      assert ops + [] == ops && acks + [] == acks;
    }
  }

  lemma {:induction false} AcksHold(run: seq<State>, actions: seq<Action>, n: nat, k: nat)
    requires Execution(run, actions) && n <= |actions|
    ensures SocketsExist(run[n]) && AckedAs(run[n], k, AnsweredOn(run, actions, n, k))
  {
    if n > 0 {
      AcksHold(run, actions, n - 1, k);
      SocketsStep(run[n - 1], actions[n - 1]);
      AckStep(run[n - 1], actions[n - 1], k, AnsweredOn(run, actions, n - 1, k));
    }
  }

  /**
   Over every execution: the acks on a socket are, one for one and in answering order, the rows of the sends
   answered on it; each is a stored row under that send's own sender and key, and there are no others.
   */
  lemma AcksExactly(run: seq<State>, actions: seq<Action>, k: nat)
    requires Execution(run, actions) && k < |run[|actions|].sockets|
    ensures var s, ops := run[|actions|], AnsweredOn(run, actions, |actions|, k);
      var acks := Acks(s.sockets[k].frames);
      && AckedAs(s, k, ops)
      && forall i :: 0 <= i < |acks| ==>
           acks[i] in s.rows && HasKey(acks[i], s.sends[ops[i]].sender, s.sends[ops[i]].key)
  {
    var s, ops := run[|actions|], AnsweredOn(run, actions, |actions|, k);
    AcksHold(run, actions, |actions|, k);
    StorageHolds(run, actions, |actions|);
    forall i | 0 <= i < |ops|
      ensures SendOk(s.rows, s.sends[ops[i]]) && s.sends[ops[i]].phase.Answered? {
      assert s.sends[ops[i]] in s.sends;
    }
  }

  /** Two stored rows under one key are one. */
  lemma OneRow(rows: seq<Row>, a: Row, b: Row)
    requires RowsOk(rows) && a in rows && b in rows && a.sender == b.sender && a.key == b.key
    ensures a == b
  {
    var i :| 0 <= i < |rows| && rows[i] == a;
    var j :| 0 <= j < |rows| && rows[j] == b;
  }

  /**
   However often a key is retried, on whatever sockets or over HTTP: every answer and every ack under the key
   carries the one stored row, and ids are unique.
   */
  lemma RetriesAgree(run: seq<State>, actions: seq<Action>, o: nat, k: nat, ack: Row)
    requires Execution(run, actions)
    requires o < |run[|actions|].sends| && run[|actions|].sends[o].phase.Answered?
    ensures var s := run[|actions|];
      var send := s.sends[o];
      && send.phase.row in s.rows && HasKey(send.phase.row, send.sender, send.key)
      && (forall row <- s.rows :: HasKey(row, send.sender, send.key) ==> row == send.phase.row)
      && (send.socket == Some(k) ==> send.phase.row in Acks(FramesOf(s, k)))
      && (ack in Acks(FramesOf(s, k)) && HasKey(ack, send.sender, send.key) ==> ack == send.phase.row)
      && (forall i, j :: 0 <= i < j < |s.rows| ==> s.rows[i].id != s.rows[j].id)
  {
    var s, ops := run[|actions|], AnsweredOn(run, actions, |actions|, k);
    var send := s.sends[o];
    StorageHolds(run, actions, |actions|);
    assert send in s.sends && SendOk(s.rows, send);
    forall row <- s.rows | HasKey(row, send.sender, send.key) ensures row == send.phase.row {
      OneRow(s.rows, row, send.phase.row);
    }
    AcksHold(run, actions, |actions|, k);
    if send.socket == Some(k) {
      assert o in ops;
      var i :| 0 <= i < |ops| && ops[i] == o;
      assert Acks(FramesOf(s, k))[i] == send.phase.row;
    }
    if k < |s.sockets| {
      AcksExactly(run, actions, k);
    }
  }
}
