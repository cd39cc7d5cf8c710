/**
 The chat gateway: any number of instances, each with its own registry of sockets and its own place on
 one broadcast bus, over a message table with an idempotency key.
 */
module Chat {
  import opened Common
  import opened Sorting

  type User = nat

  /** A stored message; it is also the payload sent to clients. */
  datatype Row = Row(id: nat, conversation: nat, sender: User, body: string, key: string, createdAt: int)

  datatype Envelope =
    | Message(recipients: seq<User>, payload: Row)
    | Typing(recipients: seq<User>, conversation: nat, user: User)

  datatype Frame =
    | MessageFrame(payload: Row)
    | TypingFrame(conversation: nat, user: User)
    | Ack(payload: Row)
    | ErrorFrame

  /** `start` and `stop` remember where on the bus the socket was registered and, once it is not, deregistered. */
  datatype Socket = Socket(user: User, instance: nat, frames: seq<Frame>, start: nat, stop: nat)

  /** The registry, and how far the subscriber is: the envelope it is at, and how many of its recipients are done. */
  datatype Instance = Instance(conns: map<User, nat>, cursor: nat, pos: nat)

  datatype Phase =
    | Requested(body: string)
    | Committed(row: Row, recipients: seq<User>)
    | Published(row: Row)
    | Answered(row: Row)

  datatype Send = Send(sender: User, conversation: nat, key: string, socket: Option<nat>, phase: Phase)

  datatype State = State(users: set<User>, participants: map<nat, seq<User>>, rows: seq<Row>, bus: seq<Envelope>,
                         instances: seq<Instance>, sockets: seq<Socket>, sends: seq<Send>)

  datatype Action =
    | StartInstance
    | Connect(instance: nat, user: User)
    | Disconnect(socket: nat)
    | Request(send: Send)
    | Commit(op: nat, id: nat, now: int)
    | Publish(op: nat)
    | Answer(op: nat)
    | Ping(user: User, conversation: nat)
    | Reject(socket: nat)
    | Deliver(instance: nat)

  // --- sends ---------------------------------------------------------------------------------

  /** The other participants of a conversation. */
  function Others(participants: map<nat, seq<User>>, conversation: nat, user: User): seq<User> {
    if conversation in participants then Without(participants[conversation], user) else []
  }

  function Without(users: seq<User>, user: User): seq<User> {
    if users == [] then []
    else (if users[0] == user then [] else [users[0]]) + Without(users[1..], user)
  }

  predicate HasKey(row: Row, sender: User, key: string) {
    row.sender == sender && row.key == key
  }

  /** The row stored under an idempotency key. */
  function Find(rows: seq<Row>, sender: User, key: string): (found: Option<Row>)
    ensures found.Some? ==> found.value in rows && HasKey(found.value, sender, key)
    ensures found.None? ==> forall row <- rows :: !HasKey(row, sender, key)
  {
    if rows == [] then None
    else if HasKey(rows[0], sender, key) then Some(rows[0])
    else Find(rows[1..], sender, key)
  }

  /** INSERT ... ON CONFLICT DO NOTHING, then the stored row either way. */
  function Persist(rows: seq<Row>, row: Row): (seq<Row>, Row) {
    match Find(rows, row.sender, row.key)
    case Some(stored) => (rows, stored)
    case None => (rows + [row], row)
  }

  /** The foreign keys of a new message. */
  predicate Known(users: set<User>, participants: map<nat, seq<User>>, sender: User, conversation: nat) {
    sender in users && conversation in participants
  }

  // --- the last hop ---------------------------------------------------------------------------

  function FrameOf(e: Envelope): Frame {
    match e
    case Message(_, payload) => MessageFrame(payload)
    case Typing(_, conversation, user) => TypingFrame(conversation, user)
  }

  function PushTo(sockets: seq<Socket>, k: nat, f: Frame): seq<Socket> {
    if k < |sockets| then sockets[k := sockets[k].(frames := sockets[k].frames + [f])] else sockets
  }

  /** Where a user is on the bus, for an instance: behind every envelope whose turn for that user is past. */
  function Progress(bus: seq<Envelope>, inst: Instance, user: User): nat {
    if inst.cursor < |bus| && inst.pos <= |bus[inst.cursor].recipients|
      && user in bus[inst.cursor].recipients[..inst.pos]
    then inst.cursor + 1 else inst.cursor
  }

  /** The socket an instance has registered for a user, if any, stops being it. */
  function Unregister(s: State, i: nat, user: User): State
    requires i < |s.instances|
  {
    var inst := s.instances[i];
    if user in inst.conns && inst.conns[user] < |s.sockets| then
      var k := inst.conns[user];
      s.(sockets := s.sockets[k := s.sockets[k].(stop := Progress(s.bus, inst, user))],
         instances := s.instances[i := inst.(conns := inst.conns - {user})])
    else s
  }

  /** A new socket takes the user's entry. */
  function Register(s: State, i: nat, user: User): State
    requires i < |s.instances|
  {
    var inst := s.instances[i];
    s.(sockets := s.sockets + [Socket(user, i, [], Progress(s.bus, inst, user), 0)],
       instances := s.instances[i := inst.(conns := inst.conns[user := |s.sockets|])])
  }

  // --- the system --------------------------------------------------------------------------------

  predicate Enabled(s: State, a: Action) {
    match a
    case StartInstance => true
    case Connect(i, _) => i < |s.instances|
    case Disconnect(k) => k < |s.sockets| && s.sockets[k].instance < |s.instances|
    case Request(send) => send.phase.Requested? && (send.socket.Some? ==> send.socket.value < |s.sockets|)
    case Commit(o, id, _) =>
      o < |s.sends| && s.sends[o].phase.Requested?
      && (Known(s.users, s.participants, s.sends[o].sender, s.sends[o].conversation)
          || Find(s.rows, s.sends[o].sender, s.sends[o].key).Some?)
      && forall row <- s.rows :: row.id != id
    case Publish(o) => o < |s.sends| && s.sends[o].phase.Committed?
    case Answer(o) => o < |s.sends| && s.sends[o].phase.Published?
    case Ping(_, _) => true
    case Reject(k) => k < |s.sockets|
    case Deliver(i) => i < |s.instances| && s.instances[i].cursor < |s.bus|
  }

  function SetPhase(s: State, o: nat, phase: Phase): State
    requires o < |s.sends|
  {
    s.(sends := s.sends[o := s.sends[o].(phase := phase)])
  }

  /** One recipient's turn, or the end of the envelope. */
  function DeliverNext(s: State, i: nat): State
    requires Enabled(s, Deliver(i))
  {
    var inst := s.instances[i];
    var e := s.bus[inst.cursor];
    if inst.pos < |e.recipients| then
      var uid := e.recipients[inst.pos];
      s.(instances := s.instances[i := inst.(pos := inst.pos + 1)],
         sockets := if uid in inst.conns then PushTo(s.sockets, inst.conns[uid], FrameOf(e)) else s.sockets)
    else
      s.(instances := s.instances[i := inst.(cursor := inst.cursor + 1, pos := 0)])
  }

  function Apply(s: State, a: Action): State
    requires Enabled(s, a)
  {
    match a
    case StartInstance => s.(instances := s.instances + [Instance(map[], |s.bus|, 0)])
    case Connect(i, user) => Register(Unregister(s, i, user), i, user)
    case Disconnect(k) =>
      var user, i := s.sockets[k].user, s.sockets[k].instance;
      var conns := s.instances[i].conns;
      if user in conns && conns[user] == k then Unregister(s, i, user) else s
    case Request(send) => s.(sends := s.sends + [send])
    case Commit(o, id, now) =>
      var send := s.sends[o];
      var (rows, row) := Persist(s.rows, Row(id, send.conversation, send.sender, send.phase.body, send.key, now));
      SetPhase(s, o, Committed(row, Others(s.participants, send.conversation, send.sender))).(rows := rows)
    case Publish(o) =>
      var Committed(row, recipients) := s.sends[o].phase;
      SetPhase(s, o, Published(row)).(bus := s.bus + [Message(recipients, row)])
    case Answer(o) =>
      var send := s.sends[o];
      var t := SetPhase(s, o, Answered(send.phase.row));
      if send.socket.Some? then t.(sockets := PushTo(s.sockets, send.socket.value, Ack(send.phase.row))) else t
    case Ping(user, conversation) =>
      s.(bus := s.bus + [Typing(Others(s.participants, conversation, user), conversation, user)])
    case Reject(k) => s.(sockets := PushTo(s.sockets, k, ErrorFrame))
    case Deliver(i) => DeliverNext(s, i)
  }

  /** The participants of a conversation are distinct: they are the table's primary key. */
  predicate Distinct(participants: map<nat, seq<User>>) {
    forall c <- participants :: NoDup(participants[c])
  }

  predicate Init(s: State) {
    Distinct(s.participants) && s == State(s.users, s.participants, [], [], [], [], [])
  }

  ghost predicate Execution(run: seq<State>, actions: seq<Action>) {
    && |run| == |actions| + 1 && Init(run[0])
    && forall k :: 0 <= k < |actions| ==> Enabled(run[k], actions[k]) && run[k + 1] == Apply(run[k], actions[k])
  }
}
