/**
 Many gateway instances behave like one registry: what each socket was pushed is exactly the bus, filtered
 by its user, over the stretch it was registered for; and what it was pushed is stored.
 */
module ChatTheorems {
  import opened Chat
  import opened Sorting

  // --- one socket against the bus -------------------------------------------------------------

  /** The frames a user's socket gets from the bus between two places, in bus order. */
  function Expected(bus: seq<Envelope>, user: User, start: nat, stop: nat): seq<Frame>
    requires start <= stop <= |bus|
    decreases stop
  {
    if start == stop then []
    else
      Expected(bus, user, start, stop - 1)
      + if user in bus[stop - 1].recipients then [FrameOf(bus[stop - 1])] else []
  }

  /** The frames of a socket that came over the bus. */
  function Pushed(frames: seq<Frame>): seq<Frame> {
    if frames == [] then []
    else
      var f := frames[|frames| - 1];
      Pushed(frames[..|frames| - 1]) + if f.MessageFrame? || f.TypingFrame? then [f] else []
  }

  predicate Registered(inst: Instance, k: nat, user: User) {
    user in inst.conns && inst.conns[user] == k
  }

  function End(bus: seq<Envelope>, inst: Instance, k: nat, sock: Socket): nat {
    if Registered(inst, k, sock.user) then Progress(bus, inst, sock.user) else sock.stop
  }

  ghost predicate SocketOk(bus: seq<Envelope>, inst: Instance, k: nat, sock: Socket) {
    && sock.start <= End(bus, inst, k, sock) <= |bus|
    && Pushed(sock.frames) == Expected(bus, sock.user, sock.start, End(bus, inst, k, sock))
  }

  ghost predicate BusOk(bus: seq<Envelope>) {
    forall e <- bus :: NoDup(e.recipients)
  }

  predicate PlaceOk(bus: seq<Envelope>, inst: Instance) {
    && inst.cursor <= |bus|
    && inst.pos <= if inst.cursor < |bus| then |bus[inst.cursor].recipients| else 0
  }

  lemma {:induction false} ExpectedExtends(bus: seq<Envelope>, e: Envelope, user: User, start: nat, stop: nat)
    requires start <= stop <= |bus|
    ensures Expected(bus + [e], user, start, stop) == Expected(bus, user, start, stop)
    decreases stop
  {
    if start < stop {
      ExpectedExtends(bus, e, user, start, stop - 1);
    }
  }

  lemma PushedSnoc(frames: seq<Frame>, f: Frame)
    ensures Pushed(frames + [f]) == Pushed(frames) + if f.MessageFrame? || f.TypingFrame? then [f] else []
  {
    assert (frames + [f])[..|frames|] == frames;
  }

  lemma PublishSocket(bus: seq<Envelope>, e: Envelope, inst: Instance, k: nat, sock: Socket)
    requires PlaceOk(bus, inst) && SocketOk(bus, inst, k, sock)
    ensures PlaceOk(bus + [e], inst) && SocketOk(bus + [e], inst, k, sock)
    ensures forall u :: Progress(bus + [e], inst, u) == Progress(bus, inst, u)
  {
    assert e.recipients[..0] == [];
    ExpectedExtends(bus, e, sock.user, sock.start, End(bus, inst, k, sock));
  }

  /** A recipient's turn moves that user one envelope on, and nobody else. */
  lemma TurnProgress(bus: seq<Envelope>, inst: Instance, user: User)
    requires BusOk(bus) && PlaceOk(bus, inst) && inst.cursor < |bus| && inst.pos < |bus[inst.cursor].recipients|
    ensures var uid := bus[inst.cursor].recipients[inst.pos];
      && Progress(bus, inst.(pos := inst.pos + 1), user) ==
           (if user == uid then inst.cursor + 1 else Progress(bus, inst, user))
      && Progress(bus, inst, uid) == inst.cursor
  {
    var r := bus[inst.cursor].recipients;
    assert bus[inst.cursor] in bus;
    assert r[..inst.pos + 1] == r[..inst.pos] + [r[inst.pos]];
    forall j | 0 <= j < inst.pos ensures r[..inst.pos][j] != r[inst.pos] {
      assert r[j] != r[inst.pos];
    }
  }

  lemma TurnSocket(bus: seq<Envelope>, inst: Instance, k: nat, sock: Socket)
    requires BusOk(bus) && PlaceOk(bus, inst) && inst.cursor < |bus| && inst.pos < |bus[inst.cursor].recipients|
    requires SocketOk(bus, inst, k, sock)
    ensures var e := bus[inst.cursor];
      var next := inst.(pos := inst.pos + 1);
      if Registered(inst, k, sock.user) && sock.user == e.recipients[inst.pos]
      then SocketOk(bus, next, k, sock.(frames := sock.frames + [FrameOf(e)]))
      else SocketOk(bus, next, k, sock)
  {
    TurnProgress(bus, inst, sock.user);
    PushedSnoc(sock.frames, FrameOf(bus[inst.cursor]));
  }

  lemma FinishSocket(bus: seq<Envelope>, inst: Instance, k: nat, sock: Socket)
    requires PlaceOk(bus, inst) && inst.cursor < |bus| && inst.pos == |bus[inst.cursor].recipients|
    requires SocketOk(bus, inst, k, sock)
    ensures PlaceOk(bus, inst.(cursor := inst.cursor + 1, pos := 0))
    ensures SocketOk(bus, inst.(cursor := inst.cursor + 1, pos := 0), k, sock)
  {
    var e := bus[inst.cursor];
    assert e.recipients[..inst.pos] == e.recipients;
    if inst.cursor + 1 < |bus| {
      assert bus[inst.cursor + 1].recipients[..0] == [];
    }
  }

  // --- the whole system ---------------------------------------------------------------------------

  ghost predicate RegistryOk(s: State, i: nat)
    requires i < |s.instances|
  {
    forall u <- s.instances[i].conns ::
      var k := s.instances[i].conns[u];
      k < |s.sockets| && s.sockets[k].user == u && s.sockets[k].instance == i
  }

  ghost predicate Delivery(s: State) {
    && Distinct(s.participants) && BusOk(s.bus)
    && (forall i: nat :: i < |s.instances| ==> PlaceOk(s.bus, s.instances[i]) && RegistryOk(s, i))
    && (forall k: nat :: k < |s.sockets| ==> s.sockets[k].instance < |s.instances|)
    && (forall k: nat :: k < |s.sockets| ==> SocketOk(s.bus, s.instances[s.sockets[k].instance], k, s.sockets[k]))
    && (forall o: nat :: o < |s.sends| && s.sends[o].phase.Committed? ==> NoDup(s.sends[o].phase.recipients))
  }

  lemma {:induction false} WithoutMember(users: seq<User>, user: User, u: User)
    ensures u in Without(users, user) <==> u in users && u != user
  {
    if users != [] {
      WithoutMember(users[1..], user, u);
      assert users == [users[0]] + users[1..];
    }
  }

  lemma {:induction false} WithoutDistinct(users: seq<User>, user: User)
    requires NoDup(users)
    ensures NoDup(Without(users, user))
  {
    if users != [] {
      var rest := users[1..];
      assert forall i :: 0 <= i < |rest| ==> rest[i] == users[i + 1];
      WithoutDistinct(rest, user);
      WithoutMember(rest, user, users[0]);
    }
  }

  lemma OthersDistinct(participants: map<nat, seq<User>>, conversation: nat, user: User)
    requires Distinct(participants)
    ensures NoDup(Others(participants, conversation, user))
  {
    if conversation in participants {
      WithoutDistinct(participants[conversation], user);
    }
  }

  lemma BusGrows(s: State, t: State, e: Envelope)
    requires Delivery(s) && NoDup(e.recipients)
    requires t == s.(bus := s.bus + [e], sends := t.sends)
    requires forall o: nat :: o < |t.sends| && t.sends[o].phase.Committed? ==> NoDup(t.sends[o].phase.recipients)
    ensures Delivery(t)
  {
    forall i: nat | i < |t.instances| ensures PlaceOk(t.bus, t.instances[i]) {}
    forall k: nat | k < |t.sockets| ensures SocketOk(t.bus, t.instances[t.sockets[k].instance], k, t.sockets[k]) {
      PublishSocket(s.bus, e, s.instances[s.sockets[k].instance], k, s.sockets[k]);
    }
  }

  /** An ack or an error on a socket is not a push. */
  lemma NotAPush(bus: seq<Envelope>, inst: Instance, k: nat, sock: Socket, f: Frame)
    requires SocketOk(bus, inst, k, sock) && (f.Ack? || f.ErrorFrame?)
    ensures SocketOk(bus, inst, k, sock.(frames := sock.frames + [f]))
  {
    PushedSnoc(sock.frames, f);
  }

  lemma FrameOnSocket(s: State, t: State, k: nat, f: Frame)
    requires Delivery(s) && (f.Ack? || f.ErrorFrame?)
    requires t == s.(sockets := PushTo(s.sockets, k, f), sends := t.sends)
    requires forall o: nat :: o < |t.sends| && t.sends[o].phase.Committed? ==> NoDup(t.sends[o].phase.recipients)
    ensures Delivery(t)
  {
    forall i: nat | i < |t.instances| ensures PlaceOk(t.bus, t.instances[i]) && RegistryOk(t, i) {
      assert RegistryOk(s, i);
    }
    forall j: nat | j < |t.sockets| ensures SocketOk(t.bus, t.instances[t.sockets[j].instance], j, t.sockets[j]) {
      if j == k {
        NotAPush(s.bus, s.instances[s.sockets[j].instance], j, s.sockets[j], f);
      } else {
        assert t.sockets[j] == s.sockets[j];
      }
    }
  }

  /** A socket whose registration does not change keeps its account, whatever else the registry holds. */
  lemma SameRegistration(bus: seq<Envelope>, inst: Instance, next: Instance, k: nat, sock: Socket)
    requires SocketOk(bus, inst, k, sock)
    requires next.cursor == inst.cursor && next.pos == inst.pos
    requires Registered(next, k, sock.user) <==> Registered(inst, k, sock.user)
    ensures SocketOk(bus, next, k, sock)
  {
  }

  lemma Retires(bus: seq<Envelope>, inst: Instance, k: nat, sock: Socket)
    requires SocketOk(bus, inst, k, sock) && Registered(inst, k, sock.user)
    ensures SocketOk(bus, inst.(conns := inst.conns - {sock.user}), k, sock.(stop := Progress(bus, inst, sock.user)))
  {
  }

  lemma UnregisterDelivery(s: State, i: nat, user: User)
    requires Delivery(s) && i < |s.instances|
    ensures Delivery(Unregister(s, i, user))
  {
    var t := Unregister(s, i, user);
    assert RegistryOk(s, i) && PlaceOk(s.bus, s.instances[i]);
    forall j: nat | j < |t.instances| ensures RegistryOk(t, j) && PlaceOk(t.bus, t.instances[j]) {
      assert RegistryOk(s, j);
    }
    forall j: nat | j < |t.sockets| ensures SocketOk(t.bus, t.instances[t.sockets[j].instance], j, t.sockets[j]) {
      var inst := s.instances[s.sockets[j].instance];
      assert SocketOk(s.bus, inst, j, s.sockets[j]);
      if t.sockets[j] == s.sockets[j]
        && (s.sockets[j].instance != i || s.sockets[j].user != user || !Registered(inst, j, user))
      {
        SameRegistration(s.bus, inst, t.instances[s.sockets[j].instance], j, s.sockets[j]);
      } else {
        Retires(s.bus, inst, j, s.sockets[j]);
      }
    }
  }

  lemma RegisterDelivery(s: State, i: nat, user: User)
    requires Delivery(s) && i < |s.instances| && user !in s.instances[i].conns
    ensures Delivery(Register(s, i, user))
  {
    var t := Register(s, i, user);
    assert PlaceOk(s.bus, s.instances[i]);
    forall j: nat | j < |t.instances| ensures RegistryOk(t, j) && PlaceOk(t.bus, t.instances[j]) {
      assert RegistryOk(s, j);
    }
    forall k: nat | k < |t.sockets| ensures SocketOk(t.bus, t.instances[t.sockets[k].instance], k, t.sockets[k]) {
      if k < |s.sockets| {
        SameRegistration(s.bus, s.instances[s.sockets[k].instance], t.instances[s.sockets[k].instance], k,
          s.sockets[k]);
      }
    }
  }

  lemma ConnectDelivery(s: State, i: nat, user: User)
    requires Delivery(s) && i < |s.instances|
    ensures Delivery(Register(Unregister(s, i, user), i, user))
  {
    assert RegistryOk(s, i);
    UnregisterDelivery(s, i, user);
    RegisterDelivery(Unregister(s, i, user), i, user);
  }

  lemma TurnSockets(s: State, i: nat, k: nat)
    requires Delivery(s) && Enabled(s, Deliver(i)) && s.instances[i].pos < |s.bus[s.instances[i].cursor].recipients|
    requires k < |s.sockets|
    ensures var t := DeliverNext(s, i);
      && |t.sockets| == |s.sockets| && t.sockets[k].instance == s.sockets[k].instance < |t.instances|
      && SocketOk(t.bus, t.instances[t.sockets[k].instance], k, t.sockets[k])
  {
    assert RegistryOk(s, i) && PlaceOk(s.bus, s.instances[i]);
    assert SocketOk(s.bus, s.instances[s.sockets[k].instance], k, s.sockets[k]);
    if s.sockets[k].instance == i {
      TurnSocket(s.bus, s.instances[i], k, s.sockets[k]);
    }
  }

  lemma TurnDelivery(s: State, i: nat)
    requires Delivery(s) && Enabled(s, Deliver(i)) && s.instances[i].pos < |s.bus[s.instances[i].cursor].recipients|
    ensures Delivery(DeliverNext(s, i))
  {
    var t := DeliverNext(s, i);
    assert PlaceOk(s.bus, s.instances[i]) && RegistryOk(s, i);
    forall j: nat | j < |t.instances| ensures RegistryOk(t, j) && PlaceOk(t.bus, t.instances[j]) {
      assert RegistryOk(s, j);
    }
    forall k: nat | k < |s.sockets| {
      TurnSockets(s, i, k);
    }
  }

  lemma FinishDelivery(s: State, i: nat)
    requires Delivery(s) && Enabled(s, Deliver(i)) && s.instances[i].pos == |s.bus[s.instances[i].cursor].recipients|
    ensures Delivery(DeliverNext(s, i))
  {
    var t := DeliverNext(s, i);
    var inst := s.instances[i];
    forall j: nat | j < |t.instances| ensures RegistryOk(t, j) && PlaceOk(t.bus, t.instances[j]) {
      assert RegistryOk(s, j);
    }
    forall k: nat | k < |t.sockets| ensures SocketOk(t.bus, t.instances[t.sockets[k].instance], k, t.sockets[k]) {
      assert SocketOk(s.bus, s.instances[s.sockets[k].instance], k, s.sockets[k]);
      if s.sockets[k].instance == i {
        FinishSocket(s.bus, inst, k, s.sockets[k]);
      }
    }
  }

  lemma DeliveryStep(s: State, a: Action)
    requires Delivery(s) && Enabled(s, a)
    ensures Delivery(Apply(s, a))
  {
    var t := Apply(s, a);
    match a {
      case Connect(i, user) => ConnectDelivery(s, i, user);
      case Disconnect(k) => UnregisterDelivery(s, s.sockets[k].instance, s.sockets[k].user);
      case Commit(o, _, _) => OthersDistinct(s.participants, s.sends[o].conversation, s.sends[o].sender);
      case Publish(o) => BusGrows(s, t, Message(s.sends[o].phase.recipients, s.sends[o].phase.row));
      case Answer(o) =>
        if s.sends[o].socket.Some? {
          FrameOnSocket(s, t, s.sends[o].socket.value, Ack(s.sends[o].phase.row));
        }
      case Ping(user, conversation) =>
        OthersDistinct(s.participants, conversation, user);
        BusGrows(s, t, Typing(Others(s.participants, conversation, user), conversation, user));
      case Reject(k) => FrameOnSocket(s, t, k, ErrorFrame);
      case Deliver(i) =>
        assert PlaceOk(s.bus, s.instances[i]);
        if s.instances[i].pos < |s.bus[s.instances[i].cursor].recipients| {
          TurnDelivery(s, i);
        } else {
          FinishDelivery(s, i);
        }
      case Request(_) =>
      case StartInstance =>
    }
  }

  lemma {:induction false} DeliveryHolds(run: seq<State>, actions: seq<Action>, n: nat)
    requires Execution(run, actions) && n < |run|
    ensures Delivery(run[n])
  {
    if n > 0 {
      DeliveryHolds(run, actions, n - 1);
      DeliveryStep(run[n - 1], actions[n - 1]);
    }
  }

  /**
   Any number of instances, any interleaving of connects, replacements, disconnects and deliveries: a
   socket's pushes are, in bus order, each envelope naming its user whose turn for that user at the
   socket's instance fell while the socket was the one registered there; no other, none twice, and
   none of those missing.
   */
  lemma OneRegistry(run: seq<State>, actions: seq<Action>, k: nat)
    requires Execution(run, actions) && k < |run[|run| - 1].sockets|
    ensures var s := run[|run| - 1];
      var sock := s.sockets[k];
      && sock.instance < |s.instances|
      && var end := End(s.bus, s.instances[sock.instance], k, sock);
         sock.start <= end <= |s.bus| && Pushed(sock.frames) == Expected(s.bus, sock.user, sock.start, end)
  {
    DeliveryHolds(run, actions, |run| - 1);
    var s := run[|run| - 1];
    assert SocketOk(s.bus, s.instances[s.sockets[k].instance], k, s.sockets[k]);
  }

  // --- what is pushed is stored, once per idempotency key ----------------------------------------

  ghost predicate RowsOk(rows: seq<Row>) {
    forall i, j :: 0 <= i < j < |rows| ==> rows[i].id != rows[j].id && !HasKey(rows[j], rows[i].sender, rows[i].key)
  }

  predicate SendOk(rows: seq<Row>, send: Send) {
    match send.phase
    case Requested(_) => true
    case Committed(row, _) => row in rows && HasKey(row, send.sender, send.key)
    case Published(row) => row in rows && HasKey(row, send.sender, send.key)
    case Answered(row) => row in rows && HasKey(row, send.sender, send.key)
  }

  predicate FrameStored(rows: seq<Row>, f: Frame) {
    f.MessageFrame? || f.Ack? ==> f.payload in rows
  }

  ghost predicate Storage(s: State) {
    && RowsOk(s.rows)
    && (forall send <- s.sends :: SendOk(s.rows, send))
    && (forall e <- s.bus :: FrameStored(s.rows, FrameOf(e)))
    && (forall sock <- s.sockets :: forall f <- sock.frames :: FrameStored(s.rows, f))
  }

  lemma PersistKeeps(rows: seq<Row>, row: Row)
    requires RowsOk(rows) && forall r <- rows :: r.id != row.id
    ensures var (more, stored) := Persist(rows, row);
      RowsOk(more) && rows <= more && stored in more && HasKey(stored, row.sender, row.key)
  {
    forall i | 0 <= i < |rows|
      ensures rows[i].id != row.id
        && (Find(rows, row.sender, row.key).None? ==> !HasKey(row, rows[i].sender, rows[i].key))
    {
      assert rows[i] in rows;
      assert HasKey(row, rows[i].sender, rows[i].key) <==> HasKey(rows[i], row.sender, row.key);
    }
  }

  /** Rows are only ever added. */
  lemma StorageGrows(s: State, t: State)
    requires Storage(s) && RowsOk(t.rows) && s.rows <= t.rows && t.bus == s.bus && t.sockets == s.sockets
    requires forall send <- t.sends :: send in s.sends || SendOk(t.rows, send)
    ensures Storage(t)
  {
    assert forall row <- s.rows :: row in t.rows;
    forall send <- t.sends ensures SendOk(t.rows, send) {
      if send in s.sends { assert SendOk(s.rows, send); }
    }
    forall e <- t.bus ensures FrameStored(t.rows, FrameOf(e)) {
      assert FrameStored(s.rows, FrameOf(e));
    }
    forall sock <- t.sockets, f <- sock.frames ensures FrameStored(t.rows, f) {
      assert FrameStored(s.rows, f);
    }
  }

  lemma PushStored(s: State, t: State, k: nat, f: Frame)
    requires Storage(s) && FrameStored(s.rows, f)
    requires t.rows == s.rows && t.bus == s.bus && t.sockets == PushTo(s.sockets, k, f)
    requires forall send <- t.sends :: SendOk(t.rows, send)
    ensures Storage(t)
  {
    forall sock <- t.sockets, g <- sock.frames ensures FrameStored(t.rows, g) {
      var j :| 0 <= j < |t.sockets| && t.sockets[j] == sock;
      assert s.sockets[j] in s.sockets;
      assert g in s.sockets[j].frames || g == f;
    }
  }

  lemma RegistryStored(s: State, i: nat, user: User)
    requires Storage(s) && i < |s.instances|
    ensures Storage(Unregister(s, i, user)) && Storage(Register(s, i, user))
  {
    var t := Unregister(s, i, user);
    forall sock <- t.sockets, f <- sock.frames ensures FrameStored(t.rows, f) {
      var j :| 0 <= j < |t.sockets| && t.sockets[j] == sock;
      assert s.sockets[j] in s.sockets && sock.frames == s.sockets[j].frames;
    }
  }

  lemma StorageStep(s: State, a: Action)
    requires Storage(s) && Enabled(s, a)
    ensures Storage(Apply(s, a)) && s.rows <= Apply(s, a).rows
  {
    var t := Apply(s, a);
    match a {
      case Connect(i, user) =>
        RegistryStored(s, i, user);
        RegistryStored(Unregister(s, i, user), i, user);
      case Disconnect(k) => RegistryStored(s, s.sockets[k].instance, s.sockets[k].user);
      case Commit(o, id, now) =>
        var send := s.sends[o];
        PersistKeeps(s.rows, Row(id, send.conversation, send.sender, send.phase.body, send.key, now));
        StorageGrows(s, t);
      case Publish(o) =>
        assert SendOk(s.rows, s.sends[o]);
      case Answer(o) =>
        assert SendOk(s.rows, s.sends[o]);
        if s.sends[o].socket.Some? { PushStored(s, t, s.sends[o].socket.value, Ack(s.sends[o].phase.row)); }
      case Reject(k) => PushStored(s, t, k, ErrorFrame);
      case Deliver(i) =>
        var inst := s.instances[i];
        var e := s.bus[inst.cursor];
        if inst.pos < |e.recipients| && e.recipients[inst.pos] in inst.conns {
          PushStored(s, t, inst.conns[e.recipients[inst.pos]], FrameOf(e));
        }
      case Ping(_, _) =>
      case Request(_) =>
      case StartInstance =>
    }
  }

  lemma {:induction false} StorageHolds(run: seq<State>, actions: seq<Action>, n: nat)
    requires Execution(run, actions) && n < |run|
    ensures Storage(run[n])
  {
    if n > 0 {
      StorageHolds(run, actions, n - 1);
      StorageStep(run[n - 1], actions[n - 1]);
    }
  }

  /** Every message a socket was pushed or acked is a committed row. */
  lemma FramesAreStored(run: seq<State>, actions: seq<Action>, k: nat, f: Frame)
    requires Execution(run, actions) && k < |run[|run| - 1].sockets|
    requires f in run[|run| - 1].sockets[k].frames && (f.MessageFrame? || f.Ack?)
    ensures f.payload in run[|run| - 1].rows
  {
    StorageHolds(run, actions, |run| - 1);
    assert run[|run| - 1].sockets[k] in run[|run| - 1].sockets;
  }

  /** A stored message never changes or goes. */
  lemma {:induction false} RowsOnlyGrow(run: seq<State>, actions: seq<Action>, m: nat, n: nat)
    requires Execution(run, actions) && m <= n < |run|
    ensures run[m].rows <= run[n].rows
    decreases n
  {
    if m < n {
      RowsOnlyGrow(run, actions, m, n - 1);
      StorageHolds(run, actions, n - 1);
      StorageStep(run[n - 1], actions[n - 1]);
    }
  }
}
