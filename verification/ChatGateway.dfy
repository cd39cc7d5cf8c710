/** The gateway's own code: one instance's registry and last hop, and the shared write path. */
module ChatGateway {
  import opened Common
  import opened Chat
  import opened ChatRecipients
  import opened ChatSessions
  import opened ChatTheorems
  import opened Sorting

  /** The message tables and the bus, shared by all instances. */
  class Backend {
    const users: set<User>
    const participants: map<nat, seq<User>>
    var rows: seq<Row>
    var nextId: nat
    var bus: seq<Envelope>

    ghost predicate Valid()
      reads this
    {
      && Distinct(participants) && RowsOk(rows) && (forall row <- rows :: row.id < nextId)
      && forall e <- bus :: NoDup(e.recipients) && FrameStored(rows, FrameOf(e))
    }

    constructor (users: set<User>, participants: map<nat, seq<User>>)
      requires Distinct(participants)
      ensures Valid() && this.users == users && this.participants == participants && rows == [] && bus == []
    {
      this.users, this.participants := users, participants;
      rows, nextId, bus := [], 1, [];
    }

    /**
     persist_and_fanout; None is the foreign key violation of a new message from an unknown sender or in an
     unknown conversation.
     */
    method PersistAndFanout(sender: User, conversation: nat, body: string, key: string, now: int)
      returns (payload: Option<Row>)
      requires Valid()
      modifies this
      ensures Valid() && nextId == old(nextId) + 1
      ensures var known := exists row <- old(rows) :: row.sender == sender && row.key == key;
        && (payload.None? <==> !known && (sender !in users || conversation !in participants))
        && (known ==> payload.value in rows && HasKey(payload.value, sender, key))
        && (payload.Some? && !known ==> payload.value == Row(old(nextId), conversation, sender, body, key, now))
        && rows == old(rows) + if payload.Some? && !known then [payload.value] else []
      ensures payload.None? ==> bus == old(bus)
      ensures payload.Some? ==>
        && |bus| == |old(bus)| + 1 && bus[..|old(bus)|] == old(bus)
        && var e := bus[|old(bus)|];
           e.Message? && e.payload == payload.value && ToOthers(participants, e.recipients, conversation, sender)
           && (Fits(old(rows), sender, key, conversation) ==>
                 ToOthers(participants, e.recipients, e.payload.conversation, sender))
    {
      var id := nextId;
      nextId := nextId + 1;
      PersistKeeps(rows, Row(id, conversation, sender, body, key, now));
      OthersDistinct(participants, conversation, sender);
      OthersAre(participants, conversation, sender);
      var stored := Find(rows, sender, key);
      if stored.None? {
        if !Known(users, participants, sender, conversation) {
          return None;
        }
        var row := Row(id, conversation, sender, body, key, now);
        rows := rows + [row];
        stored := Some(row);
      }
      assert forall row <- old(rows) :: row in rows;
      forall e <- bus ensures FrameStored(rows, FrameOf(e)) {
        assert FrameStored(old(rows), FrameOf(e));
      }
      bus := bus + [Message(Others(participants, conversation, sender), stored.value)];
      payload := stored;
    }
  }

  /** Registered sockets got a frame if their user is among the recipients, and no other socket anything. */
  ghost predicate Delivered(conns: map<User, nat>, was: map<nat, seq<Frame>>, now: map<nat, seq<Frame>>,
                            recipients: seq<User>, f: Frame)
  {
    && now.Keys == was.Keys
    && (forall u <- conns :: conns[u] in was)
    && (forall u <- conns :: now[conns[u]] == was[conns[u]] + if u in recipients then [f] else [])
    && (forall k <- now :: k !in conns.Values ==> now[k] == was[k])
  }

  /** No socket is registered for two users. */
  ghost predicate Injective(conns: map<User, nat>) {
    forall u, v :: u in conns && v in conns && conns[u] == conns[v] ==> u == v
  }

  lemma DeliveredOn(conns: map<User, nat>, was: map<nat, seq<Frame>>, before: map<nat, seq<Frame>>,
                    now: map<nat, seq<Frame>>, recipients: seq<User>, uid: User, f: Frame)
    requires Injective(conns) && Delivered(conns, was, before, recipients, f) && uid !in recipients
    requires now == if uid in conns then before[conns[uid] := before[conns[uid]] + [f]] else before
    ensures Delivered(conns, was, now, recipients + [uid], f)
  {
    if uid in conns {
      assert conns[uid] in conns.Values;
    }
  }

  /** Registered sockets got what their users were due between two places on the bus, and no other socket anything. */
  ghost predicate Relayed(conns: map<User, nat>, was: map<nat, seq<Frame>>, now: map<nat, seq<Frame>>,
                          bus: seq<Envelope>, start: nat, stop: nat)
    requires start <= stop <= |bus|
  {
    && now.Keys == was.Keys
    && (forall u <- conns :: conns[u] in was)
    && (forall u <- conns :: now[conns[u]] == was[conns[u]] + Expected(bus, u, start, stop))
    && (forall k <- now :: k !in conns.Values ==> now[k] == was[k])
  }

  lemma RelayedNone(conns: map<User, nat>, was: map<nat, seq<Frame>>, bus: seq<Envelope>, start: nat)
    requires start <= |bus| && forall u <- conns :: conns[u] in was
    ensures Relayed(conns, was, was, bus, start, start)
  {
  }

  lemma RelayedOn(conns: map<User, nat>, was: map<nat, seq<Frame>>, before: map<nat, seq<Frame>>,
                  now: map<nat, seq<Frame>>, bus: seq<Envelope>, start: nat, stop: nat)
    requires start <= stop < |bus| && Relayed(conns, was, before, bus, start, stop)
    requires Delivered(conns, before, now, bus[stop].recipients, FrameOf(bus[stop]))
    ensures Relayed(conns, was, now, bus, start, stop + 1)
  {
  }

  /** One gateway process: `conns`, its sockets' output, and how much of the bus its subscriber has taken. */
  class Gateway {
    var conns: map<User, nat>
    var output: map<nat, seq<Frame>>
    var cursor: nat

    ghost predicate Valid()
      reads this
    {
      && (forall u <- conns :: conns[u] in output)
      && Injective(conns)
    }

    constructor (cursor: nat)
      ensures Valid() && conns == map[] && output == map[] && this.cursor == cursor
    {
      conns, output := map[], map[];
      this.cursor := cursor;
    }

    /** A socket is accepted: it takes the user's entry. */
    method Accept(user: User, socket: nat)
      requires Valid() && socket !in output
      modifies this`conns, this`output
      ensures Valid() && conns == old(conns)[user := socket] && output == old(output)[socket := []]
    {
      conns, output := conns[user := socket], output[socket := []];
    }

    /** A socket is gone: only its own entry goes with it, never that of a newer socket of the user. */
    method Drop(user: User, socket: nat)
      requires Valid()
      modifies this`conns
      ensures Valid()
      ensures conns == if user in old(conns) && old(conns)[user] == socket then old(conns) - {user} else old(conns)
    {
      if user in conns && conns[user] == socket {
        conns := conns - {user};
      }
    }

    /** _deliver_local: each recipient registered here gets the frame once, and no other socket anything. */
    method DeliverLocal(e: Envelope)
      requires Valid() && NoDup(e.recipients)
      modifies this`output
      ensures Valid() && Delivered(conns, old(output), output, e.recipients,
        match e case Message(_, row) => MessageFrame(row) case Typing(_, c, user) => TypingFrame(c, user))
    {
      for i := 0 to |e.recipients|
        invariant Valid() && Delivered(conns, old(output), output, e.recipients[..i], FrameOf(e))
      {
        var uid := e.recipients[i];
        assert uid !in e.recipients[..i];
        assert e.recipients[..i + 1] == e.recipients[..i] + [uid];
        ghost var before := output;
        if uid in conns {
          output := output[conns[uid] := output[conns[uid]] + [FrameOf(e)]];
        }
        DeliveredOn(conns, old(output), before, output, e.recipients[..i], uid, FrameOf(e));
      }
      assert e.recipients[..|e.recipients|] == e.recipients;
    }

    /** _subscriber, up to the end of the bus as it is: every registered socket is pushed what its user was due. */
    method Subscriber(bus: seq<Envelope>)
      requires Valid() && cursor <= |bus| && BusOk(bus)
      modifies this`output, this`cursor
      ensures Valid() && cursor == |bus| && Relayed(conns, old(output), output, bus, old(cursor), |bus|)
    {
      ghost var start, was, users := cursor, output, conns;
      RelayedNone(users, was, bus, start);
      while cursor < |bus|
        invariant start <= cursor <= |bus| && Valid() && conns == users
        invariant Relayed(users, was, output, bus, start, cursor)
      {
        ghost var before := output;
        assert bus[cursor] in bus;
        DeliverLocal(bus[cursor]);
        cursor := cursor + 1;
        RelayedOn(users, was, before, output, bus, start, cursor - 1);
      }
    }
  }
}
