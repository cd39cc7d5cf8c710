/**
 What goes over the bus and who is registered, over whole executions: envelopes against the sends and pings
 behind them, stored rows against the requests that made them, registrations against connects and disconnects.
 */
module ChatSessions {
  import opened Chat
  import opened ChatTheorems
  import opened Sorting

  // --- registrations -------------------------------------------------------------------------

  /** Socket k is registered for its user at its instance. */
  predicate Holds(s: State, k: nat) {
    k < |s.sockets| && s.sockets[k].instance < |s.instances|
    && Registered(s.instances[s.sockets[k].instance], k, s.sockets[k].user)
  }

  predicate SamePlace(s: State, t: State, k: nat) {
    && k < |s.sockets| && k < |t.sockets| && |s.instances| <= |t.instances|
    && t.sockets[k].user == s.sockets[k].user && t.sockets[k].instance == s.sockets[k].instance
  }

  lemma UnregisterHolds(s: State, i: nat, user: User, k: nat)
    requires i < |s.instances| && RegistryOk(s, i) && k < |s.sockets| && s.sockets[k].instance < |s.instances|
    ensures SamePlace(s, Unregister(s, i, user), k)
    ensures Holds(Unregister(s, i, user), k) <==>
      Holds(s, k) && !(s.sockets[k].instance == i && s.sockets[k].user == user)
  {
  }

  lemma RegisterHolds(s: State, i: nat, user: User, k: nat)
    requires i < |s.instances| && k < |s.sockets| && s.sockets[k].instance < |s.instances|
    ensures SamePlace(s, Register(s, i, user), k)
    ensures Holds(Register(s, i, user), k) <==>
      Holds(s, k) && !(s.sockets[k].instance == i && s.sockets[k].user == user)
  {
  }

  lemma OtherStepHolds(s: State, a: Action, k: nat)
    requires Enabled(s, a) && !a.Connect? && !a.Disconnect?
    requires k < |s.sockets| && s.sockets[k].instance < |s.instances|
    ensures SamePlace(s, Apply(s, a), k) && (Holds(Apply(s, a), k) <==> Holds(s, k))
  {
  }

  lemma DisconnectHolds(s: State, j: nat, k: nat)
    requires Enabled(s, Disconnect(j)) && RegistryOk(s, s.sockets[j].instance)
    requires k < |s.sockets| && s.sockets[k].instance < |s.instances|
    ensures SamePlace(s, Apply(s, Disconnect(j)), k)
    ensures Holds(Apply(s, Disconnect(j)), k) <==> Holds(s, k) && j != k
  {
    var user, i := s.sockets[j].user, s.sockets[j].instance;
    if Registered(s.instances[i], j, user) {
      UnregisterHolds(s, i, user, k);
    }
  }

  predicate IsConnect(a: Action, i: nat, user: User) {
    a.Connect? && a.instance == i && a.user == user
  }

  /** A registered socket stops being it only by its own disconnect, or by its user's next connect there. */
  lemma RegistrationStep(s: State, a: Action, k: nat)
    requires Delivery(s) && Enabled(s, a) && k < |s.sockets|
    ensures SamePlace(s, Apply(s, a), k)
    ensures Holds(Apply(s, a), k) <==>
      Holds(s, k) && a != Disconnect(k) && !IsConnect(a, s.sockets[k].instance, s.sockets[k].user)
  {
    assert s.sockets[k].instance < |s.instances|;
    if a.Connect? {
      assert RegistryOk(s, a.instance);
      UnregisterHolds(s, a.instance, a.user, k);
      RegisterHolds(Unregister(s, a.instance, a.user), a.instance, a.user, k);
    } else if a.Disconnect? {
      assert RegistryOk(s, s.sockets[a.socket].instance);
      DisconnectHolds(s, a.socket, k);
    } else {
      OtherStepHolds(s, a, k);
    }
  }

  lemma Connects(s: State, a: Action)
    requires Enabled(s, a) && a.Connect?
    ensures var t, k := Apply(s, a), |s.sockets|;
      Holds(t, k) && t.sockets[k].user == a.user && t.sockets[k].instance == a.instance
  {
  }

  /** None of the steps after m, up to n, ends the registration of socket k. */
  predicate Undisturbed(actions: seq<Action>, m: nat, n: nat, k: nat, i: nat, user: User)
    requires n <= |actions|
  {
    forall j :: m < j < n ==> actions[j] != Disconnect(k) && !IsConnect(actions[j], i, user)
  }

  predicate Ends(a: Action, k: nat, i: nat, user: User) {
    a == Disconnect(k) || IsConnect(a, i, user)
  }

  /** The same, step by step. */
  predicate Lasts(actions: seq<Action>, m: nat, n: nat, k: nat, i: nat, user: User)
    requires m < n <= |actions|
    decreases n
  {
    m == n - 1 || (Lasts(actions, m, n - 1, k, i, user) && !Ends(actions[n - 1], k, i, user))
  }

  lemma {:induction false} LastsUndisturbed(actions: seq<Action>, m: nat, n: nat, k: nat, i: nat, user: User)
    requires m < n <= |actions|
    ensures Lasts(actions, m, n, k, i, user) <==> Undisturbed(actions, m, n, k, i, user)
    decreases n
  {
    if m < n - 1 {
      LastsUndisturbed(actions, m, n - 1, k, i, user);
    }
  }

  /** Socket k is the user's at instance i, and registered there or not. */
  predicate Placed(s: State, k: nat, i: nat, user: User, held: bool) {
    k < |s.sockets| && s.sockets[k].user == user && s.sockets[k].instance == i && (Holds(s, k) <==> held)
  }

  lemma PlacedStep(s: State, a: Action, k: nat, i: nat, user: User, held: bool)
    requires Delivery(s) && Enabled(s, a) && Placed(s, k, i, user, held)
    ensures Placed(Apply(s, a), k, i, user, held && !Ends(a, k, i, user))
  {
    RegistrationStep(s, a, k);
  }

  /** Step n of an execution, from a state in which deliveries are in order. */
  ghost predicate StepAt(run: seq<State>, actions: seq<Action>, n: nat) {
    && n < |actions| && |run| == |actions| + 1
    && Delivery(run[n]) && Enabled(run[n], actions[n]) && run[n + 1] == Apply(run[n], actions[n])
  }

  ghost predicate Steps(run: seq<State>, actions: seq<Action>) {
    forall n: nat {:trigger StepAt(run, actions, n)} :: n < |actions| ==> StepAt(run, actions, n)
  }

  lemma StepsOf(run: seq<State>, actions: seq<Action>)
    requires Execution(run, actions)
    ensures Steps(run, actions)
  {
    forall n: nat | n < |actions| ensures StepAt(run, actions, n) {
      DeliveryHolds(run, actions, n);
    }
  }

  lemma PlacedFirst(s: State, a: Action)
    requires Enabled(s, a) && a.Connect?
    ensures Placed(Apply(s, a), |s.sockets|, a.instance, a.user, true)
  {
    Connects(s, a);
  }

  lemma {:induction false} PlacedAlong(run: seq<State>, actions: seq<Action>, m: nat, n: nat, k: nat, i: nat,
                                       user: User)
    requires Steps(run, actions) && m < n <= |actions| < |run| && Placed(run[m + 1], k, i, user, true)
    ensures Placed(run[n], k, i, user, Lasts(actions, m, n, k, i, user))
    decreases n
  {
    if m < n - 1 {
      PlacedAlong(run, actions, m, n - 1, k, i, user);
      assert StepAt(run, actions, n - 1);
      PlacedStep(run[n - 1], actions[n - 1], k, i, user, Lasts(actions, m, n - 1, k, i, user));
    }
  }

  /**
   The socket of a connect is the one registered for its user, at its instance, until the user connects there
   again or the socket disconnects; the disconnect of an older socket changes nothing.
   */
  lemma RegisteredUntil(run: seq<State>, actions: seq<Action>, m: nat, n: nat)
    requires Execution(run, actions) && m < n < |run| && actions[m].Connect?
    ensures var k, i, user := |run[m].sockets|, actions[m].instance, actions[m].user;
      && k < |run[n].sockets| && run[n].sockets[k].user == user && run[n].sockets[k].instance == i
      && (Holds(run[n], k) <==> forall j :: m < j < n ==>
           actions[j] != Disconnect(k) && !IsConnect(actions[j], i, user))
  {
    StepsOf(run, actions);
    assert StepAt(run, actions, m);
    PlacedFirst(run[m], actions[m]);
    PlacedAlong(run, actions, m, n, |run[m].sockets|, actions[m].instance, actions[m].user);
    LastsUndisturbed(actions, m, n, |run[m].sockets|, actions[m].instance, actions[m].user);
  }

  // --- where an instance begins ---------------------------------------------------------------------

  /** Instance i, and every socket on it, is past this place of the bus. */
  predicate Past(s: State, i: nat, place: nat) {
    && i < |s.instances| && s.instances[i].cursor >= place
    && forall sock <- s.sockets :: sock.instance == i ==> sock.start >= place
  }

  lemma PastStep(s: State, a: Action, i: nat, place: nat)
    requires Enabled(s, a) && Past(s, i, place)
    ensures Past(Apply(s, a), i, place)
  {
    var t := Apply(s, a);
    forall k | 0 <= k < |t.sockets| && t.sockets[k].instance == i ensures t.sockets[k].start >= place {
      if k < |s.sockets| {
        assert s.sockets[k] in s.sockets;
      }
    }
  }

  /** Nothing is replayed: an instance takes, and its sockets are pushed, only what came on the bus after its start. */
  lemma {:induction false} StartsFresh(run: seq<State>, actions: seq<Action>, m: nat, n: nat)
    requires Execution(run, actions) && m < n < |run| && actions[m].StartInstance?
    ensures Past(run[n], |run[m].instances|, |run[m].bus|)
    decreases n
  {
    DeliveryHolds(run, actions, n - 1);
    if m == n - 1 {
      assert forall k: nat :: k < |run[m].sockets| ==> run[m].sockets[k].instance < |run[m].instances|;
    } else {
      StartsFresh(run, actions, m, n - 1);
      PastStep(run[n - 1], actions[n - 1], |run[m].instances|, |run[m].bus|);
    }
  }

  // --- what is on the bus ------------------------------------------------------------------------------

  /** Every other participant of a conversation, once each, and nobody else. */
  ghost predicate ToOthers(participants: map<nat, seq<User>>, recipients: seq<User>, conversation: nat, user: User) {
    && NoDup(recipients)
    && forall u :: u in recipients <==> conversation in participants && u in participants[conversation] && u != user
  }

  lemma OthersAre(participants: map<nat, seq<User>>, conversation: nat, user: User)
    requires Distinct(participants)
    ensures ToOthers(participants, Others(participants, conversation, user), conversation, user)
  {
    OthersDistinct(participants, conversation, user);
    if conversation in participants {
      forall u
        ensures u in Without(participants[conversation], user) <==> u in participants[conversation] && u != user
      {
        WithoutMember(participants[conversation], user, u);
      }
    }
  }

  predicate HasRow(phase: Phase) {
    !phase.Requested?
  }

  /** A send that has its row keeps it, and until it is published it holds the recipients it asked for. */
  ghost predicate SendsAddressed(s: State) {
    forall o: nat :: o < |s.sends| && s.sends[o].phase.Committed? ==>
      ToOthers(s.participants, s.sends[o].phase.recipients, s.sends[o].conversation, s.sends[o].sender)
  }

  /** What the step a puts on the bus: the published send's row, or the ping, to the others of its conversation. */
  ghost predicate Carries(s: State, a: Action, e: Envelope) {
    match a
    case Publish(o) =>
      && o < |s.sends| && HasRow(s.sends[o].phase) && e.Message? && e.payload == s.sends[o].phase.row
      && ToOthers(s.participants, e.recipients, s.sends[o].conversation, s.sends[o].sender)
    case Ping(user, conversation) =>
      && e == Typing(e.recipients, conversation, user) && ToOthers(s.participants, e.recipients, conversation, user)
    case _ => false
  }

  lemma AddressedStep(s: State, a: Action)
    requires Enabled(s, a) && Distinct(s.participants) && SendsAddressed(s)
    ensures SendsAddressed(Apply(s, a)) && Apply(s, a).participants == s.participants
  {
    if a.Commit? {
      OthersAre(s.participants, s.sends[a.op].conversation, s.sends[a.op].sender);
    }
  }

  lemma BusStep(s: State, a: Action)
    requires Enabled(s, a) && Distinct(s.participants) && SendsAddressed(s)
    ensures var t := Apply(s, a);
      if a.Publish? || a.Ping? then |t.bus| == |s.bus| + 1 && t.bus[..|s.bus|] == s.bus && Carries(s, a, t.bus[|s.bus|])
      else t.bus == s.bus
  {
    if a.Ping? {
      OthersAre(s.participants, a.conversation, a.user);
    }
  }

  /** The bus so far, envelope by envelope, against the steps that put it there. */
  ghost predicate CarriedBy(run: seq<State>, actions: seq<Action>, n: nat, at: seq<nat>, bus: seq<Envelope>)
    requires n <= |actions| <= |run|
  {
    && |at| == |bus| && (forall x, y :: 0 <= x < y < |at| ==> at[x] < at[y])
    && (forall j: nat :: j in at <==> j < n && (actions[j].Publish? || actions[j].Ping?))
    && (forall x :: 0 <= x < |at| ==> at[x] < n && Carries(run[at[x]], actions[at[x]], bus[x]))
  }

  lemma CarriedNext(run: seq<State>, actions: seq<Action>, n: nat, at: seq<nat>, bus: seq<Envelope>, e: Envelope)
    requires n < |actions| <= |run| && CarriedBy(run, actions, n, at, bus)
    ensures if actions[n].Publish? || actions[n].Ping?
      then Carries(run[n], actions[n], e) ==> CarriedBy(run, actions, n + 1, at + [n], bus + [e])
      else CarriedBy(run, actions, n + 1, at, bus)
  {
  }

  /**
   The bus is, one for one and in order, the publishes and pings: a publish carries its send's row to the others
   of the conversation its request named, a ping its user to the others of its conversation.
   */
  lemma {:induction false} BusExactly(run: seq<State>, actions: seq<Action>, n: nat) returns (at: seq<nat>)
    requires Execution(run, actions) && n < |run|
    ensures SendsAddressed(run[n]) && CarriedBy(run, actions, n, at, run[n].bus)
  {
    at := [];
    if n > 0 {
      var s, a := run[n - 1], actions[n - 1];
      at := BusExactly(run, actions, n - 1);
      DeliveryHolds(run, actions, n - 1);
      AddressedStep(s, a);
      BusStep(s, a);
      var bus := run[n].bus;
      if a.Publish? || a.Ping? {
        assert bus == s.bus + [bus[|s.bus|]];
        CarriedNext(run, actions, n - 1, at, s.bus, bus[|s.bus|]);
        at := at + [n - 1];
      } else {
        CarriedNext(run, actions, n - 1, at, s.bus, Typing([], 0, 0));
      }
    }
  }

  // --- what is stored ---------------------------------------------------------------------------------

  /** Step j stored the row: it committed a send of that very content, under the row's id and time. */
  predicate StoredBy(run: seq<State>, actions: seq<Action>, j: nat, row: Row) {
    && j < |actions| && j < |run| && actions[j].Commit? && actions[j].op < |run[j].sends|
    && actions[j].id == row.id && actions[j].now == row.createdAt
    && var send := run[j].sends[actions[j].op];
       send.phase == Requested(row.body) && HasKey(row, send.sender, send.key) && send.conversation == row.conversation
  }

  lemma CommitStores(s: State, a: Action)
    requires Enabled(s, a)
    ensures if a.Commit? && Find(s.rows, s.sends[a.op].sender, s.sends[a.op].key).None?
      then Apply(s, a).rows == s.rows + [Row(a.id, s.sends[a.op].conversation, s.sends[a.op].sender,
                                             s.sends[a.op].phase.body, s.sends[a.op].key, a.now)]
      else Apply(s, a).rows == s.rows
  {
  }

  /** Every stored message is what some request asked for: its sender, key, conversation and body. */
  lemma {:induction false} RowsWereSent(run: seq<State>, actions: seq<Action>, n: nat, x: nat) returns (j: nat)
    requires Execution(run, actions) && n < |run| && x < |run[n].rows|
    ensures j < n && StoredBy(run, actions, j, run[n].rows[x])
  {
    CommitStores(run[n - 1], actions[n - 1]);
    if x < |run[n - 1].rows| {
      j := RowsWereSent(run, actions, n - 1, x);
    } else {
      j := n - 1;
    }
  }
}
