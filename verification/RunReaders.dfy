/**
 Readers over whole schedules: under fairness every client of a run that ended closes with its one `done`,
 and a client that read the row before it subscribed may never get it.
 */
module RunReaders {
  import opened Common
  import opened RunProtocol
  import opened RunInvariant
  import opened RunTheorems
  import opened RunEnvironment
  import opened RunChannel
  import opened RunStream

  // --- a drained run stays as it is ---------------------------------------------------------

  lemma DrainedStays(s: State, a: Action, r: RunId)
    requires Enabled(s, a) && r in s.runs && Drained(s, r)
    ensures r in Apply(s, a).runs && Apply(s, a).runs[r] == s.runs[r] && Drained(Apply(s, a), r)
  {
    var t := Apply(s, a);
    if RunOf(s, a) == Some(r) {
      StepMeansUnfinished(s, a, r);
    }
    OtherRun(s, a, r);
    forall k | 0 <= k < |t.jobs| && t.jobs[k].run == Some(r) ensures Over(t.jobs[k]) {
      assert s.jobs[k] in s.jobs;
    }
  }

  // --- infinite schedules of the composed system ------------------------------------------------

  ghost predicate SystemSchedule(f: nat -> System, act: nat -> SystemAction) {
    forall k: nat :: CanStep(f(k), act(k)) && f(k + 1) == Step(f(k), act(k))
  }

  /** The backend's part of a schedule: a reader's step leaves it as it is. */
  function BackendAct(s: System, a: SystemAction): Action {
    if a.Backend? then a.a else SetEnv(s.backend.env)
  }

  function BackendStates(f: nat -> System): nat -> State {
    (k: nat) => f(k).backend
  }

  function BackendActs(f: nat -> System, act: nat -> SystemAction): nat -> Action {
    (k: nat) => BackendAct(f(k), act(k))
  }

  lemma BackendSchedule(f: nat -> System, act: nat -> SystemAction)
    requires SystemSchedule(f, act)
    ensures Schedule(BackendStates(f), BackendActs(f, act))
  {
    forall k: nat
      ensures Enabled(f(k).backend, BackendAct(f(k), act(k)))
      ensures f(k + 1).backend == Apply(f(k).backend, BackendAct(f(k), act(k)))
    {
      assert CanStep(f(k), act(k)) && f(k + 1) == Step(f(k), act(k));
    }
  }

  predicate ReaderStep(a: SystemAction, id: nat) {
    (a.ReadRow? || a.Relay?) && a.id == id
  }

  /** A reader that can step sooner or later does. */
  ghost predicate FairReader(f: nat -> System, act: nat -> SystemAction, id: nat) {
    forall k: nat, a: SystemAction :: CanStep(f(k), a) && ReaderStep(a, id) ==>
      exists m: nat :: m >= k && ReaderStep(act(m), id)
  }

  lemma ReaderStays(s: System, a: SystemAction, id: nat)
    requires CanStep(s, a) && id in s.readers
    ensures id in Step(s, a).readers && Step(s, a).readers[id].run == s.readers[id].run
  {
  }

  /** The system is as it can be, with a client of run r. */
  ghost predicate ClientOf(s: System, id: nat, r: RunId) {
    SystemInv(s) && id in s.readers && s.readers[id].run == r
  }

  lemma SystemNext(f: nat -> System, act: nat -> SystemAction, i: nat, id: nat, r: RunId)
    requires SystemSchedule(f, act) && ClientOf(f(i), id, r)
    ensures ClientOf(f(i + 1), id, r)
  {
    assert CanStep(f(i), act(i)) && f(i + 1) == Step(f(i), act(i));
    SystemStep(f(i), act(i));
    ReaderStays(f(i), act(i), id);
  }

  ghost predicate Carries(p: nat -> bool, k: nat) {
    p(k) ==> p(k + 1)
  }

  lemma {:induction false} Along(p: nat -> bool, i: nat, n: nat)
    requires p(i) && i <= n && forall k: nat :: Carries(p, k)
    ensures p(n)
    decreases n - i
  {
    if i < n {
      assert Carries(p, i);
      Along(p, i + 1, n);
    }
  }

  ghost function ClientAt(f: nat -> System, id: nat, r: RunId): nat -> bool {
    (k: nat) => ClientOf(f(k), id, r)
  }

  lemma SystemAlong(f: nat -> System, act: nat -> SystemAction, i: nat, n: nat, id: nat, r: RunId)
    requires SystemSchedule(f, act) && ClientOf(f(i), id, r) && i <= n
    ensures ClientOf(f(n), id, r)
  {
    var p := ClientAt(f, id, r);
    forall k: nat ensures Carries(p, k) {
      if p(k) {
        SystemNext(f, act, k, id, r);
      }
    }
    Along(p, i, n);
  }

  /** The reader's run has drained and has published `done`. */
  ghost predicate Served(reader: Reader, s: State) {
    reader.run in s.runs && Drained(s, reader.run) && DonesPublished(s.runs[reader.run]) > 0
  }

  ghost predicate Waiting(s: System, id: nat) {
    SystemInv(s) && id in s.readers && Served(s.readers[id], s.backend)
  }

  function Ahead(s: System, id: nat): nat
    requires id in s.readers
  {
    Left(s.readers[id], |Channel(s.backend, s.readers[id].run)|)
  }

  /** How many steps a reader of a channel that ends here has at most. */
  function Left(reader: Reader, end: nat): nat {
    match reader.phase
    case Finished => 0
    case Subscribed => end + 2
    case Relaying => if reader.cursor <= end then end - reader.cursor + 1 else 1
  }

  /** It can step unless it has closed. */
  lemma WaitingCanStep(s: System, id: nat) returns (a: SystemAction)
    requires Waiting(s, id) && !s.readers[id].phase.Finished?
    ensures CanStep(s, a) && ReaderStep(a, id)
  {
    var reader := s.readers[id];
    assert ReaderInv(reader, s.backend);
    if reader.phase.Subscribed? {
      assert RunInv(reader.run, s.backend.runs[reader.run], s.backend.jobs);
      a := ReadRow(id);
    } else {
      var d := DoneAhead(reader, s.backend);
      a := Relay(id);
    }
  }

  lemma WaitingBackend(s: System, a: SystemAction, id: nat)
    requires Waiting(s, id) && CanStep(s, a) && a.Backend?
    ensures Waiting(Step(s, a), id) && Ahead(Step(s, a), id) == Ahead(s, id)
  {
    SystemStep(s, a);
    DrainedStays(s.backend, a.a, s.readers[id].run);
  }

  lemma SameReader(s: System, a: SystemAction, id: nat)
    requires CanStep(s, a) && id in s.readers && !a.Backend? && !ReaderStep(a, id)
    ensures Step(s, a).backend == s.backend && id in Step(s, a).readers && Step(s, a).readers[id] == s.readers[id]
  {
  }

  lemma WaitingSame(s: System, t: System, id: nat)
    requires Waiting(s, id) && SystemInv(t) && t.backend == s.backend && id in t.readers
      && t.readers[id] == s.readers[id]
    ensures Waiting(t, id) && Ahead(t, id) == Ahead(s, id)
  {
  }

  lemma WaitingOthers(s: System, a: SystemAction, id: nat)
    requires Waiting(s, id) && CanStep(s, a) && !a.Backend? && !ReaderStep(a, id)
    ensures Waiting(Step(s, a), id) && Ahead(Step(s, a), id) == Ahead(s, id)
  {
    SystemStep(s, a);
    SameReader(s, a, id);
    WaitingSame(s, Step(s, a), id);
  }

  lemma WaitingOwn(s: System, a: SystemAction, id: nat)
    requires Waiting(s, id) && CanStep(s, a) && ReaderStep(a, id)
    ensures Waiting(Step(s, a), id) && Ahead(Step(s, a), id) < Ahead(s, id)
  {
    SystemStep(s, a);
    var t := Step(s, a);
    RowThere(s, id);
    OwnStep(s.readers[id], s.backend, a.ReadRow?);
    assert t.backend == s.backend;
  }

  /** Its own steps bring it closer to the end of a channel that grows no more; no other step touches it. */
  lemma WaitingStep(s: System, a: SystemAction, id: nat)
    requires Waiting(s, id) && CanStep(s, a)
    ensures Waiting(Step(s, a), id)
    ensures if ReaderStep(a, id) then Ahead(Step(s, a), id) < Ahead(s, id) else Ahead(Step(s, a), id) == Ahead(s, id)
  {
    if a.Backend? {
      WaitingBackend(s, a, id);
    } else if ReaderStep(a, id) {
      WaitingOwn(s, a, id);
    } else {
      WaitingOthers(s, a, id);
    }
  }

  lemma OwnStep(reader: Reader, s: State, read: bool)
    requires ReaderInv(reader, s) && reader.run in s.runs && s.runs[reader.run].history != []
    requires if read then reader.phase.Subscribed?
             else reader.phase.Relaying? && reader.cursor < |Channel(s, reader.run)|
    ensures var next := if read then AfterRead(reader, s) else AfterRelay(reader, Channel(s, reader.run));
      && next.run == reader.run && next.from == reader.from
      && (read ==> next.cursor == reader.cursor <= |Channel(s, reader.run)| && !next.phase.Subscribed?)
      && (!read ==> next.cursor == reader.cursor + 1 && !next.phase.Subscribed?)
  {
  }

  ghost predicate ComesAfter(turn: nat -> bool, k: nat) {
    exists l: nat :: l >= k && turn(l)
  }

  predicate FallsAt(w: nat -> nat, turn: nat -> bool, k: nat) {
    w(k + 1) <= w(k) && (turn(k) ==> w(k + 1) < w(k))
  }

  /**
   What falls with every turn of its own, and never rises, gets to zero if a turn always comes while it
   is not there.
   */
  lemma {:induction false} FallsToZero(w: nat -> nat, turn: nat -> bool, i: nat, m: nat) returns (n: nat)
    requires forall k: nat :: k >= i ==> FallsAt(w, turn, k)
    requires forall k: nat {:trigger ComesAfter(turn, k)} :: k >= i && w(k) > 0 ==> ComesAfter(turn, k)
    requires i <= m && turn(m)
    ensures n >= i && w(n) == 0
    decreases w(i), m - i
  {
    assert FallsAt(w, turn, i);
    if w(i + 1) == 0 {
      n := i + 1;
    } else if turn(i) {
      assert ComesAfter(turn, i + 1);
      var l: nat :| l >= i + 1 && turn(l);
      n := FallsToZero(w, turn, i + 1, l);
    } else {
      n := FallsToZero(w, turn, i + 1, m);
    }
  }

  lemma WaitingNext(f: nat -> System, act: nat -> SystemAction, id: nat, k: nat)
    requires SystemSchedule(f, act) && Waiting(f(k), id)
    ensures Waiting(f(k + 1), id)
    ensures if ReaderStep(act(k), id) then Ahead(f(k + 1), id) < Ahead(f(k), id)
      else Ahead(f(k + 1), id) == Ahead(f(k), id)
  {
    assert CanStep(f(k), act(k)) && f(k + 1) == Step(f(k), act(k));
    WaitingStep(f(k), act(k), id);
  }

  ghost function WaitingAt(f: nat -> System, id: nat): nat -> bool {
    (k: nat) => Waiting(f(k), id)
  }

  lemma WaitingAlong(f: nat -> System, act: nat -> SystemAction, id: nat, i: nat, k: nat)
    requires SystemSchedule(f, act) && Waiting(f(i), id) && i <= k
    ensures Waiting(f(k), id)
  {
    var p := WaitingAt(f, id);
    forall j: nat ensures Carries(p, j) {
      if p(j) {
        WaitingNext(f, act, id, j);
      }
    }
    Along(p, i, k);
  }

  function AheadIn(f: nat -> System, id: nat): nat -> nat {
    (k: nat) => if id in f(k).readers then Ahead(f(k), id) else 0
  }

  function TurnIn(act: nat -> SystemAction, id: nat): nat -> bool {
    (k: nat) => ReaderStep(act(k), id)
  }

  lemma AheadFalls(f: nat -> System, act: nat -> SystemAction, id: nat, i: nat, k: nat)
    requires SystemSchedule(f, act) && Waiting(f(i), id) && i <= k
    ensures FallsAt(AheadIn(f, id), TurnIn(act, id), k)
  {
    WaitingAlong(f, act, id, i, k);
    WaitingNext(f, act, id, k);
  }

  lemma AheadMeansOpen(s: System, id: nat)
    requires id in s.readers && Ahead(s, id) > 0
    ensures !s.readers[id].phase.Finished?
  {
  }

  lemma FairTurn(f: nat -> System, act: nat -> SystemAction, id: nat, k: nat) returns (m: nat)
    requires FairReader(f, act, id) && Waiting(f(k), id) && !f(k).readers[id].phase.Finished?
    ensures m >= k && ReaderStep(act(m), id)
  {
    var a := WaitingCanStep(f(k), id);
    m :| m >= k && ReaderStep(act(m), id);
  }

  lemma TurnComes(f: nat -> System, act: nat -> SystemAction, id: nat, i: nat, k: nat) returns (m: nat)
    requires SystemSchedule(f, act) && FairReader(f, act, id) && Waiting(f(i), id) && i <= k
    requires AheadIn(f, id)(k) > 0
    ensures m >= k && TurnIn(act, id)(m)
  {
    WaitingAlong(f, act, id, i, k);
    AheadMeansOpen(f(k), id);
    m := FairTurn(f, act, id, k);
  }

  /** The client's stream is complete: not found, or ended by its one `done`, with the run's final status. */
  ghost predicate Complete(s: System, id: nat)
    requires id in s.readers && HasRow(s.backend, s.readers[id].run)
  {
    var reader := s.readers[id];
    && reader.phase.Finished? && Shapely(reader) && reader.out != []
    && (reader.out == [NotFound]
        || (IsDoneEvent(reader.out[|reader.out| - 1]) && LastStatus(reader) == s.backend.runs[reader.run].Row().status))
  }

  lemma FinishedIsComplete(s: System, id: nat)
    requires SystemInv(s) && id in s.readers && HasRow(s.backend, s.readers[id].run) && s.readers[id].phase.Finished?
    ensures Complete(s, id)
  {
    var reader := s.readers[id];
    ReaderShapely(reader, s.backend);
    if reader.out != [NotFound] {
      FinalStatus(reader, s.backend);
    }
  }

  lemma WaitingReachesEnd(f: nat -> System, act: nat -> SystemAction, i: nat, id: nat) returns (n: nat)
    requires SystemSchedule(f, act) && FairReader(f, act, id) && Waiting(f(i), id)
    ensures n >= i && AheadIn(f, id)(n) == 0
  {
    var w, turn := AheadIn(f, id), TurnIn(act, id);
    forall k: nat | k >= i ensures FallsAt(w, turn, k) {
      AheadFalls(f, act, id, i, k);
    }
    forall k: nat | k >= i && w(k) > 0 ensures ComesAfter(turn, k) {
      var l := TurnComes(f, act, id, i, k);
    }
    n := i;
    if w(i) > 0 {
      var m := TurnComes(f, act, id, i, i);
      n := FallsToZero(w, turn, i, m);
    }
  }

  lemma NothingAhead(s: System, id: nat)
    requires id in s.readers && Ahead(s, id) == 0
    ensures s.readers[id].phase.Finished?
  {
  }

  lemma WaitingCloses(f: nat -> System, act: nat -> SystemAction, i: nat, id: nat) returns (n: nat)
    requires SystemSchedule(f, act) && FairReader(f, act, id) && Waiting(f(i), id)
    ensures n >= i && Waiting(f(n), id) && f(n).readers[id].phase.Finished?
  {
    n := WaitingReachesEnd(f, act, i, id);
    WaitingAlong(f, act, id, i, n);
    NothingAhead(f(n), id);
  }

  /**
   In an infinite schedule that is fair to a run and to one of its clients, the run drains, and if it
   published `done` the client closes: its stream is the snapshot, the deltas, and one `done`, last,
   carrying the status the run ended with.
   */
  lemma EveryClientCloses(f: nat -> System, act: nat -> SystemAction, i: nat, id: nat) returns (d: nat, n: nat)
    requires SystemSchedule(f, act) && SystemInv(f(i)) && id in f(i).readers
      && f(i).readers[id].run in f(i).backend.runs
    requires Fair(BackendStates(f), BackendActs(f, act), f(i).readers[id].run) && FairReader(f, act, id)
    ensures var r := f(i).readers[id].run;
      && d >= i && r in f(d).backend.runs && Drained(f(d).backend, r) && f(d).backend.runs[r].history != []
      && (EndedWell(f(d).backend, r) <==> Clean(r, f(d).backend.runs[r], f(d).backend.jobs))
      && (DonesPublished(f(d).backend.runs[r]) > 0 ==>
            n >= d && id in f(n).readers && HasRow(f(n).backend, f(n).readers[id].run) && Complete(f(n), id))
  {
    var r := f(i).readers[id].run;
    BackendSchedule(f, act);
    d := FairRunEnds(BackendStates(f), BackendActs(f, act), r, i);
    SystemAlong(f, act, i, d, id, r);
    n := d;
    if DonesPublished(f(d).backend.runs[r]) > 0 {
      n := WaitingCloses(f, act, d, id);
      RowThere(f(n), id);
      FinishedIsComplete(f(n), id);
    }
  }

  lemma RowThere(s: System, id: nat)
    requires Waiting(s, id)
    ensures HasRow(s.backend, s.readers[id].run)
  {
    var r := s.readers[id].run;
    assert RunInv(r, s.backend.runs[r], s.backend.jobs);
  }

  // --- the swapped order ---------------------------------------------------------------------------

  /** A client that reads the row first and subscribes afterwards. */
  datatype Swapped = Away | Peeked(snapshot: Event) | Listening(reader: Reader)
  datatype SwappedSystem = SwappedSystem(backend: State, client: Swapped)
  datatype SwappedAction = BackendStep(a: Action) | Peek | Subscribe | RelayOne

  predicate SwappedCan(s: SwappedSystem, a: SwappedAction, r: RunId) {
    match a
    case BackendStep(b) => Enabled(s.backend, b)
    case Peek => s.client.Away? && HasRow(s.backend, r)
    case Subscribe => s.client.Peeked? && s.client.snapshot.Snapshot?
    case RelayOne =>
      && s.client.Listening? && s.client.reader.phase.Relaying?
      && s.client.reader.cursor < |Channel(s.backend, r)|
  }

  function SwappedStep(s: SwappedSystem, a: SwappedAction, r: RunId): SwappedSystem
    requires SwappedCan(s, a, r)
  {
    match a
    case BackendStep(b) => s.(backend := Apply(s.backend, b))
    case Peek =>
      var run := s.backend.runs[r];
      s.(client := Peeked(Snapshot(|run.history| - 1, run.Row())))
    case Subscribe =>
      var snapshot, n := s.client.snapshot, |Channel(s.backend, r)|;
      s.(client := Listening(
        if Terminal(snapshot.row.status) then Reader(r, n, n, Finished, [snapshot, DoneNow(snapshot.row)])
        else Reader(r, n, n, Relaying, [snapshot])))
    case RelayOne => s.(client := Listening(AfterRelay(s.client.reader, Channel(s.backend, r))))
  }

  ghost predicate SwappedBehavior(states: seq<SwappedSystem>, acts: seq<SwappedAction>, r: RunId) {
    && |states| == |acts| + 1 && states[0].client.Away?
    && forall k :: 0 <= k < |acts| ==>
         SwappedCan(states[k], acts[k], r) && states[k + 1] == SwappedStep(states[k], acts[k], r)
  }

  /** The client listens to a channel on which nothing more comes, with a snapshot that is not terminal. */
  predicate Deaf(s: SwappedSystem, r: RunId, snapshot: Event) {
    && r in s.backend.runs && Drained(s.backend, r)
    && s.client == Listening(Reader(r, |Channel(s.backend, r)|, |Channel(s.backend, r)|, Relaying, [snapshot]))
  }

  lemma {:induction false} DeafStays(states: seq<SwappedSystem>, acts: seq<SwappedAction>, r: RunId, m: nat, n: nat,
                                     snapshot: Event)
    requires SwappedBehavior(states, acts, r) && m <= n < |states| && Deaf(states[m], r, snapshot)
    ensures Deaf(states[n], r, snapshot)
    decreases n
  {
    if m < n {
      DeafStays(states, acts, r, m, n - 1, snapshot);
      if acts[n - 1].BackendStep? {
        DrainedStays(states[n - 1].backend, acts[n - 1].a, r);
      }
    }
  }

  lemma {:induction false} PeekedStays(states: seq<SwappedSystem>, acts: seq<SwappedAction>, r: RunId, k: nat, m: nat)
    requires SwappedBehavior(states, acts, r) && k <= m < |acts| && states[k].client.Peeked? && acts[m].Subscribe?
    ensures states[m].client == states[k].client
    decreases m - k
  {
    if k < m {
      if acts[k].Subscribe? {
        ListensOn(states, acts, r, k + 1, m);
      } else {
        PeekedStays(states, acts, r, k + 1, m);
      }
    }
  }

  lemma {:induction false} ListensOn(states: seq<SwappedSystem>, acts: seq<SwappedAction>, r: RunId, k: nat, m: nat)
    requires SwappedBehavior(states, acts, r) && k <= m < |states| && states[k].client.Listening?
    ensures states[m].client.Listening?
    decreases m
  {
    if k < m {
      ListensOn(states, acts, r, k, m - 1);
    }
  }

  /**
   Why the subscription comes first. A client that reads the row while the run is not terminal, and
   subscribes once it has drained, has nothing but its snapshot in every continuation: no `done` ever
   comes and it never closes, though the run published its `done` in between.
   */
  lemma SwappedOrderLosesDone(states: seq<SwappedSystem>, acts: seq<SwappedAction>, r: RunId, k: nat, m: nat, n: nat)
    requires SwappedBehavior(states, acts, r) && k < m < n < |states|
    requires acts[k].Peek? && !Terminal(states[k].backend.runs[r].Row().status)
    requires acts[m].Subscribe? && r in states[m].backend.runs && Drained(states[m].backend, r)
    ensures states[n].client.Listening? && states[n].client.reader.phase.Relaying?
    ensures forall e <- states[n].client.reader.out :: !IsDoneEvent(e)
  {
    PeekedStays(states, acts, r, k + 1, m);
    DeafStays(states, acts, r, m + 1, n, states[m].client.snapshot);
  }

  /** It can happen to every run whose fan-in is due and whose jobs, if any, have ended: four steps do it. */
  lemma SwappedOrderFrom(s: State, r: RunId, now: Time)
    returns (states: seq<SwappedSystem>, acts: seq<SwappedAction>)
    requires Inv(s) && Enabled(s, OnRun(r, FanInUpdate(true, now))) && JobsOver(s, r)
    ensures |acts| == 4 && SwappedBehavior(states, acts, r) && states[0] == SwappedSystem(s, Away)
    ensures Deaf(states[4], r, PeekedRow(s.runs[r]).snapshot) && EndsInDone(states[4].backend, r)
  {
    OpenNotTerminal(s, r);
    var u, t := FanInFails(s, r, now);
    FailedDrains(s, r, u, t, now);
    states, acts := FourSteps(s, u, t, r, now);
    SubscribesDeaf(states[3], r, s.runs[r]);
  }

  function PeekedRow(run: Run): Swapped
    requires run.history != []
  {
    Peeked(Snapshot(|run.history| - 1, run.Row()))
  }

  /** The channel's last message is a `done`. */
  predicate EndsInDone(s: State, r: RunId) {
    Channel(s, r) != [] && Channel(s, r)[|Channel(s, r)| - 1].kind.Done?
  }

  lemma SubscribesDeaf(s: SwappedSystem, r: RunId, peeked: Run)
    requires peeked.history != [] && !Terminal(peeked.Row().status) && s.client == PeekedRow(peeked)
    requires r in s.backend.runs && Drained(s.backend, r)
    ensures SwappedCan(s, Subscribe, r)
    ensures SwappedStep(s, Subscribe, r).backend == s.backend
    ensures Deaf(SwappedStep(s, Subscribe, r), r, PeekedRow(peeked).snapshot)
  {
  }

  lemma OpenNotTerminal(s: State, r: RunId)
    requires Inv(s) && r in s.runs && s.runs[r].fanIn.Open?
    ensures s.runs[r].history != [] && !Terminal(s.runs[r].Row().status)
  {
    assert RunInv(r, s.runs[r], s.jobs);
  }

  lemma FourSteps(s: State, u: State, t: State, r: RunId, now: Time)
    returns (states: seq<SwappedSystem>, acts: seq<SwappedAction>)
    requires HasRow(s, r) && Enabled(s, OnRun(r, FanInUpdate(true, now)))
      && u == Apply(s, OnRun(r, FanInUpdate(true, now)))
    requires Enabled(u, OnRun(r, PublishFanIn)) && t == Apply(u, OnRun(r, PublishFanIn))
    ensures |acts| == 4 && SwappedBehavior(states, acts, r) && acts[0].Peek? && acts[3].Subscribe?
    ensures states[0] == SwappedSystem(s, Away) && states[4] == SwappedStep(states[3], Subscribe, r)
    ensures states[3] == SwappedSystem(t, PeekedRow(s.runs[r]))
  {
    var peeked := PeekedRow(s.runs[r]);
    acts := [Peek, BackendStep(OnRun(r, FanInUpdate(true, now))), BackendStep(OnRun(r, PublishFanIn)), Subscribe];
    var last := SwappedSystem(t, peeked);
    states := [SwappedSystem(s, Away), SwappedSystem(s, peeked), SwappedSystem(u, peeked), last,
      SwappedStep(last, Subscribe, r)];
  }

  lemma FailedDrains(s: State, r: RunId, u: State, t: State, now: Time)
    requires Inv(s) && Enabled(s, OnRun(r, FanInUpdate(true, now))) && JobsOver(s, r)
    requires u == Apply(s, OnRun(r, FanInUpdate(true, now)))
    requires Enabled(u, OnRun(r, PublishFanIn)) && t == Apply(u, OnRun(r, PublishFanIn)) && DoneOut(t, r, s.jobs)
    ensures Drained(t, r)
  {
    OwnAction(s, OnRun(r, FanInUpdate(true, now)), r);
    OwnAction(u, OnRun(r, PublishFanIn), r);
  }

  // --- the same from the start -----------------------------------------------------------------------

  /** A backend's execution while the client is not there yet. */
  lemma {:induction false} WithoutClient(run: seq<State>, steps: seq<Action>, r: RunId, k: nat)
    returns (states: seq<SwappedSystem>, acts: seq<SwappedAction>)
    requires Execution(run, steps) && k <= |steps|
    ensures |acts| == k && SwappedBehavior(states, acts, r)
    ensures states[0].backend == run[0] && states[k] == SwappedSystem(run[k], Away)
  {
    if k == 0 {
      states, acts := [SwappedSystem(run[0], Away)], [];
    } else {
      states, acts := WithoutClient(run, steps, r, k - 1);
      states, acts := states + [SwappedSystem(run[k], Away)], acts + [BackendStep(steps[k - 1])];
    }
  }

  lemma Join(states: seq<SwappedSystem>, acts: seq<SwappedAction>,
             more: seq<SwappedSystem>, moreActs: seq<SwappedAction>, r: RunId)
    requires SwappedBehavior(states, acts, r) && SwappedBehavior(more, moreActs, r) && states[|acts|] == more[0]
    ensures SwappedBehavior(states + more[1..], acts + moreActs, r)
  {
    var all, steps := states + more[1..], acts + moreActs;
    forall k | 0 <= k < |steps|
      ensures SwappedCan(all[k], steps[k], r) && all[k + 1] == SwappedStep(all[k], steps[k], r) {
      if k >= |acts| {
        assert all[k] == more[k - |acts|] && all[k + 1] == more[k + 1 - |acts|];
      }
    }
  }

  lemma OneItemDue(run: Run)
    requires run == OneItem(false)
    ensures RunEnabled(run, FanInUpdate(true, 2))
  {
  }

  lemma FanInDue() returns (s: State)
    ensures Reachable(s) && Enabled(s, OnRun(0, FanInUpdate(true, 2))) && JobsOver(s, 0)
  {
    OneItemReachable(false);
    OneItemDue(OneItem(false));
    s := OneItemState(false);
  }

  /** From any reachable state with a fan-in due and no job left, within an execution from the initial state. */
  lemma SwappedFromStart(s: State, r: RunId, now: Time)
    returns (states: seq<SwappedSystem>, acts: seq<SwappedAction>, snapshot: Event)
    requires Reachable(s) && Enabled(s, OnRun(r, FanInUpdate(true, now))) && JobsOver(s, r)
    ensures SwappedBehavior(states, acts, r) && exists env, ratings :: states[0].backend == Init(env, ratings)
    ensures Deaf(states[|acts|], r, snapshot) && snapshot.Snapshot? && EndsInDone(states[|acts|].backend, r)
  {
    ReachableInv(s);
    var run: seq<State>, steps: seq<Action> :| Execution(run, steps) && run[|steps|] == s;
    var before, beforeActs := WithoutClient(run, steps, r, |steps|);
    var more, moreActs := SwappedOrderFrom(s, r, now);
    Join(before, beforeActs, more, moreActs, r);
    states, acts, snapshot := before + more[1..], beforeActs + moreActs, PeekedRow(s.runs[r]).snapshot;
  }

  /**
   One execution, from the initial state of the system, in which the client with the swapped order loses
   `done`: the channel ends with it, the run has drained, and the client relays on with nothing but its
   snapshot, as it will in every continuation.
   */
  lemma SwappedOrderHappens() returns (states: seq<SwappedSystem>, acts: seq<SwappedAction>, snapshot: Event)
    ensures SwappedBehavior(states, acts, 0) && exists env, ratings :: states[0].backend == Init(env, ratings)
    ensures Deaf(states[|acts|], 0, snapshot) && snapshot.Snapshot? && EndsInDone(states[|acts|].backend, 0)
  {
    var s := FanInDue();
    states, acts, snapshot := SwappedFromStart(s, 0, 2);
  }
}
