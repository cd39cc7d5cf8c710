/**
 The SSE reader of a run, composed with the run protocol.

 A reader subscribes to the run's channel, then reads the row as its snapshot, then relays the
 deltas published since it subscribed, and closes on `done`. Its three kinds of steps
 interleave freely with every backend action and with any number of other readers.
 */
module RunStream {
  import opened Common
  import opened RunProtocol
  import opened RunInvariant
  import opened RunTheorems

  datatype Event =
    | Snapshot(version: nat, row: RunRow)
    | Delta(m: Msg)
    | DoneNow(row: RunRow)     // the run was already terminal on connect
    | NotFound

  datatype Phase = Subscribed | Relaying | Finished

  /** `from` is the channel position at subscription, `cursor` the next message to relay. */
  datatype Reader = Reader(run: RunId, from: nat, cursor: nat, phase: Phase, out: seq<Event>)

  datatype System = System(backend: State, readers: map<nat, Reader>)

  datatype SystemAction =
    | Backend(a: Action)
    | Connect(id: nat, r: RunId)
    | ReadRow(id: nat)
    | Relay(id: nat)

  function Channel(s: State, r: RunId): seq<Msg> {
    if r in s.runs then s.runs[r].log else []
  }

  predicate IsDoneEvent(e: Event) {
    e.DoneNow? || (e.Delta? && e.m.kind.Done?)
  }

  /** (2) and (3) of the endpoint: emit the snapshot, and close at once if it is terminal. */
  function AfterRead(reader: Reader, s: State): Reader
    requires reader.run in s.runs ==> s.runs[reader.run].history != []
  {
    if reader.run !in s.runs then reader.(phase := Finished, out := [NotFound])
    else
      var run := s.runs[reader.run];
      var snapshot := Snapshot(|run.history| - 1, run.Row());
      if Terminal(run.Row().status) then reader.(phase := Finished, out := [snapshot, DoneNow(run.Row())])
      else reader.(phase := Relaying, out := [snapshot])
  }

  /** (4) of the endpoint: relay one delta, and close after `done`. */
  function AfterRelay(reader: Reader, log: seq<Msg>): Reader
    requires reader.cursor < |log|
  {
    var m := log[reader.cursor];
    reader.(cursor := reader.cursor + 1,
            out := reader.out + [Delta(m)],
            phase := if m.kind.Done? then Finished else Relaying)
  }

  function DeltaEvents(log: seq<Msg>): (events: seq<Event>)
    ensures |events| == |log|
  {
    seq(|log|, i requires 0 <= i < |log| => Delta(log[i]))
  }

  // --- the generator, run against a channel ------------------------------------------------

  /** The relay steps of a reader as long as the channel has messages for it. */
  function RelayAll(reader: Reader, log: seq<Msg>): Reader
    decreases |log| - reader.cursor
  {
    if reader.phase.Relaying? && reader.cursor < |log| then RelayAll(AfterRelay(reader, log), log) else reader
  }

  /** Where a relay from `from` ends: behind the first `done`, or at the end of the channel. */
  function UpToDone(log: seq<Msg>, from: nat): (n: nat)
    requires from <= |log|
    ensures from <= n <= |log| && forall k :: from <= k < n - 1 ==> !log[k].kind.Done?
    ensures n < |log| ==> n > from && log[n - 1].kind.Done?
    decreases |log| - from
  {
    if from == |log| then from
    else if log[from].kind.Done? then from + 1
    else UpToDone(log, from + 1)
  }

  /** gen: `s` is the database when the row is read, `log` the channel, read from where the subscription began. */
  method Gen(start: Reader, s: State, log: seq<Msg>) returns (out: seq<Event>)
    requires start.phase.Subscribed? && start.out == [] && start.cursor <= |log|
    requires start.run in s.runs ==> s.runs[start.run].history != []
    ensures out == RelayAll(AfterRead(start, s), log).out
    ensures start.run !in s.runs ==> out == [NotFound]
    ensures start.run in s.runs ==>
      var run := s.runs[start.run];
      var snapshot := Snapshot(|run.history| - 1, run.Row());
      out == if Terminal(run.Row().status) then [snapshot, DoneNow(run.Row())]
             else [snapshot] + DeltaEvents(log[start.cursor..UpToDone(log, start.cursor)])
  {
    if start.run !in s.runs {
      return [NotFound];
    }
    var run := s.runs[start.run];
    out := [Snapshot(|run.history| - 1, run.Row())];
    if Terminal(run.Row().status) {
      return out + [DoneNow(run.Row())];
    }
    var snapshot := out[0];
    var cursor := start.cursor;
    while cursor < |log|
      invariant start.cursor <= cursor <= |log|
      invariant out == [snapshot] + DeltaEvents(log[start.cursor..cursor])
      invariant UpToDone(log, start.cursor) == UpToDone(log, cursor)
      invariant RelayAll(AfterRead(start, s), log) == RelayAll(AfterRead(start, s).(cursor := cursor, out := out), log)
    {
      var m := log[cursor];
      assert log[start.cursor..cursor + 1] == log[start.cursor..cursor] + [m];
      out, cursor := out + [Delta(m)], cursor + 1;
      if m.kind.Done? {
        return;
      }
    }
  }

  predicate CanStep(s: System, a: SystemAction) {
    match a
    case Backend(b) => Enabled(s.backend, b)
    case Connect(id, r) => id !in s.readers
    case ReadRow(id) =>
      && id in s.readers && s.readers[id].phase.Subscribed?
      && (s.readers[id].run in s.backend.runs ==> s.backend.runs[s.readers[id].run].history != [])
    case Relay(id) =>
      && id in s.readers && s.readers[id].phase.Relaying?
      && s.readers[id].cursor < |Channel(s.backend, s.readers[id].run)|
  }

  function Step(s: System, a: SystemAction): System
    requires CanStep(s, a)
  {
    match a
    case Backend(b) => s.(backend := Apply(s.backend, b))
    case Connect(id, r) =>
      var n := |Channel(s.backend, r)|;
      s.(readers := s.readers[id := Reader(r, n, n, Subscribed, [])])
    case ReadRow(id) => s.(readers := s.readers[id := AfterRead(s.readers[id], s.backend)])
    case Relay(id) =>
      s.(readers := s.readers[id := AfterRelay(s.readers[id], Channel(s.backend, s.readers[id].run))])
  }

  ghost predicate Behavior(states: seq<System>, acts: seq<SystemAction>) {
    && |states| == |acts| + 1
    && (exists env, ratings :: states[0] == System(Init(env, ratings), map[]))
    && forall k :: 0 <= k < |acts| ==> CanStep(states[k], acts[k]) && states[k + 1] == Step(states[k], acts[k])
  }

  // --- the invariant of a reader ---------------------------------------------------------

  /** The snapshot is a committed version, and nothing already published when the reader subscribed is newer. */
  ghost predicate SnapshotOk(reader: Reader, run: Run) {
    && reader.out != [] && reader.out[0].Snapshot?
    && reader.out[0].version < |run.history|
    && reader.out[0].row == run.history[reader.out[0].version].row
    && reader.from <= reader.cursor <= |run.log|
    && (forall k :: 0 <= k < reader.from ==> run.log[k].version <= reader.out[0].version)
  }

  ghost predicate Live(reader: Reader, run: Run) {
    && SnapshotOk(reader, run)
    && !Terminal(reader.out[0].row.status)
    && reader.out[1..] == DeltaEvents(run.log[reader.from..reader.cursor])
  }

  ghost predicate ReaderInv(reader: Reader, s: State) {
    match reader.phase
    case Subscribed => reader.out == [] && reader.cursor == reader.from <= |Channel(s, reader.run)|
    case Relaying =>
      && reader.run in s.runs && Live(reader, s.runs[reader.run])
      && forall e <- reader.out :: !IsDoneEvent(e)
    case Finished =>
      || reader.out == [NotFound]
      || (&& reader.run in s.runs && SnapshotOk(reader, s.runs[reader.run])
          && |reader.out| == 2 && reader.out[1] == DoneNow(reader.out[0].row) && Terminal(reader.out[0].row.status))
      || (&& reader.run in s.runs && Live(reader, s.runs[reader.run])
          && |reader.out| >= 2 && IsDoneEvent(reader.out[|reader.out| - 1])
          && forall e <- reader.out[..|reader.out| - 1] :: !IsDoneEvent(e))
  }

  ghost predicate SystemInv(s: System) {
    Inv(s.backend) && forall id <- s.readers :: ReaderInv(s.readers[id], s.backend)
  }

  lemma LogGrows(s: State, a: Action, r: RunId)
    requires Enabled(s, a) && r in s.runs
    ensures r in Apply(s, a).runs
    ensures s.runs[r].history <= Apply(s, a).runs[r].history
    ensures s.runs[r].log <= Apply(s, a).runs[r].log
  {
    if RunOf(s, a) != Some(r) {
      OtherRun(s, a, r);
    } else {
      OwnAction(s, a, r);
    }
  }

  lemma SnapshotStays(reader: Reader, run: Run, run': Run)
    requires SnapshotOk(reader, run) && run.history <= run'.history && run.log <= run'.log
    ensures SnapshotOk(reader, run')
    ensures run'.log[reader.from..reader.cursor] == run.log[reader.from..reader.cursor]
  {
    assert run'.history[reader.out[0].version] == run.history[reader.out[0].version];
    forall k | 0 <= k < reader.from ensures run'.log[k].version <= reader.out[0].version {
      assert run'.log[k] == run.log[k];
    }
  }

  lemma ReaderUnderBackend(reader: Reader, s: State, a: Action)
    requires Enabled(s, a) && ReaderInv(reader, s)
    ensures ReaderInv(reader, Apply(s, a))
  {
    if reader.run in s.runs {
      LogGrows(s, a, reader.run);
      if SnapshotOk(reader, s.runs[reader.run]) {
        SnapshotStays(reader, s.runs[reader.run], Apply(s, a).runs[reader.run]);
      }
    }
  }

  /** What becomes of a reader that finds this row. */
  lemma ReadsRow(reader: Reader, s: State, run: Run)
    requires reader.run in s.runs && s.runs[reader.run] == run && run.history != []
    requires reader.cursor == reader.from <= |run.log|
    requires forall k :: 0 <= k < |run.log| ==> run.log[k].version <= |run.history| - 1
    ensures ReaderInv(AfterRead(reader, s), s)
  {
    var next := AfterRead(reader, s);
    assert SnapshotOk(next, run);
    if next.phase.Relaying? {
      assert next.out[1..] == [] && run.log[next.from..next.cursor] == [];
    }
  }

  lemma ReaderReads(reader: Reader, s: State)
    requires Inv(s) && ReaderInv(reader, s) && reader.phase.Subscribed?
    requires reader.run in s.runs ==> s.runs[reader.run].history != []
    ensures ReaderInv(AfterRead(reader, s), s)
  {
    if reader.run in s.runs {
      LogBehind(reader.run, s.runs[reader.run], s.jobs);
      ReadsRow(reader, s, s.runs[reader.run]);
    }
  }

  /** Nothing on the channel is ahead of the row. */
  lemma LogBehind(r: RunId, run: Run, jobs: seq<Job>)
    requires RunInv(r, run, jobs)
    ensures forall k :: 0 <= k < |run.log| ==> run.log[k].version <= |run.history| - 1
  {
    forall k | 0 <= k < |run.log| ensures run.log[k].version <= |run.history| - 1 {
      assert run.log[k] in run.log;
    }
  }

  lemma ReaderRelays(reader: Reader, s: State)
    requires ReaderInv(reader, s) && reader.phase.Relaying?
    requires reader.cursor < |Channel(s, reader.run)|
    ensures ReaderInv(AfterRelay(reader, Channel(s, reader.run)), s)
  {
    var log := Channel(s, reader.run);
    var next := AfterRelay(reader, log);
    assert log[reader.from..next.cursor] == log[reader.from..reader.cursor] + [log[reader.cursor]];
    assert next.out[1..] == reader.out[1..] + [Delta(log[reader.cursor])];
    assert next.out[..|next.out| - 1] == reader.out;
  }

  lemma SystemStep(s: System, a: SystemAction)
    requires SystemInv(s) && CanStep(s, a)
    ensures SystemInv(Step(s, a))
  {
    match a
    case Backend(b) =>
      InvStep(s.backend, b);
      forall id <- s.readers ensures ReaderInv(s.readers[id], Apply(s.backend, b)) {
        ReaderUnderBackend(s.readers[id], s.backend, b);
      }
    case Connect(id, r) =>
    case ReadRow(id) => ReaderReads(s.readers[id], s.backend);
    case Relay(id) => ReaderRelays(s.readers[id], s.backend);
  }

  lemma {:induction false} SystemInvHolds(states: seq<System>, acts: seq<SystemAction>, k: nat)
    requires Behavior(states, acts) && k < |states|
    ensures SystemInv(states[k])
  {
    if k > 0 {
      SystemInvHolds(states, acts, k - 1);
      SystemStep(states[k - 1], acts[k - 1]);
    }
  }

  // --- what a client sees ------------------------------------------------------------------

  ghost predicate Shapely(reader: Reader) {
    || reader.out == [] || reader.out == [NotFound]
    || (&& reader.out[0].Snapshot?
        && (forall i :: 1 <= i < |reader.out| ==> reader.out[i].Delta? || reader.out[i].DoneNow?)
        && (forall i :: 0 <= i < |reader.out| && IsDoneEvent(reader.out[i]) ==> i == |reader.out| - 1)
        && (reader.phase.Finished? <==> IsDoneEvent(reader.out[|reader.out| - 1])))
  }

  lemma LiveDeltas(reader: Reader, run: Run)
    requires Live(reader, run)
    ensures forall i :: 1 <= i < |reader.out| ==> reader.out[i].Delta?
  {
    forall i | 1 <= i < |reader.out| ensures reader.out[i].Delta? {
      assert reader.out[i] == reader.out[1..][i - 1];
    }
  }

  lemma ReaderShapely(reader: Reader, s: State)
    requires ReaderInv(reader, s)
    ensures Shapely(reader)
  {
    var out := reader.out;
    if reader.run in s.runs && Live(reader, s.runs[reader.run]) {
      LiveDeltas(reader, s.runs[reader.run]);
    }
    forall i | 0 <= i < |out| - 1 ensures !IsDoneEvent(out[i]) {
      assert out[i] == out[..|out| - 1][i] && out[i] in out;
    }
  }

  /**
   The shape of every stream at every moment: nothing yet, or an error, or a snapshot followed
   by deltas; a `done` appears only as the last event, and the stream is closed exactly then.
   */
  lemma StreamShape(states: seq<System>, acts: seq<SystemAction>, k: nat, id: nat)
    requires Behavior(states, acts) && k < |states| && id in states[k].readers
    ensures Shapely(states[k].readers[id])
  {
    SystemInvHolds(states, acts, k);
    ReaderShapely(states[k].readers[id], states[k].backend);
  }

  /**
   A client is relayed only what was published after it subscribed: nothing is replayed. It keeps its run and
   its place on the channel.
   */
  lemma {:induction false} SubscribesAtEnd(states: seq<System>, acts: seq<SystemAction>, m: nat, k: nat, id: nat,
                                           r: RunId)
    requires Behavior(states, acts) && m < k < |states| && acts[m] == Connect(id, r)
    ensures id in states[k].readers && states[k].readers[id].run == r
    ensures states[k].readers[id].from == |Channel(states[m].backend, r)| <= states[k].readers[id].cursor
    decreases k
  {
    assert CanStep(states[k - 1], acts[k - 1]) && states[k] == Step(states[k - 1], acts[k - 1]);
    if m < k - 1 {
      SubscribesAtEnd(states, acts, m, k - 1, id, r);
    }
  }

  /** The commit at version `c` has had its delta published at or after channel position `from`. */
  ghost predicate PublishedSince(run: Run, c: nat, from: nat) {
    exists k :: from <= k < |run.log| && run.log[k].version == c
  }

  /** How often the delta of version `c` is on the channel. */
  function Copies(run: Run, c: nat): nat {
    Sum(run.log, InLog(AtVersion(c)))
  }

  /** How many processes hold that delta, still to be published. */
  function Holders(r: RunId, run: Run, jobs: seq<Job>, c: nat): nat {
    Sum(run.tasks, HeldByTask(AtVersion(c))) + Sum(jobs, HeldByJob(r, AtVersion(c)))
    + (if run.fanIn.Decided? && run.fanIn.delta.version == c then 1 else 0)
  }

  lemma OneCopyOrHolder(r: RunId, run: Run, jobs: seq<Job>, c: nat)
    requires RunInv(r, run, jobs) && c < |run.history| && HasDelta(run.history[c].cause)
    ensures Copies(run, c) + Holders(r, run, jobs, c) == 1
  {
    assert Issued(r, run, jobs, AtVersion(c)) == Deltas(run, c);
  }

  /** On the channel once, since the client subscribed; or with exactly one process that will publish it. */
  ghost predicate ReachesReader(reader: Reader, run: Run, jobs: seq<Job>, c: nat) {
    if Holders(reader.run, run, jobs, c) == 0 then Copies(run, c) == 1 && PublishedSince(run, c, reader.from)
    else Holders(reader.run, run, jobs, c) == 1 && Copies(run, c) == 0
  }

  lemma ReachesSnapshot(reader: Reader, run: Run, jobs: seq<Job>, c: nat)
    requires RunInv(reader.run, run, jobs) && SnapshotOk(reader, run)
    requires reader.out[0].version < c < |run.history| && HasDelta(run.history[c].cause)
    ensures ReachesReader(reader, run, jobs, c)
  {
    OneCopyOrHolder(reader.run, run, jobs, c);
    if Copies(run, c) > 0 {
      var i := SumPositive(run.log, InLog(AtVersion(c)));
      assert i >= reader.from;
    }
  }

  /**
   No lost update. For a client that has its snapshot (version v of the row), every later
   commit that announces itself is either held by exactly one process, which is still to publish it,
   or was published, once, after the client subscribed; so it is on the part of the channel the client
   relays. And what it has relayed so far is exactly that part up to its cursor.
   */
  lemma NoLostUpdate(states: seq<System>, acts: seq<SystemAction>, k: nat, id: nat, c: nat)
    requires Behavior(states, acts) && k < |states| && id in states[k].readers
    requires states[k].readers[id].phase.Relaying?
    ensures var reader, s := states[k].readers[id], states[k].backend;
      && reader.run in s.runs
      && reader.out != [] && reader.out[0].Snapshot?
      && reader.from <= reader.cursor <= |s.runs[reader.run].log|
      && reader.out[1..] == DeltaEvents(s.runs[reader.run].log[reader.from..reader.cursor])
      && (reader.out[0].version < c < |s.runs[reader.run].history| && HasDelta(s.runs[reader.run].history[c].cause) ==>
            ReachesReader(reader, s.runs[reader.run], s.jobs, c))
  {
    SystemInvHolds(states, acts, k);
    var reader, s := states[k].readers[id], states[k].backend;
    assert ReaderInv(reader, s);
    var run := s.runs[reader.run];
    if reader.out[0].version < c < |run.history| && HasDelta(run.history[c].cause) {
      assert RunInv(reader.run, run, s.jobs);
      ReachesSnapshot(reader, run, s.jobs, c);
    }
  }

  /** The place of a `done` on a channel that has one. */
  lemma DonePosition(s: State, r: RunId) returns (d: nat)
    requires Inv(s) && r in s.runs && DonesPublished(s.runs[r]) > 0
    ensures d < |s.runs[r].log| && s.runs[r].log[d].kind.Done?
    ensures s.runs[r].history != [] && Terminal(s.runs[r].log[d].row.status)
    ensures s.runs[r].log[d].version < |s.runs[r].history|
    ensures s.runs[r].log[d].row == s.runs[r].history[s.runs[r].log[d].version].row
  {
    var run := s.runs[r];
    assert RunInv(r, run, s.jobs);
    d := SumPositive(run.log, InLog(IsDone));
    assert run.log[d] in run.log;
  }

  /** A published `done` lies ahead of every reader still relaying. */
  lemma DoneAhead(reader: Reader, s: State) returns (d: nat)
    requires Inv(s) && ReaderInv(reader, s) && reader.phase.Relaying? && DonesPublished(s.runs[reader.run]) > 0
    ensures reader.cursor <= d < |Channel(s, reader.run)| && Channel(s, reader.run)[d].kind.Done?
  {
    var run := s.runs[reader.run];
    d := DonePosition(s, reader.run);
    assert RunInv(reader.run, run, s.jobs);
    var v := reader.out[0].version;
    if run.log[d].version <= v {
      ForwardChain(run, run.log[d].version, v);
    }
    RelayedNotDone(reader, run, d);
  }

  /**
   Every stream of a run that ended can end. If the run has published `done` and a client is still
   relaying, then it lies ahead of the client's cursor: relaying on, it receives it and closes.
   */
  lemma DoneLiesAhead(states: seq<System>, acts: seq<SystemAction>, k: nat, id: nat) returns (d: nat)
    requires Behavior(states, acts) && k < |states| && id in states[k].readers
    requires states[k].readers[id].phase.Relaying?
    requires states[k].readers[id].run in states[k].backend.runs
    requires DonesPublished(states[k].backend.runs[states[k].readers[id].run]) > 0
    ensures states[k].readers[id].cursor <= d < |Channel(states[k].backend, states[k].readers[id].run)|
    ensures Channel(states[k].backend, states[k].readers[id].run)[d].kind.Done?
  {
    SystemInvHolds(states, acts, k);
    d := DoneAhead(states[k].readers[id], states[k].backend);
  }

  /** What a relaying reader has passed contains no `done`. */
  lemma RelayedNotDone(reader: Reader, run: Run, d: nat)
    requires Live(reader, run) && (forall e <- reader.out :: !IsDoneEvent(e))
    requires reader.from <= d < |run.log| && run.log[d].kind.Done?
    ensures reader.cursor <= d
  {
    var events := DeltaEvents(run.log[reader.from..reader.cursor]);
    forall i | reader.from <= i < reader.cursor ensures !run.log[i].kind.Done? {
      assert events[i - reader.from] == Delta(run.log[i]);
      assert reader.out[1 + i - reader.from] == reader.out[1..][i - reader.from];
      assert reader.out[1 + i - reader.from] in reader.out;
    }
  }

  function LastStatus(reader: Reader): Status
    requires reader.out != [] && IsDoneEvent(reader.out[|reader.out| - 1])
  {
    var last := reader.out[|reader.out| - 1];
    if last.DoneNow? then last.row.status else last.m.row.status
  }

  /** The row of a message that ends the run has the status the run has kept since. */
  lemma LastDelta(reader: Reader, s: State)
    requires Inv(s) && reader.run in s.runs && Live(reader, s.runs[reader.run]) && |reader.out| >= 2
    requires reader.out[|reader.out| - 1] == Delta(reader.out[|reader.out| - 1].m)
      && reader.out[|reader.out| - 1].m.kind.Done?
    ensures s.runs[reader.run].history != []
    ensures var status := reader.out[|reader.out| - 1].m.row.status;
      status == s.runs[reader.run].Row().status && Terminal(status)
  {
    var run := s.runs[reader.run];
    assert RunInv(reader.run, run, s.jobs);
    var last := reader.out[|reader.out| - 1];
    assert last == reader.out[1..][|reader.out| - 2];
    var m := run.log[reader.from..reader.cursor][|reader.out| - 2];
    assert m == last.m && m in run.log;
    ForwardChain(run, m.version, |run.history| - 1);
  }

  lemma LastSnapshot(reader: Reader, s: State)
    requires Inv(s) && ReaderInv(reader, s) && reader.phase.Finished? && reader.out != [NotFound]
    requires reader.out != [] && reader.out[|reader.out| - 1].DoneNow?
    ensures reader.run in s.runs && s.runs[reader.run].history != []
    ensures LastStatus(reader) == s.runs[reader.run].Row().status && Terminal(LastStatus(reader))
  {
    var run := s.runs[reader.run];
    assert RunInv(reader.run, run, s.jobs);
    ForwardChain(run, reader.out[0].version, |run.history| - 1);
  }

  lemma FinalStatus(reader: Reader, s: State)
    requires Inv(s) && ReaderInv(reader, s) && reader.phase.Finished? && reader.out != [NotFound]
    ensures reader.out != [] && reader.run in s.runs && s.runs[reader.run].history != []
    ensures IsDoneEvent(reader.out[|reader.out| - 1])
    ensures LastStatus(reader) == s.runs[reader.run].Row().status && Terminal(LastStatus(reader))
  {
    if reader.out[|reader.out| - 1].DoneNow? {
      LastSnapshot(reader, s);
    } else {
      LastDelta(reader, s);
    }
  }

  /** Its last event carries the status the run ended with. */
  ghost predicate EndsTruly(reader: Reader, s: State) {
    && reader.out != [] && reader.run in s.runs && s.runs[reader.run].history != []
    && IsDoneEvent(reader.out[|reader.out| - 1])
    && LastStatus(reader) == s.runs[reader.run].Row().status && Terminal(LastStatus(reader))
  }

  lemma ClosedIn(s: System, id: nat)
    requires SystemInv(s) && id in s.readers
    requires s.readers[id].phase.Finished? && s.readers[id].out != [NotFound]
    ensures EndsTruly(s.readers[id], s.backend)
  {
    FinalStatus(s.readers[id], s.backend);
  }

  /** A closed stream told the truth. */
  lemma ClosedWithFinalStatus(states: seq<System>, acts: seq<SystemAction>, k: nat, id: nat)
    requires Behavior(states, acts) && k < |states| && id in states[k].readers
    requires states[k].readers[id].phase.Finished? && states[k].readers[id].out != [NotFound]
    ensures EndsTruly(states[k].readers[id], states[k].backend)
  {
    SystemInvHolds(states, acts, k);
    ClosedIn(states[k], id);
  }
}
