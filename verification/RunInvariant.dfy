/**
 The inductive invariant of the run protocol: what every action of every process keeps.

 The counting part ties the row's counters to the processes: `done_count` counts the scrape
 tasks past their count commit, `inserted` their new items, `rated_count` the announced rating
 jobs. The message part says which deltas exist, published or about to be.
 */
module RunInvariant {
  import opened Common
  import opened RunProtocol

  // --- the invariant --------------------------------------------------------------

  function Rank(status: Status): nat {
    match status
    case Queued => 0
    case Running => 1
    case Rating => 2
    case Completed => 3
    case Failed => 3
  }

  /** How one committed version of a row may differ from an earlier one. */
  predicate Forward(a: RunRow, b: RunRow) {
    && Rank(a.status) <= Rank(b.status)
    && (Terminal(a.status) ==> b.status == a.status && b.finished == a.finished)
    && (a.started.Some? ==> b.started == a.started)
    && a.done <= b.done && a.inserted <= b.inserted && a.rated <= b.rated
    && a.hasModel == b.hasModel
  }

  ghost predicate Recorded(run: Run) {
    && run.history != []
    && (forall k :: 0 <= k < |run.history| - 1 ==> Forward(run.history[k].row, run.history[k + 1].row))
    && (forall k :: 0 <= k < |run.history| ==>
          (run.history[k].row.finished.Some? <==> Terminal(run.history[k].row.status)))
  }

  /** The counters of the row against the state of the processes. */
  ghost predicate Counting(r: RunId, run: Run, jobs: seq<Job>)
    requires run.history != []
  {
    var row := run.Row();
    && row.done == Sum(run.tasks, CountedOne)
    && row.inserted == Sum(run.tasks, ItemsOf)
    && row.rated == Sum(jobs, AnnouncedIn(r))
    && Sum(jobs, OfRun(r)) + Sum(jobs, DeadIn(r)) == Sum(run.tasks, EnqueuedOf)
  }

  predicate TaskOk(t: Task, row: RunRow) {
    && (t.Counted? ==> t.next <= |t.items| && (t.rate != Some(true) ==> t.next == 0) && (t.failed ==> t.items == []))
    && (t.Counted? && row.hasModel ==> t.rate != Some(false))
    && (t.Returned? && row.hasModel ==> t.rated)
    && (t.Returned? && t.failed ==> t.count == 0)
    && (!t.Waiting? ==> !row.status.Queued? && row.started.Some?)
  }

  /** Where the processes stand, and what that says about the row's status. */
  ghost predicate Control(run: Run)
    requires run.history != []
  {
    var row := run.Row();
    && (!run.dispatch.Launched? ==> run.tasks == [] && run.fanIn.Open? && row.status.Queued?)
    && (run.dispatch.Sized? ==> row.total == run.dispatch.n)
    && (run.dispatch.Launched? ==> row.total == |run.tasks|)
    && (forall t <- run.tasks :: TaskOk(t, row))
    && (run.fanIn.Open? <==> Rank(row.status) <= 1)
    && (!run.fanIn.Open? ==> forall t <- run.tasks :: t.Returned?)
    && (!run.fanIn.Open? ==> run.fanIn.seen <= row.rated && (row.hasModel ==> run.fanIn.on))
    && (row.status.Rating? ==> run.fanIn.on && row.rated < row.inserted)
    && (row.status.Completed? && run.fanIn.on ==> row.rated == row.inserted)
  }

  /** A message carries exactly what its commit wrote. */
  ghost predicate Faithful(run: Run, m: Msg) {
    && m.version < |run.history|
    && m.row == run.history[m.version].row
    && match run.history[m.version].cause
       case ByCount => m.kind.Progress?
       case ByFanIn => m.kind == FanInKind(m.row)
       case ByAnnounce => m.kind == AnnounceKind(m.row)
       case _ => false
  }

  function Deltas(run: Run, c: nat): nat {
    if c < |run.history| && HasDelta(run.history[c].cause) then 1 else 0
  }

  /**
   How many `done` a run has made by now: one with its terminal status, and one more with every bump
   after a fan-in that completed it in the belief that nothing is being rated.
   */
  function DoneCount(run: Run): nat
    requires run.history != []
  {
    var row, fanIn := run.Row(), run.fanIn;
    if !Terminal(row.status) then 0
    else if row.status.Completed? && !fanIn.Open? && !fanIn.on && fanIn.seen <= row.rated
    then 1 + row.rated - fanIn.seen
    else 1
  }

  ghost predicate Messages(r: RunId, run: Run, jobs: seq<Job>)
    requires run.history != []
  {
    && Issued(r, run, jobs, IsDone) == DoneCount(run)
    && (forall c: nat :: Issued(r, run, jobs, AtVersion(c)) == Deltas(run, c))
    && (forall m <- run.log :: Faithful(run, m))
    && (forall t <- run.tasks :: t.Counted? ==> Faithful(run, t.delta))
    && (run.fanIn.Decided? ==> Faithful(run, run.fanIn.delta))
    && (forall job <- jobs :: job.run == Some(r) && job.phase.Telling? ==> Faithful(run, job.phase.delta))
  }

  ghost predicate RunInv(r: RunId, run: Run, jobs: seq<Job>) {
    Recorded(run) && Counting(r, run, jobs) && Control(run) && Messages(r, run, jobs)
  }

  ghost predicate Inv(s: State) {
    && (forall job <- s.jobs :: job.run.Some? ==> job.run.value in s.runs)
    && (forall r <- s.runs :: RunInv(r, s.runs[r], s.jobs))
  }

  // --- messages: publishing moves them, three commits make them -------------------

  /** The message a run step's commit makes. */
  function MadeByRun(env: bool, run: Run, step: RunStep): Option<Msg>
    requires RunEnabled(run, step)
  {
    match step
    case CommitCount(i, outcome) => Some(ProgressMsg(run, CountRow(run.Row(), |ItemsFrom(outcome)|)))
    case FanInUpdate(refreshFailed, now) =>
      Some(FanInMsg(run, FanInRow(run.Row(), AllFailed(run.tasks) || refreshFailed, env, now), env))
    case _ => None
  }

  function Holds(m: Option<Msg>, p: Msg -> bool): nat {
    if m.Some? && p(m.value) then 1 else 0
  }

  predicate OfTask(step: RunStep) {
    step.FlipRunning? || step.CommitCount? || step.ReadModel? || step.EnqueueRating? || step.PublishProgress?
  }

  lemma IssuedByTask(env: bool, r: RunId, run: Run, jobs: seq<Job>, step: RunStep, p: Msg -> bool)
    requires RunEnabled(run, step) && OfTask(step)
    ensures Issued(r, RunApply(env, run, step), jobs + Spawned(r, run, step), p)
         == Issued(r, run, jobs, p) + Holds(MadeByRun(env, run, step), p)
  {
    assert !step.EnqueueRating? ==> jobs + Spawned(r, run, step) == jobs;
    SumUpdate(run.tasks, step.i, RunApply(env, run, step).tasks[step.i], HeldByTask(p));
    if step.EnqueueRating? {
      SumAppend(jobs, Spawned(r, run, step)[0], HeldByJob(r, p));
    } else if step.PublishProgress? {
      SumAppend(run.log, run.tasks[step.i].delta, InLog(p));
    }
  }

  lemma IssuedByRun(env: bool, r: RunId, run: Run, jobs: seq<Job>, step: RunStep, p: Msg -> bool)
    requires RunEnabled(run, step)
    requires step.LaunchChord? ==> run.tasks == []
    ensures Issued(r, RunApply(env, run, step), jobs + Spawned(r, run, step), p)
         == Issued(r, run, jobs, p) + Holds(MadeByRun(env, run, step), p)
  {
    if OfTask(step) {
      IssuedByTask(env, r, run, jobs, step, p);
    } else {
      assert jobs + Spawned(r, run, step) == jobs;
      match step
      case LaunchChord => SumZero(RunApply(env, run, step).tasks, HeldByTask(p));
      case PublishFanIn => SumAppend(run.log, run.fanIn.delta, InLog(p));
      case _ =>
    }
  }

  /** The message a rating job's step makes for its run. */
  function MadeByJob(run: Run, step: JobStep): Option<Msg>
    requires run.history != []
  {
    match step
    case Announce(now) => Some(AnnounceMsg(run, AnnounceRow(run.Row(), now)))
    case _ => None
  }

  lemma IssuedByJob(r: RunId, run: Run, jobs: seq<Job>, j: nat, ratings: set<Hash>, step: JobStep, p: Msg -> bool)
    requires run.history != [] && j < |jobs| && jobs[j].run == Some(r) && JobEnabled(jobs[j], step)
    ensures Issued(r, RunAfterJob(run, jobs[j], step), jobs[j := JobApply(jobs[j], ratings, Some(run), step)], p)
         == Issued(r, run, jobs, p) + Holds(MadeByJob(run, step), p)
  {
    SumUpdate(jobs, j, JobApply(jobs[j], ratings, Some(run), step), HeldByJob(r, p));
    if step.PublishRating? {
      SumAppend(run.log, jobs[j].phase.delta, InLog(p));
    }
  }

  // --- facts that follow from the counting part -------------------------------------

  /** Announced jobs are jobs, and enqueued items are items: rated <= jobs of the run <= inserted. */
  lemma JobBounds(r: RunId, run: Run, jobs: seq<Job>)
    requires run.history != [] && Counting(r, run, jobs) && Control(run)
    ensures run.Row().rated <= Sum(jobs, OfRun(r)) <= run.Row().inserted
    ensures run.Row().rated == Sum(jobs, OfRun(r)) <==>
      forall job <- jobs :: job.run == Some(r) ==> job.phase.Telling? || Over(job)
    ensures (forall t <- run.tasks :: t.Returned? && t.rated) ==>
      Sum(jobs, OfRun(r)) + Sum(jobs, DeadIn(r)) == run.Row().inserted
  {
    SumBound(jobs, AnnouncedIn(r), OfRun(r));
    assert (forall job <- jobs :: job.run == Some(r) ==> job.phase.Telling? || Over(job))
      <==> forall i :: 0 <= i < |jobs| ==> AnnouncedIn(r)(jobs[i]) == OfRun(r)(jobs[i]);
    forall i | 0 <= i < |run.tasks| ensures EnqueuedOf(run.tasks[i]) <= ItemsOf(run.tasks[i]) {
      assert TaskOk(run.tasks[i], run.Row());
    }
    SumBound(run.tasks, EnqueuedOf, ItemsOf);
    if forall t <- run.tasks :: t.Returned? && t.rated {
      forall i | 0 <= i < |run.tasks| ensures EnqueuedOf(run.tasks[i]) == ItemsOf(run.tasks[i]) {
        assert run.tasks[i] in run.tasks;
      }
    }
  }

  /** A job that still has to announce keeps the run short of its total. */
  lemma AnnounceRoom(r: RunId, run: Run, jobs: seq<Job>, j: nat)
    requires run.history != [] && Counting(r, run, jobs) && Control(run)
    requires j < |jobs| && jobs[j].phase.Announcing? && jobs[j].run == Some(r)
    ensures run.Row().rated < run.Row().inserted
    ensures run.Row().status.Completed? ==> !run.fanIn.on
  {
    JobBounds(r, run, jobs);
    assert jobs[j] in jobs;
  }

  lemma TaskTotals(tasks: seq<Task>, i: nat, t: Task)
    requires i < |tasks|
    ensures Sum(tasks[i := t], CountedOne) + CountedOne(tasks[i]) == Sum(tasks, CountedOne) + CountedOne(t)
    ensures Sum(tasks[i := t], ItemsOf) + ItemsOf(tasks[i]) == Sum(tasks, ItemsOf) + ItemsOf(t)
    ensures Sum(tasks[i := t], EnqueuedOf) + EnqueuedOf(tasks[i]) == Sum(tasks, EnqueuedOf) + EnqueuedOf(t)
  {
    SumUpdate(tasks, i, t, CountedOne);
    SumUpdate(tasks, i, t, ItemsOf);
    SumUpdate(tasks, i, t, EnqueuedOf);
  }

  // --- what a commit does to the recorded history and to the messages ----------------

  lemma RecordedWrite(run: Run, row: RunRow, cause: Cause)
    requires Recorded(run) && Forward(run.Row(), row) && (row.finished.Some? <==> Terminal(row.status))
    ensures Recorded(run.Write(row, cause))
  {
    var h, h' := run.history, run.Write(row, cause).history;
    assert forall k :: 0 <= k < |h| ==> h'[k] == h[k];
  }

  /** The message part, given which message was made and that it is the new commit's own. */
  lemma MessagesKept(r: RunId, run: Run, jobs: seq<Job>, run': Run, jobs': seq<Job>, made: Option<Msg>)
    requires run.history != [] && Messages(r, run, jobs)
    requires forall p: Msg -> bool :: Issued(r, run', jobs', p) == Issued(r, run, jobs, p) + Holds(made, p)
    requires run'.history == run.history
          || exists c: Commit {:trigger run.history + [c]} :: run'.history == run.history + [c]
               && (made.None? <==> !HasDelta(c.cause))
    requires made.Some? ==>
      && |run'.history| == |run.history| + 1 && made.value.version == |run.history|
      && Faithful(run', made.value)
    requires run'.history == run.history ==> made.None?
    requires DoneCount(run') == DoneCount(run) + Holds(made, IsDone)
    requires forall m <- run'.log :: Faithful(run, m) || made == Some(m)
    requires forall t <- run'.tasks :: t.Counted? ==> Faithful(run, t.delta) || made == Some(t.delta)
    requires run'.fanIn.Decided? ==> Faithful(run, run'.fanIn.delta) || made == Some(run'.fanIn.delta)
    requires forall job <- jobs' :: job.run == Some(r) && job.phase.Telling? ==>
      Faithful(run, job.phase.delta) || made == Some(job.phase.delta)
    ensures Messages(r, run', jobs')
  {
    var n := |run.history|;
    assert forall k :: 0 <= k < n ==> run'.history[k] == run.history[k];
    assert forall m :: Faithful(run, m) ==> Faithful(run', m);
    assert Issued(r, run', jobs', IsDone) == Issued(r, run, jobs, IsDone) + Holds(made, IsDone);
    forall c: nat ensures Issued(r, run', jobs', AtVersion(c)) == Deltas(run', c) {
      assert Issued(r, run', jobs', AtVersion(c)) == Issued(r, run, jobs, AtVersion(c)) + Holds(made, AtVersion(c));
      assert Issued(r, run, jobs, AtVersion(c)) == Deltas(run, c);
    }
  }

  // --- run steps --------------------------------------------------------------------

  lemma CountingByRun(env: bool, r: RunId, run: Run, jobs: seq<Job>, step: RunStep)
    requires RunEnabled(run, step) && Counting(r, run, jobs) && Control(run)
    ensures Counting(r, RunApply(env, run, step), jobs + Spawned(r, run, step))
  {
    var run' := RunApply(env, run, step);
    assert !step.EnqueueRating? ==> jobs + Spawned(r, run, step) == jobs;
    match step
    case LaunchChord =>
      SumZero(run'.tasks, CountedOne);
      SumZero(run'.tasks, ItemsOf);
      SumZero(run'.tasks, EnqueuedOf);
    case FlipRunning(i, _) => CountingTask(env, r, run, jobs, step);
    case CommitCount(i, _) => CountingTask(env, r, run, jobs, step);
    case ReadModel(i) => CountingTask(env, r, run, jobs, step);
    case EnqueueRating(i) => CountingEnqueue(env, r, run, jobs, i);
    case PublishProgress(i) => CountingTask(env, r, run, jobs, step);
    case _ =>
  }

  lemma CountingTask(env: bool, r: RunId, run: Run, jobs: seq<Job>, step: RunStep)
    requires RunEnabled(run, step) && Counting(r, run, jobs) && Control(run)
    requires step.FlipRunning? || step.CommitCount? || step.ReadModel? || step.PublishProgress?
    ensures Counting(r, RunApply(env, run, step), jobs)
  {
    assert TaskOk(run.tasks[step.i], run.Row());
    TaskTotals(run.tasks, step.i, RunApply(env, run, step).tasks[step.i]);
  }

  lemma CountingEnqueue(env: bool, r: RunId, run: Run, jobs: seq<Job>, i: nat)
    requires RunEnabled(run, EnqueueRating(i)) && Counting(r, run, jobs)
    ensures Counting(r, RunApply(env, run, EnqueueRating(i)), jobs + Spawned(r, run, EnqueueRating(i)))
  {
    var job := Spawned(r, run, EnqueueRating(i))[0];
    TaskTotals(run.tasks, i, run.tasks[i].(next := run.tasks[i].next + 1));
    SumAppend(jobs, job, OfRun(r));
    SumAppend(jobs, job, DeadIn(r));
    SumAppend(jobs, job, AnnouncedIn(r));
  }

  lemma ControlByTask(env: bool, r: RunId, run: Run, jobs: seq<Job>, step: RunStep)
    requires RunEnabled(run, step) && Control(run) && OfTask(step) && run.Row().rated <= run.Row().inserted
    ensures Control(RunApply(env, run, step))
  {
    var run' := RunApply(env, run, step);
    assert run.tasks[step.i] in run.tasks;
    forall u <- run'.tasks ensures TaskOk(u, run'.Row()) {
      assert u in run.tasks || u == run'.tasks[step.i];
    }
  }

  lemma ControlByRun(env: bool, r: RunId, run: Run, jobs: seq<Job>, step: RunStep)
    requires RunEnabled(run, step) && Counting(r, run, jobs) && Control(run)
    ensures Control(RunApply(env, run, step))
  {
    JobBounds(r, run, jobs);
    if OfTask(step) {
      ControlByTask(env, r, run, jobs, step);
    }
  }

  predicate Stamped(row: RunRow) {
    row.finished.Some? <==> Terminal(row.status)
  }

  /** A step writes no version, or one more, which may follow the last. */
  predicate MovesOn(run: Run, run': Run)
    requires run.history != [] && run'.history != []
  {
    || run'.history == run.history
    || (&& |run'.history| == |run.history| + 1 && run'.history[..|run.history|] == run.history
        && Forward(run.Row(), run'.Row()) && Stamped(run'.Row()))
  }

  lemma TaskMovesOn(env: bool, run: Run, step: RunStep)
    requires RunEnabled(run, step) && OfTask(step) && Control(run) && Stamped(run.Row())
    ensures RunApply(env, run, step).history != [] && MovesOn(run, RunApply(env, run, step))
  {
    assert TaskOk(run.tasks[step.i], run.Row());
  }

  lemma StepMovesOn(env: bool, run: Run, step: RunStep)
    requires RunEnabled(run, step) && Control(run) && Stamped(run.Row())
    ensures RunApply(env, run, step).history != [] && MovesOn(run, RunApply(env, run, step))
  {
    if OfTask(step) {
      TaskMovesOn(env, run, step);
    }
  }

  lemma RecordedOn(run: Run, run': Run)
    requires Recorded(run) && run'.history != [] && MovesOn(run, run')
    ensures Recorded(run')
  {
    if run'.history != run.history {
      assert forall k :: 0 <= k < |run.history| ==> run'.history[k] == run.history[k];
    }
  }

  lemma RecordedByRun(env: bool, run: Run, step: RunStep)
    requires RunEnabled(run, step) && Recorded(run) && Control(run)
    ensures Recorded(RunApply(env, run, step))
  {
    assert Stamped(run.history[|run.history| - 1].row);
    StepMovesOn(env, run, step);
    RecordedOn(run, RunApply(env, run, step));
  }

  /** Tasks waiting to publish keep their delta; only a count commit makes a new one. */
  lemma TaskDeltas(env: bool, r: RunId, run: Run, jobs: seq<Job>, step: RunStep)
    requires RunEnabled(run, step) && Messages(r, run, jobs)
    ensures var run', made := RunApply(env, run, step), MadeByRun(env, run, step);
      forall t <- run'.tasks :: t.Counted? ==> Faithful(run, t.delta) || made == Some(t.delta)
  {
    var run', made := RunApply(env, run, step), MadeByRun(env, run, step);
    forall t <- run'.tasks | t.Counted? ensures Faithful(run, t.delta) || made == Some(t.delta) {
      assert t in run.tasks || (step.CommitCount? && t == run'.tasks[step.i])
          || ((step.EnqueueRating? || step.ReadModel?) && run.tasks[step.i] in run.tasks
               && t.delta == run.tasks[step.i].delta);
    }
  }

  lemma AllIssuedByRun(env: bool, r: RunId, run: Run, jobs: seq<Job>, step: RunStep)
    requires RunEnabled(run, step) && (step.LaunchChord? ==> run.tasks == [])
    ensures forall p: Msg -> bool ::
      Issued(r, RunApply(env, run, step), jobs + Spawned(r, run, step), p)
      == Issued(r, run, jobs, p) + Holds(MadeByRun(env, run, step), p)
  {
    forall p: Msg -> bool {
      IssuedByRun(env, r, run, jobs, step, p);
    }
  }

  /** A step commits at most once, and makes a message exactly if that commit is followed by one. */
  lemma CommitByRun(env: bool, run: Run, step: RunStep)
    requires RunEnabled(run, step)
    ensures var run', made := RunApply(env, run, step), MadeByRun(env, run, step);
      && (run'.history == run.history ==> made.None?)
      && (run'.history == run.history
          || exists c: Commit {:trigger run.history + [c]} ::
               run'.history == run.history + [c] && (made.None? <==> !HasDelta(c.cause)))
      && (made.Some? ==>
            |run'.history| == |run.history| + 1 && made.value.version == |run.history| && Faithful(run', made.value))
  {
    var run' := RunApply(env, run, step);
    if run'.history != run.history {
      var c := run'.history[|run.history|];
      assert run'.history == run.history + [c];
    }
  }

  /** What a step publishes, or leaves for the fan-in to publish, was about to be published, or is made by it. */
  lemma OtherDeltas(env: bool, r: RunId, run: Run, jobs: seq<Job>, step: RunStep)
    requires RunEnabled(run, step) && Messages(r, run, jobs)
    ensures var run', made := RunApply(env, run, step), MadeByRun(env, run, step);
      && (forall m <- run'.log :: Faithful(run, m) || made == Some(m))
      && (run'.fanIn.Decided? ==> Faithful(run, run'.fanIn.delta) || made == Some(run'.fanIn.delta))
  {
    if step.PublishProgress? {
      assert run.tasks[step.i] in run.tasks;
    }
  }

  lemma DonesByRun(env: bool, run: Run, step: RunStep)
    requires RunEnabled(run, step) && Control(run)
    ensures DoneCount(RunApply(env, run, step)) == DoneCount(run) + Holds(MadeByRun(env, run, step), IsDone)
  {
  }

  lemma MessagesByRun(env: bool, r: RunId, run: Run, jobs: seq<Job>, step: RunStep)
    requires RunEnabled(run, step) && Control(run) && Messages(r, run, jobs)
    ensures Messages(r, RunApply(env, run, step), jobs + Spawned(r, run, step))
  {
    AllIssuedByRun(env, r, run, jobs, step);
    CommitByRun(env, run, step);
    TaskDeltas(env, r, run, jobs, step);
    OtherDeltas(env, r, run, jobs, step);
    DonesByRun(env, run, step);
    JobDeltas(r, run, jobs, Spawned(r, run, step));
    MessagesKept(r, run, jobs, RunApply(env, run, step), jobs + Spawned(r, run, step), MadeByRun(env, run, step));
  }

  /** A job that was just enqueued has no message yet. */
  lemma JobDeltas(r: RunId, run: Run, jobs: seq<Job>, more: seq<Job>)
    requires run.history != [] && Messages(r, run, jobs) && forall job <- more :: job.phase.InQueue?
    ensures forall job <- jobs + more :: job.run == Some(r) && job.phase.Telling? ==> Faithful(run, job.phase.delta)
  {
  }

  lemma RunStepKeeps(env: bool, r: RunId, run: Run, jobs: seq<Job>, step: RunStep)
    requires RunInv(r, run, jobs) && RunEnabled(run, step)
    ensures RunInv(r, RunApply(env, run, step), jobs + Spawned(r, run, step))
  {
    RecordedByRun(env, run, step);
    CountingByRun(env, r, run, jobs, step);
    ControlByRun(env, r, run, jobs, step);
    MessagesByRun(env, r, run, jobs, step);
  }

  // --- rating job steps ---------------------------------------------------------------

  lemma JobStepKeeps(r: RunId, run: Run, jobs: seq<Job>, j: nat, ratings: set<Hash>, step: JobStep)
    requires RunInv(r, run, jobs)
    requires j < |jobs| && jobs[j].run == Some(r) && JobEnabled(jobs[j], step)
    ensures RunInv(r, RunAfterJob(run, jobs[j], step), jobs[j := JobApply(jobs[j], ratings, Some(run), step)])
  {
    var job' := JobApply(jobs[j], ratings, Some(run), step);
    var run', jobs', made := RunAfterJob(run, jobs[j], step), jobs[j := job'], MadeByJob(run, step);
    SumUpdate(jobs, j, job', OfRun(r));
    SumUpdate(jobs, j, job', DeadIn(r));
    SumUpdate(jobs, j, job', AnnouncedIn(r));
    if step.Announce? {
      AnnounceRoom(r, run, jobs, j);
      RecordedWrite(run, AnnounceRow(run.Row(), step.now), ByAnnounce);
      assert run'.history == run.history + [Commit(AnnounceRow(run.Row(), step.now), ByAnnounce)];
    }
    MessagesByJob(r, run, jobs, j, ratings, step);
  }

  lemma MessagesByJob(r: RunId, run: Run, jobs: seq<Job>, j: nat, ratings: set<Hash>, step: JobStep)
    requires run.history != [] && Counting(r, run, jobs) && Control(run) && Messages(r, run, jobs)
    requires j < |jobs| && jobs[j].run == Some(r) && JobEnabled(jobs[j], step)
    ensures Messages(r, RunAfterJob(run, jobs[j], step), jobs[j := JobApply(jobs[j], ratings, Some(run), step)])
  {
    var job' := JobApply(jobs[j], ratings, Some(run), step);
    var run', jobs', made := RunAfterJob(run, jobs[j], step), jobs[j := job'], MadeByJob(run, step);
    assert jobs[j] in jobs;
    forall p: Msg -> bool ensures Issued(r, run', jobs', p) == Issued(r, run, jobs, p) + Holds(made, p) {
      IssuedByJob(r, run, jobs, j, ratings, step, p);
    }
    if step.Announce? {
      AnnounceRoom(r, run, jobs, j);
      assert run'.history == run.history + [Commit(AnnounceRow(run.Row(), step.now), ByAnnounce)];
    }
    MessagesKept(r, run, jobs, run', jobs', made);
  }

  /** Jobs of other runs, and sweep jobs, do not appear in this run's invariant. */
  lemma OtherJobs(r: RunId, run: Run, jobs: seq<Job>, jobs': seq<Job>)
    requires RunInv(r, run, jobs)
    requires |jobs| <= |jobs'|
    requires forall k :: 0 <= k < |jobs| ==> jobs'[k] == jobs[k] || (jobs[k].run != Some(r) && jobs'[k].run != Some(r))
    requires forall k :: |jobs| <= k < |jobs'| ==> jobs'[k].run != Some(r)
    ensures RunInv(r, run, jobs')
  {
    SameTotal(r, jobs, jobs', OfRun(r));
    SameTotal(r, jobs, jobs', DeadIn(r));
    SameTotal(r, jobs, jobs', AnnouncedIn(r));
    SameTotal(r, jobs, jobs', HeldByJob(r, IsDone));
    forall c: nat ensures Issued(r, run, jobs', AtVersion(c)) == Deltas(run, c) {
      SameTotal(r, jobs, jobs', HeldByJob(r, AtVersion(c)));
      assert Issued(r, run, jobs, AtVersion(c)) == Deltas(run, c);
    }
  }

  lemma {:induction false} SameTotal(r: RunId, jobs: seq<Job>, jobs': seq<Job>, f: Job -> nat)
    requires forall job: Job :: job.run != Some(r) ==> f(job) == 0
    requires |jobs| <= |jobs'|
    requires forall k :: 0 <= k < |jobs| ==> jobs'[k] == jobs[k] || (jobs[k].run != Some(r) && jobs'[k].run != Some(r))
    requires forall k :: |jobs| <= k < |jobs'| ==> jobs'[k].run != Some(r)
    ensures Sum(jobs', f) == Sum(jobs, f)
  {
    if jobs == [] {
      SumZero(jobs', f);
    } else {
      assert forall k :: 0 <= k < |jobs'[1..]| ==> jobs'[1..][k] == jobs'[k + 1];
      assert forall k :: 0 <= k < |jobs[1..]| ==> jobs[1..][k] == jobs[k + 1];
      SameTotal(r, jobs[1..], jobs'[1..], f);
    }
  }

  lemma FreshRun(r: RunId, total: nat, hasModel: bool, jobs: seq<Job>)
    requires forall job <- jobs :: job.run != Some(r)
    ensures RunInv(r, NewRun(total, hasModel), jobs)
  {
    SumZero(jobs, OfRun(r));
    SumZero(jobs, DeadIn(r));
    SumZero(jobs, AnnouncedIn(r));
    SumZero(jobs, HeldByJob(r, IsDone));
    forall c: nat ensures Issued(r, NewRun(total, hasModel), jobs, AtVersion(c)) == Deltas(NewRun(total, hasModel), c) {
      SumZero(jobs, HeldByJob(r, AtVersion(c)));
    }
  }

  // --- the whole system -----------------------------------------------------------------

  /** Jobs keep their owner; a new one belongs to the run that enqueued it, or to none. */
  lemma Owners(s: State, a: Action)
    requires Enabled(s, a)
    ensures s.runs.Keys <= Apply(s, a).runs.Keys
    ensures |s.jobs| <= |Apply(s, a).jobs|
    ensures forall k :: 0 <= k < |s.jobs| ==> Apply(s, a).jobs[k].run == s.jobs[k].run
    ensures forall k :: |s.jobs| <= k < |Apply(s, a).jobs| ==>
      Apply(s, a).jobs[k].run.Some? ==> Apply(s, a).jobs[k].run.value in s.runs
  {
  }

  lemma OwnersKnown(s: State, a: Action)
    requires Enabled(s, a) && forall job <- s.jobs :: job.run.Some? ==> job.run.value in s.runs
    ensures forall job <- Apply(s, a).jobs :: job.run.Some? ==> job.run.value in Apply(s, a).runs
  {
    Owners(s, a);
    var jobs', keys := Apply(s, a).jobs, Apply(s, a).runs.Keys;
    forall k | 0 <= k < |jobs'| && jobs'[k].run.Some? ensures jobs'[k].run.value in keys {
      if k < |s.jobs| { assert s.jobs[k] in s.jobs; }
    }
  }

  /** An action of another run, or of no run, leaves this run alone. */
  lemma OtherRun(s: State, a: Action, r: RunId)
    requires Enabled(s, a) && r in s.runs && RunOf(s, a) != Some(r)
    ensures var t := Apply(s, a);
      && r in t.runs && t.runs[r] == s.runs[r]
      && |s.jobs| <= |t.jobs|
      && (forall k :: 0 <= k < |s.jobs| ==>
            t.jobs[k] == s.jobs[k] || (s.jobs[k].run != Some(r) && t.jobs[k].run != Some(r)))
      && (forall k :: |s.jobs| <= k < |t.jobs| ==> t.jobs[k].run != Some(r))
  {
  }

  lemma OwnAction(s: State, a: Action, r: RunId)
    requires Enabled(s, a) && r in s.runs && RunOf(s, a) == Some(r)
    ensures r in Apply(s, a).runs
    ensures a.OnRun? || a.OnJob?
    ensures a.OnRun? ==>
      && RunEnabled(s.runs[r], a.step)
      && Apply(s, a).runs[r] == RunApply(s.env, s.runs[r], a.step)
      && Apply(s, a).jobs == s.jobs + Spawned(r, s.runs[r], a.step)
    ensures a.OnJob? ==>
      && a.j < |s.jobs| && s.jobs[a.j].run == Some(r) && JobEnabled(s.jobs[a.j], a.jobStep) && s.runs[r].history != []
      && Apply(s, a).runs[r] == RunAfterJob(s.runs[r], s.jobs[a.j], a.jobStep)
      && Apply(s, a).jobs == s.jobs[a.j := JobApply(s.jobs[a.j], s.ratings, Some(s.runs[r]), a.jobStep)]
  {
  }

  lemma InvStepAt(s: State, a: Action, r: RunId)
    requires Enabled(s, a) && r in s.runs && RunInv(r, s.runs[r], s.jobs)
    ensures r in Apply(s, a).runs && RunInv(r, Apply(s, a).runs[r], Apply(s, a).jobs)
  {
    var run', jobs' := if r in Apply(s, a).runs then Apply(s, a).runs[r] else s.runs[r], Apply(s, a).jobs;
    if RunOf(s, a) != Some(r) {
      OtherRun(s, a, r);
      OtherJobs(r, s.runs[r], s.jobs, jobs');
    } else {
      OwnAction(s, a, r);
      if a.OnRun? {
        RunStepKeeps(s.env, r, s.runs[r], s.jobs, a.step);
      } else {
        JobStepKeeps(r, s.runs[r], s.jobs, a.j, s.ratings, a.jobStep);
      }
    }
  }

  /** Every action of any process keeps the invariant of every run. */
  lemma InvStep(s: State, a: Action)
    requires Inv(s) && Enabled(s, a)
    ensures Inv(Apply(s, a))
  {
    OwnersKnown(s, a);
    forall r <- Apply(s, a).runs ensures RunInv(r, Apply(s, a).runs[r], Apply(s, a).jobs) {
      if r in s.runs {
        InvStepAt(s, a, r);
      } else {
        FreshRun(r, a.total, a.hasModel, s.jobs);
      }
    }
  }

  /** The invariant holds in every state of every finite schedule. */
  lemma {:induction false} InvHolds(states: seq<State>, acts: seq<Action>, k: nat)
    requires Execution(states, acts) && k < |states|
    ensures Inv(states[k])
  {
    if k > 0 {
      InvHolds(states, acts, k - 1);
      InvStep(states[k - 1], acts[k - 1]);
    }
  }
}
