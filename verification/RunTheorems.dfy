/**
 What the invariant gives over whole schedules: the counting law, exactly one `done`,
 no stranded run, a termination measure for every schedule, and the lifecycle order.
 */
module RunTheorems {
  import opened Common
  import opened RunProtocol
  import opened RunInvariant

  // --- counting ---------------------------------------------------------------------

  function PendingIn(r: RunId): Job -> nat {
    (job: Job) => if job.run == Some(r) && !job.phase.Telling? && !Over(job) then 1 else 0
  }

  lemma {:induction false} PendingPlusAnnounced(r: RunId, jobs: seq<Job>)
    ensures Sum(jobs, PendingIn(r)) + Sum(jobs, AnnouncedIn(r)) == Sum(jobs, OfRun(r))
  {
    if jobs != [] {
      PendingPlusAnnounced(r, jobs[1..]);
    }
  }

  /** Every header task is back, and each that brought items read the rating layer as `on` says. */
  predicate AllRead(tasks: seq<Task>, on: bool) {
    forall t <- tasks :: t.Returned? && (t.count > 0 ==> t.rated == on)
  }

  lemma CountersAt(r: RunId, run: Run, jobs: seq<Job>)
    requires run.history != [] && Counting(r, run, jobs) && Control(run)
    ensures run.Row().done <= run.Row().total
    ensures run.Row().rated <= run.Row().inserted
    ensures Sum(jobs, PendingIn(r)) + run.Row().rated == Sum(jobs, OfRun(r)) <= run.Row().inserted
    ensures AllRead(run.tasks, true) ==> Sum(jobs, OfRun(r)) + Sum(jobs, DeadIn(r)) == run.Row().inserted
    ensures AllRead(run.tasks, false) ==> Sum(jobs, OfRun(r)) == Sum(jobs, DeadIn(r)) == 0
  {
    PendingPlusAnnounced(r, jobs);
    JobBounds(r, run, jobs);
    TasksCounted(run.tasks);
  }

  lemma TasksCounted(tasks: seq<Task>)
    ensures Sum(tasks, CountedOne) <= |tasks|
    ensures AllRead(tasks, true) ==> Sum(tasks, EnqueuedOf) == Sum(tasks, ItemsOf)
    ensures AllRead(tasks, false) ==> Sum(tasks, EnqueuedOf) == 0
  {
    SumBound(tasks, CountedOne, _ => 1);
    SumOnes(tasks, _ => 1);
    if AllRead(tasks, true) {
      forall i | 0 <= i < |tasks| ensures EnqueuedOf(tasks[i]) == ItemsOf(tasks[i]) {
        assert tasks[i] in tasks;
      }
      SumBound(tasks, EnqueuedOf, ItemsOf);
    }
    if AllRead(tasks, false) {
      forall i | 0 <= i < |tasks| ensures EnqueuedOf(tasks[i]) == 0 {
        assert tasks[i] in tasks;
      }
      SumZero(tasks, EnqueuedOf);
    }
  }

  /**
   In every reachable state: done_count never passes total, rated_count never passes inserted,
   and unannounced rating jobs plus rated_count make up the jobs of the run that are not dead. Once
   the header tasks are back these and the dead ones are one job per inserted signal if they read
   rating as on, none if they read it as off; a run with a model of its own is always the first kind.
   */
  lemma CountersMatch(states: seq<State>, acts: seq<Action>, k: nat, r: RunId)
    requires Execution(states, acts) && k < |states| && r in states[k].runs
    ensures states[k].runs[r].history != []
    ensures var s, run := states[k], states[k].runs[r];
      && run.Row().done <= run.Row().total
      && run.Row().rated <= run.Row().inserted
      && Sum(s.jobs, PendingIn(r)) + run.Row().rated == Sum(s.jobs, OfRun(r))
      && (AllRead(run.tasks, true) ==> Sum(s.jobs, OfRun(r)) + Sum(s.jobs, DeadIn(r)) == run.Row().inserted)
      && (AllRead(run.tasks, false) ==> Sum(s.jobs, OfRun(r)) == Sum(s.jobs, DeadIn(r)) == 0)
      && (run.Row().hasModel && (forall t <- run.tasks :: t.Returned?) ==> AllRead(run.tasks, true))
  {
    InvHolds(states, acts, k);
    var s := states[k];
    assert RunInv(r, s.runs[r], s.jobs);
    CountersAt(r, s.runs[r], s.jobs);
  }

  // --- exactly one done, no stranded run ------------------------------------------------

  function DonesPublished(run: Run): nat {
    Sum(run.log, InLog(IsDone))
  }

  /**
   The fan-in's reading fits the jobs of the run: it failed the run, or took rating to be on when every
   inserted signal has a job that is not dead, or to be off when every such job had been counted by then.
   */
  predicate Clean(r: RunId, run: Run, jobs: seq<Job>)
    requires run.history != []
  {
    || run.fanIn.Open? || run.Row().status.Failed?
    || (run.fanIn.on && Sum(jobs, OfRun(r)) == run.Row().inserted)
    || (!run.fanIn.on && Sum(jobs, OfRun(r)) == run.fanIn.seen)
  }

  lemma CleanDoneOnce(r: RunId, run: Run, jobs: seq<Job>)
    requires RunInv(r, run, jobs) && Clean(r, run, jobs)
    ensures DoneCount(run) == if Terminal(run.Row().status) then 1 else 0
  {
    JobBounds(r, run, jobs);
  }

  /** Whatever the interleaving, the channel of a run whose fan-in fits, or reads `on`, never carries two `done`. */
  lemma AtMostOneDone(states: seq<State>, acts: seq<Action>, k: nat, r: RunId)
    requires Execution(states, acts) && k < |states| && r in states[k].runs
    ensures states[k].runs[r].history != []
    ensures var run := states[k].runs[r];
      Clean(r, run, states[k].jobs) || (!run.fanIn.Open? && run.fanIn.on) ==> DonesPublished(run) <= 1
  {
    InvHolds(states, acts, k);
    assert RunInv(r, states[k].runs[r], states[k].jobs);
    if Clean(r, states[k].runs[r], states[k].jobs) {
      CleanDoneOnce(r, states[k].runs[r], states[k].jobs);
    }
  }

  /** Every process working for the run has finished. */
  predicate Drained(s: State, r: RunId)
    requires r in s.runs
  {
    && s.runs[r].dispatch.Launched?
    && (forall t <- s.runs[r].tasks :: t.Returned?)
    && s.runs[r].fanIn.Closed?
    && (forall job <- s.jobs :: job.run == Some(r) ==> Over(job))
  }

  /** A run with an unfinished process always has a step it can take: nothing blocks. */
  lemma UnfinishedCanStep(s: State, r: RunId) returns (a: Action)
    requires Inv(s) && r in s.runs && !Drained(s, r)
    ensures Enabled(s, a) && RunOf(s, a) == Some(r)
  {
    var run := s.runs[r];
    assert RunInv(r, run, s.jobs);
    if run.dispatch.Requested? {
      a := OnRun(r, CommitTotal(0));
    } else if run.dispatch.Sized? {
      a := OnRun(r, LaunchChord);
    } else if t, i :| 0 <= i < |run.tasks| && run.tasks[i] == t && !t.Returned? {
      match t
      case Waiting => a := OnRun(r, FlipRunning(i, 0));
      case Scraping => a := OnRun(r, CommitCount(i, ScrapeError));
      case Counted(items, next, None, _, _) => a := OnRun(r, ReadModel(i));
      case Counted(items, next, Some(on), _, _) =>
        if on && next < |items| {
          a := OnRun(r, EnqueueRating(i));
        } else {
          assert !on ==> t.rate == Some(false);
          a := OnRun(r, PublishProgress(i));
        }
    } else if run.fanIn.Open? {
      assert forall t <- run.tasks :: t.Returned?;
      a := OnRun(r, FanInUpdate(false, 0));
    } else if run.fanIn.Decided? {
      a := OnRun(r, PublishFanIn);
    } else {
      var j :| 0 <= j < |s.jobs| && s.jobs[j].run == Some(r) && !Over(s.jobs[j]);
      a := OnJob(j, NextStep(s.jobs[j]));
    }
  }

  function NextStep(job: Job): (step: JobStep)
    requires !Over(job)
    ensures JobEnabled(job, step)
  {
    match job.phase
    case InQueue => CheckRated
    case Probing => ProbeCache(false)
    case Calling => CallModel(true)
    case Storing => StoreRating
    case Announcing => Announce(0)
    case Telling(_) => PublishRating
  }

  lemma StepMeansUnfinished(s: State, a: Action, r: RunId)
    requires Enabled(s, a) && r in s.runs && RunOf(s, a) == Some(r)
    ensures !Drained(s, r)
  {
    if a.OnJob? {
      assert s.jobs[a.j] in s.jobs;
    } else if a.OnRun? && (OfTask(a.step)) {
      assert s.runs[r].tasks[a.step.i] in s.runs[r].tasks;
    }
  }

  lemma DrainedIffStuck(s: State, r: RunId)
    requires Inv(s) && r in s.runs
    ensures Drained(s, r) <==> forall a: Action :: Enabled(s, a) ==> RunOf(s, a) != Some(r)
  {
    if Drained(s, r) {
      forall a: Action | Enabled(s, a) ensures RunOf(s, a) != Some(r) {
        if RunOf(s, a) == Some(r) {
          StepMeansUnfinished(s, a, r);
        }
      }
    } else {
      var a := UnfinishedCanStep(s, r);
    }
  }

  /** How a drained run should end: terminal, every job that is not dead counted, and announced exactly once. */
  ghost predicate EndedWell(s: State, r: RunId)
    requires r in s.runs && s.runs[r].history != []
  {
    var run := s.runs[r];
    && Terminal(run.Row().status) && run.Row().finished.Some?
    && run.Row().done == run.Row().total
    && run.Row().rated == Sum(s.jobs, OfRun(r))
    && DonesPublished(run) == 1
  }

  /** What holds of every drained run. */
  lemma DrainedCounts(s: State, r: RunId)
    requires Inv(s) && r in s.runs && Drained(s, r)
    ensures s.runs[r].history != [] && RunInv(r, s.runs[r], s.jobs)
    ensures var run := s.runs[r];
      && run.Row().done == run.Row().total
      && run.Row().rated == Sum(s.jobs, OfRun(r)) <= run.Row().inserted
      && DonesPublished(run) == DoneCount(run)
  {
    var run := s.runs[r];
    assert RunInv(r, run, s.jobs);
    JobBounds(r, run, s.jobs);
    forall i | 0 <= i < |run.tasks| ensures run.tasks[i].Returned? {
      assert run.tasks[i] in run.tasks;
    }
    SumZero(run.tasks, HeldByTask(IsDone));
    SumZero(s.jobs, HeldByJob(r, IsDone));
    SumOnes(run.tasks, CountedOne);
  }

  /** A drained run ended well if and only if its fan-in's reading fitted its jobs. */
  lemma DrainedEndsWell(s: State, r: RunId)
    requires Inv(s) && r in s.runs && Drained(s, r)
    ensures s.runs[r].history != []
    ensures EndedWell(s, r) <==> Clean(r, s.runs[r], s.jobs)
    ensures !Clean(r, s.runs[r], s.jobs) ==>
      if s.runs[r].fanIn.on then s.runs[r].Row().status.Rating? && DonesPublished(s.runs[r]) == 0
      else s.runs[r].Row().status.Completed? && DonesPublished(s.runs[r]) >= 2
  {
    DrainedCounts(s, r);
  }

  /**
   No run is stranded. In any schedule, if the run has no enabled step left then its status is
   completed or failed, every job it has that is not dead is counted, and exactly one `done` is on its
   channel, whether the fan-in or the last rating performed the terminal transition; if and only if
   the fan-in's reading fitted the jobs. Otherwise it stays in `rating` for good, or has two `done`.
   */
  lemma NoRunStranded(states: seq<State>, acts: seq<Action>, k: nat, r: RunId)
    requires Execution(states, acts) && k < |states| && r in states[k].runs
    requires forall a: Action :: Enabled(states[k], a) ==> RunOf(states[k], a) != Some(r)
    ensures states[k].runs[r].history != []
    ensures EndedWell(states[k], r) <==> Clean(r, states[k].runs[r], states[k].jobs)
    ensures !Clean(r, states[k].runs[r], states[k].jobs) ==>
      states[k].runs[r].Row().status.Rating? || DonesPublished(states[k].runs[r]) >= 2
  {
    InvHolds(states, acts, k);
    DrainedIffStuck(states[k], r);
    DrainedEndsWell(states[k], r);
  }

  // --- every schedule drains -------------------------------------------------------------

  function DispatchLeft(d: Dispatch): nat {
    match d case Requested => 2 case Sized(_) => 1 case Launched => 0
  }

  function ToCount(t: Task): nat {
    match t case Waiting => 2 case Scraping => 1 case _ => 0
  }

  const JOB_WEIGHT: nat := 40

  /** Steps a rating job can still take, retries included. */
  function JobLeft(r: RunId): Job -> nat {
    (job: Job) => if job.run == Some(r) then StepsLeft(job) else 0
  }

  function StepsLeft(job: Job): nat {
    var attempts := if job.retries <= MAX_RETRIES then MAX_RETRIES - job.retries else 0;
    match job.phase
    case Ended => 0
    case Dead => 0
    case Telling(_) => 1
    case Announcing => 2
    case Storing => 3
    case Calling => 4 + 10 * attempts
    case Probing => 5 + 10 * attempts
    case InQueue => 6 + 10 * attempts
  }

  function AfterCount(t: Task): nat {
    match t
    case Counted(items, next, rate, _, _) =>
      (if next <= |items| then JOB_WEIGHT * (|items| - next) else 0) + if rate.None? then 2 else 1
    case _ => 0
  }

  function FanInLeft(f: FanIn): nat {
    match f case Open => 2 case Decided(_, _, _) => 1 case Closed(_, _) => 0
  }

  function WorkLeft(r: RunId, run: Run, jobs: seq<Job>): nat {
    Sum(run.tasks, AfterCount) + FanInLeft(run.fanIn) + Sum(jobs, JobLeft(r))
  }

  /** The lexicographic measure of a run: dispatch, then scrapes left to count, then the rest. */
  predicate Below(r: RunId, run': Run, jobs': seq<Job>, run: Run, jobs: seq<Job>) {
    var d', d := DispatchLeft(run'.dispatch), DispatchLeft(run.dispatch);
    var c', c := Sum(run'.tasks, ToCount), Sum(run.tasks, ToCount);
    d' < d || (d' == d && (c' < c || (c' == c && WorkLeft(r, run', jobs') < WorkLeft(r, run, jobs))))
  }

  lemma RunStepDescends(env: bool, r: RunId, run: Run, jobs: seq<Job>, step: RunStep)
    requires RunEnabled(run, step)
    ensures Below(r, RunApply(env, run, step), jobs + Spawned(r, run, step), run, jobs)
  {
    var run' := RunApply(env, run, step);
    assert !step.EnqueueRating? ==> jobs + Spawned(r, run, step) == jobs;
    if OfTask(step) {
      SumUpdate(run.tasks, step.i, run'.tasks[step.i], ToCount);
      SumUpdate(run.tasks, step.i, run'.tasks[step.i], AfterCount);
    }
    if step.EnqueueRating? {
      SumAppend(jobs, Spawned(r, run, step)[0], JobLeft(r));
    }
  }

  lemma JobStepDescends(r: RunId, run: Run, jobs: seq<Job>, j: nat, ratings: set<Hash>, step: JobStep)
    requires run.history != [] && j < |jobs| && jobs[j].run == Some(r) && JobEnabled(jobs[j], step)
    ensures Below(r, RunAfterJob(run, jobs[j], step), jobs[j := JobApply(jobs[j], ratings, Some(run), step)], run, jobs)
  {
    SumUpdate(jobs, j, JobApply(jobs[j], ratings, Some(run), step), JobLeft(r));
  }

  /** A step of the run descends; any other step leaves the run's measure where it is. */
  lemma Descends(s: State, a: Action, r: RunId)
    requires Enabled(s, a) && r in s.runs
    ensures r in Apply(s, a).runs
    ensures RunOf(s, a) == Some(r) ==> Below(r, Apply(s, a).runs[r], Apply(s, a).jobs, s.runs[r], s.jobs)
    ensures RunOf(s, a) != Some(r) ==>
      Apply(s, a).runs[r] == s.runs[r]
        && WorkLeft(r, Apply(s, a).runs[r], Apply(s, a).jobs) == WorkLeft(r, s.runs[r], s.jobs)
  {
    if RunOf(s, a) != Some(r) {
      OtherRun(s, a, r);
      SameTotal(r, s.jobs, Apply(s, a).jobs, JobLeft(r));
    } else {
      OwnAction(s, a, r);
      if a.OnRun? {
        RunStepDescends(s.env, r, s.runs[r], s.jobs, a.step);
      } else {
        JobStepDescends(r, s.runs[r], s.jobs, a.j, s.ratings, a.jobStep);
      }
    }
  }

  /** From some point on, a schedule takes no step of the run. */
  ghost predicate QuietFrom(f: nat -> State, act: nat -> Action, r: RunId, n: nat) {
    forall k: nat :: k >= n ==> RunOf(f(k), act(k)) != Some(r)
  }

  /**
   Every infinite schedule, with any sweep traffic and any number of other runs, takes only
   finitely many steps of a given run.
   */
  lemma {:induction false} EveryScheduleDrains(f: nat -> State, act: nat -> Action, r: RunId, i: nat) returns (n: nat)
    requires Schedule(f, act) && r in f(i).runs
    ensures n >= i && QuietFrom(f, act, r, n)
  {
    n := i;
    if !QuietFrom(f, act, r, i) {
      var m: nat :| m >= i && RunOf(f(m), act(m)) == Some(r);
      n := DrainsAfter(f, act, r, i, m);
    }
  }

  lemma {:induction false} DrainsAfter(f: nat -> State, act: nat -> Action, r: RunId, i: nat, m: nat) returns (n: nat)
    requires Schedule(f, act) && r in f(i).runs && i <= m && RunOf(f(m), act(m)) == Some(r)
    ensures n >= i && QuietFrom(f, act, r, n)
    decreases DispatchLeft(f(i).runs[r].dispatch), Sum(f(i).runs[r].tasks, ToCount),
      WorkLeft(r, f(i).runs[r], f(i).jobs), m - i
  {
    Descends(f(i), act(i), r);
    assert f(i + 1) == Apply(f(i), act(i));
    if RunOf(f(i), act(i)) != Some(r) {
      n := DrainsAfter(f, act, r, i + 1, m);
    } else if QuietFrom(f, act, r, i + 1) {
      n := i + 1;
    } else {
      var m': nat :| m' >= i + 1 && RunOf(f(m'), act(m')) == Some(r);
      n := DrainsAfter(f, act, r, i + 1, m');
    }
  }

  lemma {:induction false} InvAlong(f: nat -> State, act: nat -> Action, r: RunId, i: nat, n: nat)
    requires Schedule(f, act) && Inv(f(i)) && r in f(i).runs && i <= n
    ensures Inv(f(n)) && r in f(n).runs
    decreases n - i
  {
    if i < n {
      InvStep(f(i), act(i));
      Descends(f(i), act(i), r);
      assert f(i + 1) == Apply(f(i), act(i));
      InvAlong(f, act, r, i + 1, n);
    }
  }

  /** Whenever the run can take a step, the schedule eventually takes some step of the run. */
  ghost predicate Fair(f: nat -> State, act: nat -> Action, r: RunId) {
    forall k: nat, a: Action :: Enabled(f(k), a) && RunOf(f(k), a) == Some(r) ==>
      exists m: nat :: m >= k && RunOf(f(m), act(m)) == Some(r)
  }

  /** Under a fair schedule every run ends, and ends well exactly if its fan-in fitted. */
  lemma FairRunEnds(f: nat -> State, act: nat -> Action, r: RunId, i: nat) returns (n: nat)
    requires Schedule(f, act) && Fair(f, act, r) && Inv(f(i)) && r in f(i).runs
    ensures n >= i && r in f(n).runs && f(n).runs[r].history != []
    ensures Drained(f(n), r) && (EndedWell(f(n), r) <==> Clean(r, f(n).runs[r], f(n).jobs))
  {
    n := EveryScheduleDrains(f, act, r, i);
    InvAlong(f, act, r, i, n);
    if !Drained(f(n), r) {
      var a := UnfinishedCanStep(f(n), r);
    }
    DrainedEndsWell(f(n), r);
  }

  // --- reachable states ------------------------------------------------------------------------

  ghost predicate Reachable(s: State) {
    exists states: seq<State>, acts: seq<Action> :: Execution(states, acts) && states[|acts|] == s
  }

  lemma ReachableInit(env: bool, ratings: set<Hash>)
    ensures Reachable(Init(env, ratings))
  {
    assert Execution([Init(env, ratings)], []);
  }

  lemma ReachableStep(s: State, a: Action)
    requires Reachable(s) && Enabled(s, a)
    ensures Reachable(Apply(s, a))
  {
    var states, acts :| Execution(states, acts) && states[|acts|] == s;
    var states', acts' := states + [Apply(s, a)], acts + [a];
    forall k | 0 <= k < |acts'| ensures Enabled(states'[k], acts'[k]) && states'[k + 1] == Apply(states'[k], acts'[k]) {
      assert states'[k] == states[k];
      if k < |acts| {
        assert acts'[k] == acts[k] && states'[k + 1] == states[k + 1];
      }
    }
    assert Execution(states', acts');
  }

  lemma ReachableInv(s: State)
    requires Reachable(s)
    ensures Inv(s)
  {
    var states, acts :| Execution(states, acts) && states[|acts|] == s;
    InvHolds(states, acts, |acts|);
  }

  // --- lifecycle order ---------------------------------------------------------------------

  lemma {:induction false} ForwardChain(run: Run, i: nat, j: nat)
    requires Recorded(run) && i <= j < |run.history|
    ensures Forward(run.history[i].row, run.history[j].row)
    decreases j - i
  {
    if i < j {
      ForwardChain(run, i + 1, j);
    }
  }

  lemma HistoryGrows(s: State, a: Action, r: RunId)
    requires Enabled(s, a) && r in s.runs
    ensures r in Apply(s, a).runs && s.runs[r].history <= Apply(s, a).runs[r].history
  {
    if RunOf(s, a) != Some(r) {
      OtherRun(s, a, r);
    } else {
      OwnAction(s, a, r);
    }
  }

  lemma {:induction false} HistoryPrefix(states: seq<State>, acts: seq<Action>, k: nat, m: nat, r: RunId)
    requires Execution(states, acts) && k <= m < |states| && r in states[k].runs
    ensures r in states[m].runs && states[k].runs[r].history <= states[m].runs[r].history
    decreases m - k
  {
    if k < m {
      HistoryGrows(states[k], acts[k], r);
      HistoryPrefix(states, acts, k + 1, m, r);
    }
  }

  /**
   The row at any moment against the row at any later moment: the status never moves back, a
   terminal status and its finished_at stay, started_at once set stays, the counters never
   shrink; and finished_at is set exactly in a terminal status.
   */
  lemma LifecycleOrder(states: seq<State>, acts: seq<Action>, k: nat, m: nat, r: RunId)
    requires Execution(states, acts) && k <= m < |states| && r in states[k].runs
    ensures r in states[m].runs && states[k].runs[r].history != [] && states[m].runs[r].history != []
    ensures var a, b := states[k].runs[r].Row(), states[m].runs[r].Row();
      && Rank(a.status) <= Rank(b.status)
      && (Terminal(a.status) ==> b.status == a.status && b.finished == a.finished)
      && (a.started.Some? ==> b.started == a.started)
      && a.done <= b.done && a.inserted <= b.inserted && a.rated <= b.rated
      && (b.finished.Some? <==> Terminal(b.status))
  {
    RecordedAt(states, acts, k, r);
    HistoryPrefix(states, acts, k, m, r);
    RecordedAt(states, acts, m, r);
    var i := |states[k].runs[r].history| - 1;
    assert states[k].runs[r].history[i] == states[m].runs[r].history[i];
    ForwardChain(states[m].runs[r], i, |states[m].runs[r].history| - 1);
  }

  lemma RecordedAt(states: seq<State>, acts: seq<Action>, k: nat, r: RunId)
    requires Execution(states, acts) && k < |states| && r in states[k].runs
    ensures Recorded(states[k].runs[r])
  {
    InvHolds(states, acts, k);
    assert RunInv(r, states[k].runs[r], states[k].jobs);
  }
}
