/**
 What the protocol owes to RATING_MODEL and to its jobs. The variable is read by every scrape task and once
 more by the fan-in, and may change in between; a job may die before it counts. A run ends well exactly if
 the fan-in's reading fits the jobs that do not die.
 */
module RunEnvironment {
  import opened Common
  import opened RunProtocol
  import opened RunInvariant
  import opened RunTheorems

  // --- when the readings agree ----------------------------------------------------------------

  /** The fan-in read what every task that brought items had read. */
  predicate Steady(run: Run) {
    !run.fanIn.Open? ==> AllRead(run.tasks, run.fanIn.on)
  }

  /** The run is not kept waiting by a dead job: it has none, or its fan-in waits for none. */
  predicate NoneMissing(r: RunId, run: Run, jobs: seq<Job>)
    requires run.history != []
  {
    run.fanIn.Open? || run.Row().status.Failed? || !run.fanIn.on || Sum(jobs, DeadIn(r)) == 0
  }

  lemma SteadyIsClean(r: RunId, run: Run, jobs: seq<Job>)
    requires RunInv(r, run, jobs) && Steady(run)
    ensures Clean(r, run, jobs) <==> NoneMissing(r, run, jobs)
    ensures !run.fanIn.Open? ==>
      Sum(jobs, OfRun(r)) + Sum(jobs, DeadIn(r)) == if run.fanIn.on then run.Row().inserted else 0
  {
    CountersAt(r, run, jobs);
  }

  /** A run with a model of its own does not depend on the variable. */
  lemma OwnModelIsSteady(r: RunId, run: Run, jobs: seq<Job>)
    requires RunInv(r, run, jobs) && run.Row().hasModel
    ensures Steady(run)
  {
    if !run.fanIn.Open? {
      forall t <- run.tasks ensures t.Returned? && t.rated {
        assert TaskOk(t, run.Row());
      }
    }
  }

  /**
   With readings that agree, or a model of its own, a run has at most one `done` at any moment. Once it
   has no step left it has ended (terminal, counted to the last rating, `done` exactly once) if and only
   if it failed, its fan-in read rating as off, or none of its jobs died.
   */
  lemma SteadyEndsWell(states: seq<State>, acts: seq<Action>, k: nat, r: RunId)
    requires Execution(states, acts) && k < |states| && r in states[k].runs
    requires Steady(states[k].runs[r])
          || (states[k].runs[r].history != [] && states[k].runs[r].Row().hasModel)
    ensures DonesPublished(states[k].runs[r]) <= 1
    ensures (forall a: Action :: Enabled(states[k], a) ==> RunOf(states[k], a) != Some(r)) ==>
      var run := states[k].runs[r];
      && run.history != []
      && (EndedWell(states[k], r) <==> NoneMissing(r, run, states[k].jobs))
      && run.Row().rated + Sum(states[k].jobs, DeadIn(r))
         == (if run.fanIn.Open? || !run.fanIn.on then 0 else run.Row().inserted)
  {
    var s, run := states[k], states[k].runs[r];
    InvHolds(states, acts, k);
    assert RunInv(r, run, s.jobs);
    if run.Row().hasModel {
      OwnModelIsSteady(r, run, s.jobs);
    }
    SteadyIsClean(r, run, s.jobs);
    AtMostOneDone(states, acts, k, r);
    if !run.fanIn.Open? && !run.fanIn.on {
      assert NoneMissing(r, run, s.jobs);
    }
    if forall a: Action :: Enabled(s, a) ==> RunOf(s, a) != Some(r) {
      DrainedIffStuck(s, r);
      DrainedEndsWell(s, r);
      DrainedCounts(s, r);
    }
  }

  // --- a variable that stays put -------------------------------------------------------------------

  /** Everything the run has read so far is `env`, or the model of its own. */
  ghost predicate HasRead(env: bool, run: Run) {
    && run.history != []
    && (forall t <- run.tasks :: t.Counted? && t.rate.Some? ==> t.rate.value == RatingOn(env, run))
    && (forall t <- run.tasks :: t.Returned? ==> t.rated == RatingOn(env, run))
    && (!run.fanIn.Open? ==> run.fanIn.on == RatingOn(env, run))
  }

  lemma ReadsKept(env: bool, run: Run, step: RunStep)
    requires HasRead(env, run) && RunEnabled(run, step)
    ensures HasRead(env, RunApply(env, run, step))
  {
    var run' := RunApply(env, run, step);
    assert run'.Row().hasModel == run.Row().hasModel;
    if OfTask(step) {
      assert run.tasks[step.i] in run.tasks;
      forall t <- run'.tasks ensures t in run.tasks || t == run'.tasks[step.i] {}
    }
  }

  lemma {:induction false} ReadsHold(states: seq<State>, acts: seq<Action>, k: nat, r: RunId)
    requires Execution(states, acts) && k < |states| && r in states[k].runs
    requires forall m :: 0 <= m <= k ==> states[m].env == states[0].env
    ensures HasRead(states[0].env, states[k].runs[r])
  {
    if k > 0 {
      var s, a := states[k - 1], acts[k - 1];
      if r in s.runs {
        ReadsHold(states, acts, k - 1, r);
        if RunOf(s, a) == Some(r) {
          OwnAction(s, a, r);
          if a.OnRun? {
            assert states[k - 1].env == states[0].env;
            ReadsKept(s.env, s.runs[r], a.step);
          }
        } else {
          OtherRun(s, a, r);
        }
      }
    }
  }

  /** While RATING_MODEL does not change every run's readings agree. */
  lemma ConstantIsSteady(states: seq<State>, acts: seq<Action>, k: nat, r: RunId)
    requires Execution(states, acts) && k < |states| && r in states[k].runs
    requires forall m :: 0 <= m <= k ==> states[m].env == states[0].env
    ensures Steady(states[k].runs[r])
  {
    ReadsHold(states, acts, k, r);
    InvHolds(states, acts, k);
    assert RunInv(r, states[k].runs[r], states[k].jobs);
  }

  // --- what the fan-in decides ------------------------------------------------------------------------

  /** Whether a fan-in now, reading RATING_MODEL as it is, fits the run's jobs if `died` more of them die. */
  predicate Fits(s: State, r: RunId, refreshFailed: bool, died: int)
    requires HasRow(s, r)
  {
    var run := s.runs[r];
    || AllFailed(run.tasks) || refreshFailed
    || (if RatingOn(s.env, run) then Sum(s.jobs, OfRun(r)) - died == run.Row().inserted
        else Sum(s.jobs, PendingIn(r)) == died)
  }

  /** The run's jobs, dead ones included. */
  function Owned(r: RunId, jobs: seq<Job>): nat {
    Sum(jobs, OfRun(r)) + Sum(jobs, DeadIn(r))
  }

  /** What the fan-in settles about a run. */
  datatype Verdict = Verdict(on: bool, seen: nat, inserted: nat, failed: bool, owned: nat)

  predicate Decided(run: Run) {
    run.history != [] && !run.fanIn.Open?
  }

  function VerdictOf(r: RunId, run: Run, jobs: seq<Job>): Verdict
    requires Decided(run)
  {
    Verdict(run.fanIn.on, run.fanIn.seen, run.Row().inserted, run.Row().status.Failed?, Owned(r, jobs))
  }

  /** The verdict of a fan-in in s. */
  function Judged(s: State, r: RunId, refreshFailed: bool): Verdict
    requires HasRow(s, r)
  {
    var run := s.runs[r];
    Verdict(RatingOn(s.env, run), run.Row().rated, run.Row().inserted, AllFailed(run.tasks) || refreshFailed,
            Owned(r, s.jobs))
  }

  lemma FanInRow(env: bool, r: RunId, run: Run, jobs: seq<Job>, refreshFailed: bool, now: Time)
    requires RunEnabled(run, FanInUpdate(refreshFailed, now))
    ensures var run' := RunApply(env, run, FanInUpdate(refreshFailed, now));
      Decided(run') && VerdictOf(r, run', jobs + [])
        == Verdict(RatingOn(env, run), run.Row().rated, run.Row().inserted, AllFailed(run.tasks) || refreshFailed,
                   Owned(r, jobs))
  {
    assert jobs + [] == jobs;
  }

  lemma FanInSettles(s: State, r: RunId, refreshFailed: bool, now: Time)
    requires Inv(s) && Enabled(s, OnRun(r, FanInUpdate(refreshFailed, now)))
    ensures var t := Apply(s, OnRun(r, FanInUpdate(refreshFailed, now)));
      && HasRow(s, r) && r in t.runs && Decided(t.runs[r])
      && VerdictOf(r, t.runs[r], t.jobs) == Judged(s, r, refreshFailed)
  {
    OwnAction(s, OnRun(r, FanInUpdate(refreshFailed, now)), r);
    FanInRow(s.env, r, s.runs[r], s.jobs, refreshFailed, now);
  }

  lemma VerdictAfterJob(r: RunId, run: Run, jobs: seq<Job>, j: nat, ratings: set<Hash>, step: JobStep)
    requires Decided(run) && Control(run)
    requires j < |jobs| && jobs[j].run == Some(r) && JobEnabled(jobs[j], step)
    ensures var run', jobs' := RunAfterJob(run, jobs[j], step), jobs[j := JobApply(jobs[j], ratings, Some(run), step)];
      Decided(run') && VerdictOf(r, run', jobs') == VerdictOf(r, run, jobs)
  {
    SumUpdate(jobs, j, JobApply(jobs[j], ratings, Some(run), step), OfRun(r));
    SumUpdate(jobs, j, JobApply(jobs[j], ratings, Some(run), step), DeadIn(r));
  }

  lemma VerdictAfterStep(env: bool, r: RunId, run: Run, jobs: seq<Job>, step: RunStep)
    requires Decided(run) && Control(run) && RunEnabled(run, step)
    ensures var run', jobs' := RunApply(env, run, step), jobs + Spawned(r, run, step);
      Decided(run') && VerdictOf(r, run', jobs') == VerdictOf(r, run, jobs)
  {
    LateRunStep(run, step);
    assert jobs + [] == jobs;
  }

  lemma VerdictAfterOther(r: RunId, run: Run, jobs: seq<Job>, jobs': seq<Job>)
    requires Decided(run) && |jobs| <= |jobs'|
    requires forall k :: 0 <= k < |jobs| ==>
      jobs'[k] == jobs[k] || (jobs[k].run != Some(r) && jobs'[k].run != Some(r))
    requires forall k :: |jobs| <= k < |jobs'| ==> jobs'[k].run != Some(r)
    ensures VerdictOf(r, run, jobs') == VerdictOf(r, run, jobs)
  {
    SameTotal(r, jobs, jobs', OfRun(r));
    SameTotal(r, jobs, jobs', DeadIn(r));
  }

  lemma VerdictAfterOwn(s: State, a: Action, r: RunId)
    requires Enabled(s, a) && RunOf(s, a) == Some(r) && r in s.runs && Decided(s.runs[r]) && Control(s.runs[r])
    ensures r in Apply(s, a).runs && Decided(Apply(s, a).runs[r])
    ensures VerdictOf(r, Apply(s, a).runs[r], Apply(s, a).jobs) == VerdictOf(r, s.runs[r], s.jobs)
  {
    OwnAction(s, a, r);
    if a.OnRun? {
      VerdictAfterStep(s.env, r, s.runs[r], s.jobs, a.step);
    } else {
      VerdictAfterJob(r, s.runs[r], s.jobs, a.j, s.ratings, a.jobStep);
    }
  }

  /** After the fan-in no step changes what it settled; a job may die, but stays the run's. */
  lemma VerdictStays(s: State, a: Action, r: RunId)
    requires Enabled(s, a) && r in s.runs && Decided(s.runs[r]) && Control(s.runs[r])
    ensures r in Apply(s, a).runs && Decided(Apply(s, a).runs[r])
    ensures VerdictOf(r, Apply(s, a).runs[r], Apply(s, a).jobs) == VerdictOf(r, s.runs[r], s.jobs)
  {
    if RunOf(s, a) == Some(r) {
      VerdictAfterOwn(s, a, r);
    } else {
      OtherRun(s, a, r);
      VerdictAfterOther(r, s.runs[r], s.jobs, Apply(s, a).jobs);
    }
  }

  /** The only step of its own left to a run after the fan-in's UPDATE is the publication. */
  lemma LateRunStep(run: Run, step: RunStep)
    requires run.history != [] && Control(run) && !run.fanIn.Open? && RunEnabled(run, step)
    ensures step.PublishFanIn?
  {
    forall i | 0 <= i < |run.tasks| ensures run.tasks[i].Returned? {
      assert run.tasks[i] in run.tasks;
    }
  }

  ghost predicate Settled(s: State, r: RunId, v: Verdict) {
    r in s.runs && Decided(s.runs[r]) && VerdictOf(r, s.runs[r], s.jobs) == v
  }

  lemma SettledAlong(states: seq<State>, acts: seq<Action>, i: nat, r: RunId, v: Verdict)
    requires Execution(states, acts) && i < |acts| && Settled(states[i], r, v)
    ensures Settled(states[i + 1], r, v)
  {
    InvHolds(states, acts, i);
    assert RunInv(r, states[i].runs[r], states[i].jobs);
    VerdictStays(states[i], acts[i], r);
  }

  lemma {:induction false} SettledFrom(states: seq<State>, acts: seq<Action>, k: nat, m: nat, r: RunId, v: Verdict)
    requires Execution(states, acts) && k <= m < |states| && Settled(states[k], r, v)
    ensures Settled(states[m], r, v)
    decreases m - k
  {
    if k < m {
      SettledAlong(states, acts, k, r, v);
      SettledFrom(states, acts, k + 1, m, r, v);
    }
  }

  /** In t the run has ended well exactly if its fan-in in s fitted, given how many of its jobs have died since. */
  ghost predicate EndingFits(s: State, t: State, r: RunId, refreshFailed: bool) {
    && HasRow(s, r) && HasRow(t, r)
    && var died := Sum(t.jobs, DeadIn(r)) - Sum(s.jobs, DeadIn(r));
       var run := t.runs[r];
       && (EndedWell(t, r) <==> Fits(s, r, refreshFailed, died))
       && (!Fits(s, r, refreshFailed, died) ==>
             if RatingOn(s.env, s.runs[r]) then run.Row().status.Rating? && DonesPublished(run) == 0
             else run.Row().status.Completed? && DonesPublished(run) >= 2)
  }

  lemma VerdictClean(r: RunId, run: Run, jobs: seq<Job>)
    requires Decided(run)
    ensures var v := VerdictOf(r, run, jobs);
      Clean(r, run, jobs) <==> v.failed || v.owned - Sum(jobs, DeadIn(r)) == if v.on then v.inserted else v.seen
  {
  }

  /** A fan-in now finds that many jobs which are not dead. */
  lemma FitsExactly(s: State, r: RunId, refreshFailed: bool, died: int)
    requires Inv(s) && HasRow(s, r)
    ensures var run := s.runs[r];
      Fits(s, r, refreshFailed, died) <==>
        AllFailed(run.tasks) || refreshFailed
        || Sum(s.jobs, OfRun(r)) - died == if RatingOn(s.env, run) then run.Row().inserted else run.Row().rated
  {
    assert RunInv(r, s.runs[r], s.jobs);
    CountersAt(r, s.runs[r], s.jobs);
  }

  lemma FitsIffClean(s: State, t: State, r: RunId, refreshFailed: bool)
    requires Inv(s) && HasRow(s, r) && Settled(t, r, Judged(s, r, refreshFailed))
    ensures Fits(s, r, refreshFailed, Sum(t.jobs, DeadIn(r)) - Sum(s.jobs, DeadIn(r))) <==> Clean(r, t.runs[r], t.jobs)
  {
    FitsExactly(s, r, refreshFailed, Sum(t.jobs, DeadIn(r)) - Sum(s.jobs, DeadIn(r)));
    VerdictClean(r, t.runs[r], t.jobs);
  }

  /** How a run ends on what its fan-in settled. */
  lemma SettledEnding(s: State, t: State, r: RunId, refreshFailed: bool)
    requires Inv(s) && HasRow(s, r) && Inv(t) && Settled(t, r, Judged(s, r, refreshFailed)) && Drained(t, r)
    ensures EndingFits(s, t, r, refreshFailed)
  {
    FitsIffClean(s, t, r, refreshFailed);
    DrainedEndsWell(t, r);
  }

  /**
   The ending of a run is settled by what its fan-in meets and how many of its jobs die later: in every
   schedule that takes the fan-in at step k and later drains the run, the run ends well if and only if the
   fan-in fitted. Otherwise it is stranded in `rating` without any `done`, or has published at least two.
   */
  lemma FanInDecides(states: seq<State>, acts: seq<Action>, k: nat, m: nat, r: RunId, refreshFailed: bool, now: Time)
    requires Execution(states, acts) && k < m < |states| && acts[k] == OnRun(r, FanInUpdate(refreshFailed, now))
    requires r in states[m].runs && Drained(states[m], r)
    ensures EndingFits(states[k], states[m], r, refreshFailed)
  {
    InvHolds(states, acts, k);
    FanInSettles(states[k], r, refreshFailed, now);
    SettledFrom(states, acts, k + 1, m, r, Judged(states[k], r, refreshFailed));
    InvHolds(states, acts, m);
    SettledEnding(states[k], states[m], r, refreshFailed);
  }

  // --- both misfits occur ------------------------------------------------------------------------------

  /** One influencer, one new item, scraped under `env`; the task has returned. */
  function OneItem(env: bool): Run {
    var row := RunRow(Running, 1, 1, 1, 0, false, Some(1), None);
    Run([Commit(RunRow(Queued, 1, 0, 0, 0, false, None, None), ByCreate),
         Commit(RunRow(Queued, 1, 0, 0, 0, false, None, None), BySize),
         Commit(RunRow(Running, 1, 0, 0, 0, false, Some(1), None), ByFlip),
         Commit(row, ByCount)],
        Launched, [Returned(1, env, false)], Open, [Msg(Progress, 3, row, None)])
  }

  function OneRun(env: bool, run: Run, jobs: seq<Job>): State {
    State(env, map[0 := run], jobs, {})
  }

  function OneItemState(env: bool): State {
    OneRun(env, OneItem(env), if env then [Job(Some(0), 7, 0, InQueue)] else [])
  }

  lemma Take(env: bool, run: Run, jobs: seq<Job>, step: RunStep, run': Run, jobs': seq<Job>)
    requires Reachable(OneRun(env, run, jobs)) && RunEnabled(run, step)
    requires run' == RunApply(env, run, step) && jobs' == jobs + Spawned(0, run, step)
    ensures Reachable(OneRun(env, run', jobs'))
  {
    ReachableStep(OneRun(env, run, jobs), OnRun(0, step));
    assert OneRun(env, run, jobs).runs[0 := run'] == map[0 := run'];
  }

  lemma DispatchedReachable(env: bool) returns (run: Run)
    ensures run == NewRun(1, false).Write(NewRun(1, false).Row(), BySize).(dispatch := Launched, tasks := [Waiting])
    ensures Reachable(OneRun(env, run, []))
  {
    var run0 := NewRun(1, false);
    ReachableInit(env, {});
    ReachableStep(Init(env, {}), CreateRun(0, 1, false));
    assert Init(env, {}).runs[0 := run0] == map[0 := run0];
    var run1 := run0.Write(run0.Row(), BySize).(dispatch := Sized(1));
    Take(env, run0, [], CommitTotal(1), run1, []);
    run := run1.(dispatch := Launched, tasks := [Waiting]);
    assert seq(1, _ => Waiting) == [Waiting];
    Take(env, run1, [], LaunchChord, run, []);
  }

  const FIRST_ROW := RunRow(Running, 1, 0, 0, 0, false, Some(1), None)
  const ITEM_ROW := RunRow(Running, 1, 1, 1, 0, false, Some(1), None)
  const ITEM_DELTA := Msg(Progress, 3, ITEM_ROW, None)

  lemma FlipFirst(env: bool, before: Run)
    requires before.history != [] && before.Row() == RunRow(Queued, 1, 0, 0, 0, false, None, None)
      && before.tasks == [Waiting]
    ensures RunEnabled(before, FlipRunning(0, 1))
    ensures RunApply(env, before, FlipRunning(0, 1)) == before.Write(FIRST_ROW, ByFlip).(tasks := [Scraping])
  {
    assert [Waiting][0 := Scraping] == [Scraping];
  }

  lemma UpdateOnly<T>(s: seq<T>, t: T)
    requires |s| == 1
    ensures s[0 := t] == [t]
  {
  }

  lemma FirstDelta(before: Run)
    requires |before.history| == 3
    ensures ProgressMsg(before, CountRow(FIRST_ROW, 1)) == ITEM_DELTA
  {
  }

  lemma CountFirst(env: bool, before: Run, items: seq<Hash>, t: Task)
    requires |before.history| == 3 && before.Row() == FIRST_ROW && before.tasks == [Scraping] && |items| == 1
    requires t == Counted(items, 0, None, ProgressMsg(before, CountRow(FIRST_ROW, 1)), false)
    ensures RunEnabled(before, CommitCount(0, Scraped(items)))
    ensures RunApply(env, before, CommitCount(0, Scraped(items))) == before.Write(ITEM_ROW, ByCount).(tasks := [t])
  {
    UpdateOnly(before.tasks, t);
  }

  /** The run once its one item is counted. */
  function CountedItem(env: bool): Run {
    OneItem(env).(log := [], tasks := [Counted([7], 0, None, ITEM_DELTA, false)])
  }

  lemma ItemCounted(env: bool, flipped: Run) returns (items: seq<Hash>, d: Msg, t: Task)
    requires flipped.Write(ITEM_ROW, ByCount).(tasks := CountedItem(env).tasks) == CountedItem(env)
    requires |flipped.history| == 3
    ensures |items| == 1 && d == ProgressMsg(flipped, CountRow(FIRST_ROW, 1)) && t == Counted(items, 0, None, d, false)
    ensures CountedItem(env) == flipped.Write(ITEM_ROW, ByCount).(tasks := [t])
  {
    items, d := [7], ITEM_DELTA;
    t := Counted(items, 0, None, d, false);
    FirstDelta(flipped);
  }

  lemma FlippedReachable(env: bool) returns (flipped: Run)
    ensures Reachable(OneRun(env, flipped, []))
    ensures |flipped.history| == 3 && flipped.Row() == FIRST_ROW && flipped.tasks == [Scraping]
    ensures flipped.Write(ITEM_ROW, ByCount).(tasks := CountedItem(env).tasks) == CountedItem(env)
  {
    var before := DispatchedReachable(env);
    FlipFirst(env, before);
    flipped := before.Write(FIRST_ROW, ByFlip).(tasks := [Scraping]);
    Take(env, before, [], FlipRunning(0, 1), flipped, []);
    assert flipped.Write(ITEM_ROW, ByCount).history == CountedItem(env).history;
  }

  lemma ScrapedReachable(env: bool)
    ensures Reachable(OneRun(env, CountedItem(env), []))
  {
    var flipped := FlippedReachable(env);
    var items, d, t := ItemCounted(env, flipped);
    TakeCount(env, flipped, items, d, t, CountedItem(env));
  }

  lemma TakeCount(env: bool, before: Run, items: seq<Hash>, d: Msg, t: Task, run: Run)
    requires |before.history| == 3 && before.Row() == FIRST_ROW && before.tasks == [Scraping] && |items| == 1
    requires d == ProgressMsg(before, CountRow(FIRST_ROW, 1)) && t == Counted(items, 0, None, d, false)
    requires Reachable(OneRun(env, before, [])) && run == before.Write(ITEM_ROW, ByCount).(tasks := [t])
    ensures Reachable(OneRun(env, run, []))
  {
    CountFirst(env, before, items, t);
    Take(env, before, [], CommitCount(0, Scraped(items)), run, []);
  }

  lemma OneItemReachable(env: bool)
    ensures Reachable(OneItemState(env))
  {
    ScrapedReachable(env);
    var run := CountedItem(env);
    var looked := run.(tasks := [Counted([7], 0, Some(env), ITEM_DELTA, false)]);
    Take(env, run, [], ReadModel(0), looked, []);
    Finished(env, looked, ITEM_DELTA);
    assert [] + [ITEM_DELTA] == [ITEM_DELTA];
  }

  lemma Finished(env: bool, looked: Run, delta: Msg)
    requires looked.history != [] && !looked.Row().hasModel
      && looked.tasks == [Counted([7], 0, Some(env), delta, false)]
    requires Reachable(OneRun(env, looked, []))
    ensures Reachable(OneRun(env, looked.(tasks := [Returned(1, env, false)], log := looked.log + [delta]),
                             if env then [Job(Some(0), 7, 0, InQueue)] else []))
  {
    var run, jobs := looked, [];
    if env {
      run, jobs := looked.(tasks := [Counted([7], 1, Some(true), delta, false)]), [Job(Some(0), 7, 0, InQueue)];
      Take(env, looked, [], EnqueueRating(0), run, jobs);
    }
    Take(env, run, jobs, PublishProgress(0), looked.(tasks := [Returned(1, env, false)], log := looked.log + [delta]),
      jobs);
  }

  /**
   Changing RATING_MODEL between the scrapes and the fan-in, either way, leads from a reachable state to
   a fan-in that does not fit: unset, a job is still to be counted; set, a signal has no job.
   */
  lemma BothMisfits(env: bool)
    ensures var s := OneItemState(env).(env := !env);
      && Reachable(s) && Enabled(s, OnRun(0, FanInUpdate(false, 2)))
      && RatingOn(s.env, s.runs[0]) == !env && !Fits(s, 0, false, 0)
  {
    OneItemReachable(env);
    ReachableStep(OneItemState(env), SetEnv(!env));
    var s := OneItemState(env).(env := !env);
    if env {
      assert s.jobs[1..] == [];
    }
  }

  // --- a dead job strands its run ---------------------------------------------------------------------------

  /** The one job of the run after it has reached a phase. */
  function OneJob(phase: JobPhase): seq<Job> {
    [Job(Some(0), 7, 0, phase)]
  }

  lemma TakeJob(run: Run, step: JobStep, phase: JobPhase, phase': JobPhase)
    requires run.history != [] && Reachable(OneRun(true, run, OneJob(phase)))
    requires (step == CheckRated && phase.InQueue? && phase'.Probing?)
          || (step == ProbeCache(false) && phase.Probing? && phase'.Calling?)
          || (step.Die? && (phase.Probing? || phase.Calling?) && phase'.Dead?)
    ensures Reachable(OneRun(true, run, OneJob(phase')))
  {
    var s := OneRun(true, run, OneJob(phase));
    ReachableStep(s, OnJob(0, step));
    assert s.runs[0 := run] == s.runs;
    assert OneJob(phase)[0 := Job(Some(0), 7, 0, phase')] == OneJob(phase');
  }

  lemma OneJobDies() returns (run: Run)
    ensures run == OneItem(true) && Reachable(OneRun(true, run, OneJob(Dead)))
  {
    run := OneItem(true);
    OneItemReachable(true);
    TakeJob(run, CheckRated, InQueue, Probing);
    TakeJob(run, ProbeCache(false), Probing, Calling);
    TakeJob(run, Die, Calling, Dead);
  }

  lemma FanInAfterAll(run: Run, jobs: seq<Job>) returns (ended: Run)
    requires Reachable(OneRun(true, run, jobs)) && RunEnabled(run, FanInUpdate(false, 2))
    requires forall job <- jobs :: Over(job)
    ensures Reachable(OneRun(true, ended, jobs)) && Drained(OneRun(true, ended, jobs), 0)
    ensures ended.history != [] && ended.fanIn.on && ended.Row().inserted == run.Row().inserted
    ensures ended.Row().status.Failed? ==> AllFailed(run.tasks)
  {
    var decided := RunApply(true, run, FanInUpdate(false, 2));
    assert jobs + [] == jobs;
    Take(true, run, jobs, FanInUpdate(false, 2), decided, jobs);
    ended := RunApply(true, decided, PublishFanIn);
    Take(true, decided, jobs, PublishFanIn, ended, jobs);
    InReach(run, jobs);
  }

  lemma InReach(run: Run, jobs: seq<Job>)
    requires Reachable(OneRun(true, run, jobs)) && RunEnabled(run, FanInUpdate(false, 2))
    ensures run.dispatch.Launched? && forall t <- run.tasks :: t.Returned?
  {
  }

  /** A job that dies leaves a reachable run in `rating` for good, with nothing left to do and no `done`. */
  lemma DeadJobStrands() returns (s: State)
    ensures Reachable(s) && 0 in s.runs && Drained(s, 0) && s.runs[0].history != []
    ensures s.runs[0].Row().status.Rating? && DonesPublished(s.runs[0]) == 0
  {
    var run := OneJobDies();
    var ended := FanInAfterAll(run, OneJob(Dead));
    s := OneRun(true, ended, OneJob(Dead));
    ReachableInv(s);
    DrainedEndsWell(s, 0);
    assert OneJob(Dead)[1..] == [];
    assert run.tasks[0] in run.tasks;
  }
}
