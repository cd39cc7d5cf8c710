/**
 When `done` is the last message on a run's channel. Publishing follows committing, so a delta committed
 before or after the fan-in may come out behind the `done`; this says exactly when it can.
 */
module RunChannel {
  import opened Common
  import opened RunProtocol
  import opened RunInvariant
  import opened RunTheorems
  import opened RunEnvironment

  /** Nothing follows a `done`. */
  predicate DoneLast(log: seq<Msg>) {
    forall k :: 0 <= k < |log| && log[k].kind.Done? ==> k == |log| - 1
  }

  /** The run is there and its channel carries nothing after a `done`. */
  predicate Closing(s: State, r: RunId) {
    r in s.runs && DoneLast(s.runs[r].log)
  }

  /** A schedule from `s` on. */
  ghost predicate Continues(s: State, states: seq<State>, acts: seq<Action>) {
    && |states| == |acts| + 1 && states[0] == s
    && forall k :: 0 <= k < |acts| ==> Enabled(states[k], acts[k]) && states[k + 1] == Apply(states[k], acts[k])
  }

  ghost predicate AlwaysClosing(s: State, r: RunId) {
    forall states, acts :: Continues(s, states, acts) ==> Closing(states[|acts|], r)
  }

  /** None of the run's jobs has a step left. */
  predicate JobsOver(s: State, r: RunId) {
    forall job <- s.jobs :: job.run == Some(r) ==> Over(job)
  }

  // --- nothing left to publish but the fan-in's message -----------------------------------------

  predicate NoDone(log: seq<Msg>) {
    forall m <- log :: !m.kind.Done?
  }

  /** The run's jobs have all ended and its tasks are back, so only the fan-in can still publish. */
  predicate Quiet(s: State, r: RunId) {
    && r in s.runs && JobsOver(s, r)
    && s.runs[r].dispatch.Launched? && (forall t <- s.runs[r].tasks :: t.Returned?)
    && (if s.runs[r].fanIn.Closed? then DoneLast(s.runs[r].log) else NoDone(s.runs[r].log))
  }

  lemma QuietStep(s: State, a: Action, r: RunId)
    requires Quiet(s, r) && Enabled(s, a)
    ensures Quiet(Apply(s, a), r)
  {
    var t := Apply(s, a);
    if RunOf(s, a) != Some(r) {
      OtherRun(s, a, r);
      forall k | 0 <= k < |t.jobs| && t.jobs[k].run == Some(r) ensures Over(t.jobs[k]) {
        assert s.jobs[k] in s.jobs;
      }
    } else {
      OwnAction(s, a, r);
      NoJobStep(s, a, r);
      QuietRun(s.runs[r], a.step);
      assert t.jobs == s.jobs + [] == s.jobs;
    }
  }

  lemma NoJobStep(s: State, a: Action, r: RunId)
    requires JobsOver(s, r) && Enabled(s, a) && RunOf(s, a) == Some(r)
    ensures !a.OnJob?
  {
    forall j | 0 <= j < |s.jobs| && s.jobs[j].run == Some(r) ensures Over(s.jobs[j]) {
      assert s.jobs[j] in s.jobs;
    }
  }

  lemma QuietRun(run: Run, step: RunStep)
    requires run.dispatch.Launched? && (forall t <- run.tasks :: t.Returned?) && RunEnabled(run, step)
    ensures (step.FanInUpdate? && run.fanIn.Open?) || (step.PublishFanIn? && run.fanIn.Decided?)
  {
    forall i | 0 <= i < |run.tasks| ensures run.tasks[i].Returned? {
      assert run.tasks[i] in run.tasks;
    }
  }

  lemma {:induction false} QuietHolds(s: State, states: seq<State>, acts: seq<Action>, k: nat, r: RunId)
    requires Continues(s, states, acts) && Quiet(s, r) && k < |states|
    ensures Quiet(states[k], r)
  {
    if k > 0 {
      QuietHolds(s, states, acts, k - 1, r);
      QuietStep(states[k - 1], acts[k - 1], r);
    }
  }

  /** Before the fan-in no `done` has been published. */
  lemma NoDoneYet(s: State, r: RunId)
    requires Inv(s) && r in s.runs && s.runs[r].fanIn.Open?
    ensures NoDone(s.runs[r].log)
  {
    assert RunInv(r, s.runs[r], s.jobs);
    var log := s.runs[r].log;
    forall i | 0 <= i < |log| ensures !log[i].kind.Done? {
      SumOne(log, i, InLog(IsDone));
    }
  }

  // --- a job that has not ended publishes late ------------------------------------------------------

  /** A schedule from the state after `a` makes one from the state before. */
  lemma Prepend(s: State, a: Action, t: State, states: seq<State>, acts: seq<Action>)
    returns (states': seq<State>, acts': seq<Action>)
    requires Enabled(s, a) && t == Apply(s, a) && Continues(t, states, acts)
    ensures Continues(s, states', acts') && states'[|acts'|] == states[|acts|]
  {
    states', acts' := [s] + states, [a] + acts;
    forall k | 0 <= k < |acts'| ensures Enabled(states'[k], acts'[k]) && states'[k + 1] == Apply(states'[k], acts'[k]) {
      if k > 0 { assert states'[k] == states[k - 1] && acts'[k] == acts[k - 1]; }
    }
  }

  /** A job's next step, which is no retry, and what it does to the log. */
  lemma JobAhead(run: Run, job: Job, ratings: set<Hash>)
    requires run.history != [] && job.run.Some? && !Over(job)
    ensures var job' := JobApply(job, ratings, Some(run), NextStep(job));
      && job'.run == job.run
      && RunAfterJob(run, job, NextStep(job)).log == run.log + (if job.phase.Telling? then [job.phase.delta] else [])
      && (!job.phase.Telling? ==> !Over(job') && StepsLeft(job') < StepsLeft(job))
  {
  }

  /** Behind a `done` that is out already, a job that has not ended brings out one more message. */
  lemma {:induction false} PublishesLate(s: State, r: RunId, j: nat, d: nat)
    returns (states: seq<State>, acts: seq<Action>)
    requires Inv(s) && r in s.runs && j < |s.jobs| && s.jobs[j].run == Some(r) && !Over(s.jobs[j])
    requires d < |s.runs[r].log| && s.runs[r].log[d].kind.Done?
    ensures Continues(s, states, acts) && !Closing(states[|acts|], r)
    decreases StepsLeft(s.jobs[j])
  {
    var a := OnJob(j, NextStep(s.jobs[j]));
    assert RunInv(r, s.runs[r], s.jobs);
    OwnAction(s, a, r);
    JobAhead(s.runs[r], s.jobs[j], s.ratings);
    var t := Apply(s, a);
    assert t.runs[r].log[d] == s.runs[r].log[d];
    states, acts := [t], [];
    if !s.jobs[j].phase.Telling? {
      InvStep(s, a);
      states, acts := PublishesLate(t, r, j, d);
    }
    states, acts := Prepend(s, a, t, states, acts);
  }

  lemma FailedRun(env: bool, run: Run, now: Time)
    requires RunEnabled(run, FanInUpdate(true, now))
    ensures var decided := RunApply(env, run, FanInUpdate(true, now));
      && RunEnabled(decided, PublishFanIn)
      && var log := RunApply(env, decided, PublishFanIn).log; log != [] && log[|log| - 1].kind.Done?
  {
  }

  /** A failing fan-in makes and publishes its `done` at once. */
  lemma FanInFails(s: State, r: RunId, now: Time) returns (u: State, t: State)
    requires Inv(s) && Enabled(s, OnRun(r, FanInUpdate(true, now)))
    ensures u == Apply(s, OnRun(r, FanInUpdate(true, now)))
    ensures Enabled(u, OnRun(r, PublishFanIn)) && t == Apply(u, OnRun(r, PublishFanIn))
    ensures DoneOut(t, r, s.jobs)
  {
    u := FirstHalf(s, r, now);
    FailedRun(s.env, s.runs[r], now);
    InvStep(u, OnRun(r, PublishFanIn));
    OwnAction(u, OnRun(r, PublishFanIn), r);
    t := Apply(u, OnRun(r, PublishFanIn));
    assert u.jobs + [] == u.jobs;
  }

  /** The run's last message so far is a `done`, with these jobs about. */
  ghost predicate DoneOut(t: State, r: RunId, jobs: seq<Job>) {
    && Inv(t) && r in t.runs && t.jobs == jobs
    && t.runs[r].log != [] && t.runs[r].log[|t.runs[r].log| - 1].kind.Done?
  }

  lemma LateAfter(t: State, r: RunId, jobs: seq<Job>, j: nat) returns (states: seq<State>, acts: seq<Action>)
    requires DoneOut(t, r, jobs) && j < |jobs| && jobs[j].run == Some(r) && !Over(jobs[j])
    ensures Continues(t, states, acts) && !Closing(states[|acts|], r)
  {
    states, acts := PublishesLate(t, r, j, |t.runs[r].log| - 1);
  }

  lemma FirstHalf(s: State, r: RunId, now: Time) returns (u: State)
    requires Inv(s) && Enabled(s, OnRun(r, FanInUpdate(true, now)))
    ensures u == Apply(s, OnRun(r, FanInUpdate(true, now))) && Inv(u)
    ensures r in u.runs && u.runs[r] == RunApply(s.env, s.runs[r], FanInUpdate(true, now))
    ensures u.jobs == s.jobs && u.env == s.env
  {
    u := Apply(s, OnRun(r, FanInUpdate(true, now)));
    InvStep(s, OnRun(r, FanInUpdate(true, now)));
    OwnAction(s, OnRun(r, FanInUpdate(true, now)), r);
    assert s.jobs + [] == s.jobs;
  }

  /** From a fan-in that is due while a job has not ended, a schedule in which a message follows the `done`. */
  lemma LateDelta(s: State, r: RunId, j: nat, now: Time) returns (states: seq<State>, acts: seq<Action>)
    requires Inv(s) && Enabled(s, OnRun(r, FanInUpdate(true, now)))
    requires j < |s.jobs| && s.jobs[j].run == Some(r) && !Over(s.jobs[j])
    ensures Continues(s, states, acts) && !Closing(states[|acts|], r)
  {
    var u, t := FanInFails(s, r, now);
    states, acts := LateAfter(t, r, s.jobs, j);
    states, acts := Prepend(u, OnRun(r, PublishFanIn), t, states, acts);
    states, acts := Prepend(s, OnRun(r, FanInUpdate(true, now)), u, states, acts);
  }

  /**
   With the scrapes back and the fan-in due, `done` ends the channel in every schedule from here if and
   only if no rating job of the run has a step left.
   */
  lemma DoneLastExactly(s: State, r: RunId, now: Time)
    requires Inv(s) && Enabled(s, OnRun(r, FanInUpdate(true, now)))
    ensures AlwaysClosing(s, r) <==> JobsOver(s, r)
  {
    if JobsOver(s, r) {
      NoDoneYet(s, r);
      forall states, acts | Continues(s, states, acts) ensures Closing(states[|acts|], r) {
        QuietHolds(s, states, acts, |acts|, r);
      }
    } else {
      var j :| 0 <= j < |s.jobs| && s.jobs[j].run == Some(r) && !Over(s.jobs[j]);
      var states, acts := LateDelta(s, r, j, now);
      assert Continues(s, states, acts);
    }
  }

  /**
   So while none of the run's jobs has been delivered yet, `done` ends the channel in every schedule
   exactly when the run has no rating job: nothing was inserted, or the tasks read rating as off.
   */
  lemma DoneLastWithoutJobs(s: State, r: RunId, on: bool, now: Time)
    requires Inv(s) && Enabled(s, OnRun(r, FanInUpdate(true, now))) && AllRead(s.runs[r].tasks, on)
    requires forall job <- s.jobs :: job.run == Some(r) ==> job.phase.InQueue?
    ensures AlwaysClosing(s, r) <==> Sum(s.jobs, OfRun(r)) == 0
    ensures AlwaysClosing(s, r) <==> !on || s.runs[r].Row().inserted == 0
  {
    DoneLastExactly(s, r, now);
    QueuedJobs(r, s.jobs);
    JobsRead(r, s.runs[r], s.jobs, on);
  }

  /** Jobs that all wait in the queue are over exactly if there are none. */
  lemma QueuedJobs(r: RunId, jobs: seq<Job>)
    requires forall job <- jobs :: job.run == Some(r) ==> job.phase.InQueue?
    ensures Sum(jobs, DeadIn(r)) == 0
    ensures Sum(jobs, OfRun(r)) == 0 <==> forall job <- jobs :: job.run == Some(r) ==> Over(job)
  {
    SumZero(jobs, DeadIn(r));
    if Sum(jobs, OfRun(r)) > 0 {
      var j := SumPositive(jobs, OfRun(r));
      assert jobs[j] in jobs;
    } else {
      forall j | 0 <= j < |jobs| ensures jobs[j].run != Some(r) {
        SumOne(jobs, j, OfRun(r));
      }
    }
  }

  lemma JobsRead(r: RunId, run: Run, jobs: seq<Job>, on: bool)
    requires RunInv(r, run, jobs) && AllRead(run.tasks, on) && Sum(jobs, DeadIn(r)) == 0
    ensures Sum(jobs, OfRun(r)) == if on then run.Row().inserted else 0
  {
    CountersAt(r, run, jobs);
  }

  /** It happens: a reachable state from which a message follows the `done`. */
  lemma LateDeltaReachable() returns (s: State, states: seq<State>, acts: seq<Action>)
    ensures Reachable(s) && Continues(s, states, acts) && 0 in states[|acts|].runs
      && !DoneLast(states[|acts|].runs[0].log)
  {
    s := OneItemDue();
    states, acts := LateDelta(s, 0, 0, 2);
    StillThere(s, states, acts, |acts|, 0);
  }

  /** One item scraped, its job queued, the fan-in due. */
  lemma OneItemDue() returns (s: State)
    ensures Reachable(s) && Inv(s) && 0 in s.runs && Enabled(s, OnRun(0, FanInUpdate(true, 2)))
    ensures |s.jobs| == 1 && s.jobs[0].run == Some(0) && !Over(s.jobs[0])
  {
    s := OneItemWaits();
    OneItemReachable(true);
    ReachableInv(s);
  }

  lemma OneItemWaits() returns (s: State)
    ensures s == OneItemState(true) && 0 in s.runs && Enabled(s, OnRun(0, FanInUpdate(true, 2)))
    ensures |s.jobs| == 1 && s.jobs[0].run == Some(0) && !Over(s.jobs[0])
  {
    s := OneItemState(true);
  }

  lemma {:induction false} StillThere(s: State, states: seq<State>, acts: seq<Action>, k: nat, r: RunId)
    requires Continues(s, states, acts) && r in s.runs && k < |states|
    ensures r in states[k].runs
  {
    if k > 0 {
      StillThere(s, states, acts, k - 1, r);
    }
  }
}
