/**
 The task bodies as they run on one worker: the runs table, the job queue and the channels are
 fields, each SQL commit, enqueue and publish is one assignment to them. Every small method is
 one action of the protocol; the task methods are the bodies built from them, described by what
 a whole call leaves behind when nothing interleaves.
 */
module RunWorker {
  import opened Common
  import opened RunProtocol
  import opened RunInvariant
  import opened RunTheorems
  import RatingCache

  ghost predicate FactsOf(run: Run) {
    && run.history != []
    && (!run.dispatch.Launched? ==> run.tasks == [])
    && run.Row().rated <= run.Row().inserted
    && (forall t <- run.tasks :: t.Counted? ==> t.next <= |t.items|)
    && (run.fanIn.Open? ==> run.Row().finished.None?)
  }

  lemma RunFacts(r: RunId, run: Run, jobs: seq<Job>)
    requires RunInv(r, run, jobs)
    ensures FactsOf(run)
  {
    JobBounds(r, run, jobs);
    assert forall t <- run.tasks :: TaskOk(t, run.Row());
  }

  class Worker {
    /** Whether RATING_MODEL is set. */
    var env: bool
    var runs: map<RunId, Run>
    var jobs: seq<Job>
    var ratings: set<Hash>
    var nextId: RunId
    /** The queue of embedding jobs. */
    var embeds: seq<Hash>

    function View(): State
      reads this
    {
      State(env, runs, jobs, ratings)
    }

    /** The tables are in a state the protocol can reach, and the id sequence is ahead of every run. */
    ghost predicate Valid()
      reads this
    {
      Reachable(View()) && forall r <- runs :: r < nextId && runs[r].history != []
    }

    constructor (env: bool, ratings: set<Hash>)
      ensures Valid() && View() == Init(env, ratings)
    {
      this.env := env;
      this.runs, this.jobs, this.ratings, this.nextId, this.embeds := map[], [], ratings, 0, [];
      new;
      ReachableInit(env, ratings);
    }

    /** What the invariant says about one run, for the bodies below. */
    lemma RowFacts(r: RunId)
      requires Valid() && r in runs
      ensures FactsOf(runs[r])
    {
      ReachableInv(View());
      assert RunInv(r, runs[r], jobs);
      RunFacts(r, runs[r], jobs);
    }

    /** A job that still has to announce reports to a known run that is short of its total. */
    lemma JobFacts(j: nat)
      requires Valid() && j < |jobs|
      ensures jobs[j].run.Some? ==> jobs[j].run.value in runs && runs[jobs[j].run.value].history != []
      ensures jobs[j].run.Some? && jobs[j].phase.Announcing? ==>
        runs[jobs[j].run.value].Row().rated < runs[jobs[j].run.value].Row().inserted
    {
      ReachableInv(View());
      assert jobs[j] in jobs;
      if jobs[j].run.Some? {
        var r := jobs[j].run.value;
        assert RunInv(r, runs[r], jobs);
        if jobs[j].phase.Announcing? {
          AnnounceRoom(r, runs[r], jobs, j);
        }
      }
    }

    // --- create_run, dispatch_run ---------------------------------------------------

    /** A worker that comes up with another environment. */
    method SetEnvironment(on: bool)
      requires Valid()
      modifies this`env
      ensures Valid() && env == on
    {
      ReachableStep(View(), SetEnv(on));
      env := on;
    }

    /**
     POST /runs: a model name that does not resolve is refused before anything is written; else the queued
     row is inserted under a fresh id and its dispatch requested.
     */
    method CreateRun(total: nat, model: Option<string>, keys: set<string>) returns (r: Option<RunId>)
      requires Valid()
      modifies this`runs, this`nextId
      ensures Valid() && (r.None? <==> model.Some? && !RatingCache.Resolves(model.value, keys))
      ensures r.None? ==> View() == old(View())
      ensures r.Some? ==>
        && r.value !in old(runs) && View() == Apply(old(View()), Action.CreateRun(r.value, total, model.Some?))
        && runs[r.value].Row() == RunRow(Queued, total, 0, 0, 0, model.Some?, None, None)
        && runs[r.value].log == [] && runs[r.value].tasks == [] && runs[r.value].dispatch.Requested?
    {
      if model.Some? && !RatingCache.Resolves(model.value, keys) {
        return None;
      }
      r := Some(nextId);
      ReachableStep(View(), Action.CreateRun(nextId, total, model.Some?));
      runs := runs[nextId := NewRun(total, model.Some?)];
      nextId := nextId + 1;
    }

    /** The row's total becomes the current influencer count, and one header task per influencer is queued. */
    method DispatchRun(r: RunId, n: nat)
      requires Valid() && r in runs && runs[r].dispatch.Requested?
      modifies this`runs
      ensures Valid() && r in runs && runs == old(runs)[r := runs[r]]
      ensures runs[r].Row() == old(runs[r].Row()).(total := n)
      ensures runs[r].dispatch.Launched? && |runs[r].tasks| == n && forall t <- runs[r].tasks :: t.Waiting?
      ensures runs[r].log == old(runs[r].log)
    {
      RowFacts(r);
      ReachableStep(View(), OnRun(r, CommitTotal(n)));
      assert jobs + [] == jobs;
      runs := runs[r := runs[r].Write(runs[r].Row().(total := n), BySize).(dispatch := Sized(n))];
      ReachableStep(View(), OnRun(r, LaunchChord));
      runs := runs[r := runs[r].(dispatch := Launched, tasks := seq(n, _ => Waiting))];
    }

    // --- scrape_influencer -----------------------------------------------------------

    method CommitFlip(r: RunId, i: nat, now: Time)
      requires Valid() && r in runs && RunEnabled(runs[r], FlipRunning(i, now))
      modifies this`runs
      ensures Valid()
        && runs == old(runs)[r := old(runs)[r].Write(FlipRow(old(runs)[r].Row(), now), ByFlip).WithTask(i, Scraping)]
    {
      ReachableStep(View(), OnRun(r, FlipRunning(i, now)));
      var run := runs[r];
      var row := run.Row();
      row := row.(status := if row.status.Queued? then Running else row.status);
      row := row.(started := if row.started.None? then Some(now) else row.started);
      runs := runs[r := run.Write(row, ByFlip).WithTask(i, Scraping)];
      assert jobs + [] == jobs;
    }

    method CommitScrape(r: RunId, i: nat, outcome: Scrape)
      requires Valid() && r in runs && RunEnabled(runs[r], CommitCount(i, outcome))
      modifies this`runs
      ensures Valid() && runs == old(runs)[r := CountRun(old(runs)[r], i, outcome)]
    {
      ReachableStep(View(), OnRun(r, CommitCount(i, outcome)));
      var run := runs[r];
      var items, failed := [], true;
      if outcome.Scraped? {
        items, failed := outcome.items, false;
      }
      var row := run.Row().(done := run.Row().done + 1, inserted := run.Row().inserted + |items|);
      var delta := Msg(Progress, |run.history|, row, None);
      runs := runs[r := run.Write(row, ByCount).WithTask(i, Counted(items, 0, None, delta, failed))];
      assert jobs + [] == jobs;
    }

    method Enqueue(r: RunId, i: nat)
      requires Valid() && r in runs && RunEnabled(runs[r], EnqueueRating(i))
      modifies this`runs, this`jobs
      ensures Valid() && runs == old(runs)[r := RunApply(env, old(runs)[r], EnqueueRating(i))]
      ensures jobs == old(jobs) + Spawned(r, old(runs)[r], EnqueueRating(i))
    {
      ReachableStep(View(), OnRun(r, EnqueueRating(i)));
      var t := runs[r].tasks[i];
      jobs := jobs + [Job(Some(r), t.items[t.next], 0, InQueue)];
      runs := runs[r := runs[r].WithTask(i, t.(next := t.next + 1))];
    }

    method TellProgress(r: RunId, i: nat)
      requires Valid() && r in runs && RunEnabled(runs[r], PublishProgress(i))
      modifies this`runs
      ensures Valid() && runs == old(runs)[r := Told(old(runs)[r], i)]
    {
      ReachableStep(View(), OnRun(r, PublishProgress(i)));
      var t := runs[r].tasks[i];
      runs := runs[r := runs[r].Publish(t.delta).WithTask(i, Returned(|t.items|, t.rate == Some(true), t.failed))];
      assert jobs + [] == jobs;
    }

    /** The jobs a scrape leaves on the queue: one per new item, in order. */
    static function RateJobs(r: RunId, items: seq<Hash>): (s: seq<Job>)
      ensures |s| == |items| && forall k :: 0 <= k < |s| ==> s[k] == Job(Some(r), items[k], 0, InQueue)
    {
      seq(|items|, k requires 0 <= k < |items| => Job(Some(r), items[k], 0, InQueue))
    }

    /** Taking the next item of a task's new items puts its job on the queue. */
    static lemma EnqueueStep(r: RunId, env: bool, run: Run, i: nat, next: nat)
      requires run.history != [] && i < |run.tasks| && run.tasks[i].Counted? && next < |run.tasks[i].items|
      ensures var now := run.WithTask(i, run.tasks[i].(rate := Some(true), next := next));
        && RunEnabled(now, EnqueueRating(i))
        && RunApply(env, now, EnqueueRating(i)) == run.WithTask(i, run.tasks[i].(rate := Some(true), next := next + 1))
        && Spawned(r, now, EnqueueRating(i)) == [RateJobs(r, run.tasks[i].items)[next]]
    {
    }

    /** model or default_model() */
    method LookUpModel(r: RunId, i: nat) returns (on: bool)
      requires Valid() && r in runs && RunEnabled(runs[r], ReadModel(i))
      modifies this`runs
      ensures Valid() && on == RatingOn(env, old(runs)[r])
      ensures runs == old(runs)[r := old(runs)[r].WithTask(i, old(runs)[r].tasks[i].(rate := Some(on)))]
    {
      ReachableStep(View(), OnRun(r, ReadModel(i)));
      on := runs[r].Row().hasModel || env;
      runs := runs[r := runs[r].WithTask(i, runs[r].tasks[i].(rate := Some(on)))];
      assert jobs + [] == jobs;
    }

    /** The enqueue loop of a counted scrape task, once it knows that rating is on. */
    method EnqueueAll(r: RunId, i: nat)
      requires Valid() && r in runs && i < |runs[r].tasks| && runs[r].tasks[i].Counted?
      requires runs[r].tasks[i].next == 0 && runs[r].tasks[i].rate == Some(true)
      modifies this`runs, this`jobs
      ensures Valid() && r in runs
      ensures runs ==
        old(runs)[r := old(runs)[r].WithTask(i, old(runs)[r].tasks[i].(next := |old(runs)[r].tasks[i].items|))]
      ensures jobs == old(jobs) + RateJobs(r, old(runs)[r].tasks[i].items)
    {
      ghost var run := runs[r];
      ghost var all := RateJobs(r, run.tasks[i].items);
      var n := |runs[r].tasks[i].items|;
      RowFacts(r);
      assert jobs == jobs + all[..0];
      assert run == run.WithTask(i, run.tasks[i].(next := 0));
      assert runs == runs[r := run];
      for next := 0 to n
        invariant Valid() && r in runs
        invariant runs == old(runs)[r := run.WithTask(i, run.tasks[i].(next := next))]
        invariant jobs == old(jobs) + all[..next]
      {
        EnqueueStep(r, env, run, i, next);
        assert run.WithTask(i, run.tasks[i].(rate := Some(true), next := next)) == runs[r];
        Enqueue(r, i);
        assert all[..next + 1] == all[..next] + [all[next]];
      }
      assert all[..n] == all;
    }

    /** One embed_signal job per new item, when EMBEDDING_MODEL is set. */
    method EnqueueEmbeddings(items: seq<Hash>, embedding: bool)
      modifies this`embeds
      ensures embeds == old(embeds) + if embedding then items else []
    {
      if embedding {
        for k := 0 to |items|
          invariant embeds == old(embeds) + items[..k]
        {
          embeds := embeds + [items[k]];
        }
        assert items[..|items|] == items;
      }
    }

    /** The run after a scrape task's two commits. */
    static function AfterBothCommits(run: Run, i: nat, outcome: Scrape, now: Time): Run
      requires run.history != [] && i < |run.tasks|
    {
      CountRun(run.Write(FlipRow(run.Row(), now), ByFlip).WithTask(i, Scraping), i, outcome)
    }

    method ScrapeAndCount(r: RunId, i: nat, outcome: Scrape, now: Time)
      requires Valid() && r in runs && i < |runs[r].tasks| && runs[r].tasks[i].Waiting?
      modifies this`runs
      ensures Valid() && runs == old(runs)[r := AfterBothCommits(old(runs)[r], i, outcome, now)]
    {
      CommitFlip(r, i, now);
      CommitScrape(r, i, outcome);
    }

    /** All of a scrape task but its publication; `on` is what it read about the rating layer. */
    method ScrapeAndEnqueue(r: RunId, i: nat, outcome: Scrape, now: Time, embedding: bool) returns (on: bool)
      requires Valid() && r in runs && i < |runs[r].tasks| && runs[r].tasks[i].Waiting?
      modifies this`runs, this`jobs, this`embeds
      ensures Valid() && r in runs && old(runs[r]).history != [] && on == RatingOn(env, old(runs)[r])
      ensures runs == old(runs)[r := Enqueued(AfterBothCommits(old(runs)[r], i, outcome, now), i, on)]
      ensures RunEnabled(runs[r], PublishProgress(i))
      ensures jobs == old(jobs) + (if on then RateJobs(r, ItemsFrom(outcome)) else [])
      ensures embeds == old(embeds) + (if embedding then ItemsFrom(outcome) else [])
    {
      RowFacts(r);
      ScrapeAndCount(r, i, outcome, now);
      on := EnqueueRatings(r, i);
      EnqueueEmbeddings(ItemsFrom(outcome), embedding);
    }

    /** The rating half of the enqueueing: look whether rating is on, then enqueue. */
    method EnqueueRatings(r: RunId, i: nat) returns (on: bool)
      requires Valid() && r in runs && i < |runs[r].tasks| && runs[r].tasks[i].Counted?
      requires runs[r].tasks[i].next == 0 && runs[r].tasks[i].rate.None?
      modifies this`runs, this`jobs
      ensures Valid() && r in runs && old(runs[r]).history != [] && on == RatingOn(env, old(runs)[r])
      ensures runs == old(runs)[r := Enqueued(old(runs)[r], i, on)] && RunEnabled(runs[r], PublishProgress(i))
      ensures jobs == old(jobs) + (if on then RateJobs(r, old(runs)[r].tasks[i].items) else [])
    {
      RowFacts(r);
      on := LookUpModel(r, i);
      if on {
        EnqueueAll(r, i);
        WithTaskTwice(old(runs)[r], i, old(runs)[r].tasks[i].(rate := Some(on)), runs[r].tasks[i]);
      }
    }

    static lemma WithTaskTwice(run: Run, i: nat, t: Task, u: Task)
      requires i < |run.tasks|
      ensures run.WithTask(i, t).WithTask(i, u) == run.WithTask(i, u)
    {
    }

    /** A counted run whose task i has read `on` and enqueued accordingly. */
    static function Enqueued(counted: Run, i: nat, on: bool): Run
      requires i < |counted.tasks| && counted.tasks[i].Counted?
    {
      var t := counted.tasks[i];
      counted.WithTask(i, t.(rate := Some(on), next := if on then |t.items| else t.next))
    }

    method ScrapeAndTell(r: RunId, i: nat, outcome: Scrape, now: Time, embedding: bool) returns (on: bool)
      requires Valid() && r in runs && i < |runs[r].tasks| && runs[r].tasks[i].Waiting?
      modifies this`runs, this`jobs, this`embeds
      ensures Valid() && r in runs && old(runs[r]).history != [] && on == RatingOn(env, old(runs)[r])
      ensures runs == old(runs)[r := Told(Enqueued(AfterBothCommits(old(runs)[r], i, outcome, now), i, on), i)]
      ensures jobs == old(jobs) + (if on then RateJobs(r, ItemsFrom(outcome)) else [])
      ensures embeds == old(embeds) + (if embedding then ItemsFrom(outcome) else [])
    {
      on := ScrapeAndEnqueue(r, i, outcome, now, embedding);
      TellProgress(r, i);
    }

    static lemma ScrapeEffect(run: Run, i: nat, outcome: Scrape, now: Time, on: bool) returns (told: Run)
      requires run.history != [] && i < |run.tasks|
      ensures told == Told(Enqueued(AfterBothCommits(run, i, outcome, now), i, on), i)
      ensures
        && told.history != []
        && told.Row() == CountRow(FlipRow(run.Row(), now), |ItemsFrom(outcome)|)
        && told.tasks == run.tasks[i := Returned(|ItemsFrom(outcome)|, on, outcome.ScrapeError?)]
        && told.log == run.log + [Msg(Progress, |told.history| - 1, told.Row(), None)]
    {
      told := Told(Enqueued(AfterBothCommits(run, i, outcome, now), i, on), i);
    }

    /**
     One scrape task, start to finish. It never raises: an error is counted, brings no items
     and is reported in the task's result. With rating on, every new item is on the queue
     exactly once, tagged with the run, before the delta is published; with embeddings on, every new
     item is on that queue too.
     */
    method ScrapeInfluencer(r: RunId, i: nat, outcome: Scrape, now: Time, embedding: bool)
      requires Valid() && r in runs && i < |runs[r].tasks| && runs[r].tasks[i].Waiting?
      modifies this`runs, this`jobs, this`embeds
      ensures Valid() && r in runs && runs == old(runs)[r := runs[r]] && old(runs[r]).history != []
      ensures var row, n := old(runs[r].Row()), if outcome.Scraped? then |outcome.items| else 0;
        runs[r].Row() == row.(status := if row.status.Queued? then Running else row.status,
                              started := if row.started.None? then Some(now) else row.started,
                              done := row.done + 1, inserted := row.inserted + n)
      ensures var on, items := old(runs[r].Row()).hasModel || env, if outcome.Scraped? then outcome.items else [];
        && runs[r].tasks == old(runs[r].tasks)[i := Returned(|items|, on, outcome.ScrapeError?)]
        && jobs == old(jobs) + (if on then RateJobs(r, items) else [])
        && embeds == old(embeds) + if embedding then items else []
      ensures runs[r].log == old(runs[r].log) + [Msg(Progress, |runs[r].history| - 1, runs[r].Row(), None)]
    {
      ghost var run := runs[r];
      var on := ScrapeAndTell(r, i, outcome, now, embedding);
      ghost var told := ScrapeEffect(run, i, outcome, now, on);
      assert runs[r] == told;
    }

    // --- finalize_run ----------------------------------------------------------------

    /** Every result carries an error, and there is one. */
    method Errors(r: RunId) returns (failed: bool)
      requires r in runs && forall t <- runs[r].tasks :: t.Returned?
      ensures failed <==> runs[r].tasks != [] && forall t <- runs[r].tasks :: t.failed
    {
      var results := runs[r].tasks;
      var errors := 0;
      for k := 0 to |results|
        invariant errors <= k
        invariant errors == k <==> forall m :: 0 <= m < k ==> results[m].Returned? && results[m].failed
      {
        if results[k].Returned? && results[k].failed {
          errors := errors + 1;
        }
      }
      failed := errors > 0 && errors == |results|;
    }

    method CommitFanIn(r: RunId, refreshFailed: bool, now: Time)
      requires Valid() && r in runs && RunEnabled(runs[r], FanInUpdate(refreshFailed, now))
      modifies this`runs
      ensures Valid() && runs == old(runs)[r := FanInRun(old(runs)[r], refreshFailed, env, now)]
    {
      ReachableStep(View(), OnRun(r, FanInUpdate(refreshFailed, now)));
      var failed := Errors(r);
      failed := failed || refreshFailed;
      var run := runs[r];
      var row := run.Row();
      if failed {
        row := row.(status := Failed, finished := Some(now));
      } else if (row.hasModel || env) && row.inserted > 0 && row.rated < row.inserted {
        row := row.(status := Rating);
      } else {
        row := row.(status := Completed, finished := Some(now));
      }
      runs := runs[r :=
        run.Write(row, ByFanIn).(fanIn := Decided(run.Row().hasModel || env, row.rated, FanInMsg(run, row, env)))];
      assert jobs + [] == jobs;
    }

    method TellFanIn(r: RunId)
      requires Valid() && r in runs && RunEnabled(runs[r], PublishFanIn)
      modifies this`runs
      ensures Valid()
      ensures var run := old(runs)[r];
        runs == old(runs)[r := run.Publish(run.fanIn.delta).(fanIn := Closed(run.fanIn.on, run.fanIn.seen))]
    {
      ReachableStep(View(), OnRun(r, PublishFanIn));
      runs := runs[r := runs[r].Publish(runs[r].fanIn.delta).(fanIn := Closed(runs[r].fanIn.on, runs[r].fanIn.seen))];
      assert jobs + [] == jobs;
    }

    /**
     The chord callback. The status is decided off the row's counters at the UPDATE; the
     message that follows is `done` exactly when that status is terminal.
     */
    method FinalizeRun(r: RunId, refreshFailed: bool, now: Time)
      requires Valid() && r in runs && RunEnabled(runs[r], FanInUpdate(refreshFailed, now))
      modifies this`runs
      ensures Valid() && r in runs && runs == old(runs)[r := runs[r]]
      ensures runs[r].fanIn.Closed? && runs[r].tasks == old(runs[r].tasks)
      ensures var row := runs[r].Row();
        && row == old(runs[r].Row()).(status := row.status, finished := row.finished)
        && (row.status.Failed? <==>
              refreshFailed || (runs[r].tasks != [] && forall t <- runs[r].tasks :: t.Returned? && t.failed))
        && (row.status.Rating? <==> !row.status.Failed? && (row.hasModel || env) && row.rated < row.inserted)
        && (row.status.Rating? || row.status.Completed? || row.status.Failed?)
        && row.finished == (if row.status.Rating? then None else Some(now))
        && exists delta: Msg :: runs[r].log == old(runs[r].log) + [delta] && delta.row == row
             && delta.kind == (if row.status.Rating? then ScrapeDone else Done)
             && delta.version == |runs[r].history| - 1
             && delta.rateTotal == Some(if row.hasModel || env then row.inserted else 0)
    {
      RowFacts(r);
      CommitFanIn(r, refreshFailed, now);
      ghost var delta := runs[r].fanIn.delta;
      TellFanIn(r);
      assert runs[r].log == old(runs[r].log) + [delta];
    }

    // --- rate_signal -------------------------------------------------------------------

    method DoJob(j: nat, step: JobStep)
      requires Valid() && j < |jobs| && JobEnabled(jobs[j], step) && !step.Announce? && !step.PublishRating?
      modifies this`jobs, this`ratings
      ensures Valid() && jobs == old(jobs)[j := JobApply(old(jobs)[j], old(ratings), None, step)]
      ensures ratings == if step.StoreRating? then old(ratings) + {old(jobs)[j].hash} else old(ratings)
    {
      JobFacts(j);
      ReachableStep(View(), OnJob(j, step));
      assert jobs[j].run.Some? ==> runs == runs[jobs[j].run.value := runs[jobs[j].run.value]];
      match step {
        case CheckRated => jobs :=
          jobs[j := jobs[j].(phase := if jobs[j].hash in ratings then Announcing else Probing)];
        case ProbeCache(hit) => jobs := jobs[j := jobs[j].(phase := if hit then Storing else Calling)];
        case CallModel(ok) =>
          var job := jobs[j];
          jobs := jobs[j :=
            if ok then job.(phase := Storing)
            else if job.retries < MAX_RETRIES then job.(phase := InQueue, retries := job.retries + 1)
            else job.(phase := Announcing)];
        case Die => jobs := jobs[j := jobs[j].(phase := Dead)];
        case StoreRating =>
          ratings := ratings + {jobs[j].hash};
          jobs := jobs[j := jobs[j].(phase := Announcing)];
      }
    }

    method CommitAnnounce(j: nat, now: Time)
      requires Valid() && j < |jobs| && jobs[j].phase.Announcing? && jobs[j].run.Some?
      modifies this`runs, this`jobs
      ensures Valid() && old(jobs)[j].run.value in old(runs)
      ensures var r := old(jobs)[j].run.value;
        var run := old(runs)[r];
        && jobs == old(jobs)[j := old(jobs)[j].(phase := Telling(AnnounceMsg(run, AnnounceRow(run.Row(), now))))]
        && runs == old(runs)[r := run.Write(AnnounceRow(run.Row(), now), ByAnnounce)]
    {
      JobFacts(j);
      ReachableStep(View(), OnJob(j, Announce(now)));
      var r := jobs[j].run.value;
      var run := runs[r];
      var row := run.Row().(rated := run.Row().rated + 1);
      if row.status.Rating? && row.rated >= row.inserted {
        row := row.(status := Completed, finished := Some(now));
      }
      jobs := jobs[j := jobs[j].(phase := Telling(AnnounceMsg(run, row)))];
      runs := runs[r := run.Write(row, ByAnnounce)];
    }

    method TellRating(j: nat)
      requires Valid() && j < |jobs| && jobs[j].phase.Telling? && jobs[j].run.Some?
      modifies this`runs, this`jobs
      ensures Valid() && old(jobs)[j].run.value in old(runs)
      ensures jobs == old(jobs)[j := old(jobs)[j].(phase := Ended)]
      ensures var r := old(jobs)[j].run.value; runs == old(runs)[r := old(runs)[r].Publish(old(jobs)[j].phase.delta)]
    {
      JobFacts(j);
      ReachableStep(View(), OnJob(j, PublishRating));
      var r, delta := jobs[j].run.value, jobs[j].phase.delta;
      jobs := jobs[j := jobs[j].(phase := Ended)];
      runs := runs[r := runs[r].Publish(delta)];
    }

    /** _announce_rating: a job without a run stays silent; any other bumps its run once and tells. */
    method AnnounceRating(j: nat, now: Time)
      requires Valid() && j < |jobs| && jobs[j].phase.Announcing?
      modifies this`runs, this`jobs
      ensures Valid() && jobs == old(jobs)[j := old(jobs[j]).(phase := Ended)]
      ensures old(jobs[j]).run.None? ==> runs == old(runs)
      ensures old(jobs[j]).run.Some? ==>
        var r := old(jobs[j]).run.value;
        && r in old(runs) && r in runs && runs == old(runs)[r := runs[r]]
        && runs[r].tasks == old(runs)[r].tasks && runs[r].fanIn == old(runs)[r].fanIn
        && var row, last := old(runs)[r].Row(),
             old(runs)[r].Row().status.Rating? && old(runs)[r].Row().rated + 1 == old(runs)[r].Row().inserted;
        && runs[r].Row() == row.(rated := row.rated + 1, status := if last then Completed else row.status,
                                 finished := if last then Some(now) else row.finished)
        && runs[r].log == old(runs)[r].log + [Msg(if last || row.status.Completed? then Done else RatingDelta,
                                                  |runs[r].history| - 1, runs[r].Row(), Some(row.inserted))]
    {
      JobFacts(j);
      if jobs[j].run.None? {
        ReachableStep(View(), OnJob(j, Announce(now)));
        jobs := jobs[j := jobs[j].(phase := Ended)];
        return;
      }
      CommitAnnounce(j, now);
      TellRating(j);
    }

    /** A delivery of an unrated hash, from the lookup's answer to its announcement. */
    method RateAfterLookup(j: nat, found: bool, model: string, keys: set<string>, ok: bool)
      requires Valid() && j < |jobs| && jobs[j].phase.Probing?
      modifies this`jobs, this`ratings
      ensures Valid() && j < |jobs| == |old(jobs)|
        && jobs == old(jobs)[j := old(jobs)[j].(phase := jobs[j].phase, retries := jobs[j].retries)]
      ensures old(ratings) <= ratings <= old(ratings) + {jobs[j].hash}
      ensures jobs[j].phase.InQueue? <==>
        !found && RatingCache.Resolves(model, keys) && !ok && old(jobs)[j].retries < MAX_RETRIES
      ensures jobs[j].retries == old(jobs)[j].retries + if jobs[j].phase.InQueue? then 1 else 0
      ensures jobs[j].phase.Dead? <==> !found && !RatingCache.Resolves(model, keys)
      ensures !jobs[j].phase.InQueue? && !jobs[j].phase.Dead? ==>
        jobs[j].phase.Announcing? && ratings == old(ratings) + if ok || found then {jobs[j].hash} else {}
      ensures jobs[j].phase.InQueue? || jobs[j].phase.Dead? ==> ratings == old(ratings)
    {
      DoJob(j, ProbeCache(found));
      if jobs[j].phase.Calling? {
        if !RatingCache.Resolves(model, keys) {
          DoJob(j, Die);
          return;
        }
        DoJob(j, CallModel(ok));
      }
      if jobs[j].phase.Storing? {
        DoJob(j, StoreRating);
      }
    }

    /**
     A delivery up to its announcement, which only a RatingError with retries left puts off, and only a
     name that does not resolve here prevents. `embedder` is EMBEDDING_MODEL; `stored` says whether the
     hash has an embedding already, `hit` whether the lookup then finds a neighbour near enough.
     */
    method RateOnce(j: nat, model: string, embedder: Option<string>, keys: set<string>, stored: bool, hit: bool,
                    ok: bool)
      requires Valid() && j < |jobs| && jobs[j].phase.InQueue?
      modifies this`jobs, this`ratings
      ensures Valid() && j < |jobs| == |old(jobs)|
        && jobs == old(jobs)[j := old(jobs)[j].(phase := jobs[j].phase, retries := jobs[j].retries)]
      ensures jobs[j].phase.InQueue? <==>
        && old(jobs[j]).hash !in old(ratings) && !Raises(model, embedder, keys, stored, hit)
        && !(embedder.Some? && hit) && !ok && old(jobs)[j].retries < MAX_RETRIES
      ensures jobs[j].retries == old(jobs)[j].retries + if jobs[j].phase.InQueue? then 1 else 0
      ensures jobs[j].phase.Dead? <==>
        old(jobs[j]).hash !in old(ratings) && Raises(model, embedder, keys, stored, hit)
      ensures !jobs[j].phase.InQueue? && !jobs[j].phase.Dead? ==> jobs[j].phase.Announcing?
      ensures ratings == old(ratings)
        + if jobs[j].phase.Announcing? && (ok || (embedder.Some? && hit)) then {jobs[j].hash} else {}
    {
      DoJob(j, CheckRated);
      if !jobs[j].phase.Probing? {
        return;
      }
      if RatingCache.LookupRaises(embedder, stored, keys) {
        DoJob(j, Die);
        return;
      }
      RateAfterLookup(j, embedder.Some? && hit, model, keys, ok);
    }

    /** A name an unrated hash meets does not resolve: the embedder's in the lookup, or the model's after a miss. */
    static predicate Raises(model: string, embedder: Option<string>, keys: set<string>, stored: bool, hit: bool) {
      || RatingCache.LookupRaises(embedder, stored, keys)
      || (!(embedder.Some? && hit) && !RatingCache.Resolves(model, keys))
    }

    /**
     One delivery of the job: it ends, announced, or a RatingError put it back with one more retry, or a
     name does not resolve and it dies, counted nowhere.
     */
    method RateSignal(j: nat, model: string, embedder: Option<string>, keys: set<string>, stored: bool, hit: bool,
                      ok: bool, now: Time)
      requires Valid() && j < |jobs| && jobs[j].phase.InQueue?
      modifies this`runs, this`jobs, this`ratings
      ensures Valid() && |jobs| == |old(jobs)| && old(runs).Keys == runs.Keys
      ensures forall k :: 0 <= k < |jobs| && k != j ==> jobs[k] == old(jobs)[k]
      ensures jobs[j].run == old(jobs[j]).run && jobs[j].hash == old(jobs[j]).hash
      ensures jobs[j].phase.InQueue? <==>
        && old(jobs[j]).hash !in old(ratings) && !Raises(model, embedder, keys, stored, hit)
        && !(embedder.Some? && hit) && !ok && old(jobs[j]).retries < MAX_RETRIES
      ensures jobs[j].retries == old(jobs[j]).retries + if jobs[j].phase.InQueue? then 1 else 0
      ensures jobs[j].phase.Dead? <==>
        old(jobs[j]).hash !in old(ratings) && Raises(model, embedder, keys, stored, hit)
      ensures jobs[j].phase.InQueue? || jobs[j].phase.Dead? ==> runs == old(runs)
      ensures !jobs[j].phase.InQueue? && !jobs[j].phase.Dead? ==>
        jobs[j].phase.Ended? && BumpedOnce(jobs[j].run, old(runs), runs)
      ensures ratings == old(ratings)
        + if jobs[j].phase.Ended? && (ok || (embedder.Some? && hit)) then {jobs[j].hash} else {}
    {
      RateOnce(j, model, embedder, keys, stored, hit, ok);
      if !jobs[j].phase.Announcing? {
        return;
      }
      AnnounceRating(j, now);
    }

    /** The run's rated_count moved by exactly one and no other run changed. */
    static predicate BumpedOnce(run: Option<RunId>, before: map<RunId, Run>, after: map<RunId, Run>) {
      if run.None? then after == before
      else
        && run.value in before && run.value in after && after == before[run.value := after[run.value]]
        && before[run.value].history != [] && after[run.value].history != []
        && after[run.value].Row().rated == before[run.value].Row().rated + 1
    }

    /** The lookup finds a rating, or the model gives one. */
    static predicate Rates(embedder: Option<string>, outcome: (bool, bool)) {
      (embedder.Some? && outcome.0) || outcome.1
    }

    /**
     What n deliveries came to, for a hash that was `known` before: whether the job has `ended` and whether
     the hash is `rated` now.
     */
    static predicate Delivered(embedder: Option<string>, outcomes: nat -> (bool, bool), n: nat, known: bool,
                               ended: bool, rated: bool)
    {
      && 1 <= n <= 4 && (known ==> n == 1)
      && (forall k :: 0 <= k < n - 1 ==> !Rates(embedder, outcomes(k)))
      && (rated <==> known || Rates(embedder, outcomes(n - 1)))
      && (ended <==> rated || n == 4)
    }

    static lemma NextDelivery(embedder: Option<string>, outcomes: nat -> (bool, bool), n: nat, known: bool, rated: bool)
      requires n < 4 && Delivered(embedder, outcomes, n, known, false, false)
      requires rated <==> Rates(embedder, outcomes(n))
      ensures Delivered(embedder, outcomes, n + 1, known, rated || n == 3, rated)
    {
    }

    /** A delivery that no name can end. */
    method Deliver(j: nat, model: string, embedder: Option<string>, keys: set<string>, stored: bool,
                   outcome: (bool, bool), now: Time)
      requires Valid() && j < |jobs| && jobs[j].phase.InQueue?
      requires RatingCache.Resolves(model, keys) && !RatingCache.LookupRaises(embedder, stored, keys)
      modifies this`runs, this`jobs, this`ratings
      ensures Valid() && j < |jobs| && jobs[j].run == old(jobs[j]).run && jobs[j].hash == old(jobs[j]).hash
      ensures jobs[j].hash in ratings <==> old(jobs[j].hash in ratings) || Rates(embedder, outcome)
      ensures jobs[j].phase.InQueue? <==> jobs[j].hash !in ratings && old(jobs[j]).retries < 3
      ensures jobs[j].phase.InQueue? ==> runs == old(runs) && jobs[j].retries == old(jobs[j]).retries + 1
      ensures !jobs[j].phase.InQueue? ==> jobs[j].phase.Ended? && BumpedOnce(jobs[j].run, old(runs), runs)
    {
      RateSignal(j, model, embedder, keys, stored, outcome.0, outcome.1, now);
    }

    /**
     All deliveries of one job whose model's name resolves and whose lookups do not raise. Whatever each
     delivery meets, the first that finds or gets a rating, or else the fourth, ends the job, and it has
     counted towards its run exactly once.
     */
    method RateUntilCounted(j: nat, model: string, embedder: Option<string>, keys: set<string>, stored: bool,
                            outcomes: nat -> (bool, bool), now: Time)
      returns (deliveries: nat)
      requires Valid() && j < |jobs| && jobs[j].phase.InQueue? && jobs[j].retries == 0
      requires RatingCache.Resolves(model, keys) && !RatingCache.LookupRaises(embedder, stored, keys)
      modifies this`runs, this`jobs, this`ratings
      ensures Valid() && j < |jobs| && jobs[j].phase.Ended?
      ensures jobs[j].run == old(jobs[j]).run && BumpedOnce(jobs[j].run, old(runs), runs)
      ensures Delivered(embedder, outcomes, deliveries, old(jobs[j].hash in ratings), true,
                        old(jobs[j]).hash in ratings)
    {
      ghost var job, known, before := jobs[j], jobs[j].hash in ratings, runs;
      Deliver(j, model, embedder, keys, stored, outcomes(0), now);
      deliveries := 1;
      while jobs[j].phase.InQueue?
        invariant Valid() && j < |jobs| && jobs[j].run == job.run && jobs[j].hash == job.hash
        invariant Delivered(embedder, outcomes, deliveries, known, !jobs[j].phase.InQueue?, job.hash in ratings)
        invariant jobs[j].phase.InQueue? ==> runs == before && jobs[j].retries == deliveries && job.hash !in ratings
        invariant !jobs[j].phase.InQueue? ==> jobs[j].phase.Ended? && BumpedOnce(job.run, before, runs)
        decreases 4 - deliveries
      {
        Deliver(j, model, embedder, keys, stored, outcomes(deliveries), now);
        NextDelivery(embedder, outcomes, deliveries, known, job.hash in ratings);
        deliveries := deliveries + 1;
      }
    }

    // --- sweep_unrated -------------------------------------------------------------------

    /** The beat sweep: disabled without RATING_MODEL, else one job per hash, none tagged with a run, no run touched. */
    method SweepUnrated(hashes: seq<Hash>) returns (enqueued: Option<nat>)
      requires Valid()
      modifies this`jobs
      ensures Valid() && (enqueued.None? <==> !env)
      ensures enqueued.None? ==> jobs == old(jobs)
      ensures enqueued.Some? ==> enqueued.value == |hashes| && jobs == old(jobs) + SweepJobs(hashes)
    {
      if !env {
        return None;
      }
      ghost var all := SweepJobs(hashes);
      for k := 0 to |hashes|
        invariant Valid() && jobs == old(jobs) + all[..k]
      {
        ReachableStep(View(), SweepEnqueue(hashes[k]));
        jobs := jobs + [Job(None, hashes[k], 0, InQueue)];
        assert all[..k + 1] == all[..k] + [all[k]];
      }
      assert all[..|hashes|] == all;
      enqueued := Some(|hashes|);
    }

    /** A sweep's jobs, in order. */
    static function SweepJobs(hashes: seq<Hash>): (s: seq<Job>)
      ensures |s| == |hashes| && forall k :: 0 <= k < |s| ==> s[k] == Job(None, hashes[k], 0, InQueue)
    {
      seq(|hashes|, k requires 0 <= k < |hashes| => Job(None, hashes[k], 0, InQueue))
    }
  }
}
