/**
 The fan-out / fan-in job graph of one scrape run, as a state machine.

 Every action below is one atomic step of some process: one SQL commit, one enqueue, one
 publish, or one broker delivery. Any interleaving of enabled actions is a schedule. The
 processes are the API handler that creates a run, the dispatcher, N scrape tasks, the chord
 callback, the rating jobs of all runs, and the beat sweep (whose rating jobs carry no run).
 */
module RunProtocol {
  import opened Common

  type RunId = nat
  type Hash = nat
  type Time = nat

  const MAX_RETRIES: nat := 3

  // --- the runs row -----------------------------------------------------------

  datatype Status = Queued | Running | Rating | Completed | Failed

  datatype RunRow = RunRow(
    status: Status,
    total: nat,
    done: nat,
    inserted: nat,
    rated: nat,
    hasModel: bool,
    started: Option<Time>,
    finished: Option<Time>)

  predicate Terminal(status: Status) {
    status.Completed? || status.Failed?
  }

  /** First touch by a scrape task: queued -> running, started_at stamped once. */
  function FlipRow(row: RunRow, now: Time): RunRow {
    row.(status := if row.status.Queued? then Running else row.status,
         started := if row.started.None? then Some(now) else row.started)
  }

  function CountRow(row: RunRow, newItems: nat): RunRow {
    row.(done := row.done + 1, inserted := row.inserted + newItems)
  }

  predicate StillDraining(row: RunRow, env: bool) {
    (row.hasModel || env) && row.inserted > 0 && row.rated < row.inserted
  }

  /** The fan-in UPDATE: the status is decided off the row's current counters. */
  function FanInRow(row: RunRow, failed: bool, env: bool, now: Time): RunRow {
    row.(status := if failed then Failed else if StillDraining(row, env) then Rating else Completed,
         finished := if !failed && StillDraining(row, env) then row.finished else Some(now))
  }

  /** The announce UPDATE: bump, and flip rating -> completed when the bump is the last one. */
  function AnnounceRow(row: RunRow, now: Time): RunRow {
    var last := row.status.Rating? && row.rated + 1 >= row.inserted;
    row.(rated := row.rated + 1,
         status := if last then Completed else row.status,
         finished := if last then Some(now) else row.finished)
  }

  // --- committed row versions and published deltas ------------------------------

  datatype Cause = ByCreate | BySize | ByFlip | ByCount | ByFanIn | ByAnnounce

  datatype Commit = Commit(row: RunRow, cause: Cause)

  /** Which commits are followed by a publish on the run's channel. */
  predicate HasDelta(cause: Cause) {
    cause.ByCount? || cause.ByFanIn? || cause.ByAnnounce?
  }

  datatype Kind = Progress | ScrapeDone | RatingDelta | Done

  /** `version` is the position of the commit whose RETURNING values the message carries. */
  datatype Msg = Msg(kind: Kind, version: nat, row: RunRow, rateTotal: Option<nat>)

  function FanInKind(row: RunRow): Kind {
    if Terminal(row.status) then Done else ScrapeDone
  }

  function AnnounceKind(row: RunRow): Kind {
    if row.status.Completed? then Done else RatingDelta
  }

  // --- the processes ------------------------------------------------------------

  datatype Dispatch = Requested | Sized(n: nat) | Launched

  /** `rate` is what the task read about the rating layer: None until it has looked. */
  datatype Task =
    | Waiting
    | Scraping
    | Counted(items: seq<Hash>, next: nat, rate: Option<bool>, delta: Msg, failed: bool)
    | Returned(count: nat, rated: bool, failed: bool)

  /** `on` and `seen` are what the fan-in found: whether rating was on, and the rated_count of its UPDATE. */
  datatype FanIn = Open | Decided(on: bool, seen: nat, delta: Msg) | Closed(on: bool, seen: nat)

  /** `Dead` is a job that an exception ended before it could count. */
  datatype JobPhase = InQueue | Probing | Calling | Storing | Announcing | Telling(delta: Msg) | Ended | Dead

  datatype Job = Job(run: Option<RunId>, hash: Hash, retries: nat, phase: JobPhase)

  datatype Run = Run(history: seq<Commit>, dispatch: Dispatch, tasks: seq<Task>, fanIn: FanIn, log: seq<Msg>)
  {
    function Row(): RunRow
      requires history != []
    {
      history[|history| - 1].row
    }

    function Write(row: RunRow, cause: Cause): Run {
      this.(history := history + [Commit(row, cause)])
    }

    function WithTask(i: nat, t: Task): Run
      requires i < |tasks|
    {
      this.(tasks := tasks[i := t])
    }

    function Publish(m: Msg): Run {
      this.(log := log + [m])
    }
  }

  /**
   `env` says whether RATING_MODEL is set, for now. `ratings` holds the hashes that have a row in
   signal_ratings. Finished jobs stay in `jobs`, ended or dead.
   */
  datatype State = State(env: bool, runs: map<RunId, Run>, jobs: seq<Job>, ratings: set<Hash>)

  function NewRun(total: nat, hasModel: bool): Run {
    Run([Commit(RunRow(Queued, total, 0, 0, 0, hasModel, None, None), ByCreate)], Requested, [], Open, [])
  }

  /** Rating is on for a run when its row carries a model or the worker has a default one now. */
  predicate RatingOn(env: bool, run: Run)
    requires run.history != []
  {
    run.Row().hasModel || env
  }

  /** Every scrape failed, and there was at least one. */
  predicate AllFailed(tasks: seq<Task>) {
    tasks != [] && forall t <- tasks :: t.Returned? && t.failed
  }

  // --- steps of one run's own processes -------------------------------------------

  datatype Scrape = Scraped(items: seq<Hash>) | ScrapeError

  datatype RunStep =
    | CommitTotal(n: nat)                            // dispatch_run: true up the total
    | LaunchChord                                    // dispatch_run: enqueue the header tasks
    | FlipRunning(i: nat, now: Time)                 // scrape task i: first commit
    | CommitCount(i: nat, outcome: Scrape)           // scrape task i: second commit
    | ReadModel(i: nat)                              // scrape task i: model or default_model()
    | EnqueueRating(i: nat)                          // scrape task i: one rate_signal.delay
    | PublishProgress(i: nat)                        // scrape task i: publish and return
    | FanInUpdate(refreshFailed: bool, now: Time)    // finalize_run: the UPDATE
    | PublishFanIn                                   // finalize_run: publish and return

  /** A counted scrape task knows that it has nothing left to enqueue. */
  predicate EnqueueDone(t: Task)
    requires t.Counted?
  {
    t.rate == Some(false) || (t.rate == Some(true) && t.next >= |t.items|)
  }

  predicate RunEnabled(run: Run, step: RunStep) {
    && run.history != []
    && match step
       case CommitTotal(n) => run.dispatch.Requested?
       case LaunchChord => run.dispatch.Sized?
       case FlipRunning(i, now) => i < |run.tasks| && run.tasks[i].Waiting?
       case CommitCount(i, outcome) => i < |run.tasks| && run.tasks[i].Scraping?
       case ReadModel(i) => i < |run.tasks| && run.tasks[i].Counted? && run.tasks[i].rate.None?
       case EnqueueRating(i) =>
         i < |run.tasks| && run.tasks[i].Counted? && run.tasks[i].rate == Some(true) && !EnqueueDone(run.tasks[i])
       case PublishProgress(i) => i < |run.tasks| && run.tasks[i].Counted? && EnqueueDone(run.tasks[i])
       case FanInUpdate(refreshFailed, now) =>
         run.dispatch.Launched? && run.fanIn.Open? && forall t <- run.tasks :: t.Returned?
       case PublishFanIn => run.fanIn.Decided?
  }

  /** The progress delta of a count commit: it echoes the RETURNING values. */
  function ProgressMsg(run: Run, row: RunRow): Msg {
    Msg(Progress, |run.history|, row, None)
  }

  function FanInMsg(run: Run, row: RunRow, env: bool): Msg {
    Msg(FanInKind(row), |run.history|, row, Some(if row.hasModel || env then row.inserted else 0))
  }

  function AnnounceMsg(run: Run, row: RunRow): Msg {
    Msg(AnnounceKind(row), |run.history|, row, Some(row.inserted))
  }

  /** A scrape that raised counts as done and brings no items. */
  function ItemsFrom(outcome: Scrape): seq<Hash> {
    if outcome.Scraped? then outcome.items else []
  }

  function CountRun(run: Run, i: nat, outcome: Scrape): Run
    requires run.history != [] && i < |run.tasks|
  {
    var items := ItemsFrom(outcome);
    var row := CountRow(run.Row(), |items|);
    run.Write(row, ByCount).WithTask(i, Counted(items, 0, None, ProgressMsg(run, row), outcome.ScrapeError?))
  }

  function FanInRun(run: Run, refreshFailed: bool, env: bool, now: Time): Run
    requires run.history != []
  {
    var row := FanInRow(run.Row(), AllFailed(run.tasks) || refreshFailed, env, now);
    run.Write(row, ByFanIn).(fanIn := Decided(RatingOn(env, run), row.rated, FanInMsg(run, row, env)))
  }

  /** The delta is out and the task has returned. */
  function Told(run: Run, i: nat): Run
    requires i < |run.tasks| && run.tasks[i].Counted?
  {
    var t := run.tasks[i];
    run.Publish(t.delta).WithTask(i, Returned(|t.items|, t.rate == Some(true), t.failed))
  }

  function RunApply(env: bool, run: Run, step: RunStep): Run
    requires RunEnabled(run, step)
  {
    match step
    case CommitTotal(n) => run.Write(run.Row().(total := n), BySize).(dispatch := Sized(n))
    case LaunchChord => run.(dispatch := Launched, tasks := seq(run.dispatch.n, _ => Waiting))
    case FlipRunning(i, now) => run.Write(FlipRow(run.Row(), now), ByFlip).WithTask(i, Scraping)
    case CommitCount(i, outcome) => CountRun(run, i, outcome)
    case ReadModel(i) => run.WithTask(i, run.tasks[i].(rate := Some(RatingOn(env, run))))
    case EnqueueRating(i) => run.WithTask(i, run.tasks[i].(next := run.tasks[i].next + 1))
    case PublishProgress(i) => Told(run, i)
    case FanInUpdate(refreshFailed, now) => FanInRun(run, refreshFailed, env, now)
    case PublishFanIn => run.Publish(run.fanIn.delta).(fanIn := Closed(run.fanIn.on, run.fanIn.seen))
  }

  /** The rating job a step of run `r` puts on the queue, if it is an enqueue. */
  function Spawned(r: RunId, run: Run, step: RunStep): seq<Job>
    requires RunEnabled(run, step)
  {
    if step.EnqueueRating? then [Job(Some(r), run.tasks[step.i].items[run.tasks[step.i].next], 0, InQueue)] else []
  }

  /** The job takes no more steps. */
  predicate Over(job: Job) {
    job.phase.Ended? || job.phase.Dead?
  }

  // --- steps of one rating job ------------------------------------------------------

  datatype JobStep =
    | CheckRated              // is there a rating for this hash already?
    | ProbeCache(hit: bool)   // semantic cache lookup
    | CallModel(ok: bool)     // rate_caption returns or raises RatingError
    | Die                     // the lookup or rate_caption raises: a model's name does not resolve here
    | StoreRating             // insert_rating and commit
    | Announce(now: Time)     // _announce_rating: the UPDATE
    | PublishRating           // _announce_rating: publish

  predicate JobEnabled(job: Job, step: JobStep) {
    match step
    case CheckRated => job.phase.InQueue?
    case ProbeCache(hit) => job.phase.Probing?
    case CallModel(ok) => job.phase.Calling?
    case Die => job.phase.Probing? || job.phase.Calling?
    case StoreRating => job.phase.Storing?
    case Announce(now) => job.phase.Announcing?
    case PublishRating => job.phase.Telling?
  }

  /** One attempt's end: success stores; a RatingError retries while attempts are left, then gives up. */
  function AfterCall(job: Job, ok: bool): Job {
    if ok then job.(phase := Storing)
    else if job.retries >= MAX_RETRIES then job.(phase := Announcing)
    else job.(phase := InQueue, retries := job.retries + 1)
  }

  /** The job after its step; `run` is the run it reports to. */
  function JobApply(job: Job, ratings: set<Hash>, run: Option<Run>, step: JobStep): Job
    requires JobEnabled(job, step) && (run.Some? ==> run.value.history != [])
  {
    match step
    case CheckRated => job.(phase := if job.hash in ratings then Announcing else Probing)
    case ProbeCache(hit) => job.(phase := if hit then Storing else Calling)
    case CallModel(ok) => AfterCall(job, ok)
    case Die => job.(phase := Dead)
    case StoreRating => job.(phase := Announcing)
    case Announce(now) =>
      job.(phase := if run.None? then Ended
                    else Telling(AnnounceMsg(run.value, AnnounceRow(run.value.Row(), now))))
    case PublishRating => job.(phase := Ended)
  }

  /** What a rating job's step does to the run it reports to. */
  function RunAfterJob(run: Run, job: Job, step: JobStep): Run
    requires JobEnabled(job, step) && run.history != []
  {
    match step
    case Announce(now) => run.Write(AnnounceRow(run.Row(), now), ByAnnounce)
    case PublishRating => run.Publish(job.phase.delta)
    case _ => run
  }

  // --- the whole system ---------------------------------------------------------------

  datatype Action =
    | CreateRun(r: RunId, total: nat, hasModel: bool)   // create_run
    | OnRun(r: RunId, step: RunStep)
    | OnJob(j: nat, jobStep: JobStep)
    | SweepEnqueue(hash: Hash)                          // sweep_unrated: one rate_signal.delay without a run
    | SetEnv(on: bool)                                  // the worker's environment gains or loses RATING_MODEL

  /** The run an action belongs to; sweep work belongs to none. */
  function RunOf(s: State, a: Action): Option<RunId> {
    match a
    case CreateRun(r, _, _) => Some(r)
    case OnRun(r, _) => Some(r)
    case OnJob(j, _) => if j < |s.jobs| then s.jobs[j].run else None
    case SweepEnqueue(_) => None
    case SetEnv(_) => None
  }

  predicate HasRow(s: State, r: RunId) {
    r in s.runs && s.runs[r].history != []
  }

  predicate Enabled(s: State, a: Action) {
    match a
    case CreateRun(r, total, hasModel) => r !in s.runs
    case OnRun(r, step) => r in s.runs && RunEnabled(s.runs[r], step)
    case OnJob(j, step) =>
      j < |s.jobs| && JobEnabled(s.jobs[j], step) && (s.jobs[j].run.Some? ==> HasRow(s, s.jobs[j].run.value))
    case SweepEnqueue(hash) => true     // the sweep read the variable when it began
    case SetEnv(_) => true
  }

  function Apply(s: State, a: Action): State
    requires Enabled(s, a)
  {
    match a
    case CreateRun(r, total, hasModel) => s.(runs := s.runs[r := NewRun(total, hasModel)])
    case OnRun(r, step) =>
      s.(runs := s.runs[r := RunApply(s.env, s.runs[r], step)],
         jobs := s.jobs + Spawned(r, s.runs[r], step))
    case OnJob(j, step) =>
      var job := s.jobs[j];
      var run := if job.run.Some? then Some(s.runs[job.run.value]) else None;
      s.(jobs := s.jobs[j := JobApply(job, s.ratings, run, step)],
         runs := if job.run.Some? then s.runs[job.run.value := RunAfterJob(run.value, job, step)] else s.runs,
         ratings := if step.StoreRating? then s.ratings + {job.hash} else s.ratings)
    case SweepEnqueue(hash) => s.(jobs := s.jobs + [Job(None, hash, 0, InQueue)])
    case SetEnv(on) => s.(env := on)
  }

  function Init(env: bool, ratings: set<Hash>): State {
    State(env, map[], [], ratings)
  }

  // --- executions -------------------------------------------------------------------

  /** A finite schedule: `states[k + 1]` is `states[k]` after `acts[k]`. */
  ghost predicate Execution(states: seq<State>, acts: seq<Action>) {
    && |states| == |acts| + 1
    && (exists env, ratings :: states[0] == Init(env, ratings))
    && forall k :: 0 <= k < |acts| ==> Enabled(states[k], acts[k]) && states[k + 1] == Apply(states[k], acts[k])
  }

  /** An infinite schedule, starting anywhere. */
  ghost predicate Schedule(f: nat -> State, act: nat -> Action) {
    forall k: nat :: Enabled(f(k), act(k)) && f(k + 1) == Apply(f(k), act(k))
  }

  // --- weights for counting ---------------------------------------------------------

  function CountedOne(t: Task): nat { if t.Counted? || t.Returned? then 1 else 0 }

  function ItemsOf(t: Task): nat {
    match t case Counted(items, _, _, _, _) => |items| case Returned(k, _, _) => k case _ => 0
  }

  function EnqueuedOf(t: Task): nat {
    match t case Counted(_, next, _, _, _) => next case Returned(k, rated, _) => (if rated then k else 0) case _ => 0
  }

  /** The jobs of a run that have counted or still can. */
  function OfRun(r: RunId): Job -> nat {
    (job: Job) => if job.run == Some(r) && !job.phase.Dead? then 1 else 0
  }

  function DeadIn(r: RunId): Job -> nat {
    (job: Job) => if job.run == Some(r) && job.phase.Dead? then 1 else 0
  }

  function AnnouncedIn(r: RunId): Job -> nat {
    (job: Job) => if job.run == Some(r) && (job.phase.Telling? || job.phase.Ended?) then 1 else 0
  }

  function InLog(p: Msg -> bool): Msg -> nat {
    (m: Msg) => if p(m) then 1 else 0
  }

  function HeldByTask(p: Msg -> bool): Task -> nat {
    (t: Task) => if t.Counted? && p(t.delta) then 1 else 0
  }

  function HeldByJob(r: RunId, p: Msg -> bool): Job -> nat {
    (job: Job) => if job.run == Some(r) && job.phase.Telling? && p(job.phase.delta) then 1 else 0
  }

  /** How many messages satisfying `p` the run has published or is about to publish. */
  function Issued(r: RunId, run: Run, jobs: seq<Job>, p: Msg -> bool): nat {
    Sum(run.log, InLog(p)) + Sum(run.tasks, HeldByTask(p)) + Sum(jobs, HeldByJob(r, p))
    + (if run.fanIn.Decided? && p(run.fanIn.delta) then 1 else 0)
  }

  const IsDone: Msg -> bool := (m: Msg) => m.kind.Done?

  function AtVersion(c: nat): Msg -> bool {
    (m: Msg) => m.version == c
  }
}
