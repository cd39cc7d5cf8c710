/**
 The scrape watermark over overlapping, failing and late runs, for one influencer (each has rows and a
 watermark of its own).

 Times are microseconds. A post appears at a moment and is stamped with that moment's whole second, so
 its stamp may lie before a watermark taken earlier in the same second. What a fetch brings back is
 decided by the stamps; what must not be missed is decided by the moments.
 */
module Watermark {
  import opened Common
  import opened Scrape

  const SECOND := 1_000_000

  /** strftime with whole seconds drops the fraction; so does the platform's stamp. */
  function Floor(t: int): int {
    t - t % SECOND
  }

  /** A post and the moment it appeared. */
  datatype Publication = Publication(post: Post, moment: int)

  /**
   What the fetch makes of a watermark: posts stamped with its whole second or later, with a later second
   only, or, if the watermark were sent as it is, not before that very moment.
   */
  datatype Filter = FromSecond | AfterSecond | FromMoment

  predicate Passes(f: Filter, watermark: int, stamp: int) {
    match f
    case FromSecond => stamp >= Floor(watermark)
    case AfterSecond => stamp > Floor(watermark)
    case FromMoment => stamp >= watermark
  }

  /** `limit` is the most posts a fetch brings back. */
  datatype Config = Config(influencer: nat, partitions: seq<Partition>, filter: Filter, limit: nat)

  /** A run's scrape task: what it fetched, until it stored that, then advanced the watermark. */
  datatype Phase = Starting | Dispatched | Fetched(posts: seq<Post>) | Stored | Done | Failed
  datatype Task = Task(start: int, seen: Option<int>, phase: Phase)
  datatype State = State(now: int, world: set<Publication>, stored: set<Row>, watermark: Option<int>, tasks: seq<Task>)

  datatype Action =
    | Publish(pub: Publication)
    | Pass(time: int)
    | Begin
    | ReadWatermark(task: nat)
    | Fetch(task: nat, posts: seq<Post>)
    | Store(task: nat)
    | Advance(task: nat)
    | Fail(task: nat)

  predicate Reading(s: State, i: nat, phase: Phase) {
    i < |s.tasks| && s.tasks[i].phase == phase
  }

  predicate Published(s: State, p: Post) {
    exists pub <- s.world :: pub.post == p
  }

  /** Every published post that the filter lets pass comes back. */
  predicate Complete(s: State, w: int, posts: seq<Post>, c: Config) {
    forall pub <- s.world :: Dated(pub.post) && Passes(c.filter, w, pub.post.timestamp.value) ==> pub.post in posts
  }

  /**
   Only published posts come back: with no watermark just the newest, else those the filter lets pass, and
   all of them unless the limit is reached.
   */
  predicate Fetchable(s: State, seen: Option<int>, posts: seq<Post>, c: Config) {
    && (forall p <- posts :: Dated(p) ==> Published(s, p))
    && match seen
       case None => |posts| <= 1
       case Some(w) =>
         && |posts| <= c.limit
         && (forall p <- posts :: Dated(p) ==> Passes(c.filter, w, p.timestamp.value))
         && (|posts| < c.limit ==> Complete(s, w, posts, c))
  }

  predicate Enabled(s: State, a: Action, c: Config) {
    match a
    case Publish(pub) => pub.post.timestamp == Some(Floor(pub.moment)) && pub.moment >= s.now
    case Pass(t) => t >= s.now
    case Begin => true
    case ReadWatermark(i) => Reading(s, i, Starting)
    case Fetch(i, posts) => Reading(s, i, Dispatched) && Fetchable(s, s.tasks[i].seen, posts, c)
    case Store(i) => i < |s.tasks| && s.tasks[i].phase.Fetched?
    case Advance(i) => Reading(s, i, Stored)
    case Fail(i) => i < |s.tasks| && !s.tasks[i].phase.Done? && !s.tasks[i].phase.Failed?
  }

  function SetPhase(s: State, i: nat, phase: Phase): State
    requires i < |s.tasks|
  {
    s.(tasks := s.tasks[i := s.tasks[i].(phase := phase)])
  }

  function Apply(s: State, a: Action, c: Config): State
    requires Enabled(s, a, c)
  {
    match a
    case Publish(pub) => s.(world := s.world + {pub}, now := pub.moment)
    case Pass(t) => s.(now := t)
    case Begin => s.(tasks := s.tasks + [Task(s.now, None, Starting)])
    case ReadWatermark(i) => s.(tasks := s.tasks[i := s.tasks[i].(seen := s.watermark, phase := Dispatched)])
    case Fetch(i, posts) => SetPhase(s, i, Fetched(posts))
    case Store(i) =>
      var batch := Batch(s.tasks[i].phase.posts, c.influencer, s.stored, c.partitions);
      SetPhase(s, i, Stored).(stored := s.stored + batch.pending)
    case Advance(i) => SetPhase(s, i, Done).(watermark := Some(s.tasks[i].start))
    case Fail(i) => SetPhase(s, i, Failed)
  }

  function Init(now: int): State {
    State(now, {}, {}, None, [])
  }

  /** The limit keeps nothing back, and the batch's rollback loses nothing. */
  predicate Sound(s: State, a: Action, c: Config)
    requires Enabled(s, a, c)
  {
    match a
    case Fetch(i, posts) => s.tasks[i].seen.Some? ==> Complete(s, s.tasks[i].seen.value, posts, c)
    case Store(i) => NothingCutOff(s.tasks[i].phase.posts, c.influencer, s.stored, c.partitions)
    case _ => true
  }

  ghost predicate Execution(run: seq<State>, actions: seq<Action>, c: Config) {
    && |run| == |actions| + 1 && run[0] == Init(run[0].now)
    && forall k :: 0 <= k < |actions| ==> Enabled(run[k], actions[k], c) && run[k + 1] == Apply(run[k], actions[k], c)
  }

  ghost predicate SoundExecution(run: seq<State>, actions: seq<Action>, c: Config) {
    Execution(run, actions, c) && forall k :: 0 <= k < |actions| ==> Sound(run[k], actions[k], c)
  }

  // --- coverage ------------------------------------------------------------------------------

  predicate IsDone(s: State, j: nat) {
    j < |s.tasks| && s.tasks[j].phase == Done
  }

  /** Before the start of some run that advanced the watermark. */
  ghost predicate Reached(s: State, t: int) {
    exists j: nat :: IsDone(s, j) && t < s.tasks[j].start
  }

  /** Not before the start of any such run that had no watermark to go by. */
  ghost predicate AfterFirst(s: State, t: int) {
    forall j: nat :: IsDone(s, j) && s.tasks[j].seen.None? ==> s.tasks[j].start <= t
  }

  /** A value the watermark has had. */
  ghost predicate WasWatermark(s: State, w: int) {
    exists j: nat :: IsDone(s, j) && s.tasks[j].start == w
  }

  /** No watermark taken by the time the post appeared would filter it out by its stamp. */
  ghost predicate LetPass(s: State, pub: Publication, c: Config)
    requires Dated(pub.post)
  {
    forall w :: WasWatermark(s, w) && w <= pub.moment ==> Passes(c.filter, w, pub.post.timestamp.value)
  }

  /** A published post that should have its row by now. */
  ghost predicate Wanted(s: State, pub: Publication, c: Config) {
    && pub in s.world && Dated(pub.post) && Covers(c.partitions, pub.post.timestamp.value)
    && Reached(s, pub.moment) && AfterFirst(s, pub.moment) && LetPass(s, pub, c)
  }

  ghost predicate Coverage(s: State, c: Config) {
    forall pub :: Wanted(s, pub, c) ==> RowOf(c.influencer, pub.post) in s.stored
  }

  /** The post appeared in the run's window and its stamp passes the run's filter. */
  predicate InWindow(t: Task, pub: Publication, c: Config) {
    && Dated(pub.post) && t.seen.Some? && t.seen.value <= pub.moment < t.start
    && Passes(c.filter, t.seen.value, pub.post.timestamp.value)
  }

  /** What a run must have seen and stored of its window by its phase, and what it cannot have seen. */
  ghost predicate Window(s: State, t: Task, c: Config) {
    match t.phase
    case Fetched(posts) =>
      && (forall pub <- s.world :: InWindow(t, pub, c) ==> pub.post in posts)
      && (t.seen.Some? ==> forall p <- posts :: Dated(p) ==> Passes(c.filter, t.seen.value, p.timestamp.value))
    case Stored =>
      forall pub <- s.world :: InWindow(t, pub, c) && Covers(c.partitions, pub.post.timestamp.value)
        ==> RowOf(c.influencer, pub.post) in s.stored
    case _ => true
  }

  /** Nothing lies in the future, and every watermark in sight is the start of a run that is done. */
  ghost predicate Clock(s: State) {
    && (forall pub <- s.world :: pub.post.timestamp == Some(Floor(pub.moment)) && pub.moment <= s.now)
    && (forall j: nat :: j < |s.tasks| ==> s.tasks[j].start <= s.now)
    && (forall j: nat :: j < |s.tasks| && s.tasks[j].seen.Some? ==> WasWatermark(s, s.tasks[j].seen.value))
    && (s.watermark.Some? ==> WasWatermark(s, s.watermark.value))
  }

  ghost predicate Inv(s: State, c: Config) {
    && Clock(s)
    && (forall j: nat :: j < |s.tasks| ==> Window(s, s.tasks[j], c))
    && Coverage(s, c)
  }

  /** Nothing but a finished run changes what counts as wanted among the posts already published. */
  lemma SameDone(s: State, t: State, c: Config)
    requires forall j: nat :: IsDone(s, j) <==> IsDone(t, j)
    requires forall j: nat :: IsDone(s, j) && IsDone(t, j) ==>
      s.tasks[j].start == t.tasks[j].start && s.tasks[j].seen == t.tasks[j].seen
    ensures forall x :: Reached(s, x) <==> Reached(t, x)
    ensures forall x :: AfterFirst(s, x) <==> AfterFirst(t, x)
    ensures forall w :: WasWatermark(s, w) <==> WasWatermark(t, w)
  {
  }

  lemma ClockStep(s: State, a: Action, c: Config)
    requires Clock(s) && Enabled(s, a, c)
    ensures Clock(Apply(s, a, c))
  {
    var t := Apply(s, a, c);
    forall w | WasWatermark(s, w) ensures WasWatermark(t, w) {
      var j: nat :| IsDone(s, j) && s.tasks[j].start == w;
      assert IsDone(t, j);
    }
    if a.Advance? {
      assert IsDone(t, a.task);
    }
  }

  /** It holds in every execution, a sound one or not. */
  lemma {:induction false} ClockHolds(run: seq<State>, actions: seq<Action>, c: Config, k: nat)
    requires Execution(run, actions, c) && k < |run|
    ensures Clock(run[k])
  {
    if k > 0 {
      ClockHolds(run, actions, c, k - 1);
      ClockStep(run[k - 1], actions[k - 1], c);
    }
  }

  lemma PublishKeeps(s: State, pub: Publication, c: Config)
    requires Inv(s, c) && Enabled(s, Publish(pub), c)
    ensures Inv(Apply(s, Publish(pub), c), c)
  {
    var t := Apply(s, Publish(pub), c);
    ClockStep(s, Publish(pub), c);
    SameDone(s, t, c);
    assert !Reached(t, pub.moment);
    forall q | Wanted(t, q, c) ensures RowOf(c.influencer, q.post) in t.stored {
      assert Wanted(s, q, c);
    }
    forall j: nat | j < |t.tasks| ensures Window(t, t.tasks[j], c) {
      assert Window(s, s.tasks[j], c);
      assert !InWindow(s.tasks[j], pub, c);
    }
  }

  lemma QuietKeeps(s: State, a: Action, c: Config)
    requires Inv(s, c) && Enabled(s, a, c) && Sound(s, a, c)
      && (a.Pass? || a.Begin? || a.ReadWatermark? || a.Fetch? || a.Fail?)
    ensures Inv(Apply(s, a, c), c)
  {
    var t := Apply(s, a, c);
    ClockStep(s, a, c);
    SameDone(s, t, c);
    forall q | Wanted(t, q, c) ensures RowOf(c.influencer, q.post) in t.stored {
      assert Wanted(s, q, c);
    }
    forall j: nat | j < |t.tasks| ensures Window(t, t.tasks[j], c) {
      if j < |s.tasks| { assert Window(s, s.tasks[j], c); }
    }
  }

  /** Storing a batch that loses nothing stores the run's window. */
  lemma StoreKeeps(s: State, i: nat, c: Config)
    requires Inv(s, c) && Enabled(s, Store(i), c) && Sound(s, Store(i), c)
    ensures Inv(Apply(s, Store(i), c), c)
  {
    var t := Apply(s, Store(i), c);
    var posts := s.tasks[i].phase.posts;
    ClockStep(s, Store(i), c);
    SameDone(s, t, c);
    LiveStoresAll(posts, c.influencer, s.stored, c.partitions);
    forall q | Wanted(t, q, c) ensures RowOf(c.influencer, q.post) in t.stored {
      assert Wanted(s, q, c);
    }
    forall j: nat | j < |t.tasks| ensures Window(t, t.tasks[j], c) {
      assert Window(s, s.tasks[j], c);
      if j == i {
        forall p <- posts ensures !IsNew(p, c.influencer, t.stored, c.partitions) {}
      }
    }
  }

  /** Everything wanted once run i is done was wanted before, or lies in the run's own window. */
  lemma NewlyWanted(s: State, i: nat, t: State, pub: Publication, c: Config)
    requires Clock(s) && i < |s.tasks| && !s.tasks[i].phase.Done? && Wanted(t, pub, c)
    requires t.world == s.world && t.tasks == s.tasks[i := s.tasks[i].(phase := Done)]
    ensures Wanted(s, pub, c) || InWindow(s.tasks[i], pub, c)
  {
    assert IsDone(t, i);
    assert AfterFirst(s, pub.moment) by {
      forall j: nat | IsDone(s, j) && s.tasks[j].seen.None? ensures s.tasks[j].start <= pub.moment {
        assert IsDone(t, j);
      }
    }
    forall w | WasWatermark(s, w) ensures WasWatermark(t, w) {
      var j: nat :| IsDone(s, j) && s.tasks[j].start == w;
      assert IsDone(t, j);
    }
    if !Reached(s, pub.moment) {
      var j: nat :| IsDone(t, j) && pub.moment < t.tasks[j].start;
      assert j == i;
      assert WasWatermark(s, s.tasks[i].seen.value);
    }
  }

  lemma AdvanceKeeps(s: State, i: nat, c: Config)
    requires Inv(s, c) && Enabled(s, Advance(i), c)
    ensures Inv(Apply(s, Advance(i), c), c)
  {
    var t := Apply(s, Advance(i), c);
    assert Window(s, s.tasks[i], c);
    forall pub | Wanted(t, pub, c) ensures RowOf(c.influencer, pub.post) in t.stored {
      NewlyWanted(s, i, t, pub, c);
    }
    ClockStep(s, Advance(i), c);
    forall j: nat | j < |t.tasks| ensures Window(t, t.tasks[j], c) {
      assert Window(s, s.tasks[j], c);
    }
  }

  lemma StepKeeps(s: State, a: Action, c: Config)
    requires Inv(s, c) && Enabled(s, a, c) && Sound(s, a, c)
    ensures Inv(Apply(s, a, c), c)
  {
    match a
    case Publish(pub) => PublishKeeps(s, pub, c);
    case Store(i) => StoreKeeps(s, i, c);
    case Advance(i) => AdvanceKeeps(s, i, c);
    case _ => QuietKeeps(s, a, c);
  }

  lemma {:induction false} InvHolds(run: seq<State>, actions: seq<Action>, c: Config, k: nat)
    requires SoundExecution(run, actions, c) && k < |run|
    ensures Inv(run[k], c)
  {
    if k > 0 {
      InvHolds(run, actions, c, k - 1);
      StepKeeps(run[k - 1], actions[k - 1], c);
    }
  }

  /** Coverage for any filter, of the posts that no earlier watermark's filter keeps back. */
  lemma PassingCovered(run: seq<State>, actions: seq<Action>, c: Config, pub: Publication)
    requires SoundExecution(run, actions, c)
    requires var s := run[|run| - 1];
      && pub in s.world && Dated(pub.post) && Covers(c.partitions, pub.post.timestamp.value)
      && AfterFirst(s, pub.moment) && LetPass(s, pub, c)
      && (Reached(s, pub.moment) || (s.watermark.Some? && pub.moment < s.watermark.value))
    ensures RowOf(c.influencer, pub.post) in run[|run| - 1].stored
  {
    var s := run[|run| - 1];
    InvHolds(run, actions, c, |run| - 1);
    if s.watermark.Some? && pub.moment < s.watermark.value {
      assert WasWatermark(s, s.watermark.value);
      var j: nat :| IsDone(s, j) && s.tasks[j].start == s.watermark.value;
      assert Reached(s, pub.moment);
    }
    assert Wanted(s, pub, c);
  }

  /**
   A floor is the last whole second. A post passes if it appeared in the watermark's second or later, in a later
   second, or if its second began no earlier than the watermark.
   */
  lemma FiltersExactly(w: int, moment: int)
    ensures Floor(moment) <= moment < Floor(moment) + 1_000_000 && Floor(moment) % 1_000_000 == 0
    ensures Passes(FromSecond, w, Floor(moment)) <==> moment >= Floor(w)
    ensures Passes(AfterSecond, w, Floor(moment)) <==> moment >= Floor(w) + 1_000_000
    ensures Passes(FromMoment, w, Floor(moment)) <==> Floor(moment) >= w
  {
    assert Floor(moment) == SECOND * (moment / SECOND) && Floor(w) == SECOND * (w / SECOND);
  }

  /** How each filter treats a post that appeared once the watermark was taken. */
  lemma FilterFacts(w: int, moment: int)
    requires w <= moment
    ensures Passes(FromSecond, w, Floor(moment))
    ensures Passes(AfterSecond, w, Floor(moment)) <==> Floor(moment) != Floor(w)
    ensures Passes(FromMoment, w, Floor(moment)) <==> w <= Floor(moment)
  {
    assert moment / SECOND >= w / SECOND;
    assert Floor(moment) == SECOND * (moment / SECOND) && Floor(w) == SECOND * (w / SECOND);
  }

  /**
   Over every sequence of overlapping, failing and late runs, with the watermark floored to its second
   and that second included: a post that appeared before the watermark, and not before any
   watermark-less run's start, has its row, if it has a partition. So it is up to the highest watermark there has been,
   however far a slow run then moved it back. The stamp may lie before the watermark; the floor is what
   lets the post pass.
   */
  lemma WatermarkCovers(run: seq<State>, actions: seq<Action>, c: Config, pub: Publication)
    requires SoundExecution(run, actions, c) && c.filter == FromSecond
    requires var s := run[|run| - 1];
      && pub in s.world && Dated(pub.post) && Covers(c.partitions, pub.post.timestamp.value)
           && AfterFirst(s, pub.moment)
      && (Reached(s, pub.moment) || (s.watermark.Some? && pub.moment < s.watermark.value))
    ensures RowOf(c.influencer, pub.post) in run[|run| - 1].stored
  {
    var s := run[|run| - 1];
    InvHolds(run, actions, c, |run| - 1);
    forall w | w <= pub.moment ensures Passes(c.filter, w, pub.post.timestamp.value) {
      FilterFacts(w, pub.moment);
    }
    PassingCovered(run, actions, c, pub);
  }

  /** With that second excluded the same holds of every post that appeared in no earlier watermark's second. */
  lemma StrictFilterCovers(run: seq<State>, actions: seq<Action>, c: Config, pub: Publication)
    requires SoundExecution(run, actions, c) && c.filter == AfterSecond
    requires var s := run[|run| - 1];
      && pub in s.world && Dated(pub.post) && Covers(c.partitions, pub.post.timestamp.value)
           && AfterFirst(s, pub.moment)
      && (Reached(s, pub.moment) || (s.watermark.Some? && pub.moment < s.watermark.value))
      && (forall w :: WasWatermark(s, w) && w <= pub.moment ==> Floor(w) != Floor(pub.moment))
    ensures RowOf(c.influencer, pub.post) in run[|run| - 1].stored
  {
    var s := run[|run| - 1];
    InvHolds(run, actions, c, |run| - 1);
    forall w | WasWatermark(s, w) && w <= pub.moment ensures Passes(c.filter, w, pub.post.timestamp.value) {
      FilterFacts(w, pub.moment);
    }
    PassingCovered(run, actions, c, pub);
  }

  /**
   What one run gets of its own window, exactly. A post with a partition and no row, that appeared
   before the run's start and not before the watermark it went by, gets its row from the run if and only if its
   stamp passes: always when the watermark's second is included, exactly outside that second when it is
   excluded, exactly in a later second or at a whole one when the watermark is sent unfloored.
   */
  lemma RunStoresExactly(s: State, i: nat, c: Config, pub: Publication)
    requires Inv(s, c) && Enabled(s, Store(i), c) && Sound(s, Store(i), c) && s.tasks[i].seen.Some?
    requires pub in s.world && s.tasks[i].seen.value <= pub.moment < s.tasks[i].start
    requires Covers(c.partitions, Floor(pub.moment)) && Dated(pub.post) && RowOf(c.influencer, pub.post) !in s.stored
    ensures var w := s.tasks[i].seen.value;
      RowOf(c.influencer, pub.post) in Apply(s, Store(i), c).stored <==>
        match c.filter
        case FromSecond => true
        case AfterSecond => Floor(pub.moment) != Floor(w)
        case FromMoment => w <= Floor(pub.moment)
  {
    var w, posts := s.tasks[i].seen.value, s.tasks[i].phase.posts;
    var row := RowOf(c.influencer, pub.post);
    FilterFacts(w, pub.moment);
    assert Window(s, s.tasks[i], c);
    if Passes(c.filter, w, Floor(pub.moment)) {
      LiveStoresAll(posts, c.influencer, s.stored, c.partitions);
      assert InWindow(s.tasks[i], pub, c);
      assert !IsNew(pub.post, c.influencer, Apply(s, Store(i), c).stored, c.partitions);
    } else {
      StoredAfterCut(posts, c.influencer, s.stored, c.partitions);
      var kept := posts[Cut(posts, c.partitions)..];
      forall p <- kept | Dated(p) ensures RowOf(c.influencer, p) != row {
        assert p in posts;
      }
      RowsOnly(c.influencer, kept, row);
    }
  }

  /** A run that fails, wherever it stands, has written nothing by that, and it never does anything again. */
  lemma {:induction false} FailureIsFinal(run: seq<State>, actions: seq<Action>, c: Config, m: nat, n: nat)
    requires Execution(run, actions, c) && m < n < |run| && actions[m].Fail?
    ensures run[m + 1].stored == run[m].stored && run[m + 1].watermark == run[m].watermark
    ensures Reading(run[n], actions[m].task, Failed)
    decreases n
  {
    assert Enabled(run[n - 1], actions[n - 1], c) && run[n] == Apply(run[n - 1], actions[n - 1], c);
    if m < n - 1 {
      FailureIsFinal(run, actions, c, m, n - 1);
    }
  }

  // --- what a run must store for coverage --------------------------------------------------------------

  /** Without a row, and to have one once run i is done. */
  ghost predicate Needed(s: State, i: nat, pub: Publication, c: Config)
    requires i < |s.tasks|
  {
    Wanted(SetPhase(s, i, Done), pub, c) && RowOf(c.influencer, pub.post) !in s.stored
  }

  /** The posts of a batch that a rollback leaves to be stored. */
  function Kept(posts: seq<Post>, c: Config): seq<Post> {
    posts[Cut(posts, c.partitions)..]
  }

  /** In whatever state: a run that stores and advances leaves coverage exactly if it keeps every needed post. */
  lemma CoverageExactly(s: State, i: nat, c: Config)
    requires Enabled(s, Store(i), c)
    ensures Coverage(Apply(Apply(s, Store(i), c), Advance(i), c), c)
      <==> forall pub :: Needed(s, i, pub, c) ==>
             RowOf(c.influencer, pub.post) in Rows(c.influencer, Kept(s.tasks[i].phase.posts, c))
  {
    var stored := Apply(s, Store(i), c);
    var t := Apply(stored, Advance(i), c);
    var u := SetPhase(s, i, Done);
    SameDone(u, t, c);
    StoredAfterCut(s.tasks[i].phase.posts, c.influencer, s.stored, c.partitions);
    assert forall pub :: Wanted(t, pub, c) <==> Wanted(u, pub, c);
  }

  /** Where coverage held, what is needed lies in the run's own window and passes its filter. */
  lemma NeededInWindow(s: State, i: nat, pub: Publication, c: Config)
    requires Clock(s) && Coverage(s, c) && i < |s.tasks| && !s.tasks[i].phase.Done? && Needed(s, i, pub, c)
    ensures InWindow(s.tasks[i], pub, c)
  {
    NewlyWanted(s, i, SetPhase(s, i, Done), pub, c);
  }

  /** Run i's rollback loses no needed post of its batch. */
  ghost predicate LosesNothingNeeded(s: State, i: nat, c: Config)
    requires Enabled(s, Store(i), c)
  {
    var posts := s.tasks[i].phase.posts;
    forall pub :: Needed(s, i, pub, c) && pub.post in posts[..Cut(posts, c.partitions)] ==>
      RowOf(c.influencer, pub.post) in Rows(c.influencer, Kept(posts, c))
  }

  /** After a complete fetch that depends on the rollback alone. */
  lemma RollbackExactly(s: State, i: nat, c: Config)
    requires Inv(s, c) && Enabled(s, Store(i), c)
    ensures Coverage(Apply(Apply(s, Store(i), c), Advance(i), c), c) <==> LosesNothingNeeded(s, i, c)
  {
    var posts := s.tasks[i].phase.posts;
    var cut := Cut(posts, c.partitions);
    CoverageExactly(s, i, c);
    assert Window(s, s.tasks[i], c);
    forall pub | Needed(s, i, pub, c) && pub.post !in posts[..cut]
      ensures RowOf(c.influencer, pub.post) in Rows(c.influencer, Kept(posts, c)) {
      NeededInWindow(s, i, pub, c);
      assert posts == posts[..cut] + posts[cut..];
      RowsHas(c.influencer, posts[cut..], pub.post);
    }
  }

  // --- lost posts --------------------------------------------------------------------------------------

  /** An execution that ends in s; a sound one, if `sound` is set. */
  ghost predicate LeadsTo(run: seq<State>, actions: seq<Action>, c: Config, s: State, sound: bool) {
    Execution(run, actions, c) && run[|run| - 1] == s && (sound ==> SoundExecution(run, actions, c))
  }

  lemma Extend(run: seq<State>, actions: seq<Action>, c: Config, s: State, sound: bool, a: Action, next: State)
    returns (run': seq<State>, actions': seq<Action>)
    requires LeadsTo(run, actions, c, s, sound) && Enabled(s, a, c) && next == Apply(s, a, c)
    requires sound ==> Sound(s, a, c)
    ensures LeadsTo(run', actions', c, next, sound)
  {
    run', actions' := run + [next], actions + [a];
  }

  /** The state after a run on its own, from reading the watermark to advancing it. */
  function Ran(s: State, posts: seq<Post>, c: Config): State {
    State(s.now, s.world, s.stored + Batch(posts, c.influencer, s.stored, c.partitions).pending,
          Some(s.now), s.tasks + [Task(s.now, s.watermark, Done)])
  }

  lemma WholeRun(run: seq<State>, actions: seq<Action>, c: Config, s: State, sound: bool, posts: seq<Post>)
    returns (run': seq<State>, actions': seq<Action>)
    requires LeadsTo(run, actions, c, s, sound) && Fetchable(s, s.watermark, posts, c)
    requires sound ==> NothingCutOff(posts, c.influencer, s.stored, c.partitions)
    requires sound && s.watermark.Some? ==> Complete(s, s.watermark.value, posts, c)
    ensures LeadsTo(run', actions', c, Ran(s, posts, c), sound)
  {
    var i := |s.tasks|;
    var s1 := s.(tasks := s.tasks + [Task(s.now, None, Starting)]);
    var s2 := s.(tasks := s.tasks + [Task(s.now, s.watermark, Dispatched)]);
    var s3 := s.(tasks := s.tasks + [Task(s.now, s.watermark, Fetched(posts))]);
    run', actions' := Extend(run, actions, c, s, sound, Begin, s1);
    run', actions' := Extend(run', actions', c, s1, sound, ReadWatermark(i), s2);
    run', actions' := Extend(run', actions', c, s2, sound, Fetch(i, posts), s3);
    run', actions' := StoreAndAdvance(run', actions', c, s, sound, posts, s3);
  }

  lemma StoreAndAdvance(run: seq<State>, actions: seq<Action>, c: Config, s: State, sound: bool, posts: seq<Post>,
                        s3: State)
    returns (run': seq<State>, actions': seq<Action>)
    requires s3 == s.(tasks := s.tasks + [Task(s.now, s.watermark, Fetched(posts))])
    requires LeadsTo(run, actions, c, s3, sound)
    requires sound ==> NothingCutOff(posts, c.influencer, s.stored, c.partitions)
    ensures LeadsTo(run', actions', c, Ran(s, posts, c), sound)
  {
    var i := |s.tasks|;
    var s4 := Ran(s, posts, c).(tasks := s.tasks + [Task(s.now, s.watermark, Stored)], watermark := s.watermark);
    run', actions' := Extend(run, actions, c, s3, sound, Store(i), s4);
    run', actions' := Extend(run', actions', c, s4, sound, Advance(i), Ran(s, posts, c));
  }

  /** A state after one watermark-less run at `first`, then `pubs`, then time `now`. */
  function After(first: int, pubs: set<Publication>, now: int): State {
    State(now, pubs, {}, Some(first), [Task(first, None, Done)])
  }

  lemma FirstRun(first: int, c: Config) returns (run: seq<State>, actions: seq<Action>)
    ensures LeadsTo(run, actions, c, After(first, {}, first), true)
  {
    run, actions := WholeRun([Init(first)], [], c, Init(first), true, []);
    assert Ran(Init(first), [], c) == After(first, {}, first);
  }

  lemma ThenPublish(run: seq<State>, actions: seq<Action>, c: Config, first: int, pubs: set<Publication>, now: int,
                    pub: Publication)
    returns (run': seq<State>, actions': seq<Action>)
    requires LeadsTo(run, actions, c, After(first, pubs, now), true)
    requires pub.post.timestamp == Some(Floor(pub.moment)) && pub.moment >= now
    ensures LeadsTo(run', actions', c, After(first, pubs + {pub}, pub.moment), true)
  {
    run', actions' :=
      Extend(run, actions, c, After(first, pubs, now), true, Publish(pub), After(first, pubs + {pub}, pub.moment));
  }

  /** One uncovered post in a batch can lose a covered one for good. */
  lemma RollbackLosesPost() returns (run: seq<State>, actions: seq<Action>, c: Config, lost: Publication)
    ensures Execution(run, actions, c) && c.filter == FromSecond
    ensures Wanted(run[|run| - 1], lost, c) && run[|run| - 1].stored == {}
    ensures run[|run| - 1].watermark == Some(250 * SECOND) && lost.moment == 150 * SECOND
  {
    c := Config(1, [Partition(100 * SECOND, 200 * SECOND)], FromSecond, 5);
    lost := Publication(Post(Some(150 * SECOND), 7, "covered"), 150 * SECOND);
    var late := Publication(Post(Some(250 * SECOND), 8, "no partition yet"), 250 * SECOND);
    run, actions := FirstRun(100 * SECOND, c);
    run, actions := ThenPublish(run, actions, c, 100 * SECOND, {}, 100 * SECOND, lost);
    run, actions := ThenPublish(run, actions, c, 100 * SECOND, {} + {lost}, 150 * SECOND, late);
    var s := After(100 * SECOND, {} + {lost} + {late}, 250 * SECOND);
    var posts := [lost.post, late.post];
    assert Fetchable(s, s.watermark, posts, c) by {
      assert lost in s.world && late in s.world;
    }
    run, actions := WholeRun(run, actions, c, s, false, posts);
    LostBatch(c, lost.post, late.post);
    LostIsWanted(c, s, posts, lost);
  }

  lemma LostBatch(c: Config, lost: Post, late: Post)
    requires c.influencer == 1 && c.partitions == [Partition(100 * SECOND, 200 * SECOND)]
    requires lost == Post(Some(150 * SECOND), 7, "covered") && late == Post(Some(250 * SECOND), 8, "no partition yet")
    ensures Batch([lost, late], 1, {}, c.partitions).pending == {}
  {
    assert [lost, late][1] == late;
    assert Uncovered(late, c.partitions);
  }

  lemma LostIsWanted(c: Config, s: State, posts: seq<Post>, lost: Publication)
    requires c.filter == FromSecond && c.partitions == [Partition(100 * SECOND, 200 * SECOND)]
    requires s == After(100 * SECOND, s.world, 250 * SECOND) && lost in s.world
    requires lost.moment == 150 * SECOND && lost.post.timestamp == Some(150 * SECOND)
    ensures Wanted(Ran(s, posts, c), lost, c)
  {
    var t := Ran(s, posts, c);
    assert c.partitions[0] in c.partitions;
    assert IsDone(t, 1) && t.tasks[1].start == 250 * SECOND;
    forall w | WasWatermark(t, w) && w <= lost.moment ensures Passes(FromSecond, w, 150 * SECOND) {
      FilterFacts(w, lost.moment);
    }
  }

  /** One post more than a fetch may bring back can be lost just so. */
  lemma LimitLosesPost() returns (run: seq<State>, actions: seq<Action>, c: Config, lost: Publication)
    ensures Execution(run, actions, c) && c.filter == FromSecond && c.limit == 1
    ensures Wanted(run[|run| - 1], lost, c) && RowOf(c.influencer, lost.post) !in run[|run| - 1].stored
  {
    c := Config(1, [Partition(100 * SECOND, 200 * SECOND)], FromSecond, 1);
    lost := Publication(Post(Some(150 * SECOND), 7, "older"), 150 * SECOND);
    var newest := Publication(Post(Some(250 * SECOND), 8, "newest"), 250 * SECOND);
    run, actions := FirstRun(100 * SECOND, c);
    run, actions := ThenPublish(run, actions, c, 100 * SECOND, {}, 100 * SECOND, lost);
    run, actions := ThenPublish(run, actions, c, 100 * SECOND, {} + {lost}, 150 * SECOND, newest);
    var s := After(100 * SECOND, {} + {lost} + {newest}, 250 * SECOND);
    var posts := [newest.post];
    assert Fetchable(s, s.watermark, posts, c) by {
      assert newest in s.world;
    }
    run, actions := WholeRun(run, actions, c, s, false, posts);
    StoredAfterCut(posts, c.influencer, s.stored, c.partitions);
    RowsOnly(c.influencer, posts[Cut(posts, c.partitions)..], RowOf(c.influencer, lost.post));
    LostIsWanted(c, s, posts, lost);
  }

  /**
   Without the floor, or with the floored second excluded, a post that appears in the watermark's own
   second is lost: it has a partition, lies between the two watermarks, and the run in between does not
   see it.
   */
  lemma OtherFiltersLosePost(filter: Filter)
    returns (run: seq<State>, actions: seq<Action>, c: Config, lost: Publication)
    requires filter != FromSecond
    ensures SoundExecution(run, actions, c) && c.filter == filter
    ensures var s := run[|run| - 1];
      && lost in s.world && Dated(lost.post) && Covers(c.partitions, lost.post.timestamp.value)
      && AfterFirst(s, lost.moment) && s.watermark.Some? && lost.moment < s.watermark.value && s.stored == {}
  {
    var first, now := 1_500_000, 2 * SECOND;
    c := Config(1, [Partition(0, 3 * SECOND)], filter, 5);
    lost := Publication(Post(Some(SECOND), 7, "same second"), 1_700_000);
    assert c.partitions[0] in c.partitions;
    run, actions := FirstRun(first, c);
    run, actions := ThenPublish(run, actions, c, first, {}, first, lost);
    var s := After(first, {} + {lost}, 1_700_000);
    var t := After(first, {} + {lost}, now);
    run, actions := Extend(run, actions, c, s, true, Pass(now), t);
    run, actions := WholeRun(run, actions, c, t, true, []);
  }
}
