/**
 What happens when files share a version: the applier stops at the second one of a run, and every later
 run takes it for applied.
 */
module MigrateVersions {
  import opened Migrate
  import opened MigrateTheorems

  /** File names differ, as they do in a directory. */
  predicate DistinctNames(files: seq<Migration>) {
    forall i, j :: 0 <= i < j < |files| ==> files[i].name != files[j].name
  }

  predicate SameVersion(files: seq<Migration>, i: nat, j: nat) {
    i < j < |files| && files[i].version == files[j].version
  }

  /** An earlier file has the version. */
  ghost predicate Second(files: seq<Migration>, j: nat) {
    exists i: nat :: SameVersion(files, i, j)
  }

  ghost predicate UniqueVersion(files: seq<Migration>, k: nat)
    requires k < |files|
  {
    forall i: nat :: !SameVersion(files, i, k) && !SameVersion(files, k, i)
  }

  /**
   Wherever two files share a version, the later one is not transactional, and every file between them has
   a version of its own.
   */
  ghost predicate Harmless(files: seq<Migration>) {
    forall i: nat, j: nat :: SameVersion(files, i, j) ==>
      !Transactional(files[j]) && forall k: nat :: i < k < j ==> UniqueVersion(files, k)
  }

  predicate InEffect(effects: seq<Effect>, m: Migration) {
    EffectOf(m) in effects
  }

  ghost predicate AllInEffect(files: seq<Migration>, effects: seq<Effect>) {
    forall j: nat :: j < |files| ==> InEffect(effects, files[j])
  }

  /** A history of deployments whose last one has these files and completes, with every file in effect. */
  ghost predicate BringsAll(history: seq<Deployment>, files: seq<Migration>) {
    Growing(history) && CompletesWith(history, files) && AllInEffect(files, After(history, EMPTY).effects)
  }

  ghost predicate CompletesWith(history: seq<Deployment>, files: seq<Migration>) {
    && history != [] && history[|history| - 1].files == files
    && Deploy(files, After(history[..|history| - 1], EMPTY), history[|history| - 1].budget).completed
  }

  // --- whatever is in effect --------------------------------------------------------------------

  predicate AllRecorded(files: seq<Migration>, n: nat, recorded: seq<string>)
    requires n <= |files|
  {
    forall i :: 0 <= i < n ==> files[i].version in recorded
  }

  /** A second file is in effect only if it is not transactional, and then everything up to it is recorded. */
  ghost predicate SecondOk(files: seq<Migration>, j: nat, effects: seq<Effect>, recorded: seq<string>)
    requires j < |files|
  {
    Second(files, j) && InEffect(effects, files[j]) ==> !Transactional(files[j]) && AllRecorded(files, j + 1, recorded)
  }

  /** Of two second files in effect, the earlier one comes before all the files that share the later one's version. */
  ghost predicate Apart(files: seq<Migration>, effects: seq<Effect>, i: nat, k: nat, j: nat)
    requires k < |files| && j < |files|
  {
    (&& SameVersion(files, i, j) && k < j && Second(files, k)
     && InEffect(effects, files[k]) && InEffect(effects, files[j]))
    ==> k < i
  }

  ghost predicate SecondsOk(files: seq<Migration>, effects: seq<Effect>, recorded: seq<string>) {
    && (forall j: nat :: j < |files| ==> SecondOk(files, j, effects, recorded))
    && forall i: nat, k: nat, j: nat :: k < |files| && j < |files| ==> Apart(files, effects, i, k, j)
  }

  lemma RecordedMore(files: seq<Migration>, effects: seq<Effect>, recorded: seq<string>, more: seq<string>)
    requires SecondsOk(files, effects, recorded) && forall v <- recorded :: v in more
    ensures SecondsOk(files, effects, more)
  {
    forall j: nat | j < |files| ensures SecondOk(files, j, effects, more) {
      assert SecondOk(files, j, effects, recorded);
    }
  }

  /** A file that is no second one, or whose version was not recorded when the run began, may take effect. */
  lemma OneMoreEffect(files: seq<Migration>, effects: seq<Effect>, recorded: seq<string>, more: seq<string>, m: nat)
    requires DistinctNames(files) && m < |files| && SecondsOk(files, effects, recorded)
    requires (forall v <- recorded :: v in more) && files[m].version !in recorded
    requires Second(files, m) ==> !Transactional(files[m]) && AllRecorded(files, m + 1, more)
    ensures SecondsOk(files, effects + [EffectOf(files[m])], more)
  {
    var after := effects + [EffectOf(files[m])];
    forall j: nat | j < |files| && j != m ensures InEffect(after, files[j]) == InEffect(effects, files[j]) {
      assert files[j].name != files[m].name;
    }
    forall j: nat | j < |files| ensures SecondOk(files, j, after, more) {
      assert SecondOk(files, j, effects, recorded);
    }
    forall i: nat, k: nat, j: nat | k < |files| && j < |files| ensures Apart(files, after, i, k, j) {
      assert Apart(files, effects, i, k, j);
      if k == m && Second(files, j) && InEffect(effects, files[j]) {
        assert SecondOk(files, j, effects, recorded);
      }
      if j == m && Second(files, k) && InEffect(effects, files[k]) {
        assert SecondOk(files, k, effects, recorded);
      }
    }
  }

  lemma PendingNext(files: seq<Migration>, m: nat, n: nat, recorded: seq<string>)
    requires m < n <= |files|
    ensures Pending(files[m..n], recorded)
         == (if files[m].version in recorded then [] else [files[m]]) + Pending(files[m + 1..n], recorded)
  {
    assert files[m..n][0] == files[m] && files[m..n][1..] == files[m + 1..n];
  }

  ghost predicate StoreOk(files: seq<Migration>, s: Store) {
    SecondsOk(files, s.effects, s.recorded)
  }

  /** At place m of a run that found `recorded`: the files before that are recorded, and no second one took effect. */
  ghost predicate Going(files: seq<Migration>, m: nat, recorded: seq<string>, s: Store) {
    && m <= |files| && SecondsOk(files, s.effects, recorded) && AllRecorded(files, m, s.recorded)
    && forall v <- recorded :: v in s.recorded
  }

  lemma GoingStops(files: seq<Migration>, m: nat, recorded: seq<string>, s: Store)
    requires Going(files, m, recorded, s)
    ensures StoreOk(files, s)
    ensures m < |files| && files[m].version in recorded ==> Going(files, m + 1, recorded, s)
  {
    RecordedMore(files, s.effects, recorded, s.recorded);
  }

  lemma {:induction false} RunKeeps(files: seq<Migration>, n: nat, m: nat, recorded: seq<string>, s: Store, budget: nat)
    requires DistinctNames(files) && m <= n <= |files| && Going(files, m, recorded, s)
    ensures StoreOk(files, Apply(Pending(files[m..n], recorded), s, budget).store)
    decreases n - m
  {
    GoingStops(files, m, recorded, s);
    if m < n {
      var rest := Pending(files[m + 1..n], recorded);
      PendingNext(files, m, n, recorded);
      if files[m].version in recorded {
        assert [] + rest == rest;
        RunKeeps(files, n, m + 1, recorded, s, budget);
      } else {
        ApplyNext(files[m], rest, s, budget);
        StepKeepsSeconds(files, m, recorded, s, budget);
        var (t, left) := ApplyOne(files[m], s, budget);
        if left.Some? {
          RunKeeps(files, n, m + 1, recorded, t, left.value);
        }
      }
    } else {
      assert files[m..n] == [];
    }
  }

  /** One file's turn: recorded, it is no second one, so what the run found recorded is still enough. */
  lemma StepKeepsSeconds(files: seq<Migration>, m: nat, recorded: seq<string>, s: Store, budget: nat)
    requires DistinctNames(files) && m < |files| && Going(files, m, recorded, s) && files[m].version !in recorded
    ensures var (t, left) := ApplyOne(files[m], s, budget);
      if left.Some? then Going(files, m + 1, recorded, t) else StoreOk(files, t)
  {
    var (t, left) := ApplyOne(files[m], s, budget);
    if left.Some? {
      assert !Second(files, m);
      OneMoreEffect(files, s.effects, recorded, recorded, m);
    } else if t.effects != s.effects {
      assert Second(files, m) ==> AllRecorded(files, m + 1, s.recorded);
      OneMoreEffect(files, s.effects, recorded, s.recorded, m);
    } else {
      RecordedMore(files, s.effects, recorded, s.recorded);
    }
  }

  lemma {:induction false} HistorySeconds(history: seq<Deployment>, files: seq<Migration>)
    requires DistinctNames(files) && forall k :: 0 <= k < |history| ==> history[k].files <= files
    ensures StoreOk(files, After(history, EMPTY))
  {
    if history != [] {
      var d := history[|history| - 1];
      var before := After(history[..|history| - 1], EMPTY);
      HistorySeconds(history[..|history| - 1], files);
      assert files[0..|d.files|] == d.files;
      RunKeeps(files, |d.files|, 0, before.recorded, before, d.budget);
    }
  }

  /** If every file is in effect, no two of one version get in each other's way. */
  lemma AllInEffectHarmless(files: seq<Migration>, effects: seq<Effect>, recorded: seq<string>)
    requires SecondsOk(files, effects, recorded) && AllInEffect(files, effects)
    ensures Harmless(files)
  {
    forall i: nat, j: nat | SameVersion(files, i, j) ensures !Transactional(files[j]) {
      assert SecondOk(files, j, effects, recorded);
    }
    forall i: nat, j: nat, k: nat | SameVersion(files, i, j) && i < k < j ensures UniqueVersion(files, k) {
      forall l: nat ensures !SameVersion(files, l, k) {
        assert Apart(files, effects, i, k, j);
      }
      forall l: nat ensures !SameVersion(files, k, l) {
        NotBoth(files, effects, i, j, k, l);
      }
    }
  }

  lemma NotBoth(files: seq<Migration>, effects: seq<Effect>, i: nat, j: nat, k: nat, l: nat)
    requires AllInEffect(files, effects) && SameVersion(files, i, j) && i < k < j
    requires forall a: nat, b: nat, c: nat :: b < |files| && c < |files| ==> Apart(files, effects, a, b, c)
    ensures !SameVersion(files, k, l)
  {
    assert Second(files, j);
    if l == j {
      assert Apart(files, effects, i, k, j);
      assert SameVersion(files, i, k) ==> Second(files, k);
    } else if l < |files| {
      assert Apart(files, effects, i, l, j) && Apart(files, effects, k, j, l);
    }
  }

  // --- bringing every file into effect ---------------------------------------------------------------

  /** The first n files are recorded and in effect, and no version goes on beyond them. */
  ghost predicate Frontier(files: seq<Migration>, n: nat, s: Store) {
    && n <= |files|
    && (forall i :: 0 <= i < n ==> files[i].version in s.recorded && InEffect(s.effects, files[i]))
    && (forall j :: n <= j < |files| ==> files[j].version !in s.recorded)
  }

  /** Inside a run that began at n and is now at m. */
  ghost predicate Midway(files: seq<Migration>, n: nat, m: nat, s: Store) {
    && n <= m <= |files|
    && (forall i :: 0 <= i < m ==> files[i].version in s.recorded && InEffect(s.effects, files[i]))
    && (forall j :: m <= j < |files| && files[j].version in s.recorded ==>
         exists i: nat :: n <= i < m && SameVersion(files, i, j))
  }

  lemma NoneAcross(files: seq<Migration>, i: nat, m: nat, k: nat, j: nat)
    requires Harmless(files) && SameVersion(files, i, m) && k < m < j
    ensures !SameVersion(files, k, j)
  {
    assert SameVersion(files, k, j) ==> UniqueVersion(files, m);
  }

  lemma Reached(files: seq<Migration>, n: nat, m: nat, s: Store, effects: seq<Effect>)
    requires Harmless(files) && Midway(files, n, m, s) && m < |files| && files[m].version in s.recorded
    requires effects == s.effects + [EffectOf(files[m])]
    ensures Frontier(files, m + 1, Store(s.recorded, effects)) && !Transactional(files[m])
  {
    var i: nat :| n <= i < m && SameVersion(files, i, m);
    forall j: nat, k: nat | k < m < j ensures !SameVersion(files, k, j) {
      NoneAcross(files, i, m, k, j);
    }
  }

  /** A second file that is not transactional takes effect and ends the run. */
  lemma StopsAtSecond(files: seq<Migration>, m: nat, s: Store, budget: nat)
    requires m < |files| && files[m].version in s.recorded && files[m].up.Some? && !Transactional(files[m])
      && budget > 0
    ensures Apply(files[m..], s, budget) == Run(Store(s.recorded, s.effects + [EffectOf(files[m])]), false)
  {
    assert files[m..][0] == files[m];
  }

  lemma StepsOn(files: seq<Migration>, n: nat, m: nat, s: Store)
    requires Midway(files, n, m, s) && m < |files| && files[m].version !in s.recorded
    ensures Midway(files, n, m + 1, Recorded(s, files[m]))
  {
    var t := Recorded(s, files[m]);
    forall j: nat | m + 1 <= j < |files| && files[j].version in t.recorded
      ensures exists i: nat :: n <= i < m + 1 && SameVersion(files, i, j)
    {
      if files[j].version == files[m].version {
        assert SameVersion(files, m, j);
      }
    }
  }

  /** A long enough run gets to the next second file, which takes effect and ends it, or completes. */
  lemma {:induction false} RunReaches(files: seq<Migration>, n: nat, m: nat, s: Store, budget: nat) returns (n': nat)
    requires Harmless(files) && AllParse(files) && Midway(files, n, m, s) && budget >= 2 * (|files| - m)
    ensures var run := Apply(files[m..], s, budget);
      && Frontier(files, n', run.store) && m <= n' && (m < |files| ==> m < n')
      && (run.completed ==> n' == |files|)
    decreases |files| - m
  {
    if m == |files| {
      n' := m;
    } else {
      assert files[m] in files;
      if files[m].version in s.recorded {
        Reached(files, n, m, s, s.effects + [EffectOf(files[m])]);
        StopsAtSecond(files, m, s, budget);
        n' := m + 1;
      } else {
        StepsOn(files, n, m, s);
        ApplyFirst(files, m, s, budget);
        n' := RunReaches(files, n, m + 1, Recorded(s, files[m]), budget - Commits(files[m]));
      }
    }
  }

  lemma {:induction false} AllPending(files: seq<Migration>, m: nat, recorded: seq<string>)
    requires m <= |files| && forall j :: m <= j < |files| ==> files[j].version !in recorded
    ensures Pending(files[m..], recorded) == files[m..]
    decreases |files| - m
  {
    if m < |files| {
      assert files[m..] == [files[m]] + files[m + 1..];
      AllPending(files, m + 1, recorded);
    }
  }

  lemma {:induction false} PendingBeyond(files: seq<Migration>, n: nat, m: nat, s: Store)
    requires m <= n && Frontier(files, n, s)
    ensures Pending(files[m..], s.recorded) == files[n..]
    decreases n - m
  {
    if m < n {
      assert files[m..] == [files[m]] + files[m + 1..];
      PendingBeyond(files, n, m + 1, s);
    } else {
      AllPending(files, n, s.recorded);
    }
  }

  ghost predicate Redeployed(history: seq<Deployment>, files: seq<Migration>) {
    forall d <- history :: d.files == files
  }

  lemma RedeployedGrows(history: seq<Deployment>, files: seq<Migration>)
    requires Redeployed(history, files)
    ensures Growing(history)
  {
    forall i, j | 0 <= i < j < |history| ensures history[i].files <= history[j].files {
      assert history[i] in history && history[j] in history;
    }
  }

  /** One more deployment of the same files. */
  lemma Redeploy(history: seq<Deployment>, d: Deployment, run: Run)
    requires Redeployed(history, d.files) && run == Deploy(d.files, After(history, EMPTY), d.budget)
    ensures Redeployed(history + [d], d.files) && After(history + [d], EMPTY) == run.store
    ensures CompletesWith(history + [d], d.files) <==> run.completed
  {
    assert (history + [d])[..|history|] == history;
  }

  /** A run long enough for all its commits moves the frontier on, or completes. */
  lemma LongRun(files: seq<Migration>, n: nat, s: Store) returns (n': nat)
    requires Harmless(files) && AllParse(files) && Frontier(files, n, s)
    ensures var run := Deploy(files, s, 2 * |files|);
      && Frontier(files, n', run.store) && (n < |files| ==> n < n')
      && (n == |files| ==> run.completed && n' == n)
  {
    PendingBeyond(files, n, 0, s);
    assert files[0..] == files;
    assert Midway(files, n, n, s);
    n' := RunReaches(files, n, n, s, 2 * |files|);
  }

  lemma AllBrought(history: seq<Deployment>, files: seq<Migration>)
    requires Redeployed(history, files) && CompletesWith(history, files)
    requires Frontier(files, |files|, After(history, EMPTY))
    ensures BringsAll(history, files)
  {
    RedeployedGrows(history, files);
  }

  /** Such runs bring one file after the other into effect, then complete. */
  lemma {:induction false} Deploys(files: seq<Migration>, n: nat, history: seq<Deployment>, s: Store)
    returns (history': seq<Deployment>)
    requires Harmless(files) && AllParse(files) && s == After(history, EMPTY) && Frontier(files, n, s)
    requires Redeployed(history, files)
    ensures BringsAll(history', files)
    decreases |files| - n
  {
    var d := Deployment(files, 2 * |files|);
    var run := Deploy(files, s, 2 * |files|);
    Redeploy(history, d, run);
    var n' := LongRun(files, n, s);
    if n < |files| {
      history' := Deploys(files, n', history + [d], run.store);
    } else {
      history' := history + [d];
      AllBrought(history', files);
    }
  }

  /**
   Over arbitrary files that parse: some history of deployments, each stopped anywhere, ends with every
   file in effect and success reported, if and only if the files that share a version are harmless.
   */
  lemma AllInEffectExactly(files: seq<Migration>)
    requires AllParse(files) && DistinctNames(files)
    ensures (exists history: seq<Deployment> :: BringsAll(history, files)) <==> Harmless(files)
  {
    if Harmless(files) {
      var history := Deploys(files, 0, [], EMPTY);
    }
    if history: seq<Deployment> :| BringsAll(history, files) {
      var s := After(history, EMPTY);
      forall k | 0 <= k < |history| ensures history[k].files <= files {
        if k < |history| - 1 {
          assert history[k].files <= history[|history| - 1].files;
        }
      }
      HistorySeconds(history, files);
      AllInEffectHarmless(files, s.effects, s.recorded);
    }
  }

  /** When the files that repeat a version are transactional, that is exactly when no file does. */
  lemma TransactionalMustDiffer(files: seq<Migration>)
    requires AllParse(files) && DistinctNames(files)
    requires forall j: nat :: j < |files| && Second(files, j) ==> Transactional(files[j])
    ensures (exists history: seq<Deployment> :: BringsAll(history, files)) <==> Distinct(files)
  {
    AllInEffectExactly(files);
    if Harmless(files) {
      forall i: nat, j: nat | i < j < |files| ensures files[i].version != files[j].version {
        if files[i].version == files[j].version {
          assert SameVersion(files, i, j);
          assert Second(files, j);
        }
      }
    }
  }

  // --- what is reported ------------------------------------------------------------------------------

  /** A first run can complete exactly when the versions differ. */
  lemma FirstRunCompletes(files: seq<Migration>)
    requires AllParse(files)
    ensures (exists budget: nat :: Deploy(files, EMPTY, budget).completed) <==> Distinct(files)
  {
    AllPending(files, 0, []);
    assert files[0..] == files;
    forall budget: nat ensures Deploy(files, EMPTY, budget).completed <==> Cost(files) <= budget && Distinct(files) {
      CompletesExactly(files, EMPTY, budget);
    }
    assert Deploy(files, EMPTY, Cost(files)).completed <==> Distinct(files);
  }

  lemma {:induction false} RunsOn(pending: seq<Migration>, s: Store, budget: nat)
    requires AllParse(pending) && budget >= 2 * |pending| && pending != [] && pending[0].version !in s.recorded
    ensures pending[0].version in Apply(pending, s, budget).store.recorded
  {
    var (t, left) := ApplyOne(pending[0], s, budget);
    assert pending[0] in pending;
    ApplyRecords(pending[1..], t, left.value);
  }

  lemma {:induction false} PendingShrinks(files: seq<Migration>, before: seq<string>, after: seq<string>)
    requires forall v <- before :: v in after
    ensures |Pending(files, after)| <= |Pending(files, before)| <= |files|
    ensures Pending(files, before) != [] && Pending(files, before)[0].version in after
      ==> |Pending(files, after)| < |Pending(files, before)|
  {
    if files != [] {
      PendingShrinks(files[1..], before, after);
    }
  }

  /** A long run that does not complete records a version that was not yet recorded. */
  lemma LongRunRecords(files: seq<Migration>, s: Store, run: Run)
    requires AllParse(files) && run == Deploy(files, s, 2 * |files|) && !run.completed
    ensures |Pending(files, run.store.recorded)| < |Pending(files, s.recorded)|
  {
    var pending := Pending(files, s.recorded);
    PendingAmong(files, s.recorded);
    PendingShrinks(files, s.recorded, s.recorded);
    assert pending[0] in pending;
    RunsOn(pending, s, 2 * |files|);
    ApplyRecords(pending, s, 2 * |files|);
    PendingShrinks(files, s.recorded, run.store.recorded);
  }

  /** Whatever versions the files share, enough long runs end in one that reports success. */
  lemma {:induction false} SuccessIsReported(files: seq<Migration>, history: seq<Deployment>, s: Store)
    returns (history': seq<Deployment>)
    requires AllParse(files) && Redeployed(history, files)
    requires s == After(history, EMPTY)
    ensures Redeployed(history', files) && CompletesWith(history', files)
    decreases |Pending(files, s.recorded)|
  {
    var d := Deployment(files, 2 * |files|);
    var run := Deploy(files, s, 2 * |files|);
    Redeploy(history, d, run);
    if run.completed {
      history' := history + [d];
    } else {
      LongRunRecords(files, s, run);
      history' := SuccessIsReported(files, history + [d], run.store);
    }
  }
}
