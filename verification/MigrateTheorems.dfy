/**
 What the applier leaves behind after any number of deployments, each cut short anywhere.
 */
module MigrateTheorems {
  import opened Migrate
  import opened Sorting

  predicate Distinct(files: seq<Migration>) {
    forall i, j :: 0 <= i < j < |files| ==> files[i].version != files[j].version
  }

  function Versions(files: seq<Migration>): seq<string> {
    seq(|files|, i requires 0 <= i < |files| => files[i].version)
  }

  predicate Transactional(m: Migration) {
    m.up.Some? && m.up.value.inTxn
  }

  function EffectOf(m: Migration): Effect {
    Effect(m.name, m.version, match m.up case None => "" case Some(up) => up.sql)
  }

  function Repeat(e: Effect, n: nat): seq<Effect> {
    seq(n, _ => e)
  }

  /** The files' effects in file order, file i's `times[i]` times in a row. */
  function Replay(files: seq<Migration>, times: seq<nat>): seq<Effect>
    requires |times| <= |files|
  {
    if times == [] then []
    else
      var n := |times| - 1;
      Replay(files, times[..n]) + Repeat(EffectOf(files[n]), times[n])
  }

  /**
   The recorded versions are the first files'; their effects happened in file order, a transactional
   file's once, another's at least once; and at most one more file has effects, the next one, not
   transactional, whose run died before it was recorded.
   */
  ghost predicate Inv(files: seq<Migration>, s: Store, times: seq<nat>) {
    && |s.recorded| <= |times| <= |files| && |times| <= |s.recorded| + 1
    && s.recorded == Versions(files)[..|s.recorded|]
    && s.effects == Replay(files, times)
    && (forall i :: 0 <= i < |times| ==> files[i].up.Some? && times[i] >= 1)
    && (forall i :: 0 <= i < |times| && Transactional(files[i]) ==> i < |s.recorded| && times[i] == 1)
  }

  lemma AmongFirst(files: seq<Migration>, n: nat, k: nat)
    requires Distinct(files) && n <= |files| && k < |files|
    ensures files[k].version in Versions(files)[..n] <==> k < n
  {
    if k < n {
      assert Versions(files)[..n][k] == files[k].version;
    }
  }

  lemma PendingCons(f: Migration, rest: seq<Migration>, recorded: seq<string>)
    ensures Pending([f] + rest, recorded) == (if f.version in recorded then [] else [f]) + Pending(rest, recorded)
  {
    assert ([f] + rest)[1..] == rest;
  }

  lemma {:induction false} PendingRest(files: seq<Migration>, n: nat, k: nat)
    requires Distinct(files) && n <= k <= |files|
    ensures Pending(files[k..], Versions(files)[..n]) == files[k..]
    decreases |files| - k
  {
    if k < |files| {
      AmongFirst(files, n, k);
      PendingCons(files[k], files[k + 1..], Versions(files)[..n]);
      PendingRest(files, n, k + 1);
      assert files[k..] == [files[k]] + files[k + 1..];
    }
  }

  /** With the first n versions recorded the files from n on are pending. */
  lemma {:induction false} PendingFrom(files: seq<Migration>, n: nat, k: nat)
    requires Distinct(files) && k <= n <= |files|
    ensures Pending(files[k..], Versions(files)[..n]) == files[n..]
    decreases n - k
  {
    if k < n {
      AmongFirst(files, n, k);
      PendingCons(files[k], files[k + 1..], Versions(files)[..n]);
      PendingFrom(files, n, k + 1);
      assert files[k..] == [files[k]] + files[k + 1..];
      assert [] + files[n..] == files[n..];
    } else {
      PendingRest(files, n, n);
    }
  }

  lemma ReplaySnoc(files: seq<Migration>, times: seq<nat>, t: nat)
    requires |times| < |files|
    ensures Replay(files, times + [t]) == Replay(files, times) + Repeat(EffectOf(files[|times|]), t)
  {
    assert (times + [t])[..|times|] == times;
  }

  /** The history with one more execution of the next file to record. */
  function OneMore(times: seq<nat>, n: nat): seq<nat>
    requires n <= |times| <= n + 1
  {
    if |times| == n then times + [1] else times[..n] + [times[n] + 1]
  }

  lemma ReplayOneMore(files: seq<Migration>, times: seq<nat>, n: nat)
    requires n <= |times| <= n + 1 && n < |files| && |times| <= |files|
    ensures Replay(files, OneMore(times, n)) == Replay(files, times) + [EffectOf(files[n])]
  {
    var e := EffectOf(files[n]);
    if |times| == n {
      ReplaySnoc(files, times, 1);
      assert Repeat(e, 1) == [e];
    } else {
      assert times == times[..n] + [times[n]];
      ReplaySnoc(files, times[..n], times[n]);
      ReplaySnoc(files, times[..n], times[n] + 1);
      assert Repeat(e, times[n] + 1) == Repeat(e, times[n]) + [e];
    }
  }

  /** The counts after a run that found `n` versions recorded: each file it reached ran once more. */
  ghost predicate RanOnce(before: seq<nat>, after: seq<nat>, n: nat, budget: nat) {
    && |before| <= |after|
    && forall i :: 0 <= i < |after| ==>
      after[i] == (if i < |before| then before[i] else 0) + (if i < n || budget == 0 then 0 else 1)
  }

  function Commits(f: Migration): nat {
    if Transactional(f) then 1 else 2
  }

  function Recorded(s: Store, f: Migration): Store {
    Store(s.recorded + [f.version], s.effects + [EffectOf(f)])
  }

  lemma NotYetRecorded(files: seq<Migration>, s: Store, times: seq<nat>)
    requires Distinct(files) && Inv(files, s, times) && |s.recorded| < |files|
    ensures files[|s.recorded|].version !in s.recorded
  {
    forall i | 0 <= i < |s.recorded| ensures s.recorded[i] != files[|s.recorded|].version {
      assert s.recorded[i] == Versions(files)[i];
    }
  }

  /** The first pending file: recorded if the run lives for its commits, else where the run dies. */
  lemma ApplyFirst(files: seq<Migration>, n: nat, s: Store, budget: nat)
    requires n < |files| && files[n].version !in s.recorded && files[n].up.Some?
    ensures Apply(files[n..], s, budget) ==
      if Commits(files[n]) <= budget then Apply(files[n + 1..], Recorded(s, files[n]), budget - Commits(files[n]))
      else Run(Store(s.recorded, if budget > 0 then Recorded(s, files[n]).effects else s.effects), false)
  {
    assert files[n..][0] == files[n] && files[n..][1..] == files[n + 1..];
  }

  lemma RecordedOneMore(files: seq<Migration>, s: Store)
    requires |s.recorded| < |files| && s.recorded == Versions(files)[..|s.recorded|]
    ensures var n := |s.recorded|; Recorded(s, files[n]).recorded == Versions(files)[..n + 1]
  {
    assert Versions(files)[..|s.recorded| + 1] == Versions(files)[..|s.recorded|] + [files[|s.recorded|].version];
  }

  lemma OneMoreKeeps(files: seq<Migration>, s: Store, times: seq<nat>)
    requires Distinct(files) && Inv(files, s, times) && |s.recorded| < |files| && files[|s.recorded|].up.Some?
    ensures Inv(files, Recorded(s, files[|s.recorded|]), OneMore(times, |s.recorded|))
  {
    ReplayOneMore(files, times, |s.recorded|);
    CountsOneMore(files, s, times);
    RecordedOneMore(files, s);
  }

  lemma HalfMoreKeeps(files: seq<Migration>, s: Store, times: seq<nat>)
    requires Distinct(files) && Inv(files, s, times) && |s.recorded| < |files| && files[|s.recorded|].up.Some?
    requires !Transactional(files[|s.recorded|])
    ensures Inv(files, Store(s.recorded, s.effects + [EffectOf(files[|s.recorded|])]), OneMore(times, |s.recorded|))
  {
    ReplayOneMore(files, times, |s.recorded|);
    CountsOneMore(files, s, times);
  }

  lemma CountsOneMore(files: seq<Migration>, s: Store, times: seq<nat>)
    requires Inv(files, s, times) && |s.recorded| < |files| && files[|s.recorded|].up.Some?
    ensures var n := |s.recorded|;
      var more := OneMore(times, n);
      && |more| == n + 1
      && (forall i :: 0 <= i < |more| ==> files[i].up.Some? && more[i] >= 1)
      && (forall i :: 0 <= i < |more| && Transactional(files[i]) ==> more[i] == 1)
  {
  }

  lemma KeptOneMore(files: seq<Migration>, s: Store, times: seq<nat>, budget: nat, run: Run, after: seq<nat>)
    requires Inv(files, s, times) && Records(files, s, budget)
    requires Kept(files, Recorded(s, files[|s.recorded|]), OneMore(times, |s.recorded|),
                  budget - Commits(files[|s.recorded|]), run, after)
    ensures Kept(files, s, times, budget, run, after)
  {
  }

  /** The run lives to record the next file. */
  predicate Records(files: seq<Migration>, s: Store, budget: nat) {
    var n := |s.recorded|;
    n < |files| && files[n].up.Some? && Commits(files[n]) <= budget
  }

  lemma RunRecords(files: seq<Migration>, s: Store, times: seq<nat>, budget: nat, run: Run)
    requires Distinct(files) && Inv(files, s, times) && Records(files, s, budget)
    requires run == Apply(files[|s.recorded|..], s, budget)
    ensures var f := files[|s.recorded|];
      && Inv(files, Recorded(s, f), OneMore(times, |s.recorded|))
      && run == Apply(files[|Recorded(s, f).recorded|..], Recorded(s, f), budget - Commits(f))
  {
    NotYetRecorded(files, s, times);
    ApplyFirst(files, |s.recorded|, s, budget);
    OneMoreKeeps(files, s, times);
  }

  /** A run that records nothing more: all done, a file it cannot read, or no commits left for it. */
  lemma RunStops(files: seq<Migration>, s: Store, times: seq<nat>, budget: nat, run: Run) returns (after: seq<nat>)
    requires Distinct(files) && Inv(files, s, times) && !Records(files, s, budget)
    requires run == Apply(files[|s.recorded|..], s, budget)
    ensures Kept(files, s, times, budget, run, after)
  {
    var n := |s.recorded|;
    after := times;
    if n < |files| && files[n].up.Some? && budget > 0 {
      after := OneMore(times, n);
      HalfRun(files, s, times, budget, run);
    } else {
      StopsAtOnce(files, s, times, budget);
    }
  }

  lemma StopsAtOnce(files: seq<Migration>, s: Store, times: seq<nat>, budget: nat)
    requires Distinct(files) && Inv(files, s, times) && !Records(files, s, budget)
    requires |s.recorded| < |files| && files[|s.recorded|].up.Some? ==> budget == 0
    ensures Apply(files[|s.recorded|..], s, budget) == Run(s, |s.recorded| == |files|)
  {
    if |s.recorded| < |files| && files[|s.recorded|].up.Some? {
      NotYetRecorded(files, s, times);
      ApplyFirst(files, |s.recorded|, s, budget);
    }
  }

  lemma HalfRun(files: seq<Migration>, s: Store, times: seq<nat>, budget: nat, run: Run)
    requires Distinct(files) && Inv(files, s, times) && !Records(files, s, budget) && budget > 0
    requires |s.recorded| < |files| && files[|s.recorded|].up.Some?
    requires run == Apply(files[|s.recorded|..], s, budget)
    ensures Kept(files, s, times, budget, run, OneMore(times, |s.recorded|))
  {
    NotYetRecorded(files, s, times);
    ApplyFirst(files, |s.recorded|, s, budget);
    HalfMoreKeeps(files, s, times);
  }

  lemma {:induction false} ApplyKeeps(files: seq<Migration>, s: Store, times: seq<nat>, budget: nat, run: Run)
    returns (after: seq<nat>)
    requires Distinct(files) && Inv(files, s, times) && run == Apply(files[|s.recorded|..], s, budget)
    ensures Kept(files, s, times, budget, run, after)
    decreases |files| - |s.recorded|
  {
    if Records(files, s, budget) {
      var f := files[|s.recorded|];
      RunRecords(files, s, times, budget, run);
      after := ApplyKeeps(files, Recorded(s, f), OneMore(times, |s.recorded|), budget - Commits(f), run);
      KeptOneMore(files, s, times, budget, run, after);
    } else {
      after := RunStops(files, s, times, budget, run);
    }
  }

  /** What a run from `s` keeps, and how the counts move. */
  ghost predicate Kept(files: seq<Migration>, s: Store, times: seq<nat>, budget: nat, run: Run, after: seq<nat>) {
    && Inv(files, run.store, after) && RanOnce(times, after, |s.recorded|, budget)
    && |s.recorded| <= |run.store.recorded| && (run.completed ==> |run.store.recorded| == |files|)
  }

  lemma DeployKeeps(files: seq<Migration>, s: Store, times: seq<nat>, budget: nat) returns (after: seq<nat>)
    requires Distinct(files) && Inv(files, s, times)
    ensures Kept(files, s, times, budget, Deploy(files, s, budget), after)
  {
    PendingFrom(files, |s.recorded|, 0);
    assert files[0..] == files;
    after := ApplyKeeps(files, s, times, budget, Deploy(files, s, budget));
  }

  // --- any number of deployments -----------------------------------------------------------------

  /** One deployment: its migration files in name order, and how many commits it lived for. */
  datatype Deployment = Deployment(files: seq<Migration>, budget: nat)

  /** Later deployments may add files at the end. */
  predicate Growing(history: seq<Deployment>) {
    forall i, j :: 0 <= i < j < |history| ==> history[i].files <= history[j].files
  }

  function After(history: seq<Deployment>, s: Store): Store {
    if history == [] then s
    else
      var d := history[|history| - 1];
      Deploy(d.files, After(history[..|history| - 1], s), d.budget).store
  }

  lemma {:induction false} ReplayExtends(files: seq<Migration>, more: seq<Migration>, times: seq<nat>)
    requires files <= more && |times| <= |files|
    ensures Replay(more, times) == Replay(files, times)
  {
    if times != [] {
      ReplayExtends(files, more, times[..|times| - 1]);
    }
  }

  lemma InvExtends(files: seq<Migration>, more: seq<Migration>, s: Store, times: seq<nat>)
    requires Inv(files, s, times) && files <= more
    ensures Inv(more, s, times)
  {
    ReplayExtends(files, more, times);
    assert Versions(more)[..|s.recorded|] == Versions(files)[..|s.recorded|];
  }

  lemma {:induction false} HistoryKeeps(history: seq<Deployment>) returns (times: seq<nat>)
    requires Growing(history) && history != [] && Distinct(history[|history| - 1].files)
    ensures Inv(history[|history| - 1].files, After(history, EMPTY), times)
  {
    var n := |history| - 1;
    var d := history[n];
    times := [];
    if n > 0 {
      assert history[n - 1].files <= d.files;
      times := HistoryKeeps(history[..n]);
      InvExtends(history[n - 1].files, d.files, After(history[..n], EMPTY), times);
    }
    times := DeployKeeps(d.files, After(history[..n], EMPTY), times, d.budget);
  }

  /** How many times a version's SQL took effect. */
  function Times(effects: seq<Effect>, version: string): nat {
    if effects == [] then 0
    else Times(effects[..|effects| - 1], version) + if effects[|effects| - 1].version == version then 1 else 0
  }

  lemma {:induction false} TimesAppend(a: seq<Effect>, b: seq<Effect>, version: string)
    ensures Times(a + b, version) == Times(a, version) + Times(b, version)
  {
    if b == [] {
      assert a + b == a;
    } else {
      assert (a + b)[..|a + b| - 1] == a + b[..|b| - 1];
      TimesAppend(a, b[..|b| - 1], version);
    }
  }

  lemma {:induction false} TimesRepeat(e: Effect, n: nat, version: string)
    ensures Times(Repeat(e, n), version) == if e.version == version then n else 0
  {
    if n > 0 {
      assert Repeat(e, n)[..n - 1] == Repeat(e, n - 1);
      TimesRepeat(e, n - 1, version);
    }
  }

  lemma {:induction false} TimesReplay(files: seq<Migration>, times: seq<nat>, i: nat)
    requires Distinct(files) && |times| <= |files| && i < |files|
    ensures Times(Replay(files, times), files[i].version) == if i < |times| then times[i] else 0
  {
    if times != [] {
      var n := |times| - 1;
      TimesReplay(files, times[..n], i);
      TimesAppend(Replay(files, times[..n]), Repeat(EffectOf(files[n]), times[n]), files[i].version);
      TimesRepeat(EffectOf(files[n]), times[n], files[i].version);
    }
  }

  /** File order: the effects are the files' own SQL, at non-decreasing places in the file list. */
  ghost predicate InFileOrder(effects: seq<Effect>, files: seq<Migration>, at: seq<nat>) {
    && |at| == |effects|
    && (forall p :: 0 <= p < |at| ==> at[p] < |files| && effects[p] == EffectOf(files[at[p]]))
    && (forall p, q :: 0 <= p < q < |at| ==> at[p] <= at[q])
  }

  lemma {:induction false} ReplayInOrder(files: seq<Migration>, times: seq<nat>) returns (at: seq<nat>)
    requires |times| <= |files|
    ensures InFileOrder(Replay(files, times), files, at) && forall p :: 0 <= p < |at| ==> at[p] < |times|
  {
    at := [];
    if times != [] {
      var n := |times| - 1;
      at := ReplayInOrder(files, times[..n]);
      at := at + seq(times[n], _ => n);
    }
  }

  /**
   After any deployments over a growing directory of files with distinct versions, each stopped anywhere:
   the recorded versions are still a prefix of the files', the effects came in file order, and each
   transactional migration took effect exactly once if recorded and not at all otherwise.
   */
  lemma ExactlyOnceInOrder(history: seq<Deployment>) returns (at: seq<nat>)
    requires Growing(history) && history != [] && Distinct(history[|history| - 1].files)
    ensures var s, files := After(history, EMPTY), history[|history| - 1].files;
      && s.recorded <= Versions(files)
      && InFileOrder(s.effects, files, at)
      && forall i :: 0 <= i < |files| ==>
        (Transactional(files[i]) ==> Times(s.effects, files[i].version) == if i < |s.recorded| then 1 else 0)
        && (i < |s.recorded| ==> Times(s.effects, files[i].version) >= 1)
        && (i > |s.recorded| ==> Times(s.effects, files[i].version) == 0)
  {
    var s, files := After(history, EMPTY), history[|history| - 1].files;
    var times := HistoryKeeps(history);
    at := ReplayInOrder(files, times);
    forall i | 0 <= i < |files| ensures Times(s.effects, files[i].version) == if i < |times| then times[i] else 0 {
      TimesReplay(files, times, i);
    }
  }

  // --- non-transactional files: when exactly one runs again ------------------------------------

  /** The next file to record already took effect: a run died between its two commits. */
  ghost predicate HalfApplied(files: seq<Migration>, s: Store) {
    |s.recorded| < |files| && Times(s.effects, files[|s.recorded|].version) > 0
  }

  /** A run repeats a migration exactly when it commits anything and finds one half applied; it repeats that one. */
  lemma RepeatsOnlyHalfApplied(files: seq<Migration>, s: Store, times: seq<nat>, budget: nat, i: nat)
    requires Distinct(files) && Inv(files, s, times) && i < |files|
    ensures var before := Times(s.effects, files[i].version);
      var after := Times(Deploy(files, s, budget).store.effects, files[i].version);
      0 < before < after <==> budget > 0 && HalfApplied(files, s) && i == |s.recorded|
  {
    var more := DeployKeeps(files, s, times, budget);
    TimesReplay(files, times, i);
    TimesReplay(files, more, i);
    if |s.recorded| < |files| {
      TimesReplay(files, times, |s.recorded|);
    }
  }

  /** A run that dies between the two commits does leave a half-applied migration, which the next run repeats. */
  lemma NonTransactionalCanRepeat(f: Migration)
    requires f.up.Some? && !Transactional(f)
    ensures Times(After([Deployment([f], 1), Deployment([f], 2)], EMPTY).effects, f.version) == 2
  {
    var e := EffectOf(f);
    var history := [Deployment([f], 1), Deployment([f], 2)];
    assert history[..1] == [Deployment([f], 1)] && history[..1][..0] == [];
    var first := Deploy([f], EMPTY, 1);
    assert [f][1..] == [];
    assert Pending([f], []) == [f];
    assert first.store == Store([], [e]);
    var second := Deploy([f], first.store, 2);
    assert [] + [f.version] == [f.version];
    assert second == Apply([], Store([f.version], [e] + [e]), 0);
    assert After(history[..1], EMPTY) == first.store;
    assert [e] + [e] == [e, e] && [e, e][..1] == [e] && [e][..0] == [];
    assert Times([e], f.version) == 1;
  }

  // --- completion -------------------------------------------------------------------------------

  /** The commits a run needs for these files. */
  function Cost(files: seq<Migration>): nat {
    if files == [] then 0 else Commits(files[0]) + Cost(files[1..])
  }

  predicate AllParse(files: seq<Migration>) {
    forall f <- files :: f.up.Some?
  }

  lemma ParsesNext(f: Migration, rest: seq<Migration>)
    ensures AllParse([f] + rest) <==> f.up.Some? && AllParse(rest)
    ensures Cost([f] + rest) == Commits(f) + Cost(rest)
  {
    assert ([f] + rest)[1..] == rest;
    assert f in [f] + rest;
    assert forall g <- rest :: g in [f] + rest;
  }

  lemma DistinctNext(f: Migration, rest: seq<Migration>)
    ensures Distinct([f] + rest) <==> Distinct(rest) && forall g <- rest :: g.version != f.version
  {
    var all := [f] + rest;
    assert forall i :: 0 <= i < |rest| ==> rest[i] == all[i + 1];
    if Distinct(all) {
      forall i, j | 0 <= i < j < |rest| ensures rest[i].version != rest[j].version {
        assert all[i + 1].version != all[j + 1].version;
      }
      forall g <- rest ensures g.version != f.version {
        var i :| 0 <= i < |rest| && rest[i] == g;
        assert all[0].version != all[i + 1].version;
      }
    }
    if Distinct(rest) && forall g <- rest :: g.version != f.version {
      forall i, j | 0 <= i < j < |all| ensures all[i].version != all[j].version {
        assert all[j] == rest[j - 1];
        assert i > 0 ==> all[i] == rest[i - 1];
      }
    }
  }

  lemma ApplyNext(f: Migration, rest: seq<Migration>, s: Store, budget: nat)
    ensures Apply([f] + rest, s, budget) ==
      var (t, left) := ApplyOne(f, s, budget);
      if left.None? then Run(t, false) else Apply(rest, t, left.value)
  {
    assert ([f] + rest)[1..] == rest;
  }

  ghost predicate NoneRecorded(pending: seq<Migration>, recorded: seq<string>) {
    forall f <- pending :: f.version !in recorded
  }

  /** A run that completes found none of its files recorded, not even by itself. */
  lemma {:induction false} CompletedNew(pending: seq<Migration>, s: Store, budget: nat)
    requires Apply(pending, s, budget).completed
    ensures NoneRecorded(pending, s.recorded)
    decreases |pending|
  {
    if pending != [] {
      var f, rest := pending[0], pending[1..];
      assert pending == [f] + rest;
      var (t, left) := ApplyOne(f, s, budget);
      CompletedNew(rest, t, left.value);
    }
  }

  lemma {:induction false} ApplyCompletes(pending: seq<Migration>, s: Store, budget: nat)
    requires NoneRecorded(pending, s.recorded)
    ensures Apply(pending, s, budget).completed <==>
      Cost(pending) <= budget && AllParse(pending) && Distinct(pending)
    decreases |pending|
  {
    if pending != [] {
      var f, rest := pending[0], pending[1..];
      assert pending == [f] + rest;
      ParsesNext(f, rest);
      DistinctNext(f, rest);
      ApplyNext(f, rest, s, budget);
      var (t, left) := ApplyOne(f, s, budget);
      if left.Some? {
        NewNext(f, rest, s.recorded);
        if NoneRecorded(rest, t.recorded) {
          ApplyCompletes(rest, t, left.value);
        } else if Apply(rest, t, left.value).completed {
          CompletedNew(rest, t, left.value);
        }
      }
    }
  }

  lemma NewNext(f: Migration, rest: seq<Migration>, recorded: seq<string>)
    requires NoneRecorded([f] + rest, recorded)
    ensures NoneRecorded(rest, recorded + [f.version]) <==> forall g <- rest :: g.version != f.version
  {
    assert forall g <- rest :: g in [f] + rest;
  }

  lemma {:induction false} PendingAmong(files: seq<Migration>, recorded: seq<string>)
    ensures NoneRecorded(Pending(files, recorded), recorded)
    ensures forall f <- Pending(files, recorded) :: f in files
  {
    if files != [] {
      PendingAmong(files[1..], recorded);
      assert forall f <- files[1..] :: f in files;
    }
  }

  /**
   From whatever earlier runs left, a run completes exactly when every pending file parses, no two of them
   share a version, and it lives for all their commits.
   */
  lemma CompletesExactly(files: seq<Migration>, s: Store, budget: nat)
    ensures var pending := Pending(files, s.recorded);
      Deploy(files, s, budget).completed <==> Cost(pending) <= budget && AllParse(pending) && Distinct(pending)
  {
    PendingAmong(files, s.recorded);
    ApplyCompletes(Pending(files, s.recorded), s, budget);
  }

  lemma {:induction false} ApplyRecords(pending: seq<Migration>, s: Store, budget: nat)
    ensures forall v <- s.recorded :: v in Apply(pending, s, budget).store.recorded
    ensures Apply(pending, s, budget).completed ==>
      forall f <- pending :: f.version in Apply(pending, s, budget).store.recorded
    decreases |pending|
  {
    if pending != [] && pending[0].up.Some? {
      var version := pending[0].version;
      var commits := if Transactional(pending[0]) then 1 else 2;
      if version !in s.recorded && commits <= budget {
        var next := Store(s.recorded + [version], s.effects + [EffectOf(pending[0])]);
        ApplyRecords(pending[1..], next, budget - commits);
        assert version in next.recorded;
        assert forall f <- pending :: f == pending[0] || f in pending[1..];
      }
    }
  }

  lemma {:induction false} NothingPending(files: seq<Migration>, recorded: seq<string>)
    requires forall f <- files :: f.version in recorded
    ensures Pending(files, recorded) == []
  {
    if files != [] {
      NothingPending(files[1..], recorded);
    }
  }

  lemma {:induction false} PendingOrRecorded(files: seq<Migration>, recorded: seq<string>, f: Migration)
    requires f in files
    ensures f.version in recorded || f in Pending(files, recorded)
  {
    if f != files[0] {
      PendingOrRecorded(files[1..], recorded, f);
    }
  }

  /** A completed run makes the next one, however long it may live, a completed run that changes nothing. */
  lemma CompletedIsFinal(files: seq<Migration>, s: Store, budget: nat, again: nat)
    requires Deploy(files, s, budget).completed
    ensures Deploy(files, Deploy(files, s, budget).store, again) == Run(Deploy(files, s, budget).store, true)
  {
    ApplyRecords(Pending(files, s.recorded), s, budget);
    var done := Deploy(files, s, budget).store;
    forall f <- files ensures f.version in done.recorded {
      PendingOrRecorded(files, s.recorded, f);
    }
    NothingPending(files, done.recorded);
  }

  // --- names fix the order ------------------------------------------------

  lemma {:induction false} NameTotal(a: string, b: string)
    ensures NameLe(a, b) || NameLe(b, a)
    ensures NameLe(a, b) && NameLe(b, a) ==> a == b
  {
    if a != "" && b != "" {
      NameTotal(a[1..], b[1..]);
      if a[0] == b[0] && a[1..] == b[1..] {
        assert a == [a[0]] + a[1..] && b == [b[0]] + b[1..];
      }
    }
  }

  lemma {:induction false} NameTransitive(a: string, b: string, c: string)
    requires NameLe(a, b) && NameLe(b, c)
    ensures NameLe(a, c)
  {
    if a != "" && a[0] == b[0] == c[0] {
      NameTransitive(a[1..], b[1..], c[1..]);
    }
  }

  lemma ByNameTotal()
    ensures TotalOrder(ByName())
  {
    forall f: File, g: File ensures ByName()(f, g) || ByName()(g, f) {
      NameTotal(f.name, g.name);
    }
    forall f: File, g: File, h: File | ByName()(f, g) && ByName()(g, h) ensures ByName()(f, h) {
      NameTransitive(f.name, g.name, h.name);
    }
  }

  /** The order in which the directory lists its files does not matter: their names differ. */
  lemma ListingOrderForgotten(a: seq<File>, b: seq<File>)
    requires multiset(a) == multiset(b)
    requires forall f, g :: f in a && g in a && f.name == g.name ==> f == g
    ensures Sort(a, ByName()) == Sort(b, ByName())
  {
    ByNameTotal();
    forall f, g | f in a && g in a && ByName()(f, g) && ByName()(g, f) ensures f == g {
      NameTotal(f.name, g.name);
    }
    SortCanonical(a, b, ByName());
  }
}
