/**
 Retries over whole schedules: a job goes back to the queue exactly after a RatingError with attempts
 left, and counts without a rating only after its last.
 */
module RunRetries {
  import opened RunProtocol

  /** How many model calls of job j have failed. */
  function Failures(acts: seq<Action>, j: nat): nat {
    if acts == [] then 0
    else
      var n := |acts| - 1;
      Failures(acts[..n], j) + if acts[n] == OnJob(j, CallModel(false)) then 1 else 0
  }

  /** The job has counted, or is about to. */
  predicate Counts(job: Job) {
    job.phase.Announcing? || job.phase.Telling? || job.phase.Ended?
  }

  /** Every failed call but a last one was followed by a retry, and whoever counts without it is rated. */
  predicate Tried(job: Job, ratings: set<Hash>, failures: nat) {
    || (failures == job.retries <= 3 && (Counts(job) ==> job.hash in ratings))
    || (failures == 4 && job.retries == 3 && Counts(job))
  }

  /** One step of a job: exactly a RatingError with attempts left puts it back, with one more retry. */
  lemma RetriedExactly(s: State, j: nat, step: JobStep)
    requires Enabled(s, OnJob(j, step))
    ensures var job, next := s.jobs[j], Apply(s, OnJob(j, step)).jobs[j];
      && (next.phase.InQueue? <==> step == CallModel(false) && job.retries < 3)
      && next.retries == job.retries + (if next.phase.InQueue? then 1 else 0)
      && next.hash == job.hash && next.run == job.run
  {
  }

  lemma OwnTry(s: State, j: nat, step: JobStep, failures: nat)
    requires Enabled(s, OnJob(j, step)) && Tried(s.jobs[j], s.ratings, failures)
    ensures var t := Apply(s, OnJob(j, step));
      Tried(t.jobs[j], t.ratings, failures + if step == CallModel(false) then 1 else 0)
  {
  }

  lemma OtherTry(s: State, a: Action, j: nat)
    requires Enabled(s, a) && j < |s.jobs| && (a.OnJob? ==> a.j != j)
    ensures j < |Apply(s, a).jobs| && Apply(s, a).jobs[j] == s.jobs[j] && s.ratings <= Apply(s, a).ratings
  {
  }

  /** A new job has not tried anything, nor has any step named it before. */
  lemma NewTry(s: State, a: Action, j: nat)
    requires Enabled(s, a) && |s.jobs| <= j < |Apply(s, a).jobs|
    ensures Apply(s, a).jobs[j].phase.InQueue? && Apply(s, a).jobs[j].retries == 0 && !a.OnJob?
  {
  }

  lemma {:induction false} NoneYet(states: seq<State>, acts: seq<Action>, n: nat, j: nat)
    requires Execution(states, acts) && n <= |acts| && |states[n].jobs| <= j
    ensures Failures(acts[..n], j) == 0
  {
    if n > 0 {
      assert acts[..n][..n - 1] == acts[..n - 1];
      assert Enabled(states[n - 1], acts[n - 1]) && states[n] == Apply(states[n - 1], acts[n - 1]);
      NoneYet(states, acts, n - 1, j);
    }
  }

  lemma {:induction false} TriedHolds(states: seq<State>, acts: seq<Action>, n: nat, j: nat)
    requires Execution(states, acts) && n <= |acts| && j < |states[n].jobs|
    ensures Tried(states[n].jobs[j], states[n].ratings, Failures(acts[..n], j))
  {
    if n > 0 {
      var s, a := states[n - 1], acts[n - 1];
      assert acts[..n][..n - 1] == acts[..n - 1];
      assert Enabled(s, a) && states[n] == Apply(s, a);
      if |s.jobs| <= j {
        NoneYet(states, acts, n - 1, j);
        NewTry(s, a, j);
      } else {
        TriedHolds(states, acts, n - 1, j);
        if a.OnJob? && a.j == j {
          OwnTry(s, j, a.jobStep, Failures(acts[..n - 1], j));
        } else {
          OtherTry(s, a, j);
        }
      }
    }
  }

  /**
   Over every schedule: no job meets more than four RatingErrors, one that can still try has had a retry for
   each, and one that counts while its hash is unrated has had all four, so all three retries.
   */
  lemma GivesUpLast(states: seq<State>, acts: seq<Action>, j: nat)
    requires Execution(states, acts) && j < |states[|acts|].jobs|
    ensures var s := states[|acts|];
      var job, failures := s.jobs[j], Failures(acts, j);
      && failures <= 4 && job.retries <= MAX_RETRIES
      && (!Counts(job) ==> failures == job.retries)
      && (Counts(job) && job.hash !in s.ratings ==> job.retries == MAX_RETRIES && failures == 4)
  {
    assert acts[..|acts|] == acts;
    TriedHolds(states, acts, |acts|, j);
  }
}
