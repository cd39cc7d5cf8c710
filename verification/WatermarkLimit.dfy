/**
 What the limit on a fetch costs: when every batch the platform may answer with is complete, and when a run
 keeps coverage whichever of them it gets.
 */
module WatermarkLimit {
  import opened Common
  import opened Scrape
  import opened Sorting
  import opened Watermark

  /** The posts a fetch by the watermark w chooses from. */
  function Passing(s: State, w: int, c: Config): set<Post> {
    set pub <- s.world | Dated(pub.post) && Passes(c.filter, w, pub.post.timestamp.value) :: pub.post
  }

  /** A batch of dated posts, none of them twice. */
  predicate Proper(posts: seq<Post>) {
    NoDup(posts) && forall p <- posts :: Dated(p)
  }

  // --- counting --------------------------------------------------------------------------------

  /** A sequence without repetitions, from a set, is at most as long, and has it all if it is as long. */
  lemma {:induction false} NoDupFits<T>(s: seq<T>, all: set<T>)
    requires NoDup(s) && forall x <- s :: x in all
    ensures |s| <= |all|
    ensures |s| == |all| <==> forall x <- all :: x in s
  {
    if s == [] {
      if all != {} {
        var x :| x in all;
        assert x !in s;
      }
    } else {
      var n := |s| - 1;
      var less := all - {s[n]};
      assert s == s[..n] + [s[n]];
      NoDupFits(s[..n], less);
      forall x | x in all ensures x in s <==> x == s[n] || x in s[..n] {}
      assert forall x <- less :: x in all;
    }
  }

  lemma {:induction false} Pick<T>(all: set<T>, n: nat) returns (s: seq<T>)
    requires n <= |all|
    ensures |s| == n && NoDup(s) && forall x <- s :: x in all
  {
    if n == 0 {
      s := [];
    } else {
      var x :| x in all;
      s := Pick(all - {x}, n - 1);
      s := s + [x];
    }
  }

  // --- complete fetches ------------------------------------------------------------------------------

  lemma FetchFacts(s: State, w: int, posts: seq<Post>, c: Config)
    requires Proper(posts)
    ensures Complete(s, w, posts, c) <==> forall p <- Passing(s, w, c) :: p in posts
    ensures Fetchable(s, Some(w), posts, c) <==>
      && (forall p <- posts :: p in Passing(s, w, c))
      && |posts| <= c.limit && (|posts| < c.limit ==> Complete(s, w, posts, c))
  {
    if Complete(s, w, posts, c) {
      forall p | p in Passing(s, w, c) ensures p in posts {
        var pub :| pub in s.world && pub.post == p && Dated(p) && Passes(c.filter, w, p.timestamp.value);
      }
    }
    if forall p <- Passing(s, w, c) :: p in posts {
      forall pub <- s.world | Dated(pub.post) && Passes(c.filter, w, pub.post.timestamp.value)
        ensures pub.post in posts {
        assert pub.post in Passing(s, w, c);
      }
    }
    if forall p <- posts :: p in Passing(s, w, c) {
      forall p <- posts ensures Published(s, p) && Passes(c.filter, w, p.timestamp.value) {
        assert p in Passing(s, w, c);
      }
    }
  }

  ghost predicate EveryFetchComplete(s: State, w: int, c: Config) {
    forall posts :: Proper(posts) && Fetchable(s, Some(w), posts, c) ==> Complete(s, w, posts, c)
  }

  /** Whatever the platform answers is complete exactly when the limit has room for all there is. */
  lemma FetchesComplete(s: State, w: int, c: Config)
    ensures EveryFetchComplete(s, w, c) <==> |Passing(s, w, c)| <= c.limit
  {
    var all := Passing(s, w, c);
    if |all| <= c.limit {
      forall posts | Proper(posts) && Fetchable(s, Some(w), posts, c) ensures Complete(s, w, posts, c) {
        FetchFacts(s, w, posts, c);
        NoDupFits(posts, all);
      }
    } else {
      var posts := FullBatch(s, w, all, c);
      NoDupFits(posts, all);
      FetchFacts(s, w, posts, c);
    }
  }

  /** As many posts as the limit allows, from any set of passing posts large enough, are a possible fetch. */
  lemma FullBatch(s: State, w: int, some: set<Post>, c: Config) returns (posts: seq<Post>)
    requires some <= Passing(s, w, c) && c.limit <= |some|
    ensures Proper(posts) && Fetchable(s, Some(w), posts, c) && |posts| == c.limit && forall p <- posts :: p in some
  {
    posts := Pick(some, c.limit);
    FetchFacts(s, w, posts, c);
  }

  // --- fetches that keep coverage ----------------------------------------------------------------------

  /** After task i has fetched these posts, stored them and advanced the watermark. */
  function Finished(s: State, i: nat, posts: seq<Post>, c: Config): State
    requires Enabled(s, Fetch(i, posts), c)
  {
    Apply(Apply(Apply(s, Fetch(i, posts), c), Store(i), c), Advance(i), c)
  }

  ghost predicate EveryFetchCovers(s: State, i: nat, c: Config) {
    forall posts :: Proper(posts) && Enabled(s, Fetch(i, posts), c) ==> Coverage(Finished(s, i, posts, c), c)
  }

  predicate NoneUncovered(posts: set<Post>, c: Config) {
    forall p <- posts :: !Uncovered(p, c.partitions)
  }

  /** The passing posts that would not store this row. */
  function Others(s: State, w: int, row: Row, c: Config): set<Post> {
    set p <- Passing(s, w, c) | RowOf(c.influencer, p) != row
  }

  /** No uncovered post can cut a needed one off, and the limit has room beside the posts without its row. */
  ghost predicate RoomForNeeded(s: State, i: nat, w: int, c: Config)
    requires i < |s.tasks|
  {
    forall pub :: Needed(s, i, pub, c) ==>
      NoneUncovered(Passing(s, w, c), c) && |Others(s, w, RowOf(c.influencer, pub.post), c)| < c.limit
  }

  ghost predicate Keeps(s: State, i: nat, posts: seq<Post>, c: Config)
    requires i < |s.tasks|
  {
    forall pub :: Needed(s, i, pub, c) ==> RowOf(c.influencer, pub.post) in Rows(c.influencer, Kept(posts, c))
  }

  lemma FinishedCovers(s: State, i: nat, posts: seq<Post>, c: Config)
    requires Enabled(s, Fetch(i, posts), c)
    ensures Coverage(Finished(s, i, posts, c), c) <==> Keeps(s, i, posts, c)
  {
    var f := Apply(s, Fetch(i, posts), c);
    assert SetPhase(f, i, Done) == SetPhase(s, i, Done);
    CoverageExactly(f, i, c);
    assert forall pub :: Needed(f, i, pub, c) <==> Needed(s, i, pub, c);
  }

  /** A possible fetch that loses a needed post, if there is no room for it. */
  lemma LosingFetch(s: State, w: int, pub: Publication, c: Config) returns (posts: seq<Post>)
    requires Dated(pub.post) && Covers(c.partitions, pub.post.timestamp.value)
    requires var others := Others(s, w, RowOf(c.influencer, pub.post), c);
      !NoneUncovered(Passing(s, w, c), c) || |others| >= c.limit
    ensures Proper(posts) && Fetchable(s, Some(w), posts, c)
    ensures RowOf(c.influencer, pub.post) !in Rows(c.influencer, Kept(posts, c))
  {
    var row := RowOf(c.influencer, pub.post);
    var others := Others(s, w, row, c);
    if |others| >= c.limit {
      posts := FullBatch(s, w, others, c);
      forall p <- Kept(posts, c) ensures p in posts {}
      RowsOnly(c.influencer, Kept(posts, c), row);
    } else {
      var bad :| bad in Passing(s, w, c) && Uncovered(bad, c.partitions);
      assert bad in others;
      posts := EndingWith(s, w, bad, c);
      assert Kept(posts, c) == [];
    }
  }

  /** The platform may answer with any one of the passing posts last. */
  lemma EndingWith(s: State, w: int, last: Post, c: Config) returns (posts: seq<Post>)
    requires last in Passing(s, w, c) && c.limit >= 1
    ensures Proper(posts) && Fetchable(s, Some(w), posts, c) && posts != [] && posts[|posts| - 1] == last
  {
    var all := Passing(s, w, c);
    var rest := all - {last};
    var n := if |all| <= c.limit then |all| else c.limit;
    assert |rest| == |all| - 1;
    var before := Pick(rest, n - 1);
    posts := before + [last];
    NoDupFits(posts, all);
    FetchFacts(s, w, posts, c);
  }

  /** With room for it, every possible fetch keeps a needed post's row. */
  lemma KeepingFetch(s: State, w: int, pub: Publication, posts: seq<Post>, c: Config)
    requires pub in s.world && Dated(pub.post) && Passes(c.filter, w, pub.post.timestamp.value)
    requires NoneUncovered(Passing(s, w, c), c) && |Others(s, w, RowOf(c.influencer, pub.post), c)| < c.limit
    requires Proper(posts) && Fetchable(s, Some(w), posts, c)
    ensures RowOf(c.influencer, pub.post) in Rows(c.influencer, Kept(posts, c))
  {
    var row := RowOf(c.influencer, pub.post);
    FetchFacts(s, w, posts, c);
    assert Cut(posts, c.partitions) == 0;
    assert Kept(posts, c) == posts;
    assert pub.post in Passing(s, w, c);
    if forall p <- posts :: RowOf(c.influencer, p) != row {
      NoDupFits(posts, Others(s, w, row, c));
    } else {
      var p :| p in posts && RowOf(c.influencer, p) == row;
      RowsHas(c.influencer, posts, p);
    }
  }

  /**
   A run about to fetch keeps coverage whatever the platform answers, if and only if nothing is needed of it
   or the limit has room: no post the fetch may bring back lacks a partition, and for each needed post fewer
   of them than the limit have another row. A first run, which has no watermark, always keeps it.
   */
  lemma FetchesCover(s: State, i: nat, c: Config)
    requires Clock(s) && Coverage(s, c) && Reading(s, i, Dispatched)
    ensures EveryFetchCovers(s, i, c) <==>
      s.tasks[i].seen.None? || RoomForNeeded(s, i, s.tasks[i].seen.value, c)
  {
    forall posts | Enabled(s, Fetch(i, posts), c)
      ensures Coverage(Finished(s, i, posts, c), c) <==> Keeps(s, i, posts, c) {
      FinishedCovers(s, i, posts, c);
    }
    forall pub | Needed(s, i, pub, c) ensures InWindow(s.tasks[i], pub, c) {
      NeededInWindow(s, i, pub, c);
    }
    if s.tasks[i].seen.Some? {
      var w := s.tasks[i].seen.value;
      if RoomForNeeded(s, i, w, c) {
        forall posts, pub | Proper(posts) && Enabled(s, Fetch(i, posts), c) && Needed(s, i, pub, c)
          ensures RowOf(c.influencer, pub.post) in Rows(c.influencer, Kept(posts, c)) {
          KeepingFetch(s, w, pub, posts, c);
        }
      } else {
        var pub :| Needed(s, i, pub, c) && !(NoneUncovered(Passing(s, w, c), c)
          && |Others(s, w, RowOf(c.influencer, pub.post), c)| < c.limit);
        var posts := LosingFetch(s, w, pub, c);
        assert !Keeps(s, i, posts, c);
      }
    }
  }

  // --- executions with room --------------------------------------------------------------------------------

  /** A fetch by a watermark has room for all it may bring back, none of it uncovered. */
  predicate Roomy(s: State, a: Action, c: Config)
    requires Enabled(s, a, c)
  {
    a.Fetch? && s.tasks[a.task].seen.Some? ==>
      var all := Passing(s, s.tasks[a.task].seen.value, c);
      Proper(a.posts) && NoneUncovered(all, c) && |all| <= c.limit
  }

  ghost predicate RoomyExecution(run: seq<State>, actions: seq<Action>, c: Config) {
    Execution(run, actions, c) && forall k :: 0 <= k < |actions| ==> Roomy(run[k], actions[k], c)
  }

  /** A batch of which no rollback can lose anything. */
  predicate Harmless(posts: seq<Post>, c: Config) {
    |posts| <= 1 || forall p <- posts :: !Uncovered(p, c.partitions)
  }

  predicate AllHarmless(tasks: seq<Task>, c: Config) {
    forall t <- tasks :: t.phase.Fetched? ==> Harmless(t.phase.posts, c)
  }

  lemma HarmlessStep(s: State, a: Action, c: Config)
    requires Enabled(s, a, c) && Roomy(s, a, c) && AllHarmless(s.tasks, c)
    ensures AllHarmless(Apply(s, a, c).tasks, c)
  {
    if a.Fetch? && s.tasks[a.task].seen.Some? {
      FetchFacts(s, s.tasks[a.task].seen.value, a.posts, c);
    }
  }

  lemma {:induction false} HarmlessHolds(run: seq<State>, actions: seq<Action>, c: Config, k: nat)
    requires RoomyExecution(run, actions, c) && k < |run|
    ensures AllHarmless(run[k].tasks, c)
  {
    if k > 0 {
      HarmlessHolds(run, actions, c, k - 1);
      HarmlessStep(run[k - 1], actions[k - 1], c);
    }
  }

  lemma RoomyStep(s: State, a: Action, c: Config)
    requires Enabled(s, a, c) && Roomy(s, a, c) && AllHarmless(s.tasks, c)
    ensures Sound(s, a, c)
  {
    if a.Fetch? && s.tasks[a.task].seen.Some? {
      FetchesComplete(s, s.tasks[a.task].seen.value, c);
    } else if a.Store? {
      var posts := s.tasks[a.task].phase.posts;
      assert s.tasks[a.task] in s.tasks && Harmless(posts, c);
      if Cut(posts, c.partitions) > 0 {
        assert posts[Cut(posts, c.partitions) - 1] in posts;
      }
    }
  }

  /**
   The guard over whole executions, by what a caller can count before each fetch: overlapping, failing and
   late runs whose fetches have room cover every post up to the highest watermark there has been.
   */
  lemma RoomyRunsCover(run: seq<State>, actions: seq<Action>, c: Config, pub: Publication)
    requires RoomyExecution(run, actions, c) && c.filter == FromSecond
    requires var s := run[|run| - 1];
      && pub in s.world && Dated(pub.post) && Covers(c.partitions, pub.post.timestamp.value)
      && AfterFirst(s, pub.moment)
      && (Reached(s, pub.moment) || (s.watermark.Some? && pub.moment < s.watermark.value))
    ensures SoundExecution(run, actions, c)
    ensures RowOf(c.influencer, pub.post) in run[|run| - 1].stored
  {
    forall k | 0 <= k < |actions| ensures Sound(run[k], actions[k], c) {
      HarmlessHolds(run, actions, c, k);
      RoomyStep(run[k], actions[k], c);
    }
    WatermarkCovers(run, actions, c, pub);
  }
}
