/**
 Rating and embedding jobs over the rating tables, every interleaving of them.
 */
module RatingJobs {
  import opened Common
  import opened RatingCache

  /** Where a rate_signal job stands: between two of its database transactions or model calls. */
  datatype Phase =
    | Begun
    | Unrated
    | Embedded
    | Copying(rating: Rating)
    | Calling
    | Writing(rating: Rating)
    | Over
  datatype Job = Job(hash: nat, model: string, phase: Phase)
  datatype State = State(tables: Tables, jobs: seq<Job>)

  datatype Action =
    | Enqueue(hash: nat, model: string)
    | CheckRated(job: nat)
    | Embed(job: nat, vector: Vector)
    | EmbedFails(job: nat)
    | Lookup(job: nat, candidate: Option<nat>)
    | WriteCopy(job: nat)
    | CallModel(job: nat, rating: Rating, keys: set<string>)
    | CallFails(job: nat)
    | Raise(job: nat)
    | WriteRating(job: nat)
    | EmbedSignal(hash: nat, vector: Vector)

  predicate At(s: State, i: nat, phase: Phase) {
    i < |s.jobs| && s.jobs[i].phase == phase
  }

  predicate Enabled(s: State, a: Action) {
    match a
    case Enqueue(_, _) => true
    case CheckRated(i) => At(s, i, Begun)
    case Embed(i, _) => At(s, i, Unrated)
    case EmbedFails(i) => At(s, i, Unrated)
    case Lookup(i, candidate) =>
      At(s, i, Embedded)
        && (candidate.Some? ==>
             candidate.value < |s.tables.ratings| && s.tables.ratings[candidate.value].hash != s.jobs[i].hash)
    case WriteCopy(i) => i < |s.jobs| && s.jobs[i].phase.Copying?
    case CallModel(i, _, keys) => At(s, i, Calling) && Resolves(s.jobs[i].model, keys)
    case CallFails(i) => At(s, i, Calling)
    case Raise(i) => At(s, i, Unrated) || At(s, i, Calling)
    case WriteRating(i) => i < |s.jobs| && s.jobs[i].phase.Writing?
    case EmbedSignal(_, _) => true
  }

  function Move(s: State, i: nat, phase: Phase, tables: Tables): State
    requires i < |s.jobs|
  {
    State(tables, s.jobs[i := s.jobs[i].(phase := phase)])
  }

  /**
   The neighbour query takes any rated other row as the nearest one found; only the distance test
   decides the copy.
   */
  function Apply(s: State, a: Action, c: Config): State
    requires Enabled(s, a)
  {
    match a
    case Enqueue(hash, model) => s.(jobs := s.jobs + [Job(hash, model, Begun)])
    case CheckRated(i) => Move(s, i, if Rated(s.tables, s.jobs[i].hash) then Over else Unrated, s.tables)
    case Embed(i, v) => Move(s, i, Embedded, InsertEmbedding(s.tables, s.jobs[i].hash, v))
    case EmbedFails(i) => Move(s, i, Calling, s.tables)
    case Lookup(i, candidate) =>
      if candidate.Some? && Donor(s.tables, candidate.value, s.jobs[i].hash, c)
      then Move(s, i, Copying(s.tables.ratings[candidate.value].rating), s.tables)
      else Move(s, i, Calling, s.tables)
    case WriteCopy(i) =>
      var job := s.jobs[i];
      Move(s, i, Over, InsertRating(s.tables, RatingRow(job.hash, CACHE + job.model, job.phase.rating)))
    case CallModel(i, rating, _) =>
      Move(s, i, Writing(rating), s.tables.(calls := s.tables.calls + {Call(s.jobs[i].hash, s.jobs[i].model, rating)}))
    case CallFails(i) => Move(s, i, Over, s.tables)
    case Raise(i) => Move(s, i, Over, s.tables)
    case WriteRating(i) =>
      var job := s.jobs[i];
      Move(s, i, Over, InsertRating(s.tables, RatingRow(job.hash, job.model, job.phase.rating)))
    case EmbedSignal(hash, v) => s.(tables := InsertEmbedding(s.tables, hash, v))
  }

  function Init(): State {
    State(Tables([], map[], {}), [])
  }

  ghost predicate Execution(run: seq<State>, actions: seq<Action>, c: Config) {
    && |run| == |actions| + 1 && run[0] == Init()
    && forall k :: 0 <= k < |actions| ==> Enabled(run[k], actions[k]) && run[k + 1] == Apply(run[k], actions[k], c)
  }

  /** What a job between lookup and write may rely on, whatever the others do meanwhile. */
  ghost predicate JobSourced(t: Tables, job: Job, c: Config) {
    match job.phase
    case Copying(rating) => exists d: nat :: Donor(t, d, job.hash, c) && t.ratings[d].rating == rating
    case Writing(rating) => !IsCached(job.model) && Call(job.hash, job.model, rating) in t.calls
    case _ => true
  }

  ghost predicate Inv(s: State, c: Config) {
    Sourced(s.tables, c) && forall i: nat :: i < |s.jobs| ==> JobSourced(s.tables, s.jobs[i], c)
  }

  lemma JobStaysSourced(t: Tables, u: Tables, job: Job, c: Config)
    requires JobSourced(t, job, c) && Grows(t, u)
    ensures JobSourced(u, job, c)
  {
    GrowthKeeps(t, u, c);
    if job.phase.Copying? {
      var d: nat :| Donor(t, d, job.hash, c) && t.ratings[d].rating == job.phase.rating;
      assert Donor(u, d, job.hash, c);
    }
  }

  /** No step changes or removes a written row, and each keeps every row sourced. */
  lemma TablesStep(s: State, a: Action, c: Config)
    requires Inv(s, c) && Enabled(s, a)
    ensures Grows(s.tables, Apply(s, a, c).tables) && Sourced(Apply(s, a, c).tables, c)
  {
    var t := s.tables;
    match a {
      case WriteCopy(i) =>
        assert JobSourced(t, s.jobs[i], c);
        assert IsCached(CACHE + s.jobs[i].model);
        InsertSourced(t, RatingRow(s.jobs[i].hash, CACHE + s.jobs[i].model, s.jobs[i].phase.rating), c);
      case WriteRating(i) =>
        assert JobSourced(t, s.jobs[i], c);
        InsertSourced(t, RatingRow(s.jobs[i].hash, s.jobs[i].model, s.jobs[i].phase.rating), c);
      case _ =>
        OtherTablesSourced(t, Apply(s, a, c).tables, c);
    }
  }

  lemma InvStep(s: State, a: Action, c: Config)
    requires Inv(s, c) && Enabled(s, a)
    ensures Inv(Apply(s, a, c), c)
  {
    var u := Apply(s, a, c);
    TablesStep(s, a, c);
    forall i: nat | i < |u.jobs| ensures JobSourced(u.tables, u.jobs[i], c) {
      if i < |s.jobs| && u.jobs[i] == s.jobs[i] {
        JobStaysSourced(s.tables, u.tables, s.jobs[i], c);
      } else if a.CallModel? {
        TagsAreNotModels(s.jobs[i].model, a.keys);
      } else if a.Lookup? && u.jobs[i].phase.Copying? {
        assert Donor(u.tables, a.candidate.value, u.jobs[i].hash, c);
      }
    }
  }

  lemma {:induction false} InvHolds(run: seq<State>, actions: seq<Action>, c: Config, k: nat)
    requires Execution(run, actions, c) && k < |run|
    ensures Inv(run[k], c)
  {
    if k > 0 {
      InvHolds(run, actions, c, k - 1);
      InvStep(run[k - 1], actions[k - 1], c);
    }
  }

  /** A rating or embedding once written is there, unchanged and at its place, ever after. */
  lemma {:induction false} RowsNeverChange(run: seq<State>, actions: seq<Action>, c: Config, j: nat, k: nat)
    requires Execution(run, actions, c) && j <= k < |run|
    ensures Grows(run[j].tables, run[k].tables)
    decreases k
  {
    if j < k {
      RowsNeverChange(run, actions, c, j, k - 1);
      InvHolds(run, actions, c, k - 1);
      TablesStep(run[k - 1], actions[k - 1], c);
    }
  }

  /**
   In every reachable state each row tagged as a copy has a chain of strictly earlier rows with the same
   rating, each hop within the cache distance by the stored vectors, ending at a row some model call
   answered; and a row without the tag is the answer of its own model call.
   */
  lemma Provenance(run: seq<State>, actions: seq<Action>, c: Config, k: nat) returns (path: seq<nat>)
    requires Execution(run, actions, c)
    requires k < |run[|run| - 1].tables.ratings|
    ensures var t := run[|run| - 1].tables;
      && Chain(t, path, c) && path[0] == k
      && (|path| == 1 <==> !IsCached(t.ratings[k].model))
      && forall i :: 0 <= i < |path| - 1 ==> Hop(t, path[i], path[i + 1], t.ratings[k].rating, c)
  {
    var t := run[|run| - 1].tables;
    InvHolds(run, actions, c, |run| - 1);
    path := ChainFrom(t, k, c);
    forall i | 0 <= i < |path| - 1 ensures Hop(t, path[i], path[i + 1], t.ratings[k].rating, c) {
      assert CopyOf(t, path[i], path[i + 1], c);
      ChainDescends(t, path, c, 0, i + 1);
    }
    if |path| > 1 {
      assert CopyOf(t, path[0], path[1], c);
    }
  }

  /** From a copy to a strictly earlier row with the rating, within the cache distance. */
  ghost predicate Hop(t: Tables, from: nat, to: nat, rating: Rating, c: Config) {
    to < from < |t.ratings| && t.ratings[to].rating == rating && Near(t, t.ratings[from].hash, t.ratings[to].hash, c)
  }

  /** So every rating in the table, copied or not, is one a model once returned. */
  lemma EveryRatingWasReturned(run: seq<State>, actions: seq<Action>, c: Config, k: nat) returns (call: Call)
    requires Execution(run, actions, c)
    requires k < |run[|run| - 1].tables.ratings|
    ensures var t := run[|run| - 1].tables;
      call in t.calls && call.rating == t.ratings[k].rating
      && (!IsCached(t.ratings[k].model) ==> call.hash == t.ratings[k].hash && call.model == t.ratings[k].model)
  {
    var t := run[|run| - 1].tables;
    var path := Provenance(run, actions, c, k);
    if |path| > 1 {
      ChainDescends(t, path, c, 0, |path| - 1);
    }
    var origin := t.ratings[path[|path| - 1]];
    assert Fresh(t, path[|path| - 1]);
    call := Call(origin.hash, origin.model, origin.rating);
  }

  // --- the task, run on its own ----------------------------------------------------------------------

  /** What the cache lookup comes to; it raises when the embedding model's name does not resolve. */
  datatype Probe = Raised | Miss | Hit(rating: Rating)

  /** The tables after a lookup: the embedding is new unless the content had one, or none could be had. */
  function Probed(t: Tables, hash: nat, embedder: Option<string>, vector: Option<Vector>, keys: set<string>): Tables {
    if embedder.Some? && ResolvesEmbedding(embedder.value, keys) && vector.Some?
    then InsertEmbedding(t, hash, vector.value) else t
  }

  /** Unresolvable is the ValueError of a name that does not resolve: the task ends there, uncounted. */
  datatype Result = AlreadyRated | CacheHit | RatedFresh | ModelFailed | Unresolvable

  /** The task from the model call on. */
  function Called(t: Tables, hash: nat, model: string, keys: set<string>, reply: Option<Rating>): (Tables, Result) {
    if !Resolves(model, keys) then (t, Unresolvable)
    else match reply
      case None => (t, ModelFailed)
      case Some(rating) =>
        (InsertRating(t.(calls := t.calls + {Call(hash, model, rating)}), RatingRow(hash, model, rating)), RatedFresh)
  }

  /** The task from the nearest neighbour on. */
  function Looked(t: Tables, hash: nat, model: string, keys: set<string>, nearest: Option<nat>, reply: Option<Rating>,
                  c: Config): (Tables, Result)
  {
    if nearest.Some? && Donor(t, nearest.value, hash, c) then
      (InsertRating(t, RatingRow(hash, CACHE + model, t.ratings[nearest.value].rating)), CacheHit)
    else Called(t, hash, model, keys, reply)
  }

  /** The whole task against the tables, with what the providers answer and the row the index finds. */
  function Task(t: Tables, hash: nat, model: string, embedder: Option<string>, keys: set<string>,
                vector: Option<Vector>, nearest: Option<nat>, reply: Option<Rating>, c: Config): (Tables, Result)
  {
    if Rated(t, hash) then (t, AlreadyRated)
    else if LookupRaises(embedder, hash in t.embeddings, keys) then (t, Unresolvable)
    else
      var probed := Probed(t, hash, embedder, vector, keys);
      if embedder.None? then Called(probed, hash, model, keys, reply)
      else Looked(probed, hash, model, keys, nearest, reply, c)
  }

  class RatingStore {
    var ratings: seq<RatingRow>
    var embeddings: map<nat, Vector>
    /** Model calls that returned a rating; nothing reads them. */
    var calls: set<Call>

    function Contents(): Tables
      reads this
    {
      Tables(ratings, embeddings, calls)
    }

    constructor (ghost c: Config)
      ensures Contents() == Tables([], map[], {}) && Sourced(Contents(), c)
    {
      ratings, embeddings, calls := [], map[], {};
    }

    method InsertRatingRow(row: RatingRow) returns (did: bool)
      modifies this`ratings
      ensures Contents() == InsertRating(old(Contents()), row) && did == !Rated(old(Contents()), row.hash)
    {
      did := true;
      for i := 0 to |ratings|
        invariant did == !exists j :: 0 <= j < i && ratings[j].hash == row.hash
      {
        if ratings[i].hash == row.hash {
          did := false;
        }
      }
      if did {
        ratings := ratings + [row];
      }
    }

    method InsertEmbeddingRow(hash: nat, v: Vector) returns (did: bool)
      modifies this`embeddings
      ensures Contents() == InsertEmbedding(old(Contents()), hash, v) && did == (hash !in old(embeddings))
    {
      did := hash !in embeddings;
      if did {
        embeddings := embeddings[hash := v];
      }
    }

    /**
     _semantic_cache_lookup. `embedder` is EMBEDDING_MODEL; `vector` is what the provider answers if asked,
     None if it fails; `nearest` is the row the index finds.
     */
    method Lookup(hash: nat, embedder: Option<string>, keys: set<string>, vector: Option<Vector>, nearest: Option<nat>,
                  c: Config)
      returns (probe: Probe)
      requires nearest.Some? ==> nearest.value < |ratings| && ratings[nearest.value].hash != hash
      modifies this`embeddings
      ensures Contents() == Probed(old(Contents()), hash, embedder, vector, keys)
      ensures probe.Raised? <==> LookupRaises(embedder, hash in old(embeddings), keys)
      ensures probe.Hit? <==>
        !probe.Raised? && embedder.Some? && nearest.Some? && Donor(Contents(), nearest.value, hash, c)
      ensures probe.Hit? ==> probe.rating == ratings[nearest.value].rating
    {
      if embedder.None? {
        return Miss;
      }
      if hash !in embeddings {
        if !ResolvesEmbedding(embedder.value, keys) {
          return Raised;
        }
        if vector.None? {
          return Miss;
        }
        var _ := InsertEmbeddingRow(hash, vector.value);
      }
      if nearest.None? || ratings[nearest.value].hash !in embeddings {
        return Miss;
      }
      var row := ratings[nearest.value];
      var dist := c.distance(embeddings[row.hash], embeddings[hash]);
      if dist.None? || dist.value > c.maxDistance {
        return Miss;
      }
      probe := Hit(row.rating);
    }

    /** rate_signal without the announcement; `reply` is None when the model call fails. */
    method RateSignal(hash: nat, model: string, embedder: Option<string>, keys: set<string>, vector: Option<Vector>,
                      nearest: Option<nat>, reply: Option<Rating>, c: Config)
      returns (result: Result)
      requires Sourced(Contents(), c)
      requires nearest.Some? ==> nearest.value < |ratings| && ratings[nearest.value].hash != hash
      modifies this
      ensures Sourced(Contents(), c) && Grows(old(Contents()), Contents())
      ensures (Contents(), result) == Task(old(Contents()), hash, model, embedder, keys, vector, nearest, reply, c)
      ensures result.AlreadyRated? <==> Rated(old(Contents()), hash)
      ensures var probed := Probed(old(Contents()), hash, embedder, vector, keys);
        var raises := LookupRaises(embedder, hash in old(embeddings), keys);
        && (result.CacheHit? <==>
              !result.AlreadyRated? && !raises && embedder.Some? && nearest.Some?
              && Donor(probed, nearest.value, hash, c))
        && (result.Unresolvable? <==>
              !result.AlreadyRated? && (raises || (!result.CacheHit? && !Resolves(model, keys))))
        && embeddings == if result.AlreadyRated? then old(embeddings) else probed.embeddings
      ensures result.ModelFailed? ==> reply.None?
      ensures result.RatedFresh? ==> reply.Some? && ratings == old(ratings) + [RatingRow(hash, model, reply.value)]
      ensures calls == if result.RatedFresh? then old(calls) + {Call(hash, model, reply.value)} else old(calls)
      ensures result.CacheHit? ==>
        ratings == old(ratings) + [RatingRow(hash, "cache:" + model, old(ratings)[nearest.value].rating)]
      ensures result.AlreadyRated? || result.ModelFailed? || result.Unresolvable? ==> ratings == old(ratings)
    {
      ghost var before := Contents();
      if Rated(Contents(), hash) {
        return AlreadyRated;
      }
      var probe := Lookup(hash, embedder, keys, vector, nearest, c);
      OtherTablesSourced(before, Contents(), c);
      ghost var probed := Contents();
      if probe.Raised? {
        return Unresolvable;
      }
      if probe.Hit? {
        var row := RatingRow(hash, CACHE + model, probe.rating);
        InsertSourced(probed, row, c);
        var _ := InsertRatingRow(row);
        return CacheHit;
      }
      if !Resolves(model, keys) {
        return Unresolvable;
      }
      if reply.None? {
        return ModelFailed;
      }
      TagsAreNotModels(model, keys);
      calls := calls + {Call(hash, model, reply.value)};
      OtherTablesSourced(probed, Contents(), c);
      var row := RatingRow(hash, model, reply.value);
      InsertSourced(Contents(), row, c);
      var _ := InsertRatingRow(row);
      result := RatedFresh;
    }
  }

  // --- a job on its own does what the task does --------------------------------------------------------

  predicate Own(a: Action, i: nat) {
    match a
    case CheckRated(j) => j == i
    case Embed(j, _) => j == i
    case EmbedFails(j) => j == i
    case Lookup(j, _) => j == i
    case WriteCopy(j) => j == i
    case CallModel(j, _, _) => j == i
    case CallFails(j) => j == i
    case Raise(j) => j == i
    case WriteRating(j) => j == i
    case _ => false
  }

  ghost predicate AloneBy(states: seq<State>, actions: seq<Action>, s: State, i: nat, t: State, c: Config) {
    && |states| == |actions| + 1 && states[0] == s && states[|actions|] == t
    && forall k :: 0 <= k < |actions| ==>
         Own(actions[k], i) && Enabled(states[k], actions[k]) && states[k + 1] == Apply(states[k], actions[k], c)
  }

  /** Steps of job i alone take the system from s to t. */
  ghost predicate Alone(s: State, i: nat, t: State, c: Config) {
    exists states: seq<State>, actions: seq<Action> :: AloneBy(states, actions, s, i, t, c)
  }

  lemma AloneMore(s: State, i: nat, t: State, c: Config, a: Action)
    requires Own(a, i) && Enabled(s, a) && Alone(Apply(s, a, c), i, t, c)
    ensures Alone(s, i, t, c)
  {
    var states, actions :| AloneBy(states, actions, Apply(s, a, c), i, t, c);
    assert AloneBy([s] + states, [a] + actions, s, i, t, c);
  }

  lemma AloneOnce(s: State, i: nat, c: Config, a: Action)
    requires Own(a, i) && Enabled(s, a)
    ensures Alone(s, i, Apply(s, a, c), c)
  {
    assert AloneBy([s, Apply(s, a, c)], [a], s, i, Apply(s, a, c), c);
  }

  /** Job i over, and the tables as they are given. */
  function Done(s: State, i: nat, tables: Tables): State
    requires i < |s.jobs|
  {
    Move(s, i, Over, tables)
  }

  lemma MovedTwice(s: State, i: nat, phase: Phase, tables: Tables, phase': Phase, tables': Tables)
    requires i < |s.jobs|
    ensures Move(Move(s, i, phase, tables), i, phase', tables') == Move(s, i, phase', tables')
  {
    var job := s.jobs[i];
    assert s.jobs[i := job.(phase := phase)][i := job.(phase := phase')] == s.jobs[i := job.(phase := phase')];
  }

  /** From the model call on. */
  lemma CallsAlone(s: State, i: nat, keys: set<string>, reply: Option<Rating>, c: Config)
    requires At(s, i, Calling)
    ensures Alone(s, i, Done(s, i, Called(s.tables, s.jobs[i].hash, s.jobs[i].model, keys, reply).0), c)
  {
    var job := s.jobs[i];
    if !Resolves(job.model, keys) {
      AloneOnce(s, i, c, Raise(i));
    } else if reply.None? {
      AloneOnce(s, i, c, CallFails(i));
    } else {
      var next := Apply(s, CallModel(i, reply.value, keys), c);
      var end := Called(s.tables, job.hash, job.model, keys, reply).0;
      AloneOnce(next, i, c, WriteRating(i));
      MovedTwice(s, i, Writing(reply.value), next.tables, Over, end);
      AloneMore(s, i, Done(s, i, end), c, CallModel(i, reply.value, keys));
    }
  }

  lemma CopiesAlone(s: State, i: nat, d: nat, c: Config)
    requires At(s, i, Embedded) && d < |s.tables.ratings| && Donor(s.tables, d, s.jobs[i].hash, c)
    ensures var job := s.jobs[i];
      var row := RatingRow(job.hash, "cache:" + job.model, s.tables.ratings[d].rating);
      Alone(s, i, Done(s, i, InsertRating(s.tables, row)), c)
  {
    var job, rating := s.jobs[i], s.tables.ratings[d].rating;
    var end := InsertRating(s.tables, RatingRow(job.hash, CACHE + job.model, rating));
    AloneOnce(Apply(s, Lookup(i, Some(d)), c), i, c, WriteCopy(i));
    MovedTwice(s, i, Copying(rating), s.tables, Over, end);
    AloneMore(s, i, Done(s, i, end), c, Lookup(i, Some(d)));
  }

  /** A first step a, after which job i alone ends with these tables. */
  lemma FirstAlone(s: State, i: nat, a: Action, phase: Phase, tables: Tables, end: Tables, c: Config)
    requires i < |s.jobs| && Own(a, i) && Enabled(s, a) && Apply(s, a, c) == Move(s, i, phase, tables)
    requires Alone(Move(s, i, phase, tables), i, Done(Move(s, i, phase, tables), i, end), c)
    ensures Alone(s, i, Done(s, i, end), c)
  {
    MovedTwice(s, i, phase, tables, Over, end);
    AloneMore(s, i, Done(s, i, end), c, a);
  }

  /** On to the model call by step a. */
  lemma MissesAlone(s: State, i: nat, a: Action, keys: set<string>, reply: Option<Rating>, c: Config)
    requires i < |s.jobs| && Own(a, i) && Enabled(s, a) && Apply(s, a, c) == Move(s, i, Calling, s.tables)
    ensures Alone(s, i, Done(s, i, Called(s.tables, s.jobs[i].hash, s.jobs[i].model, keys, reply).0), c)
  {
    CallsAlone(Move(s, i, Calling, s.tables), i, keys, reply, c);
    FirstAlone(s, i, a, Calling, s.tables, Called(s.tables, s.jobs[i].hash, s.jobs[i].model, keys, reply).0, c);
  }

  lemma LooksUpAlone(s: State, i: nat, nearest: Option<nat>, keys: set<string>, reply: Option<Rating>, c: Config)
    requires At(s, i, Embedded) && Enabled(s, Lookup(i, nearest))
    ensures var job := s.jobs[i];
      Alone(s, i, Done(s, i, Looked(s.tables, job.hash, job.model, keys, nearest, reply, c).0), c)
  {
    if nearest.Some? && Donor(s.tables, nearest.value, s.jobs[i].hash, c) {
      CopiesAlone(s, i, nearest.value, c);
    } else {
      MissesAlone(s, i, Lookup(i, nearest), keys, reply, c);
    }
  }

  lemma UnratedAlone(s: State, i: nat, embedder: Option<string>, keys: set<string>, vector: Option<Vector>,
                     nearest: Option<nat>, reply: Option<Rating>, c: Config)
    requires At(s, i, Unrated) && !Rated(s.tables, s.jobs[i].hash)
    requires nearest.Some? ==>
      nearest.value < |s.tables.ratings| && s.tables.ratings[nearest.value].hash != s.jobs[i].hash
    ensures var job := s.jobs[i];
      Alone(s, i, Done(s, i, Task(s.tables, job.hash, job.model, embedder, keys, vector, nearest, reply, c).0), c)
  {
    var job := s.jobs[i];
    if LookupRaises(embedder, job.hash in s.tables.embeddings, keys) {
      AloneOnce(s, i, c, Raise(i));
    } else if embedder.None? || (job.hash !in s.tables.embeddings && vector.None?) {
      MissesAlone(s, i, EmbedFails(i), keys, reply, c);
    } else {
      var v := if job.hash in s.tables.embeddings then s.tables.embeddings[job.hash] else vector.value;
      var probed := Probed(s.tables, job.hash, embedder, vector, keys);
      assert Apply(s, Embed(i, v), c) == Move(s, i, Embedded, probed);
      LooksUpAlone(Move(s, i, Embedded, probed), i, nearest, keys, reply, c);
      FirstAlone(s, i, Embed(i, v), Embedded, probed,
        Looked(probed, job.hash, job.model, keys, nearest, reply, c).0, c);
    }
  }

  /**
   A job whose steps nothing comes between leaves the tables as the task does, whatever the providers answer
   and whichever row the index finds.
   */
  lemma JobAlone(s: State, i: nat, embedder: Option<string>, keys: set<string>, vector: Option<Vector>,
                 nearest: Option<nat>, reply: Option<Rating>, c: Config)
    requires At(s, i, Begun)
    requires nearest.Some? ==>
      nearest.value < |s.tables.ratings| && s.tables.ratings[nearest.value].hash != s.jobs[i].hash
    ensures var job := s.jobs[i];
      Alone(s, i, Done(s, i, Task(s.tables, job.hash, job.model, embedder, keys, vector, nearest, reply, c).0), c)
  {
    var job := s.jobs[i];
    if Rated(s.tables, job.hash) {
      AloneOnce(s, i, c, CheckRated(i));
    } else {
      UnratedAlone(Move(s, i, Unrated, s.tables), i, embedder, keys, vector, nearest, reply, c);
      FirstAlone(s, i, CheckRated(i), Unrated, s.tables,
        Task(s.tables, job.hash, job.model, embedder, keys, vector, nearest, reply, c).0, c);
    }
  }

  /** An embedding job stores its content's first embedding and touches nothing else. */
  lemma EmbedSignalStores(s: State, hash: nat, v: Vector, c: Config)
    ensures var t := Apply(s, EmbedSignal(hash, v), c);
      && t.jobs == s.jobs && t.tables.ratings == s.tables.ratings && t.tables.calls == s.tables.calls
      && t.tables.embeddings == if hash in s.tables.embeddings then s.tables.embeddings
                                else s.tables.embeddings[hash := v]
  {
  }
}
