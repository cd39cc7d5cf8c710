# Verified model of the influencer-intelligence system

A Dafny 4.11 model of the parts of the repository whose correctness is an argument about many
processes, many runs or arbitrary inputs, with proofs of what they promise. `dafny verify
dfyconfig.toml` checks all of it.

| files | what they model |
|---|---|
| `RunProtocol`, `RunInvariant`, `RunTheorems`, `RunRetries`, `RunWorker` | the fan-out/fan-in protocol over a `runs` row: API, dispatcher, scrape tasks, chord callback, rating jobs with retries, sweep, over any number of runs. Each SQL commit, enqueue and publish is one atomic action and any interleaving is a schedule. `RunWorker` is the worker's code itself, each method proved against the protocol |
| `RunEnvironment`, `RunChannel` | the same protocol when `RATING_MODEL` changes between steps or jobs die uncounted, and when `done` is the last message |
| `RunStream`, `RunReaders` | the SSE reader (subscribe, read the row, relay) composed with that protocol, over finite and infinite schedules, and a reader with the two first steps swapped |
| `Scrape`, `Watermark`, `WatermarkLimit` | a scrape over a transaction, the watermark under overlapping, failing and late runs, and what the limit on a fetch costs |
| `RatingCache`, `RatingJobs` | where copied ratings come from, under concurrent rating and embedding jobs |
| `Clusters`, `ClusterTheorems` | greedy threshold clustering against a declarative form |
| `Fusion`, `HybridSearch` | reciprocal rank fusion and the search around it |
| `AgentLoop`, `AgentTheorems`, `AgentReplies` | the ReAct loop, in its Python and its TypeScript version |
| `MigrationFile`, `Migrate`, `MigrateTheorems`, `MigrateVersions`, `MigrateNames` | dbmate file parsing and the migration applier across crashes and deployments |
| `Chat`, `ChatTheorems`, `ChatAcks`, `ChatSessions`, `ChatRecipients`, `ChatGateway`, `ChatHistory` | the chat gateway: instances on a broadcast bus, idempotent sends, cursor pagination |
| `Common`, `Sorting` | totals over sequences, and sorting with what makes its result unique |

State that the source updates in place is a class with specified methods (`RunWorker.Worker`,
`Scrape.Connection`, `RatingJobs.RatingStore`, `Migrate.Database`, `ChatGateway.Backend` and
`Gateway`); loops are loops with invariants; protocols are state machines whose theorems hold of
every execution.

## What is assumed of the environment

- Each header task of a run's chord executes once, and the callback fires once after all of them
  returned. The counters are not idempotent under redelivery.
- Database and Redis calls do not fail part way through a task. `rate_caption` returns a rating or raises
  `RatingError`, `embed_text` returns a vector or raises `EmbeddingError`, and each raises `ValueError` for
  a model name that does not resolve. In the protocol (the step `Die`) the cache lookup and the model
  call may each end a job by an exception of any kind, so its theorems do not rest on this.
- A live fetch returns the published posts whose stamp, the whole second of the moment they appeared,
  is in or after the watermark's second; other readings of the filter are `Watermark.RunStoresExactly`.
- One bus order: every chat instance takes the envelopes published since it subscribed in the same order, none lost;
  writing to a registered socket does not fail; frames are well formed.
- For scroll-back, a message committed after the first page has an id above those of its conversation
  that were committed by then.
- Migration runs do not overlap.

## What the code does not give

- `done` is last for a client (`RunStream.StreamShape`), not on the channel: `RunChannel.DoneLastExactly`
  says when a late delta can follow it, and `RunChannel.LateDeltaReachable` that one can.
- Changing `RATING_MODEL` between a run's scrapes and its fan-in, either way, can strand the run or make
  it publish `done` twice (`RunEnvironment.FanInDecides`, `RunEnvironment.BothMisfits`).
- The documentation of `rate_signal` says that every terminal outcome counts, and that of the cache
  lookup that a failing embedding degrades to the model path. A model name that does not resolve on the
  worker, be it the rating model's or the embedding model's, can end the job uncounted
  (`RunWorker.Worker.RateSignal` says exactly when), which strands a run that waits for it
  (`RunEnvironment.DeadJobStrands`); `RunEnvironment.SteadyEndsWell` says exactly when a run ends.
- A fetch that reaches its limit can lose posts for good (`Watermark.LimitLosesPost`);
  `WatermarkLimit.FetchesComplete` says exactly when every fetch is complete, `WatermarkLimit.FetchesCover`
  when every fetch keeps coverage.
- In live mode `inserted` can exceed the rows stored, and a post without a partition can make the
  scrape lose posts that have one, for good. `Scrape.LiveCount`, `Scrape.LiveStoresAll` and
  `Watermark.RollbackExactly` say exactly when.
- The documentation of `run_agent` lists `done` or `error` as the ending of a turn; `AgentTheorems.EndsOnce`
  says exactly when there is neither.
- A non-transactional migration can run twice (`MigrateTheorems.RepeatsOnlyHalfApplied`), and files
  sharing a version prefix can stay unapplied behind a reported success
  (`MigrateVersions.AllInEffectExactly`, `MigrateVersions.SuccessIsReported`).
- A chat retry that names another conversation is fanned out to that conversation's participants with
  the first message as payload (`ChatRecipients.RecipientsExactly`, `ChatRecipients.RetryReachesStranger`);
  `ChatRecipients.MessagesStayInside` is what holds without such retries.

## Model

| member | source | states |
|---|---|---|
| `RunInvariant.IssuedByRun` | services/worker/worker/tasks.py:59-207 | A step of dispatch, scrape or fan-in leaves the number of a run's messages of any sort (published or still held by a process) as it was, plus the one its commit makes: a publish moves a message, it never makes or loses one |
| `RunInvariant.IssuedByJob` | services/worker/worker/tasks.py:324-371 | The same for the steps of the run's rating jobs: only the announce commit makes a message |
| `RunInvariant.CountingByRun` | services/worker/worker/tasks.py:59-123 | Every step of dispatch, scrape and fan-in keeps done_count equal to the counted tasks, inserted to their new items, rated_count to the announced jobs, and the jobs, dead ones included, to what was enqueued |
| `RunInvariant.ControlByRun` | services/worker/worker/tasks.py:129-207 | Every such step keeps the status in agreement with where the processes stand; fan-in only with all tasks returned, `rating` only while some rating is missing |
| `RunInvariant.MessagesByRun` | services/worker/worker/tasks.py:109-122 | Every such step keeps: one delta for each committed count, fan-in and bump, carrying that commit's values; and as many `done` made as the row says, one with a terminal status and one more for every bump after a fan-in that completed the run reading rating as off |
| `RunInvariant.AnnounceRoom` | services/worker/worker/tasks.py:324-355 | A job about to announce finds rated_count still below inserted, and its run completed only if the fan-in read rating as off |
| `RunInvariant.RunStepKeeps` | services/worker/worker/tasks.py:59-207 | The whole invariant of a run survives every step of its own dispatch, scrape tasks and fan-in |
| `RunInvariant.JobStepKeeps` | services/worker/worker/tasks.py:213-272 | and every step of its rating jobs, whatever the retries, a job that dies uncounted included |
| `RunInvariant.InvStep` | services/worker/worker/tasks.py:386-412 | The invariant of all runs at once survives every action of every process, sweeps and other runs included |
| `RunInvariant.InvHolds` | services/worker/worker/tasks.py:59-412 | So it holds in every state of every schedule |
| `RunTheorems.CountersMatch` | services/worker/worker/tasks.py:83-99 | In every reachable state done_count <= total, rated_count <= inserted, and unannounced jobs plus rated_count are the jobs that have not died; with the dead ones these are the inserted items if the tasks read rating as on, none if they read it as off |
| `RunTheorems.AtMostOneDone` | services/worker/worker/tasks.py:161-206 | No interleaving of fan-in, rating jobs, retries, sweeps and changes of RATING_MODEL puts two `done` on a run's channel, if its fan-in read rating as on or what it read fits the run's jobs |
| `RunTheorems.UnfinishedCanStep` | services/worker/worker/tasks.py:257-272 | Nothing blocks: while any process of a run is unfinished, some step of the run is enabled |
| `RunTheorems.DrainedIffStuck` | services/worker/worker/tasks.py:342-355 | A run has no enabled step exactly when all its processes have finished |
| `RunTheorems.NoRunStranded` | services/worker/worker/tasks.py:161-185 | A run with no enabled step has ended (completed or failed, finished_at set, done_count == total, every job that did not die counted, exactly one `done`) if and only if what its fan-in read fits its jobs; otherwise it is stranded in `rating` without `done`, or has published it at least twice |
| `RunTheorems.Descends` | services/worker/worker/tasks.py:94-99 | A lexicographic measure (dispatch steps, tasks to count, work left over tasks, fan-in and attempts of jobs up to max_retries) strictly falls with every step of the run and no other step touches it |
| `RunTheorems.EveryScheduleDrains` | services/worker/worker/tasks.py:257-272 | Every infinite schedule takes only finitely many steps of a given run, however many sweeps and other runs there are |
| `RunTheorems.FairRunEnds` | services/worker/worker/tasks.py:339-355 | Under a fair schedule every run drains, and ends as NoRunStranded says |
| `RunEnvironment.SteadyEndsWell` | services/worker/worker/tasks.py:160-168 | A run with a model of its own, or whose fan-in read of RATING_MODEL what its scrape tasks had read, has at most one `done` at any moment; once stuck it has ended, with exactly one, if and only if it failed, its fan-in read rating as off, or none of its jobs died; rated_count and the dead jobs make up inserted (or nothing, rating off) |
| `RunEnvironment.ConstantIsSteady` | services/worker/worker/tasks.py:94-99 | While RATING_MODEL does not change every run's readings agree in this sense |
| `RunEnvironment.FanInDecides` | services/worker/worker/tasks.py:160-168 | Whatever the variable does in between: a run that drains ends well if and only if at its fan-in every scrape had failed, or the refresh had, or rating was on, the jobs were the inserted items and none died later, or rating was off and just the jobs left to count died later; else it is stranded without `done` (on) or has two or more (off) |
| `RunEnvironment.BothMisfits` | services/worker/worker/tasks.py:94-99 | Both happen: from a reachable state, setting the variable between scrape and fan-in, and unsetting it, each lead to a fan-in that does not fit |
| `RunEnvironment.DeadJobStrands` | services/worker/worker/tasks.py:228-297 | A reachable run left in `rating`, with no step left and no `done`, by a job that died of a name that does not resolve on the worker: not every terminal outcome counts |
| `RunChannel.DoneLastExactly` | services/worker/worker/tasks.py:188-207 | With the scrapes back and the fan-in due, `done` ends the run's channel in every schedule from here if and only if no rating job of the run has a step left |
| `RunChannel.DoneLastWithoutJobs` | services/worker/worker/tasks.py:161-206 | While no job of the run has been delivered, that is exactly when it has none: rating was off, or nothing was inserted |
| `RunChannel.LateDeltaReachable` | services/worker/worker/tasks.py:342-371 | It happens: a reachable state from which a schedule publishes a delta after the `done` |
| `RunTheorems.LifecycleOrder` | services/worker/worker/tasks.py:164-178 | Between any two moments of a run the status never moves back, terminal statuses and finished_at stay, started_at once set stays, counters never shrink, and finished_at is set exactly in a terminal status |
| `RunTheorems.HistoryPrefix` | services/worker/worker/tasks.py:70-88 | Committed versions of the row are never rewritten: any later history extends any earlier one |
| `RunWorker.Worker.CreateRun` | services/api/api/main.py:359-386 | The API rejects a model name that does not resolve and changes nothing; otherwise it inserts one queued row with the counted total and asks for its dispatch, and the state stays reachable |
| `RunWorker.Worker.DispatchRun` | services/worker/worker/tasks.py:494-532 | The total is trued up to the number of influencers and one waiting header task per influencer is launched |
| `RunWorker.Worker.EnqueueAll` | services/worker/worker/tasks.py:94-99 | With a model in play exactly one job per new item, in order, tagged with the run; without one, nothing |
| `RunWorker.Worker.ScrapeInfluencer` | services/worker/worker/tasks.py:59-123 | A whole scrape task: the row's two updates, the rating and embedding jobs, one progress delta echoing the second commit, and a result that reports the error |
| `RunWorker.Worker.Errors` | services/worker/worker/tasks.py:140-141 | `failed` exactly when there is a result and every one carries an error |
| `RunWorker.Worker.FinalizeRun` | services/worker/worker/tasks.py:129-207 | Fan-in: failed iff all scrapes or the refresh failed, rating iff ratings are missing, else completed; finished_at iff terminal; counters untouched; one message with its rate_total, `done` iff terminal |
| `RunWorker.Worker.AnnounceRating` | services/worker/worker/tasks.py:324-371 | A job without a run is silent; any other bumps its run once, and its message is `done` exactly when that bump took a `rating` run to rated_count == inserted |
| `RunWorker.Worker.RateSignal` | services/worker/worker/tasks.py:213-297 | One delivery goes back to the queue, with one more retry and nothing counted, if and only if the hash is unrated, no name raises, the lookup misses, the model fails and retries are left; it dies, counted nowhere, if and only if the hash is unrated and either embeddings are on, none is stored and EMBEDDING_MODEL does not resolve, or the lookup misses and the model's name does not resolve; else it ends and bumps its run by exactly one. The hash gets rated exactly by a hit or an answer |
| `RunWorker.Worker.RateUntilCounted` | services/worker/worker/tasks.py:257-272 | If the model's name resolves, and EMBEDDING_MODEL does unless it is unset or the embedding is stored, then the first delivery that finds or gets a rating, or else the fourth, ends the job, and it has counted exactly once; the hash is rated exactly if it was or that delivery found or got a rating |
| `RunRetries.RetriedExactly` | services/worker/worker/tasks.py:259-266 | A step of a job puts it back on the queue, one retry more, if and only if it is a RatingError with fewer than three retries behind it; no other step changes retries |
| `RunRetries.GivesUpLast` | services/worker/worker/tasks.py:216-272 | Over every schedule: a job meets at most four RatingErrors, one that can still try has had a retry for each, and one that counts while its hash is unrated has had all four |
| `RunWorker.Worker.SweepUnrated` | services/worker/worker/tasks.py:386-412 | Without RATING_MODEL the sweep is disabled; else it enqueues one runless job per hash it picked; it touches no run |
| `RunStream.Gen` | services/api/api/main.py:441-471 | The generator's whole output: an error, or snapshot and `done` of a terminal row, or snapshot and the channel from the subscription up to its first `done`; and it is what the reader's steps produce |
| `RunStream.SystemStep` | services/api/api/main.py:441-465 | Readers' and backend's steps, in any interleaving, keep every reader's relation to the run's log |
| `RunStream.SubscribesAtEnd` | services/api/api/main.py:441-444 | A client is relayed only what was published after it subscribed |
| `RunStream.StreamShape` | services/api/api/main.py:441-465 | At every moment a stream is empty, an error, or a snapshot followed by deltas; `done` occurs once at most, as the last event, and the stream is closed exactly then |
| `RunStream.NoLostUpdate` | services/api/api/main.py:441-465 | The message of every announced commit newer than the client's snapshot is held by exactly one process, or is once on the channel, on the part the client relays; and what it relayed so far is exactly that part |
| `RunStream.DoneLiesAhead` | services/api/api/main.py:454-465 | Once a run has drained, its `done` is ahead of every client still relaying |
| `RunStream.ClosedWithFinalStatus` | services/api/api/main.py:449-465 | The last event of a closed stream carries the terminal status the row has kept |
| `RunReaders.EveryClientCloses` | services/api/api/main.py:441-465 | In an infinite schedule fair to a run and to its client the run drains, and if it published `done` the client closes with the snapshot, its deltas and one `done`, last, carrying the status the run ended with |
| `RunReaders.SwappedOrderLosesDone` | services/api/api/main.py:444-446 | A client that read the row before subscribing, and subscribed after the `done`, never gets `done` in any continuation |
| `RunReaders.SwappedOrderFrom` | services/api/api/main.py:444-446 | Such a client can come about in every state where a fan-in is due and no job is left: peek, fan-in, subscribe |
| `RunReaders.SwappedOrderHappens` | services/api/api/main.py:444-446 | and does in an execution from the initial state: the channel ends in `done`, and the client, with just its snapshot, waits on |
| `Scrape.Connection.InsertSignal` | packages/core/common/signals.py:22-44 | The upsert fails for want of a partition, or finds the row among committed and own rows, or, only for a row that is new, fails for want of its influencer, or inserts it; only that changes anything |
| `Scrape.Connection.ScrapeLive` | services/worker/worker/scrape.py:84-112 | The post loop with its rollbacks, the commit, and the watermark set to the run's start: committed rows, items, count and watermark all fixed. It raises, with nothing committed, exactly when the influencer is gone and some post is new |
| `Scrape.Connection.ScrapeDemo` | services/worker/worker/scrape.py:115-142 | The demo loop, a commit an item, ended by the first item without a partition, or by an exception exactly when the influencer is gone and some item is new |
| `Scrape.DemoCount` | services/worker/worker/scrape.py:133-141 | A demo scrape stores the rows up to the first uncovered item and reports exactly the new ones |
| `Scrape.DemoExactly` | services/worker/worker/scrape.py:133-141 | The items a demo scrape reports are, in order, hash and caption of each item that is new, comes before any item without a partition, and is the first of its row |
| `Scrape.RowsExactly` | services/worker/worker/scrape.py:86-100 | The rows of a batch are those of its dated posts, by influencer, payload hash and timestamp |
| `Scrape.StoredAfterCut` | services/worker/worker/scrape.py:86-107 | A live batch stores the new rows after its last uncovered post, and none before it |
| `Scrape.LiveCount` | services/worker/worker/scrape.py:99-112 | `inserted` equals the rows stored if and only if no new post precedes an uncovered one |
| `Scrape.LiveStoresAll` | services/worker/worker/scrape.py:99-107 | Everything fetched that has a partition is stored if and only if each new post before an uncovered one comes again after it |
| `Scrape.StoredHaveItems` | services/worker/worker/scrape.py:101-103 | Every row stored has its item, so its content goes on to be rated |
| `Scrape.ItemsExactly` | services/worker/worker/scrape.py:86-107 | The items of a live scrape are, in order, hash and caption of each post that is new and whose row no earlier post has, unless a post without a partition came between and rolled that one back |
| `Watermark.StoreKeeps` | services/worker/worker/scrape.py:86-107 | Storing a batch whose rollback loses nothing keeps all that coverage rests on |
| `Watermark.AdvanceKeeps` | services/worker/worker/scrape.py:109-111 | Overwriting the watermark with the run's start, forward or back, keeps coverage |
| `Watermark.StepKeeps` | services/worker/worker/tasks.py:506-524 | and so does every publish, dispatch, fetch and failure of overlapping runs |
| `Watermark.WatermarkCovers` | services/worker/worker/scrape.py:65-112 | Over every sequence of overlapping, failing and late runs whose fetches are complete and whose rollbacks lose nothing: a post with a partition that appeared before the watermark, or any value it ever had, and not before any watermark-less run's start, has its row, although its stamp may lie before the watermark |
| `Watermark.FiltersExactly` | services/worker/worker/scrape.py:76-80 | A floored watermark lets pass what appeared in its second or later; with that second excluded, what appeared in a later one; sent as it is, what appeared in a second that began no earlier |
| `Watermark.FailureIsFinal` | services/worker/worker/tasks.py:78-84 | A run that fails has written neither rows nor watermark by it, and does nothing afterwards |
| `Watermark.StrictFilterCovers` | services/worker/worker/scrape.py:76-80 | If the fetch excludes the watermark's whole second, the same for every post that appeared in no earlier watermark's second |
| `Watermark.RunStoresExactly` | services/worker/worker/scrape.py:76-107 | What a run gets of its own window: always a post that appeared in it if the floored second is included; exactly outside that second if it is excluded; exactly when its whole second is not before the watermark if that were sent unfloored |
| `Watermark.OtherFiltersLosePost` | services/worker/worker/scrape.py:76-80 | With either of the other two filters a whole execution in which a post between two watermarks is lost |
| `Watermark.CoverageExactly` | services/worker/worker/scrape.py:99-111 | In any state, whatever was fetched: once a run has stored and advanced, coverage holds if and only if every post that is then wanted and had no row has the row of a post after the batch's last uncovered one |
| `Watermark.NeededInWindow` | services/worker/worker/scrape.py:76-111 | Where coverage held, such posts appeared between the watermark the run went by and its start, and pass its filter |
| `Watermark.RollbackExactly` | services/worker/worker/scrape.py:99-111 | After a complete fetch, storing and advancing keeps coverage if and only if the batch's rollback loses none of them |
| `Watermark.RollbackLosesPost` | services/worker/worker/scrape.py:104-107 | A concrete run in which one uncovered post makes a covered, wanted post be lost while the watermark passes it |
| `Watermark.LimitLosesPost` | services/worker/worker/scrape.py:71-75 | With one post more in the window than resultsLimit allows, an execution in which a wanted post is lost |
| `WatermarkLimit.FetchesComplete` | services/worker/worker/scrape.py:71-82 | Every batch of distinct dated posts the platform may answer with is complete if and only if the posts that pass the filter are at most resultsLimit |
| `WatermarkLimit.FetchesCover` | services/worker/worker/scrape.py:65-112 | For a run about to fetch by a watermark: fetching, storing and advancing keeps coverage whatever the platform answers, if and only if nothing is needed of it or there is room: no passing post lacks a partition, and for each needed post fewer than resultsLimit passing posts have another row. Without a watermark it always does |
| `WatermarkLimit.RoomyRunsCover` | services/worker/worker/scrape.py:65-112 | Over every sequence of overlapping, failing and late runs whose fetches by a watermark have room for all that passes, none of it without a partition, WatermarkCovers holds: the guard is a count before each fetch |
| `RatingCache.TagsAreNotModels` | packages/core/common/rating.py:88-103 | No model name that resolves starts with `cache:`, and no `cache:` tag resolves: the tag separates copies from model answers |
| `RatingCache.ResolveExactly` | packages/core/common/rating.py:60-103 | A model's name resolves if and only if it is a provider of the list, a slash and something after it, with the provider's key there unless it is ollama; so does an embedding model's, by its own list |
| `RatingCache.ChainFrom` | services/worker/worker/tasks.py:303-321 | If every row is a model's answer or a near copy of an earlier row, each row has a chain back to a model's answer |
| `RatingCache.ChainDescends` | services/worker/worker/tasks.py:316-321 | Rows along a chain get strictly earlier and carry the same rating, so there is no cycle |
| `RatingCache.InsertSourced` | packages/core/common/rating.py:214-223 | First writer wins: writing a model's answer or a near copy keeps every row sourced and every old row as it was |
| `RatingJobs.TablesStep` | services/worker/worker/tasks.py:247-272 | No step of any rating or embedding job changes or removes a written row, and every row stays sourced |
| `RatingJobs.InvStep` | services/worker/worker/tasks.py:286-321 | What a job saw at its lookup stays good until it writes, whatever other jobs do in between |
| `RatingJobs.RowsNeverChange` | packages/core/common/embedding.py:189-201 | Between any two moments ratings and embeddings only gain rows, so a stored distance never changes |
| `RatingJobs.Provenance` | services/worker/worker/tasks.py:286-321 | In every reachable store each `cache:` row has a chain of strictly earlier rows with its rating, each hop within the cache distance, ending at a model's answer; a row has no such chain beyond itself exactly when it has no tag |
| `RatingJobs.EveryRatingWasReturned` | services/worker/worker/tasks.py:247-272 | Every stored rating is one a model call returned, for an untagged row the call for its own hash and model |
| `RatingJobs.RatingStore.InsertRatingRow` | packages/core/common/rating.py:214-223 | insert_rating: appended when the hash is new, otherwise nothing changes and the caller is told |
| `RatingJobs.RatingStore.Lookup` | services/worker/worker/tasks.py:275-321 | It raises exactly when embeddings are on, the content has none stored and EMBEDDING_MODEL does not resolve; else a rating comes back exactly when there is a vector and a neighbour other than the content itself within the distance, and it is that neighbour's; a new embedding is stored on a miss too, a stored one is not computed again |
| `RatingJobs.RatingStore.RateSignal` | services/worker/worker/tasks.py:237-272 | The whole task against the tables: which outcome when, the ValueError of either name that does not resolve included, exactly which row each outcome adds, and every row still sourced |
| `RatingJobs.JobAlone` | services/worker/worker/tasks.py:237-321 | A job of the concurrent model whose steps nothing comes between leaves the tables exactly as that task does, whatever the providers answer and whichever neighbour the index finds |
| `RatingJobs.EmbedSignalStores` | services/worker/worker/tasks.py:418-450 | An embedding job stores the first embedding of its content and touches nothing else |
| `Clusters.Absorb` | packages/core/common/clusters.py:85-93 | The inner loop takes exactly the rows whose hash this seed owns, one row a hash, in order |
| `Clusters.GreedyCluster` | packages/core/common/clusters.py:69-94 | For any rows, also ones that repeat a hash, the nested loops with their set of assigned hashes compute the declarative clusters: a row is a seed iff no earlier seed claims its hash by a near row, and a seed's members are itself and the first near row of each hash it is the first seed to claim |
| `Clusters.Topics` | packages/core/common/clusters.py:103-109 | The loop with its set of seen topics collects the deduplicated topics of the members |
| `ClusterTheorems.TopicsByAppearance` | packages/core/common/clusters.py:103-109 | The topics of a theme are those of its members, each once, and one comes before another exactly by where they first come up: an earlier member, or earlier at the same one |
| `Clusters.SignalClusters` | packages/core/common/clusters.py:178-213 | The themes are the clusters in prominence order cut to max_themes, and `clustered` says whether there were rows |
| `ClusterTheorems.ThemesPartition` | packages/core/common/clusters.py:79-94 | Every hash is in exactly one place of exactly one cluster and every member is an input row |
| `ClusterTheorems.ThemesGeometry` | packages/core/common/clusters.py:82-93 | Heads have their cluster's highest relevance, members lie within the threshold of their head, and all of a cluster lies farther than the threshold from every earlier head |
| `ClusterTheorems.ThemesOrderFree` | packages/core/common/clusters.py:74-94 | Any permutation of distinct-hash rows gives the identical clusters, for any distance function |
| `ClusterTheorems.ThemesInOrder` | packages/core/common/clusters.py:79-94 | Clusters come by their heads, and members within a cluster, by falling relevance and, at equal relevance, rising hash |
| `ClusterTheorems.TopThemesAreProminent` | packages/core/common/clusters.py:197-204 | As many themes as asked for or as exist are kept. Along them, and from them to every dropped one, sizes never increase; at equal size the sums of relevance never increase; at equal sums the head hashes ascend |
| `ClusterTheorems.SumsMembers` | packages/core/common/clusters.py:200-200 | That sum is additive over the members, so the same in any order of them |
| `Sorting.SortStable` | packages/core/common/clusters.py:197-203 | The sort is stable: elements that tie keep their order |
| `Fusion.Accumulate` | packages/core/common/search.py:56-60 | The nested loops leave in the dictionary exactly the listed ids, each with the sum of 1/(k+rank) over its places |
| `Fusion.Fuse` | packages/core/common/search.py:46-63 | The result holds each listed id once with its closed-form score, by score descending and at equal scores by id ascending |
| `Fusion.ListScoreSplits` | packages/core/common/search.py:56-60 | What a list gives an id is what its parts give, the second part ranked after the first, and one place gives 1/(k+1): so the sum of 1/(k+rank) over the id's places |
| `HybridSearch.FusionDetermined` | packages/core/common/search.py:61-63 | Lists with the same ids and scores have one and the same fusion |
| `HybridSearch.FusionForgetsOrder` | packages/core/common/search.py:159-162 | Reordering the lists, or dropping empty ones as hybrid_search does, gives the identical ranking |
| `HybridSearch.SingleListKeepsOrder` | packages/core/common/search.py:148-150 | A single duplicate-free list comes back in its own order |
| `HybridSearch.Corroboration` | packages/core/common/search.py:46-63 | For candidate lists of at most P ids every document found by both halves strictly outscores every document found by one, if and only if P < k + 2; so at the defaults 50 and 60 |
| `HybridSearch.Search` | packages/core/common/search.py:138-173 | hybrid_search: the fusion of the two halves cut to the limit, rows that vanished skipped, each hit with its sources |
| `HybridSearch.HitsTell` | packages/core/common/search.py:157-172 | The hits are, in order and each once, the fused entries within the limit that still have a row; each shows that row, its score, and exactly the halves that found it, lexical first |
| `HybridSearch.CorroboratedFirst` | packages/core/common/search.py:155-172 | With P < k + 2 the hits found by both halves come before all others, wherever the limit cuts and whatever rows vanished |
| `HybridSearch.LexicalOnly` | packages/core/common/search.py:148-172 | Without an embedding the hits are the first `limit` lexical candidates that still have a row, in order |
| `AgentLoop.ReadReply` | services/agent/agent/loop.py:122-127 | Streaming a turn yields its text deltas in order and keeps the last final message |
| `AgentLoop.RunTools` | services/agent/agent/loop.py:139-158 | The tool loop yields a use and its result for every tool_use block, collects the encoded results, and stops where encoding raises or a tool escapes the handler |
| `AgentLoop.RunAgent` | services/agent/agent/loop.py:118-161 | The Python generator yields the events of the specified conversation and raises exactly when that crashes |
| `AgentLoop.RunAgentTypeScript` | services/agent-ts/src/loop.ts:124-182 | So does the TypeScript generator, a thrown null or undefined escaping its handler included |
| `AgentTheorems.EndsOnce` | services/agent/agent/loop.py:121-161 | For any model and tools: at most max_turns model calls, and one ending, last, saying how many calls there were or why it stopped. There is none if and only if the reply to the last prompt raises, or the last event is a result the encoder rejects or a use of a tool that escapes the handler |
| `AgentTheorems.EndingsMissing` | services/agent/agent/loop.py:121-158 | A model, an encoder and a tool that each leave the stream without an ending |
| `AgentTheorems.EveryUseAnswered` | services/agent/agent/loop.py:143-150 | Every tool_use event is immediately followed by its tool_result and every tool_result follows its use, with its id and name: ok with the value the tool returned to just the calls shown so far, or not ok with the name and message of what it raised; the one exception is a last use whose own tool escapes the handler |
| `AgentTheorems.TranscriptsTellTheStream` | services/agent/agent/loop.py:133-159 | Every transcript passed to the model is the history and message, then rounds in which each tool_use block is answered once, in order, in the next message; and they hold exactly the uses and encoded results streamed by then, is_error being not ok |
| `AgentReplies.RepliesDecide` | services/agent/agent/loop.py:118-137 | The replies decide the conversation: each prompt but the last was answered with a last final message asking for tools, which the next transcript goes on with; `done` carries the stop reason of the last reply's last final message, other than tool_use; the missing-final error comes exactly without one; the turns run out only on a message asking for tools |
| `AgentReplies.TextIsTheModels` | services/agent/agent/loop.py:122-125 | The text streamed is, piece by piece and in order, all the text deltas of the model's replies and nothing else |
| `AgentTheorems.StreamsCoincide` | services/agent-ts/src/loop.ts:124-182 | With tools alike and models that answer alike what differs only in encoding, the Python and TypeScript agents stream the same events and end the same way |
| `MigrationFile.ParseUp` | packages/core/db/migrate.py:31-47 | The up SQL is what lies between the last up marker before the first down marker and that down marker, stripped; the flag is false if and only if "transaction:false" occurs in that marker's line; it is the ValueError if and only if every up marker comes after a down marker |
| `MigrationFile.MarkersExactly` | packages/core/db/migrate.py:37-41 | A line is an up or a down marker if and only if it begins with the marker's text, but for white space |
| `MigrationFile.StripTrims` | packages/core/db/migrate.py:37-47 | Stripping cuts off all the white space at both ends and nothing else |
| `MigrationFile.SplitLine` | packages/core/db/migrate.py:33-33 | Every break character ends a line, a carriage return together with a line feed that follows it |
| `MigrationFile.LastLine` | packages/core/db/migrate.py:33-33 | Text without a break is one line, and no text has none |
| `MigrationFile.SplitUnlines` | packages/core/db/migrate.py:33-33 | Lines written out with line feeds split back into themselves, whatever text follows |
| `MigrationFile.ReadsBack` | packages/core/db/migrate.py:31-47 | A file written as header, up marker, marker-free body, down marker and anything after parses back to its body, stripped, and is transactional if and only if the marker's line does not contain "transaction:false" |
| `MigrationFile.OrdinaryFiles` | packages/core/db/migrate.py:31-47 | Written with `-- migrate:up` a file reads back as transactional, with `-- migrate:up transaction:false` as not |
| `Migrate.PendingFiles` | packages/core/db/migrate.py:68-69 | The files whose version is not recorded, in order |
| `Migrate.Database.ApplyFile` | packages/core/db/migrate.py:75-85 | One file: effect and record in one commit if transactional, else in two, with a stop after any commit or at a version recorded twice |
| `Migrate.Database.Migrate` | packages/core/db/migrate.py:55-88 | A run over the sorted directory leaves exactly what the specified run leaves, and completes exactly when it does |
| `MigrateTheorems.DeployKeeps` | packages/core/db/migrate.py:66-85 | A run stopped anywhere keeps: recorded versions a prefix of the files, effects in file order, a transactional file's once; and each file it reached ran once more, no other |
| `MigrateTheorems.ExactlyOnceInOrder` | packages/core/db/migrate.py:66-85 | After any number of deployments over a growing directory with distinct versions, each stopped anywhere: recorded versions are a prefix, effects are in file order, each transactional migration took effect exactly once if recorded and never otherwise |
| `MigrateTheorems.RepeatsOnlyHalfApplied` | packages/core/db/migrate.py:83-85 | A run repeats a migration if and only if it commits anything and finds that one half applied, its version next to record |
| `MigrateTheorems.NonTransactionalCanRepeat` | packages/core/db/migrate.py:83-85 | Any non-transactional migration runs twice when a process dies between its two commits |
| `MigrateTheorems.CompletesExactly` | packages/core/db/migrate.py:71-88 | From whatever earlier runs left, a run completes if and only if every pending file parses, no two pending files share a version, and it lives for all their commits |
| `MigrateTheorems.CompletedIsFinal` | packages/core/db/migrate.py:69-73 | After a completed run every further run completes and changes nothing |
| `MigrateVersions.AllInEffectExactly` | packages/core/db/migrate.py:50-88 | Over arbitrary files that parse: some history of deployments, each stopped anywhere, ends with every file in effect and success reported, if and only if wherever two files share a version the later one is not transactional and every file between them has a version of its own |
| `MigrateVersions.TransactionalMustDiffer` | packages/core/db/migrate.py:50-85 | If the files that repeat a version are transactional, that is if and only if all versions differ |
| `MigrateVersions.FirstRunCompletes` | packages/core/db/migrate.py:66-88 | A first run over files that parse can complete if and only if their versions differ |
| `MigrateVersions.SuccessIsReported` | packages/core/db/migrate.py:66-88 | Whatever versions files that parse share, enough further runs end in one that reports success |
| `MigrateTheorems.ListingOrderForgotten` | packages/core/db/migrate.py:61-61 | The order in which the directory lists its files does not matter |
| `MigrateNames.FilesInOrder` | packages/core/db/migrate.py:50-61 | All files of the directory, in the dictionary order of their names, each read under its own name, version and text |
| `MigrateNames.VersionExactly` | packages/core/db/migrate.py:50-52 | The version is the name up to its first underscore, or all of it |
| `MigrateNames.PendingExactly` | packages/core/db/migrate.py:69-69 | The pending files are exactly those whose version is not recorded, in order |
| `ChatTheorems.ConnectDelivery` | services/chat/chat/main.py:212-213 | A new socket replacing an older one, even in the middle of an envelope, keeps every socket's account: what it was pushed is what the bus held for its user while it was registered |
| `ChatTheorems.DeliveryStep` | services/chat/chat/main.py:93-127 | So does every other step of any instance |
| `ChatTheorems.OneRegistry` | services/chat/chat/main.py:93-127 | For any number of instances and any interleaving, a socket's pushes are, in bus order, exactly the envelopes naming its user whose turn there fell while it was the one registered: none missing, none twice, no other |
| `ChatTheorems.StorageStep` | services/chat/chat/main.py:151-195 | Every step keeps ids and (sender, client_msg_id) unique, stored rows stored, and everything on the bus, in flight or on a socket a stored row |
| `ChatTheorems.FramesAreStored` | services/chat/chat/main.py:113-114 | Every message pushed or acked on any socket is a committed row |
| `ChatAcks.AcksExactly` | services/chat/chat/main.py:222-235 | Over every execution the acks on a socket are, one for one and in answering order, the rows of the sends answered on it, each a stored row under that send's sender and key; there are no others |
| `ChatAcks.RetriesAgree` | packages/core/common/models.py:305-308 | However often a key is retried, on whatever sockets or over HTTP: one row is stored under it, and every answer and every ack under the key is that row; ids are unique |
| `ChatTheorems.RowsOnlyGrow` | services/chat/chat/main.py:154-176 | A stored message never changes or goes |
| `ChatSessions.RowsWereSent` | services/chat/chat/main.py:154-165 | Every stored message was committed by a send of that sender, key, conversation and body, under the row's id and time |
| `ChatSessions.BusExactly` | services/chat/chat/main.py:176-250 | The bus is, one for one and in order, the publishes and the typing frames: a publish carries its send's row to all other participants of the conversation its request named, a typing frame its user to those of its conversation |
| `ChatSessions.RegisteredUntil` | services/chat/chat/main.py:212-265 | A connect's socket is the registered one until its user connects to that instance again or it disconnects; the disconnect of an older socket changes nothing |
| `ChatSessions.StartsFresh` | services/chat/chat/main.py:93-101 | An instance takes, and its sockets are pushed, only what came on the bus after its start |
| `ChatRecipients.RecipientsExactly` | services/chat/chat/main.py:154-187 | For a request, whatever the participants table: the recipients are the other participants of the payload's conversation if and only if the key is new or its row has the requested conversation |
| `ChatRecipients.MessagesStayInside` | services/chat/chat/main.py:104-187 | Over all executions in which requests of a sender that reuse a key name one conversation, every message pushed to a socket goes to a participant of its conversation other than its sender |
| `ChatRecipients.RetryReachesStranger` | services/chat/chat/main.py:154-187 | An execution in which a retry naming another conversation pushes the first message to a user who is no participant of its conversation |
| `ChatGateway.Backend.PersistAndFanout` | services/chat/chat/main.py:151-195 | A new key stores the message, a known one returns the first row; either way one envelope with that row goes to the other participants of the request's conversation, which are the row's own if the key is new or its row has that conversation; an unknown sender or conversation stores and sends nothing |
| `ChatGateway.Gateway.DeliverLocal` | services/chat/chat/main.py:104-118 | Each recipient registered here gets the frame once, and no other socket gets anything |
| `ChatGateway.Gateway.Subscriber` | services/chat/chat/main.py:93-101 | Taking the bus to its end pushes to every registered socket exactly what its user was due, in order |
| `ChatHistory.PageIsNewest` | services/chat/chat/main.py:280-302 | A page is in descending id order below the cursor, and any message left out is older than all on it and the page is full |
| `ChatHistory.BelowCursor` | services/chat/chat/main.py:286-299 | Below a message that was there, newer messages change nothing |
| `ChatHistory.NextRequest` | services/chat/chat/main.py:280-302 | Each request continues the conversation, as it was at the first request, exactly where the client left off |
| `ChatHistory.ScrollBack` | services/chat/chat/main.py:280-302 | Following `before` with limit >= 1 under concurrent inserts ends within one request a message and one more, and yields exactly the messages present at the first page, in descending id order, each once |

## Left out

- Fusion.Fuse: exact numbers in place of floats, so rounding of scores and the six-digit rounding in a hit are not captured; ids are numbers ordered like the fixed-length hex hashes they stand for.
- HybridSearch.Search: the two candidate lists and the rows `_hydrate` finds are inputs; full-text ranking, HNSW and the SQL are not modelled.
- Clusters.Topics: the average relevance of a theme is exact and unrounded; the display fields of a theme are not modelled.
- Scrape.Connection.ScrapeLive: starts from the fetched posts; the HTTP call, the payload and its hash are inputs.
- Watermark.WatermarkCovers: one influencer, since each has rows and a watermark of its own; which posts a fetch that reaches its limit leaves out is not fixed.
- WatermarkLimit.FetchesCover: batches with a post twice or without a timestamp, which use up the limit too, are outside it, and no other run steps between its fetch and its watermark; `WatermarkLimit.RoomyRunsCover` allows every interleaving.
- RatingJobs.RatingStore.Lookup: the neighbour query may return any other rated row, not the nearest; provenance needs only the distance test.
- RatingJobs.RatingStore.RateSignal: in the rating store the model call, the embedding call and the neighbour are inputs, and the announcement is the subject of the run protocol instead.
- AgentLoop.RunAgent: a consumer that stops reading early, and a `complete` that mutates the transcript it was passed, are not modelled. JSON values other than strings are opaque, and an encoder yields text or raises.
- Migrate.Database.Migrate: stdout, the exit code without `DATABASE_URL`, and partial effects of a failing non-transactional statement are not modelled.
- ChatTheorems.OneRegistry: the participants table does not change while messages are sent, and an exception in a socket's handler other than its disconnect, which leaves a dead socket registered, is not modelled.
- ChatHistory.ScrollBack: the client's loop is the documented use of the cursor; a negative limit, which the database rejects, is outside the model.
- Error texts of runs, influencer handles and hashes inside deltas: carried along by the code, never decided on.
- Embedding jobs and their sweep appear only as a queue and as writers of the embeddings table.
- Digest endpoints, the MCP server, influencer and source CRUD, API keys, CLIs, configuration, ORM and Alembic: thin wrappers around what is modelled or around nothing.
- JSON and regex parsing of model output, cosine distance, vector literals, tracing, typing throttles: would only add easy members.
- The materialized-view refresh: one bit, whether it failed, which only feeds the fan-in's status.
