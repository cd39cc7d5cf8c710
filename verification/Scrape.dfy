/**
 One influencer's scrape: posts upserted over a database connection, then the watermark advanced.
 */
module Scrape {
  import opened Common

  /** A fetched post: `timestamp` may be missing; `hash` is the hash of its payload. */
  datatype Post = Post(timestamp: Option<int>, hash: nat, caption: string)

  /** The unique key of raw_signals. */
  datatype Row = Row(influencer: nat, hash: nat, capturedAt: int)
  datatype Item = Item(hash: nat, caption: string)
  datatype Insertion = Inserted | Duplicate | CheckViolation | ForeignKeyViolation

  /** A child partition of raw_signals holds the rows captured from `start` up to `end`. */
  datatype Partition = Partition(start: int, end: int)

  predicate Covers(partitions: seq<Partition>, t: int) {
    exists part <- partitions :: part.start <= t < part.end
  }

  predicate Dated(p: Post) {
    p.timestamp.Some?
  }

  function RowOf(influencer: nat, p: Post): Row
    requires Dated(p)
  {
    Row(influencer, p.hash, p.timestamp.value)
  }

  function Rows(influencer: nat, posts: seq<Post>): set<Row> {
    if posts == [] then {}
    else
      var n := |posts| - 1;
      Rows(influencer, posts[..n]) + if Dated(posts[n]) then {RowOf(influencer, posts[n])} else {}
  }

  /** A post for whose month no partition exists. */
  predicate Uncovered(p: Post, partitions: seq<Partition>) {
    Dated(p) && !Covers(partitions, p.timestamp.value)
  }

  /** The uncommitted rows and the collected items after reading some posts of a batch. */
  datatype Progress = Progress(pending: set<Row>, items: seq<Item>)

  function Batch(posts: seq<Post>, influencer: nat, committed: set<Row>, partitions: seq<Partition>): Progress {
    if posts == [] then Progress({}, [])
    else
      var n := |posts| - 1;
      var done, p := Batch(posts[..n], influencer, committed, partitions), posts[n];
      if !Dated(p) then done
      else if Uncovered(p, partitions) then Progress({}, done.items)
      else if RowOf(influencer, p) in committed + done.pending then done
      else Progress(done.pending + {RowOf(influencer, p)}, done.items + [Item(p.hash, p.caption)])
  }

  class Connection {
    const partitions: seq<Partition>
    const influencers: set<nat>
    /** Rows every connection sees, and this transaction's own. */
    var committed: set<Row>
    var pending: set<Row>
    var lastScrapedAt: map<nat, int>

    constructor (partitions: seq<Partition>, influencers: set<nat>)
      ensures this.partitions == partitions && this.influencers == influencers
      ensures committed == {} && pending == {} && lastScrapedAt == map[]
    {
      this.partitions, this.influencers := partitions, influencers;
      committed, pending, lastScrapedAt := {}, {}, map[];
    }

    /** insert_signal: a row needs a partition before it can conflict, and its influencer only once it is new. */
    method InsertSignal(row: Row) returns (result: Insertion)
      modifies this`pending
      ensures var covered := exists part <- partitions :: part.start <= row.capturedAt < part.end;
        result == if !covered then CheckViolation
                  else if row in committed + old(pending) then Duplicate
                  else if row.influencer !in influencers then ForeignKeyViolation else Inserted
      ensures pending == if result == Inserted then old(pending) + {row} else old(pending)
    {
      if !Covers(partitions, row.capturedAt) {
        return CheckViolation;
      }
      if row in committed || row in pending {
        return Duplicate;
      }
      if row.influencer !in influencers {
        return ForeignKeyViolation;
      }
      pending := pending + {row};
      result := Inserted;
    }

    method Commit()
      modifies this`committed, this`pending
      ensures committed == old(committed) + old(pending) && pending == {}
    {
      committed, pending := committed + pending, {};
    }

    method Rollback()
      modifies this`pending
      ensures pending == {}
    {
      pending := {};
    }

    /**
     scrape_influencer_live, from the fetched posts on. A new post of an influencer that is gone ends it
     with an exception and nothing committed.
     */
    method ScrapeLive(influencer: nat, posts: seq<Post>, runTs: int)
      returns (raised: bool, inserted: nat, newItems: seq<Item>)
      requires pending == {}
      modifies this
      ensures pending == {}
      ensures raised <==> influencer !in influencers && !NoneNew(posts, influencer, old(committed), partitions)
      ensures raised ==> committed == old(committed) && lastScrapedAt == old(lastScrapedAt)
      ensures var batch := Batch(posts, influencer, old(committed), partitions);
        !raised ==> committed == old(committed) + batch.pending && newItems == batch.items && inserted == |newItems|
      ensures lastScrapedAt ==
        if !raised && influencer in influencers then old(lastScrapedAt)[influencer := runTs] else old(lastScrapedAt)
    {
      raised, inserted, newItems := false, 0, [];
      for i := 0 to |posts|
        invariant committed == old(committed) && lastScrapedAt == old(lastScrapedAt)
        invariant Progress(pending, newItems) == Batch(posts[..i], influencer, committed, partitions)
        invariant inserted == |newItems|
        invariant influencer !in influencers ==> newItems == []
      {
        assert posts[..i + 1][..i] == posts[..i];
        NoItems(posts[..i], influencer, committed, partitions);
        var p := posts[i];
        if !Dated(p) {
          continue;
        }
        var did := InsertSignal(RowOf(influencer, p));
        match did {
          case Inserted => inserted, newItems := inserted + 1, newItems + [Item(p.hash, p.caption)];
          case Duplicate =>
          case CheckViolation => Rollback();
          case ForeignKeyViolation =>
            assert IsNew(p, influencer, committed, partitions);
            Rollback();
            return true, 0, [];
        }
      }
      assert posts[..|posts|] == posts;
      NoItems(posts, influencer, committed, partitions);
      Commit();
      if influencer in influencers {
        lastScrapedAt := lastScrapedAt[influencer := runTs];
      }
    }

    /** One demo item in its own transaction. */
    method InsertAndCommit(row: Row) returns (result: Insertion)
      requires pending == {}
      modifies this`committed, this`pending
      ensures result == if !Covers(partitions, row.capturedAt) then CheckViolation
                        else if row in old(committed) then Duplicate
                        else if row.influencer !in influencers then ForeignKeyViolation else Inserted
      ensures committed == if result == Inserted then old(committed) + {row} else old(committed)
      ensures pending == {}
    {
      result := InsertSignal(row);
      match result {
        case CheckViolation => Rollback();
        case ForeignKeyViolation => Rollback();
        case _ => Commit();
      }
    }

    /**
     scrape_influencer_demo: every item is its own transaction, and the first one without a partition ends
     it. A new item of an influencer that is gone ends it with an exception.
     */
    method ScrapeDemo(influencer: nat, items: seq<DemoItem>) returns (raised: bool, inserted: nat, newItems: seq<Item>)
      requires pending == {}
      modifies this`committed, this`pending
      ensures raised <==> influencer !in influencers && Demo(items, influencer, old(committed), partitions).1 != []
      ensures raised ==> committed == old(committed)
      ensures var (stored, items') := Demo(items, influencer, old(committed), partitions);
        !raised ==> committed == stored && newItems == items' && inserted == |newItems|
      ensures pending == {}
    {
      raised, inserted, newItems := false, 0, [];
      DemoBegin(items, influencer, committed, partitions);
      for i := 0 to |items|
        invariant pending == {} && inserted == |newItems|
        invariant DemoAt(items, i, influencer, old(committed), committed, newItems, partitions)
        invariant influencer !in influencers ==> newItems == [] && committed == old(committed)
      {
        DemoStep(items, i, influencer, old(committed), committed, newItems, partitions);
        var did := InsertAndCommit(DemoRow(influencer, items[i]));
        match did {
          case Inserted => inserted, newItems := inserted + 1, newItems + [Item(items[i].hash, items[i].caption)];
          case Duplicate =>
          case CheckViolation => return;
          case ForeignKeyViolation => return true, 0, [];
        }
      }
    }
  }

  /** A synthetic signal. */
  datatype DemoItem = DemoItem(hash: nat, capturedAt: int, caption: string)

  function DemoRow(influencer: nat, item: DemoItem): Row {
    Row(influencer, item.hash, item.capturedAt)
  }

  function Demo(items: seq<DemoItem>, influencer: nat, committed: set<Row>, partitions: seq<Partition>)
    : (set<Row>, seq<Item>)
  {
    if items == [] || !Covers(partitions, items[0].capturedAt) then (committed, [])
    else
      var row := DemoRow(influencer, items[0]);
      if row in committed then Demo(items[1..], influencer, committed, partitions)
      else
        var (stored, more) := Demo(items[1..], influencer, committed + {row}, partitions);
        (stored, [Item(items[0].hash, items[0].caption)] + more)
  }

  /** Where the demo loop stands at item i: what it has stored and collected, and that the rest completes it. */
  ghost predicate DemoAt(items: seq<DemoItem>, i: nat, influencer: nat, before: set<Row>, committed: set<Row>,
                         collected: seq<Item>, partitions: seq<Partition>)
  {
    && i <= |items|
    && var rest := Demo(items[i..], influencer, committed, partitions);
       Demo(items, influencer, before, partitions) == (rest.0, collected + rest.1)
  }

  lemma DemoBegin(items: seq<DemoItem>, influencer: nat, before: set<Row>, partitions: seq<Partition>)
    ensures DemoAt(items, 0, influencer, before, before, [], partitions)
  {
    assert items[0..] == items;
    assert [] + Demo(items, influencer, before, partitions).1 == Demo(items, influencer, before, partitions).1;
  }

  lemma DemoStep(items: seq<DemoItem>, i: nat, influencer: nat, before: set<Row>, committed: set<Row>,
                 collected: seq<Item>, partitions: seq<Partition>)
    requires i < |items| && DemoAt(items, i, influencer, before, committed, collected, partitions)
    ensures var item, row := items[i], DemoRow(influencer, items[i]);
      if !Covers(partitions, item.capturedAt) then Demo(items, influencer, before, partitions) == (committed, collected)
      else if row in committed then DemoAt(items, i + 1, influencer, before, committed, collected, partitions)
      else
        && Demo(items, influencer, before, partitions).1 != []
        && DemoAt(items, i + 1, influencer, before, committed + {row},
                  collected + [Item(item.hash, item.caption)], partitions)
  {
    var item, row := items[i], DemoRow(influencer, items[i]);
    assert items[i..][0] == item && items[i..][1..] == items[i + 1..];
    if Covers(partitions, item.capturedAt) && row !in committed {
      var more := Demo(items[i + 1..], influencer, committed + {row}, partitions).1;
      assert collected + ([Item(item.hash, item.caption)] + more) == collected + [Item(item.hash, item.caption)] + more;
    } else if !Covers(partitions, item.capturedAt) {
      assert collected + [] == collected;
    }
  }

  /** The rows of the items before the first one without a partition. */
  function DemoRows(items: seq<DemoItem>, influencer: nat, partitions: seq<Partition>): set<Row> {
    if items == [] || !Covers(partitions, items[0].capturedAt) then {}
    else {DemoRow(influencer, items[0])} + DemoRows(items[1..], influencer, partitions)
  }

  /** Unlike a live scrape, a demo scrape keeps what it stored and reports exactly that. */
  lemma {:induction false} DemoCount(items: seq<DemoItem>, influencer: nat, committed: set<Row>,
                                     partitions: seq<Partition>)
    ensures var (stored, newItems) := Demo(items, influencer, committed, partitions);
      stored == committed + DemoRows(items, influencer, partitions) && |stored| == |committed| + |newItems|
  {
    if items != [] && Covers(partitions, items[0].capturedAt) {
      DemoCount(items[1..], influencer, committed + {DemoRow(influencer, items[0])}, partitions);
      DemoCount(items[1..], influencer, committed, partitions);
    }
  }

  /** Demo item j is stored: new, with no item without a partition up to it and none of its row before it. */
  ghost predicate DemoStores(items: seq<DemoItem>, j: nat, influencer: nat, committed: set<Row>,
                             partitions: seq<Partition>)
  {
    && j < |items| && (forall i :: 0 <= i <= j ==> Covers(partitions, items[i].capturedAt))
    && Row(influencer, items[j].hash, items[j].capturedAt) !in committed
    && forall i :: 0 <= i < j ==> items[i].hash != items[j].hash || items[i].capturedAt != items[j].capturedAt
  }

  lemma DemoRest(items: seq<DemoItem>, j: nat, influencer: nat, committed: set<Row>, partitions: seq<Partition>)
    requires items != [] && Covers(partitions, items[0].capturedAt)
    ensures DemoStores(items, j + 1, influencer, committed, partitions)
      <==> DemoStores(items[1..], j, influencer, committed + {DemoRow(influencer, items[0])}, partitions)
  {
    var rest := items[1..];
    assert forall i :: 0 <= i < |rest| ==> rest[i] == items[i + 1];
    if DemoStores(rest, j, influencer, committed + {DemoRow(influencer, items[0])}, partitions) {
      forall i | 0 <= i <= j + 1 ensures Covers(partitions, items[i].capturedAt) {
        if i > 0 { assert rest[i - 1] == items[i]; }
      }
      forall i | 0 <= i < j + 1
        ensures items[i].hash != items[j + 1].hash || items[i].capturedAt != items[j + 1].capturedAt {
        if i > 0 { assert rest[i - 1] == items[i]; }
      }
    }
  }

  function Shifted(at: seq<nat>): seq<nat> {
    seq(|at|, i requires 0 <= i < |at| => at[i] + 1)
  }

  lemma InShifted(at: seq<nat>, j: nat)
    ensures j + 1 in Shifted(at) <==> j in at
  {
    if j in at {
      var i :| 0 <= i < |at| && at[i] == j;
      assert Shifted(at)[i] == j + 1;
    }
  }

  /** Items at these places, in order. */
  ghost predicate TakenAt(items: seq<DemoItem>, at: seq<nat>, taken: seq<Item>) {
    && |at| == |taken| && (forall i, j :: 0 <= i < j < |at| ==> at[i] < at[j])
    && forall i :: 0 <= i < |at| ==> at[i] < |items| && taken[i] == Item(items[at[i]].hash, items[at[i]].caption)
  }

  lemma TakenFirst(items: seq<DemoItem>, at: seq<nat>, taken: seq<Item>)
    requires items != [] && TakenAt(items[1..], at, taken)
    ensures TakenAt(items, Shifted(at), taken)
    ensures TakenAt(items, [0] + Shifted(at), [Item(items[0].hash, items[0].caption)] + taken)
  {
  }

  /** The items a demo scrape reports: hash and caption of each item it stores, in order. */
  lemma {:induction false} DemoExactly(items: seq<DemoItem>, influencer: nat, committed: set<Row>,
                                       partitions: seq<Partition>)
    returns (at: seq<nat>)
    ensures TakenAt(items, at, Demo(items, influencer, committed, partitions).1)
    ensures forall j: nat :: j in at <==> DemoStores(items, j, influencer, committed, partitions)
  {
    at := [];
    if items != [] && Covers(partitions, items[0].capturedAt) {
      var row := DemoRow(influencer, items[0]);
      var rest := DemoExactly(items[1..], influencer, committed + {row}, partitions);
      assert row in committed ==> committed + {row} == committed;
      TakenFirst(items, rest, Demo(items[1..], influencer, committed + {row}, partitions).1);
      at := if row in committed then Shifted(rest) else [0] + Shifted(rest);
      forall j: nat ensures j in at <==> DemoStores(items, j, influencer, committed, partitions) {
        if j > 0 {
          DemoRest(items, j - 1, influencer, committed, partitions);
          InShifted(rest, j - 1);
        }
      }
    }
  }

  lemma RowsSnoc(influencer: nat, posts: seq<Post>, p: Post)
    ensures Rows(influencer, posts + [p]) == Rows(influencer, posts) + if Dated(p) then {RowOf(influencer, p)} else {}
  {
    assert (posts + [p])[..|posts|] == posts;
  }

  lemma {:induction false} RowsHas(influencer: nat, posts: seq<Post>, p: Post)
    requires p in posts && Dated(p)
    ensures RowOf(influencer, p) in Rows(influencer, posts)
  {
    var n := |posts| - 1;
    assert posts == posts[..n] + [posts[n]];
    if p != posts[n] {
      RowsHas(influencer, posts[..n], p);
    }
  }

  /** A row that is no post's is not among the rows. */
  lemma {:induction false} RowsOnly(influencer: nat, posts: seq<Post>, row: Row)
    requires forall p <- posts :: Dated(p) ==> RowOf(influencer, p) != row
    ensures row !in Rows(influencer, posts)
  {
    if posts != [] {
      RowsOnly(influencer, posts[..|posts| - 1], row);
    }
  }

  /** The rows of posts: each dated post's, by its influencer, payload hash and timestamp. */
  lemma RowsExactly(influencer: nat, posts: seq<Post>, row: Row)
    ensures row in Rows(influencer, posts) <==>
      row.influencer == influencer && exists p <- posts :: p.hash == row.hash && p.timestamp == Some(row.capturedAt)
  {
    if row in Rows(influencer, posts) {
      if forall p <- posts :: Dated(p) ==> RowOf(influencer, p) != row {
        RowsOnly(influencer, posts, row);
      }
    }
    forall p <- posts | p.hash == row.hash && p.timestamp == Some(row.capturedAt) && row.influencer == influencer
      ensures row in Rows(influencer, posts) {
      RowsHas(influencer, posts, p);
    }
  }

  // --- what the rollback costs ------------------------------------------------------------------

  /** Where the posts that survive begin: after the last one without a partition. */
  function Cut(posts: seq<Post>, partitions: seq<Partition>): (c: nat)
    ensures c <= |posts| && forall i :: c <= i < |posts| ==> !Uncovered(posts[i], partitions)
    ensures c > 0 ==> Uncovered(posts[c - 1], partitions)
  {
    if posts == [] then 0
    else if Uncovered(posts[|posts| - 1], partitions) then |posts|
    else Cut(posts[..|posts| - 1], partitions)
  }

  lemma RowsMinus(a: set<Row>, b: set<Row>, committed: set<Row>)
    ensures (a + b) - committed == (a - committed) + (b - committed)
  {
  }

  lemma FromCut(posts: seq<Post>, c: nat)
    requires c < |posts|
    ensures posts[..|posts| - 1][c..] == posts[c..|posts| - 1]
      && posts[c..] == posts[c..|posts| - 1] + [posts[|posts| - 1]]
  {
  }

  lemma LastRows(posts: seq<Post>, c: nat, influencer: nat, committed: set<Row>)
    requires c < |posts|
    ensures var p := posts[|posts| - 1];
      Rows(influencer, posts[c..]) - committed
      == (Rows(influencer, posts[..|posts| - 1][c..]) - committed)
        + ((if Dated(p) then {RowOf(influencer, p)} else {}) - committed)
  {
    var n := |posts| - 1;
    FromCut(posts, c);
    RowsSnoc(influencer, posts[c..n], posts[n]);
    RowsMinus(Rows(influencer, posts[c..n]), if Dated(posts[n]) then {RowOf(influencer, posts[n])} else {}, committed);
  }

  /** A covered post's row joins the pending ones unless it is committed. */
  lemma BatchNext(posts: seq<Post>, influencer: nat, committed: set<Row>, partitions: seq<Partition>)
    requires posts != [] && !Uncovered(posts[|posts| - 1], partitions)
    ensures var p := posts[|posts| - 1];
      Batch(posts, influencer, committed, partitions).pending
      == Batch(posts[..|posts| - 1], influencer, committed, partitions).pending
         + ((if Dated(p) then {RowOf(influencer, p)} else {}) - committed)
  {
  }

  /** Only the posts after the last uncovered one are stored. */
  lemma {:induction false} StoredAfterCut(posts: seq<Post>, influencer: nat, committed: set<Row>,
                                          partitions: seq<Partition>)
    ensures Batch(posts, influencer, committed, partitions).pending
         == Rows(influencer, posts[Cut(posts, partitions)..]) - committed
  {
    if posts != [] {
      var n, c := |posts| - 1, Cut(posts, partitions);
      StoredAfterCut(posts[..n], influencer, committed, partitions);
      if c <= n {
        BatchNext(posts, influencer, committed, partitions);
        LastRows(posts, c, influencer, committed);
      } else {
        assert posts[c..] == [];
      }
    }
  }

  /** New to the database: covered, and not stored before the batch. */
  predicate IsNew(p: Post, influencer: nat, committed: set<Row>, partitions: seq<Partition>) {
    Dated(p) && Covers(partitions, p.timestamp.value) && RowOf(influencer, p) !in committed
  }

  /** Post j is collected: new, and any earlier post with its row has been rolled back since. */
  ghost predicate Collects(posts: seq<Post>, j: nat, influencer: nat, committed: set<Row>, partitions: seq<Partition>) {
    && j < |posts| && IsNew(posts[j], influencer, committed, partitions)
    && forall i :: 0 <= i < j && Dated(posts[i]) && RowOf(influencer, posts[i]) == RowOf(influencer, posts[j]) ==>
         exists m :: i < m < j && Uncovered(posts[m], partitions)
  }

  lemma CutAfter(posts: seq<Post>, i: nat, partitions: seq<Partition>)
    requires i < |posts| && !Uncovered(posts[i], partitions)
    ensures i < Cut(posts, partitions) <==> exists m :: i < m < |posts| && Uncovered(posts[m], partitions)
  {
    var c := Cut(posts, partitions);
    if i < c {
      assert i < c - 1 < |posts|;
    }
  }

  /** A new post at the end of a batch is collected exactly if its row is not pending. */
  lemma LastCollected(posts: seq<Post>, influencer: nat, committed: set<Row>, partitions: seq<Partition>)
    requires posts != [] && IsNew(posts[|posts| - 1], influencer, committed, partitions)
    ensures var n := |posts| - 1;
      Collects(posts, n, influencer, committed, partitions)
      <==> RowOf(influencer, posts[n]) !in Batch(posts[..n], influencer, committed, partitions).pending
  {
    var n := |posts| - 1;
    var before, row := posts[..n], RowOf(influencer, posts[n]);
    var c := Cut(before, partitions);
    StoredAfterCut(before, influencer, committed, partitions);
    forall i | 0 <= i < n && Dated(posts[i]) && RowOf(influencer, posts[i]) == row
      ensures i < c <==> exists m :: i < m < n && Uncovered(posts[m], partitions)
      ensures i >= c ==> row in Rows(influencer, before[c..])
    {
      assert before[i] == posts[i];
      CutAfter(before, i, partitions);
      assert forall m :: i < m < n ==> before[m] == posts[m];
      if i >= c {
        assert before[c..][i - c] == posts[i];
        RowsHas(influencer, before[c..], posts[i]);
      }
    }
    if forall i :: c <= i < n && Dated(posts[i]) ==> RowOf(influencer, posts[i]) != row {
      forall p <- before[c..] | Dated(p) ensures RowOf(influencer, p) != row {
        var i :| 0 <= i < |before[c..]| && before[c..][i] == p;
        assert posts[c + i] == p;
      }
      RowsOnly(influencer, before[c..], row);
    }
  }

  lemma CollectsBefore(posts: seq<Post>, j: nat, influencer: nat, committed: set<Row>, partitions: seq<Partition>)
    requires j < |posts| - 1
    ensures Collects(posts[..|posts| - 1], j, influencer, committed, partitions)
      <==> Collects(posts, j, influencer, committed, partitions)
  {
    var before := posts[..|posts| - 1];
    assert forall i :: 0 <= i <= j ==> before[i] == posts[i];
  }

  /** The items of a live batch: hash and caption of each collected post, in order. */
  lemma {:induction false} ItemsExactly(posts: seq<Post>, influencer: nat, committed: set<Row>,
                                        partitions: seq<Partition>)
    returns (at: seq<nat>)
    ensures var items := Batch(posts, influencer, committed, partitions).items;
      && |at| == |items| && (forall i, j :: 0 <= i < j < |at| ==> at[i] < at[j])
      && (forall j: nat :: j in at <==> Collects(posts, j, influencer, committed, partitions))
      && forall i :: 0 <= i < |at| ==> at[i] < |posts| && items[i] == Item(posts[at[i]].hash, posts[at[i]].caption)
  {
    at := [];
    if posts != [] {
      var n := |posts| - 1;
      at := ItemsExactly(posts[..n], influencer, committed, partitions);
      forall j: nat | j < n
        ensures Collects(posts[..n], j, influencer, committed, partitions)
          <==> Collects(posts, j, influencer, committed, partitions) {
        CollectsBefore(posts, j, influencer, committed, partitions);
      }
      if IsNew(posts[n], influencer, committed, partitions) {
        LastCollected(posts, influencer, committed, partitions);
        if RowOf(influencer, posts[n]) !in Batch(posts[..n], influencer, committed, partitions).pending {
          at := at + [n];
        }
      }
    }
  }

  predicate NoneNew(posts: seq<Post>, influencer: nat, committed: set<Row>, partitions: seq<Partition>) {
    forall p <- posts :: !IsNew(p, influencer, committed, partitions)
  }

  lemma NoneNewSnoc(posts: seq<Post>, p: Post, influencer: nat, committed: set<Row>, partitions: seq<Partition>)
    ensures NoneNew(posts + [p], influencer, committed, partitions)
        <==> NoneNew(posts, influencer, committed, partitions) && !IsNew(p, influencer, committed, partitions)
  {
    assert p in posts + [p];
    assert forall q <- posts :: q in posts + [p];
  }

  /** A batch of known posts collects nothing, and any other collects something. */
  lemma {:induction false} NoItems(posts: seq<Post>, influencer: nat, committed: set<Row>, partitions: seq<Partition>)
    ensures Batch(posts, influencer, committed, partitions).items == [] <==>
      NoneNew(posts, influencer, committed, partitions)
    ensures Batch(posts, influencer, committed, partitions).items == [] ==>
      Batch(posts, influencer, committed, partitions).pending == {}
  {
    if posts != [] {
      var n := |posts| - 1;
      NoItems(posts[..n], influencer, committed, partitions);
      assert posts == posts[..n] + [posts[n]];
      NoneNewSnoc(posts[..n], posts[n], influencer, committed, partitions);
    }
  }

  lemma ItemsStep(posts: seq<Post>, influencer: nat, committed: set<Row>, partitions: seq<Partition>)
    requires posts != [] && !Uncovered(posts[|posts| - 1], partitions)
    ensures var done, batch :=
      Batch(posts[..|posts| - 1], influencer, committed, partitions), Batch(posts, influencer, committed, partitions);
      |batch.items| - |batch.pending| == |done.items| - |done.pending|
  {
  }

  /** The items outnumber the rows stored by the inserts that a rollback undid. */
  lemma {:induction false} ItemsAgainstRows(posts: seq<Post>, influencer: nat, committed: set<Row>,
                                            partitions: seq<Partition>)
    ensures var batch := Batch(posts, influencer, committed, partitions);
      && |batch.items| >= |batch.pending|
      && (|batch.items| == |batch.pending| <==>
           NoneNew(posts[..Cut(posts, partitions)], influencer, committed, partitions))
  {
    if posts != [] {
      var n := |posts| - 1;
      var c := Cut(posts, partitions);
      ItemsAgainstRows(posts[..n], influencer, committed, partitions);
      if c <= n {
        assert posts[..n][..c] == posts[..c];
        ItemsStep(posts, influencer, committed, partitions);
      } else {
        ItemsReset(posts, influencer, committed, partitions);
        assert posts[..c] == posts;
      }
    }
  }

  lemma ItemsReset(posts: seq<Post>, influencer: nat, committed: set<Row>, partitions: seq<Partition>)
    requires posts != [] && Uncovered(posts[|posts| - 1], partitions)
    ensures var batch := Batch(posts, influencer, committed, partitions);
      batch.pending == {} && (batch.items == [] <==> NoneNew(posts, influencer, committed, partitions))
  {
    NoItems(posts, influencer, committed, partitions);
  }

  /** What a live scrape reports is what it stores precisely when no new post comes before an uncovered one. */
  lemma LiveCount(posts: seq<Post>, influencer: nat, committed: set<Row>, partitions: seq<Partition>)
    ensures var batch := Batch(posts, influencer, committed, partitions);
      |batch.items| == |(committed + batch.pending) - committed|
      <==> NoneNew(posts[..Cut(posts, partitions)], influencer, committed, partitions)
  {
    var batch := Batch(posts, influencer, committed, partitions);
    StoredAfterCut(posts, influencer, committed, partitions);
    ItemsAgainstRows(posts, influencer, committed, partitions);
    assert (committed + batch.pending) - committed == batch.pending;
  }

  /** The rollback loses nothing: every new post before an uncovered one comes again after it. */
  predicate NothingCutOff(posts: seq<Post>, influencer: nat, committed: set<Row>, partitions: seq<Partition>) {
    var cut := Cut(posts, partitions);
    forall p <- posts[..cut] :: IsNew(p, influencer, committed, partitions) ==>
      RowOf(influencer, p) in Rows(influencer, posts[cut..])
  }

  /** A live scrape stores everything it fetched that has a partition precisely when the rollback loses nothing. */
  lemma LiveStoresAll(posts: seq<Post>, influencer: nat, committed: set<Row>, partitions: seq<Partition>)
    ensures NoneNew(posts, influencer, committed + Batch(posts, influencer, committed, partitions).pending, partitions)
        <==> NothingCutOff(posts, influencer, committed, partitions)
  {
    var cut := Cut(posts, partitions);
    var stored := committed + Batch(posts, influencer, committed, partitions).pending;
    StoredAfterCut(posts, influencer, committed, partitions);
    forall p | p in posts[cut..] && Dated(p) ensures RowOf(influencer, p) in stored {
      RowsHas(influencer, posts[cut..], p);
    }
    forall p <- posts ensures p in posts[..cut] || p in posts[cut..] {
      assert p in posts[..cut] + posts[cut..];
    }
    forall p <- posts[..cut] ensures p in posts {}
  }

  predicate HasItem(items: seq<Item>, hash: nat) {
    exists item <- items :: item.hash == hash
  }

  /** Every stored row's content goes on to be rated. */
  lemma {:induction false} StoredHaveItems(posts: seq<Post>, influencer: nat, committed: set<Row>,
                                           partitions: seq<Partition>)
    ensures var batch := Batch(posts, influencer, committed, partitions);
      forall row <- batch.pending :: HasItem(batch.items, row.hash)
  {
    if posts != [] {
      var n := |posts| - 1;
      StoredHaveItems(posts[..n], influencer, committed, partitions);
      var done, batch :=
        Batch(posts[..n], influencer, committed, partitions), Batch(posts, influencer, committed, partitions);
      forall row | row in batch.pending ensures HasItem(batch.items, row.hash) {
        if row in done.pending {
          var item :| item in done.items && item.hash == row.hash;
          assert item in batch.items;
        } else {
          assert batch.items[|done.items|].hash == row.hash;
        }
      }
    }
  }
}
