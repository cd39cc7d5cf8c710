/**
 Theme discovery: greedy threshold clustering of rated posts.

 The distance is an arbitrary function and relevance an exact number. A content hash is read as
 the number its fixed-width hex digest spells, so comparing hashes is comparing numbers. One hash
 can appear in several rows, and what is taken is the hash: of its rows one gets into a cluster.
 */
module Clusters {
  import opened Sorting

  datatype Item<V> = Item(hash: nat, relevance: real, vector: V, topics: seq<string>)

  /** The seed order: relevance descending, then content hash. */
  function SeedOrder<V>(): (Item<V>, Item<V>) -> bool {
    (a: Item<V>, b: Item<V>) => a.relevance > b.relevance || (a.relevance == b.relevance && a.hash <= b.hash)
  }

  predicate DistinctHashes<V>(items: seq<Item<V>>) {
    forall i, j :: 0 <= i < j < |items| ==> items[i].hash != items[j].hash
  }

  // --- the declarative form -----------------------------------------------------------

  /** A window of rows in seed order, with the distance and the threshold that group them. */
  datatype Window<!V> = Window(rows: seq<Item<V>>, dist: (V, V) -> real, threshold: real)
  {
    predicate Near(i: nat, k: nat)
      requires i < |rows| && k < |rows|
    {
      dist(rows[i].vector, rows[k].vector) <= threshold
    }

    /** One of the first `m` rows has the hash and is within the threshold of row `i`. */
    predicate Met(i: nat, h: nat, m: nat)
      requires i < |rows| && m <= |rows|
    {
      exists k :: 0 <= k < m && rows[k].hash == h && Near(i, k)
    }

    /** The hash is that of row `i`, or of some row within the threshold. */
    predicate Claims(i: nat, h: nat)
      requires i < |rows|
    {
      rows[i].hash == h || Met(i, h, |rows|)
    }

    /** Row `k` seeds a cluster iff no earlier seed claims its hash. */
    predicate Seed(k: nat)
      requires k < |rows|
    {
      forall j: nat {:trigger Seed(j)} :: j < k ==> Seed(j) ==> !Claims(j, rows[k].hash)
    }

    /** The earliest seed, from `j` on, that claims the hash of row `k`. */
    function OwnerFrom(k: nat, j: nat): (owner: nat)
      requires j <= k < |rows|
      ensures j <= owner <= k
      ensures owner < k ==> Seed(owner) && Claims(owner, rows[k].hash)
      ensures forall i: nat {:trigger Seed(i)} :: j <= i < owner ==> Seed(i) ==> !Claims(i, rows[k].hash)
      decreases k - j
    {
      if j == k || (Seed(j) && Claims(j, rows[k].hash)) then j else OwnerFrom(k, j + 1)
    }

    function Owner(k: nat): (owner: nat)
      requires k < |rows|
      ensures owner <= k
    {
      OwnerFrom(k, 0)
    }

    lemma OwnerFacts(k: nat)
      requires k < |rows|
      ensures Seed(Owner(k)) && Claims(Owner(k), rows[k].hash)
      ensures Seed(k) <==> Owner(k) == k
    {
    }

    /** A seed that claims the hash of row `k` is not earlier than its owner. */
    lemma OwnerFirst(k: nat, i: nat)
      requires k < |rows| && i < |rows| && Seed(i) && Claims(i, rows[k].hash)
      ensures Owner(k) <= i
    {
    }

    /** Rows of one hash have one owner. */
    lemma SameOwner(k: nat, l: nat)
      requires k < |rows| && l < |rows| && rows[k].hash == rows[l].hash
      ensures Owner(k) == Owner(l)
    {
      OwnerFacts(k);
      OwnerFacts(l);
      OwnerFirst(k, Owner(l));
      OwnerFirst(l, Owner(k));
    }

    /** Row `m` is a member of seed `i`'s cluster: the seed itself, or the first near row of a hash it owns. */
    predicate Joins(i: nat, m: nat)
      requires i < |rows| && m < |rows|
    {
      && Owner(m) == i
      && (m == i || (rows[m].hash != rows[i].hash && Near(i, m) && !Met(i, rows[m].hash, m)))
    }

    /** The rows of seed `i`'s cluster among the first `m` rows, in order. */
    function Members(i: nat, m: nat): seq<Item<V>>
      requires i < |rows| && m <= |rows|
    {
      if m == 0 then []
      else if Joins(i, m - 1) then Members(i, m - 1) + [rows[m - 1]]
      else Members(i, m - 1)
    }

    /** The clusters of the seeds among the first `n` rows, in seed order. */
    function Clusters(n: nat): seq<seq<Item<V>>>
      requires n <= |rows|
    {
      if n == 0 then []
      else if Seed(n - 1) then Clusters(n - 1) + [Members(n - 1, |rows|)]
      else Clusters(n - 1)
    }

    /** No row before a seed belongs to it. */
    lemma {:induction false} NothingBefore(i: nat, m: nat)
      requires m <= i < |rows|
      ensures Members(i, m) == []
    {
      if m > 0 {
        NothingBefore(i, m - 1);
      }
    }
  }

  /** The specification of greedy_cluster. */
  function Themes<V>(items: seq<Item<V>>, dist: (V, V) -> real, threshold: real): seq<seq<Item<V>>> {
    var w := Window(Sort(items, SeedOrder()), dist, threshold);
    w.Clusters(|w.rows|)
  }

  lemma SeedOrderTotal<V(!new)>()
    ensures TotalOrder(SeedOrder<V>())
  {
  }

  // --- who takes which row ------------------------------------------------------------------

  /** Two members of a cluster have different hashes. */
  lemma JoinApart<V>(w: Window<V>, i: nat, l: nat, k: nat)
    requires i <= l < k < |w.rows| && w.Joins(i, l) && w.Joins(i, k)
    ensures w.rows[l].hash != w.rows[k].hash
  {
    if l != i {
      assert w.Near(i, l);
    }
  }

  /** The first near row of a hash. */
  lemma {:induction false} FirstMet<V>(w: Window<V>, i: nat, h: nat, m: nat) returns (f: nat)
    requires i < |w.rows| && m <= |w.rows| && w.Met(i, h, m)
    ensures f < m && w.rows[f].hash == h && w.Near(i, f) && !w.Met(i, h, f)
    decreases m
  {
    var k :| 0 <= k < m && w.rows[k].hash == h && w.Near(i, k);
    if w.Met(i, h, k) {
      f := FirstMet(w, i, h, k);
    } else {
      f := k;
    }
  }

  /** The owner of a row has a member with the row's hash. */
  lemma OwnerJoined<V>(w: Window<V>, k: nat) returns (f: nat)
    requires k < |w.rows|
    ensures f < |w.rows| && w.rows[f].hash == w.rows[k].hash && w.Joins(w.Owner(k), f)
  {
    var i, h := w.Owner(k), w.rows[k].hash;
    w.OwnerFacts(k);
    f := i;
    if w.rows[i].hash != h {
      f := FirstMet(w, i, h, |w.rows|);
    }
    w.SameOwner(k, f);
  }

  /** For a row: the seed that takes its hash, and the row of that hash that gets into the cluster. */
  datatype Role = Role(owner: nat, pick: nat)

  ghost predicate RoleOf<V>(w: Window<V>, k: nat, role: Role)
    requires k < |w.rows|
  {
    && role.owner == w.Owner(k) && role.pick < |w.rows|
    && w.rows[role.pick].hash == w.rows[k].hash && w.Joins(role.owner, role.pick)
  }

  ghost predicate Charts<V>(w: Window<V>, c: seq<Role>) {
    |c| == |w.rows| && forall k {:trigger RoleOf(w, k, c[k])} :: 0 <= k < |c| ==> RoleOf(w, k, c[k])
  }

  lemma {:induction false} DrawChart<V>(w: Window<V>, n: nat) returns (c: seq<Role>)
    requires n <= |w.rows|
    ensures |c| == n && forall k :: 0 <= k < n ==> RoleOf(w, k, c[k])
  {
    c := [];
    if n > 0 {
      c := DrawChart(w, n - 1);
      var f := OwnerJoined(w, n - 1);
      c := c + [Role(w.Owner(n - 1), f)];
    }
  }

  /** A row's role is its hash's. */
  lemma SameRole<V>(w: Window<V>, c: seq<Role>, k: nat, l: nat)
    requires Charts(w, c) && k < |c| && l < |c| && w.rows[k].hash == w.rows[l].hash
    ensures c[k] == c[l]
  {
    assert RoleOf(w, k, c[k]) && RoleOf(w, l, c[l]);
    w.SameOwner(k, l);
    var i, f, g := c[k].owner, c[k].pick, c[l].pick;
    if f < g {
      JoinApart(w, i, f, g);
    } else if g < f {
      JoinApart(w, i, g, f);
    }
  }

  /** Row m gets into seed i's cluster exactly if that is its role. */
  lemma JoinsByRole<V>(w: Window<V>, c: seq<Role>, i: nat, m: nat)
    requires Charts(w, c) && i < |c| && m < |c|
    ensures w.Joins(i, m) <==> c[m] == Role(i, m)
    ensures c[i].owner == i <==> w.Seed(i)
    ensures c[i].owner == i ==> c[i].pick == i
  {
    assert RoleOf(w, m, c[m]) && RoleOf(w, i, c[i]);
    w.OwnerFacts(i);
  }

  // --- the loop ---------------------------------------------------------------------------

  /** The hashes taken when the outer loop reaches row `i`. */
  ghost predicate TakenBefore<V>(rows: seq<Item<V>>, c: seq<Role>, taken: set<nat>, i: nat)
    requires |c| == |rows|
  {
    forall k :: 0 <= k < |rows| ==> (rows[k].hash in taken <==> c[k].owner < i)
  }

  /** The hashes taken while seed `i` absorbs, at row `m` of the inner loop. */
  ghost predicate TakenDuring<V>(rows: seq<Item<V>>, c: seq<Role>, taken: set<nat>, i: nat, m: nat)
    requires |c| == |rows|
  {
    forall k :: 0 <= k < |rows| ==>
      (rows[k].hash in taken <==> c[k].owner < i || (c[k].owner == i && (c[k].pick < m || c[k].pick == i)))
  }

  /** Where the inner loop of seed `i` stands at row `m`: what it has taken, and its cluster so far. */
  ghost predicate Absorbing<V>(w: Window<V>, c: seq<Role>, cluster: seq<Item<V>>, taken: set<nat>, i: nat, m: nat) {
    && Charts(w, c) && i < |c| && m <= |c| && c[i].owner == i && TakenDuring(w.rows, c, taken, i, m)
    && cluster == if m <= i then [w.rows[i]] else w.Members(i, m)
  }

  /** The inner loop's test picks the rows whose role it is, except for the seed's own. */
  lemma TestPicks<V>(w: Window<V>, c: seq<Role>, taken: set<nat>, i: nat, m: nat)
    requires Charts(w, c) && i < |c| && m < |c| && c[i].owner == i && TakenDuring(w.rows, c, taken, i, m)
    ensures w.rows[m].hash !in taken && w.Near(i, m) <==> c[m] == Role(i, m) && m != i
  {
    var h := w.rows[m].hash;
    JoinsByRole(w, c, i, m);
    assert RoleOf(w, m, c[m]);
    if h !in taken && w.Near(i, m) {
      assert w.Met(i, h, |w.rows|);
      w.OwnerFirst(m, i);
    }
  }

  /** What is taken once the inner loop has passed row `m`. */
  lemma TakenStep<V>(w: Window<V>, c: seq<Role>, taken: set<nat>, i: nat, m: nat)
    requires Charts(w, c) && i < |c| && m < |c| && TakenDuring(w.rows, c, taken, i, m)
    ensures TakenDuring(w.rows, c, if c[m] == Role(i, m) && m != i then taken + {w.rows[m].hash} else taken, i, m + 1)
  {
    forall k | 0 <= k < |c| && (w.rows[k].hash == w.rows[m].hash || c[k].pick == m)
      ensures c[k] == c[m] && w.rows[k].hash == w.rows[m].hash
    {
      assert RoleOf(w, k, c[k]);
      SameRole(w, c, k, m);
    }
  }

  /** One pass of the inner loop's body. */
  lemma AbsorbRow<V>(w: Window<V>, c: seq<Role>, cluster: seq<Item<V>>, taken: set<nat>, i: nat, m: nat)
    requires m < |c| && Absorbing(w, c, cluster, taken, i, m)
    ensures if w.rows[m].hash !in taken && w.Near(i, m)
      then Absorbing(w, c, cluster + [w.rows[m]], taken + {w.rows[m].hash}, i, m + 1)
      else Absorbing(w, c, cluster, taken, i, m + 1)
  {
    TestPicks(w, c, taken, i, m);
    TakenStep(w, c, taken, i, m);
    MembersStep(w, c, i, m);
    if m == i {
      w.NothingBefore(i, i);
    }
  }

  lemma MembersStep<V>(w: Window<V>, c: seq<Role>, i: nat, m: nat)
    requires Charts(w, c) && i < |c| && m < |c|
    ensures w.Members(i, m + 1) == w.Members(i, m) + if c[m] == Role(i, m) then [w.rows[m]] else []
    ensures c[i].owner == i ==> c[i].pick == i
    ensures c[m] == Role(i, m) ==> i <= m
  {
    JoinsByRole(w, c, i, m);
  }

  /** An untaken row is a seed, and its cluster starts with it. */
  lemma AbsorbStart<V>(w: Window<V>, c: seq<Role>, before: set<nat>, i: nat)
    requires Charts(w, c) && i < |c| && TakenBefore(w.rows, c, before, i) && w.rows[i].hash !in before
    ensures c[i].owner == i && Absorbing(w, c, [w.rows[i]], before + {w.rows[i].hash}, i, 0)
  {
    assert RoleOf(w, i, c[i]);
    JoinsByRole(w, c, i, i);
    forall k | 0 <= k < |c| && (w.rows[k].hash == w.rows[i].hash || c[k].pick == i)
      ensures c[k] == c[i] && w.rows[k].hash == w.rows[i].hash
    {
      assert RoleOf(w, k, c[k]);
      SameRole(w, c, k, i);
    }
  }

  lemma AbsorbEnd<V>(w: Window<V>, c: seq<Role>, cluster: seq<Item<V>>, taken: set<nat>, i: nat)
    requires Absorbing(w, c, cluster, taken, i, |w.rows|)
    ensures cluster == w.Members(i, |w.rows|) && TakenBefore(w.rows, c, taken, i + 1)
  {
    forall k | 0 <= k < |c| ensures c[k].pick < |c| {
      assert RoleOf(w, k, c[k]);
    }
  }

  /** A taken row is no seed, and every seed has a row of its own. */
  lemma SkipRow<V>(w: Window<V>, c: seq<Role>, taken: set<nat>, i: nat)
    requires Charts(w, c) && i < |c| && TakenBefore(w.rows, c, taken, i) && w.rows[i].hash in taken
    ensures c[i].owner != i && TakenBefore(w.rows, c, taken, i + 1)
  {
    forall k | 0 <= k < |c| ensures c[k].owner != i {
      assert RoleOf(w, k, c[k]);
      w.OwnerFacts(k);
      JoinsByRole(w, c, i, i);
    }
  }

  lemma ClustersStep<V>(w: Window<V>, c: seq<Role>, i: nat)
    requires Charts(w, c) && i < |c|
    ensures w.Clusters(i + 1) == w.Clusters(i) + if c[i].owner == i then [w.Members(i, |w.rows|)] else []
  {
    JoinsByRole(w, c, i, i);
  }

  /** The inner loop: seed `i` absorbs every untaken row within the threshold. */
  method Absorb<V(!new)>(ordered: seq<Item<V>>, dist: (V, V) -> real, threshold: real, i: nat, before: set<nat>,
                         ghost c: seq<Role>)
    returns (cluster: seq<Item<V>>, taken: set<nat>)
    requires i < |ordered| && ordered[i].hash !in before
    requires Charts(Window(ordered, dist, threshold), c) && TakenBefore(ordered, c, before, i)
    ensures c[i].owner == i && cluster == Window(ordered, dist, threshold).Members(i, |ordered|)
    ensures TakenBefore(ordered, c, taken, i + 1)
  {
    ghost var w := Window(ordered, dist, threshold);
    AbsorbStart(w, c, before, i);
    taken := before + {ordered[i].hash};
    cluster := [ordered[i]];
    for m := 0 to |ordered|
      invariant Absorbing(w, c, cluster, taken, i, m)
    {
      AbsorbRow(w, c, cluster, taken, i, m);
      if ordered[m].hash in taken {
        continue;
      }
      if dist(ordered[i].vector, ordered[m].vector) <= threshold {
        taken := taken + {ordered[m].hash};
        cluster := cluster + [ordered[m]];
      }
    }
    AbsorbEnd(w, c, cluster, taken, i);
  }

  /** The outer loop: every row not yet taken seeds a cluster. */
  method SeedLoop<V(!new)>(ordered: seq<Item<V>>, dist: (V, V) -> real, threshold: real, ghost c: seq<Role>)
    returns (clusters: seq<seq<Item<V>>>)
    requires Charts(Window(ordered, dist, threshold), c)
    ensures clusters == Window(ordered, dist, threshold).Clusters(|ordered|)
  {
    ghost var w := Window(ordered, dist, threshold);
    var taken: set<nat> := {};
    clusters := [];
    for i := 0 to |ordered|
      invariant clusters == w.Clusters(i)
      invariant TakenBefore(ordered, c, taken, i)
    {
      ClustersStep(w, c, i);
      if ordered[i].hash in taken {
        SkipRow(w, c, taken, i);
        continue;
      }
      var cluster;
      cluster, taken := Absorb(ordered, dist, threshold, i, taken, c);
      clusters := clusters + [cluster];
    }
  }

  /** The nested loop over the seed order, with its set of taken hashes, computes the declarative clusters. */
  method GreedyCluster<V(!new)>(items: seq<Item<V>>, dist: (V, V) -> real, threshold: real)
    returns (clusters: seq<seq<Item<V>>>)
    ensures clusters == Themes(items, dist, threshold)
  {
    var ordered := Sort(items, SeedOrder());
    ghost var c := DrawChart(Window(ordered, dist, threshold), |ordered|);
    clusters := SeedLoop(ordered, dist, threshold, c);
  }

  // --- shaping the themes ---------------------------------------------------------------

  /** All topics of a cluster, member by member. */
  function AllTopics<V>(cluster: seq<Item<V>>): seq<string> {
    if cluster == [] then [] else AllTopics(cluster[..|cluster| - 1]) + cluster[|cluster| - 1].topics
  }

  /** The first appearances of the elements of `s`, in order. */
  function Dedup(s: seq<string>): (d: seq<string>)
    ensures forall t :: t in d <==> t in s
    ensures forall i, j :: 0 <= i < j < |d| ==> d[i] != d[j]
  {
    if s == [] then []
    else
      var d := Dedup(s[..|s| - 1]);
      var t := s[|s| - 1];
      assert s == s[..|s| - 1] + [t];
      if t in d then d else d + [t]
  }

  lemma DedupSnoc(s: seq<string>, t: string)
    ensures Dedup(s + [t]) == if t in s then Dedup(s) else Dedup(s) + [t]
  {
    assert (s + [t])[..|s|] == s;
  }

  /** The deduplicated union of topics across members, first appearance first. */
  method Topics<V(==)>(cluster: seq<Item<V>>) returns (topics: seq<string>)
    ensures topics == Dedup(AllTopics(cluster))
  {
    topics := [];
    var seen: set<string> := {};
    for i := 0 to |cluster|
      invariant topics == Dedup(AllTopics(cluster[..i]))
      invariant forall t :: t in seen <==> t in topics
    {
      topics, seen := AddTopics(cluster[i].topics, topics, seen, AllTopics(cluster[..i]));
      assert cluster[..i + 1][..i] == cluster[..i];
    }
    assert cluster[..|cluster|] == cluster;
  }

  method AddTopics(own: seq<string>, before: seq<string>, known: set<string>, ghost sofar: seq<string>)
    returns (topics: seq<string>, seen: set<string>)
    requires before == Dedup(sofar) && forall t :: t in known <==> t in before
    ensures topics == Dedup(sofar + own) && forall t :: t in seen <==> t in topics
  {
    topics, seen := before, known;
    assert sofar + own[..0] == sofar;
    for j := 0 to |own|
      invariant topics == Dedup(sofar + own[..j])
      invariant forall t :: t in seen <==> t in topics
    {
      DedupSnoc(sofar + own[..j], own[j]);
      assert sofar + own[..j + 1] == sofar + own[..j] + [own[j]];
      if own[j] !in seen {
        seen := seen + {own[j]};
        topics := topics + [own[j]];
      }
    }
    assert own[..|own|] == own;
  }

  function TotalRelevance<V>(cluster: seq<Item<V>>): real {
    if cluster == [] then 0.0 else cluster[0].relevance + TotalRelevance(cluster[1..])
  }

  function AverageRelevance<V>(cluster: seq<Item<V>>): real {
    if cluster == [] then 0.0 else TotalRelevance(cluster) / (|cluster| as real)
  }

  function HeadHash<V>(cluster: seq<Item<V>>): nat {
    if cluster == [] then 0 else cluster[0].hash
  }

  /** Bigger clusters first, then higher average relevance, then the representative's hash. */
  function Prominence<V>(): (seq<Item<V>>, seq<Item<V>>) -> bool {
    (a: seq<Item<V>>, b: seq<Item<V>>) =>
      |a| > |b| || (|a| == |b| &&
        (AverageRelevance(a) > AverageRelevance(b)
         || (AverageRelevance(a) == AverageRelevance(b) && HeadHash(a) <= HeadHash(b))))
  }

  /** The themes a caller gets: the clusters in prominence order, cut to `maxThemes`. */
  function TopThemes<V>(items: seq<Item<V>>, dist: (V, V) -> real, threshold: real, maxThemes: nat): seq<seq<Item<V>>> {
    var ranked := Sort(Themes(items, dist, threshold), Prominence());
    if |ranked| <= maxThemes then ranked else ranked[..maxThemes]
  }

  /** get_signal_clusters after its query: cluster, order by prominence, truncate. */
  method SignalClusters<V(!new)>(rows: seq<Item<V>>, dist: (V, V) -> real, threshold: real, maxThemes: nat)
    returns (clustered: bool, themes: seq<seq<Item<V>>>)
    ensures themes == TopThemes(rows, dist, threshold, maxThemes)
    ensures clustered <==> rows != []
  {
    if rows == [] {
      return false, [];
    }
    var clusters := GreedyCluster(rows, dist, threshold);
    clusters := Sort(clusters, Prominence());
    themes := if |clusters| <= maxThemes then clusters else clusters[..maxThemes];
    clustered := true;
  }
}
