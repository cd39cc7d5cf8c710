/** What greedy_cluster promises of its clusters, proved of the declarative form it computes. */
module ClusterTheorems {
  import opened Sorting
  import opened Clusters

  // --- rows behind the members, seeds behind the clusters -------------------------------

  lemma {:induction false} MemberRow<V>(w: Window<V>, i: nat, m: nat, p: nat) returns (k: nat)
    requires i < |w.rows| && m <= |w.rows| && p < |w.Members(i, m)|
    ensures i <= k < m && w.Joins(i, k) && w.Members(i, m)[p] == w.rows[k]
  {
    if p < |w.Members(i, m - 1)| {
      k := MemberRow(w, i, m - 1, p);
    } else {
      k := m - 1;
    }
  }

  /** Members are in row order. */
  lemma {:induction false} MemberRows<V>(w: Window<V>, i: nat, m: nat, q: nat, p: nat) returns (l: nat, k: nat)
    requires i < |w.rows| && m <= |w.rows| && q < p < |w.Members(i, m)|
    ensures i <= l < k < m && w.Joins(i, l) && w.Joins(i, k)
    ensures w.Members(i, m)[q] == w.rows[l] && w.Members(i, m)[p] == w.rows[k]
  {
    if p < |w.Members(i, m - 1)| {
      l, k := MemberRows(w, i, m - 1, q, p);
    } else {
      l := MemberRow(w, i, m - 1, q);
      k := m - 1;
    }
  }

  lemma MembersApart<V>(w: Window<V>, i: nat, m: nat, q: nat, p: nat)
    requires i < |w.rows| && m <= |w.rows| && q < p < |w.Members(i, m)|
    ensures w.Members(i, m)[q].hash != w.Members(i, m)[p].hash
  {
    var l, k := MemberRows(w, i, m, q, p);
    JoinApart(w, i, l, k);
  }

  lemma {:induction false} RowMember<V>(w: Window<V>, i: nat, m: nat, k: nat) returns (p: nat)
    requires i < |w.rows| && k < m <= |w.rows| && w.Joins(i, k)
    ensures p < |w.Members(i, m)| && w.Members(i, m)[p] == w.rows[k]
  {
    if k == m - 1 {
      p := |w.Members(i, m - 1)|;
    } else {
      p := RowMember(w, i, m - 1, k);
    }
  }

  lemma {:induction false} ClusterSeed<V>(w: Window<V>, n: nat, c: nat) returns (i: nat)
    requires n <= |w.rows| && c < |w.Clusters(n)|
    ensures i < n && w.Seed(i) && w.Clusters(n)[c] == w.Members(i, |w.rows|)
  {
    if c < |w.Clusters(n - 1)| {
      i := ClusterSeed(w, n - 1, c);
    } else {
      i := n - 1;
    }
  }

  /** Earlier clusters come from earlier seeds. */
  lemma {:induction false} ClusterPair<V>(w: Window<V>, n: nat, d: nat, c: nat) returns (j: nat, i: nat)
    requires n <= |w.rows| && d < c < |w.Clusters(n)|
    ensures j < i < n && w.Seed(j) && w.Seed(i)
    ensures w.Clusters(n)[d] == w.Members(j, |w.rows|) && w.Clusters(n)[c] == w.Members(i, |w.rows|)
  {
    if c < |w.Clusters(n - 1)| {
      j, i := ClusterPair(w, n - 1, d, c);
    } else {
      i := n - 1;
      j := ClusterSeed(w, n - 1, d);
    }
  }

  lemma {:induction false} SeedCluster<V>(w: Window<V>, n: nat, i: nat) returns (c: nat)
    requires i < n <= |w.rows| && w.Seed(i)
    ensures c < |w.Clusters(n)| && w.Clusters(n)[c] == w.Members(i, |w.rows|)
  {
    if i == n - 1 {
      c := |w.Clusters(n - 1)|;
    } else {
      c := SeedCluster(w, n - 1, i);
    }
  }

  /** Every cluster opens with its seed. */
  lemma SeedFirst<V>(w: Window<V>, i: nat)
    requires i < |w.rows| && w.Seed(i)
    ensures w.Members(i, |w.rows|) != [] && w.Members(i, |w.rows|)[0] == w.rows[i]
  {
    w.OwnerFacts(i);
    w.NothingBefore(i, i);
    OpensWith(w, i, i + 1);
  }

  lemma {:induction false} OpensWith<V>(w: Window<V>, i: nat, m: nat)
    requires i < m <= |w.rows| && w.Joins(i, i) && w.Members(i, i) == []
    requires w.Members(i, m) != [] && w.Members(i, m)[0] == w.rows[i]
    ensures w.Members(i, |w.rows|) != [] && w.Members(i, |w.rows|)[0] == w.rows[i]
    decreases |w.rows| - m
  {
    if m < |w.rows| {
      OpensWith(w, i, m + 1);
    }
  }

  // --- partition ---------------------------------------------------------------------------

  lemma WindowCovers<V>(w: Window<V>, k: nat) returns (c: nat, p: nat)
    requires k < |w.rows|
    ensures c < |w.Clusters(|w.rows|)| && p < |w.Clusters(|w.rows|)[c]|
    ensures w.Clusters(|w.rows|)[c][p].hash == w.rows[k].hash
  {
    var f := OwnerJoined(w, k);
    w.OwnerFacts(k);
    c := SeedCluster(w, |w.rows|, w.Owner(k));
    p := RowMember(w, w.Owner(k), |w.rows|, f);
  }

  lemma WindowApart<V>(w: Window<V>, c: nat, p: nat, d: nat, q: nat)
    requires var cs := w.Clusters(|w.rows|); c < |cs| && d < |cs| && p < |cs[c]| && q < |cs[d]|
    requires d < c || (d == c && q < p)
    ensures w.Clusters(|w.rows|)[c][p].hash != w.Clusters(|w.rows|)[d][q].hash
  {
    var n := |w.rows|;
    if d < c {
      var j, i := ClusterPair(w, n, d, c);
      var k := MemberRow(w, i, n, p);
      var l := MemberRow(w, j, n, q);
      if w.rows[k].hash == w.rows[l].hash {
        w.SameOwner(k, l);
      }
    } else {
      var i := ClusterSeed(w, n, c);
      MembersApart(w, i, n, q, p);
    }
  }

  predicate Place<V>(themes: seq<seq<Item<V>>>, c: int, p: int) {
    0 <= c < |themes| && 0 <= p < |themes[c]|
  }

  ghost predicate Partitions<V>(items: seq<Item<V>>, themes: seq<seq<Item<V>>>) {
    && (forall x <- items :: exists c, p :: Place(themes, c, p) && themes[c][p].hash == x.hash)
    && (forall c, p :: Place(themes, c, p) ==> themes[c][p] in items)
    && (forall c, p, d, q :: Place(themes, c, p) && Place(themes, d, q) ==>
          themes[c][p].hash == themes[d][q].hash ==> c == d && p == q)
  }

  /**
   The clusters partition the hashes: every row's hash is in some cluster, no hash is in two
   places, and every member is one of the rows. So distinct-hash rows are partitioned, and of
   rows that repeat a hash exactly one is kept.
   */
  lemma ThemesPartition<V(!new)>(items: seq<Item<V>>, dist: (V, V) -> real, threshold: real)
    ensures Partitions(items, Themes(items, dist, threshold))
  {
    SeedOrderTotal<V>();
    SortSorts(items, SeedOrder());
    var w := Window(Sort(items, SeedOrder()), dist, threshold);
    var themes: seq<seq<Item<V>>> := w.Clusters(|w.rows|);
    forall x <- items ensures exists c, p :: Place(themes, c, p) && themes[c][p].hash == x.hash {
      assert x in multiset(w.rows);
      var k :| 0 <= k < |w.rows| && w.rows[k] == x;
      var c, p := WindowCovers(w, k);
      assert Place(themes, c, p);
    }
    forall c, p, d, q | Place(themes, c, p) && Place(themes, d, q) && themes[c][p].hash == themes[d][q].hash
      ensures c == d && p == q
    {
      if d < c || (d == c && q < p) {
        WindowApart(w, c, p, d, q);
      } else if c < d || p < q {
        WindowApart(w, d, q, c, p);
      }
    }
    forall c, p | Place(themes, c, p) ensures themes[c][p] in items {
      var i := ClusterSeed(w, |w.rows|, c);
      var k := MemberRow(w, i, |w.rows|, p);
      assert w.rows[k] in multiset(items);
    }
  }

  // --- geometry ------------------------------------------------------------------------------

  lemma NearHead<V>(w: Window<V>, c: nat, p: nat)
    requires Ordered(w.rows, SeedOrder())
    requires var cs := w.Clusters(|w.rows|); c < |cs| && p < |cs[c]|
    ensures var cs := w.Clusters(|w.rows|);
      && cs[c][p].relevance <= cs[c][0].relevance
      && (p > 0 ==> w.dist(cs[c][0].vector, cs[c][p].vector) <= w.threshold)
  {
    var n := |w.rows|;
    var i := ClusterSeed(w, n, c);
    var k := MemberRow(w, i, n, p);
    SeedFirst(w, i);
    if p > 0 {
      MembersApart(w, i, n, 0, p);
      assert i < k;
      assert SeedOrder()(w.rows[i], w.rows[k]);
    }
  }

  lemma FarFromEarlier<V>(w: Window<V>, c: nat, p: nat, d: nat)
    requires var cs := w.Clusters(|w.rows|); d < c < |cs| && p < |cs[c]|
    ensures var cs := w.Clusters(|w.rows|); cs[d] != [] && w.dist(cs[d][0].vector, cs[c][p].vector) > w.threshold
  {
    var j, i := ClusterPair(w, |w.rows|, d, c);
    var k := MemberRow(w, i, |w.rows|, p);
    SeedFirst(w, j);
    if w.Near(j, k) {
      assert w.Met(j, w.rows[k].hash, |w.rows|);
      w.OwnerFirst(k, j);
    }
  }

  ghost predicate Grouped<V>(themes: seq<seq<Item<V>>>, dist: (V, V) -> real, threshold: real) {
    && (forall c :: 0 <= c < |themes| ==> themes[c] != [])
    && (forall c, p :: Place(themes, c, p) ==> themes[c][p].relevance <= themes[c][0].relevance)
    && (forall c, p :: Place(themes, c, p) && p > 0 ==> dist(themes[c][0].vector, themes[c][p].vector) <= threshold)
    && (forall c, p, d :: Place(themes, c, p) && 0 <= d < c ==>
         dist(themes[d][0].vector, themes[c][p].vector) > threshold)
  }

  /**
   The head of a cluster has its highest relevance, every other member is within the threshold
   of its head, and every member, the head included, is farther than the threshold from the
   head of every earlier cluster.
   */
  lemma ThemesGeometry<V(!new)>(items: seq<Item<V>>, dist: (V, V) -> real, threshold: real)
    ensures Grouped(Themes(items, dist, threshold), dist, threshold)
  {
    SeedOrderTotal<V>();
    SortSorts(items, SeedOrder());
    var w := Window(Sort(items, SeedOrder()), dist, threshold);
    var themes: seq<seq<Item<V>>> := w.Clusters(|w.rows|);
    forall c | 0 <= c < |themes| ensures themes[c] != [] {
      var i := ClusterSeed(w, |w.rows|, c);
      SeedFirst(w, i);
    }
    forall c, p | Place(themes, c, p)
      ensures themes[c][p].relevance <= themes[c][0].relevance
      ensures p > 0 ==> dist(themes[c][0].vector, themes[c][p].vector) <= threshold
    {
      NearHead(w, c, p);
    }
    forall c, p, d | Place(themes, c, p) && 0 <= d < c
      ensures dist(themes[d][0].vector, themes[c][p].vector) > threshold
    {
      FarFromEarlier(w, c, p, d);
    }
  }

  // --- independence of the input order ----------------------------------------------------------

  /** For distinct hashes, any permutation of the rows gives the identical list of clusters. */
  lemma ThemesOrderFree<V(!new)>(a: seq<Item<V>>, b: seq<Item<V>>, dist: (V, V) -> real, threshold: real)
    requires multiset(a) == multiset(b) && DistinctHashes(a)
    ensures Themes(a, dist, threshold) == Themes(b, dist, threshold)
  {
    SeedOrderTotal<V>();
    SortCanonical(a, b, SeedOrder());
  }

  // --- order ----------------------------------------------------------------------------------

  /** More relevant, or as relevant with the smaller hash. */
  predicate Stronger<V>(a: Item<V>, b: Item<V>) {
    if a.relevance == b.relevance then a.hash < b.hash else a.relevance > b.relevance
  }

  ghost predicate StrongestFirst<V>(themes: seq<seq<Item<V>>>) {
    && (forall d, c :: Place(themes, d, 0) && Place(themes, c, 0) && d < c ==> Stronger(themes[d][0], themes[c][0]))
    && (forall c, q, p :: Place(themes, c, q) && Place(themes, c, p) && q < p ==> Stronger(themes[c][q], themes[c][p]))
  }

  lemma RowsStronger<V>(w: Window<V>, l: nat, k: nat)
    requires Ordered(w.rows, SeedOrder()) && l < k < |w.rows| && w.rows[l].hash != w.rows[k].hash
    ensures Stronger(w.rows[l], w.rows[k])
  {
    assert SeedOrder()(w.rows[l], w.rows[k]);
  }

  /** Clusters come by their heads, and members within a cluster, from the strongest on. */
  lemma ThemesInOrder<V(!new)>(items: seq<Item<V>>, dist: (V, V) -> real, threshold: real)
    ensures StrongestFirst(Themes(items, dist, threshold))
  {
    SeedOrderTotal<V>();
    SortSorts(items, SeedOrder());
    var w := Window(Sort(items, SeedOrder()), dist, threshold);
    var n := |w.rows|;
    var themes: seq<seq<Item<V>>> := w.Clusters(n);
    forall d, c | Place(themes, d, 0) && Place(themes, c, 0) && d < c ensures Stronger(themes[d][0], themes[c][0]) {
      var j, i := ClusterPair(w, n, d, c);
      SeedFirst(w, j);
      SeedFirst(w, i);
      WindowApart(w, c, 0, d, 0);
      RowsStronger(w, j, i);
    }
    forall c, q, p | Place(themes, c, q) && Place(themes, c, p) && q < p
      ensures Stronger(themes[c][q], themes[c][p])
    {
      var i := ClusterSeed(w, n, c);
      var l, k := MemberRows(w, i, n, q, p);
      MembersApart(w, i, n, q, p);
      RowsStronger(w, l, k);
    }
  }

  // --- topics -------------------------------------------------------------------------------------

  /** Topic number j of member i. */
  predicate TopicAt<V>(cluster: seq<Item<V>>, t: string, i: nat, j: nat) {
    i < |cluster| && j < |cluster[i].topics| && cluster[i].topics[j] == t
  }

  /** One topic comes up before another does: at an earlier member, or earlier at the same one. */
  ghost predicate ComesUpBefore<V>(cluster: seq<Item<V>>, a: string, b: string) {
    exists i: nat, j: nat :: TopicAt(cluster, a, i, j)
      && forall k: nat, l: nat :: TopicAt(cluster, b, k, l) ==> i < k || (i == k && j < l)
  }

  function Offset<V>(cluster: seq<Item<V>>, i: nat): nat
    requires i <= |cluster|
  {
    |AllTopics(cluster[..i])|
  }

  lemma {:induction false} FlatAt<V>(cluster: seq<Item<V>>, i: nat, j: nat)
    requires i < |cluster| && j < |cluster[i].topics|
    ensures var all, p := AllTopics(cluster), Offset(cluster, i) + j; p < |all| && all[p] == cluster[i].topics[j]
  {
    var n := |cluster| - 1;
    if i < n {
      assert cluster[..n][..i] == cluster[..i];
      FlatAt(cluster[..n], i, j);
    }
  }

  lemma {:induction false} FlatPlace<V>(cluster: seq<Item<V>>, p: nat) returns (i: nat, j: nat)
    requires p < |AllTopics(cluster)|
    ensures TopicAt(cluster, AllTopics(cluster)[p], i, j) && p == Offset(cluster, i) + j
  {
    var n := |cluster| - 1;
    if p < |AllTopics(cluster[..n])| {
      i, j := FlatPlace(cluster[..n], p);
      assert cluster[..n][..i] == cluster[..i];
    } else {
      i, j := n, p - |AllTopics(cluster[..n])|;
    }
  }

  lemma {:induction false} OffsetsGrow<V>(cluster: seq<Item<V>>, i: nat, k: nat)
    requires i < k <= |cluster|
    ensures Offset(cluster, i) + |cluster[i].topics| <= Offset(cluster, k)
    decreases k
  {
    assert cluster[..k][..k - 1] == cluster[..k - 1];
    if i < k - 1 {
      OffsetsGrow(cluster, i, k - 1);
    }
  }

  /** Flattening keeps the order of places. */
  lemma PlacesInOrder<V>(cluster: seq<Item<V>>, i: nat, j: nat, k: nat, l: nat)
    requires i < |cluster| && j < |cluster[i].topics| && k < |cluster| && l < |cluster[k].topics|
    requires Offset(cluster, i) + j < Offset(cluster, k) + l
    ensures i < k || (i == k && j < l)
  {
    if k < i {
      OffsetsGrow(cluster, k, i);
    }
  }

  lemma {:induction false} DedupOrder(s: seq<string>, x: nat, y: nat) returns (p: nat)
    requires x < y < |Dedup(s)|
    ensures p < |s| && s[p] == Dedup(s)[x] && forall q :: 0 <= q < |s| && s[q] == Dedup(s)[y] ==> p < q
  {
    var n := |s| - 1;
    var d := Dedup(s[..n]);
    if y < |d| {
      p := DedupOrder(s[..n], x, y);
    } else {
      assert d[x] in s[..n];
      p :| 0 <= p < n && s[p] == d[x];
      forall q | 0 <= q < n ensures s[q] != Dedup(s)[y] {
        assert s[..n][q] in s[..n];
      }
    }
  }

  /** The topics of a theme: those of its members, each once, in the order in which they first come up. */
  lemma TopicsByAppearance<V>(cluster: seq<Item<V>>)
    ensures var topics := Dedup(AllTopics(cluster));
      && NoDup(topics)
      && (forall t :: t in topics <==> exists i: nat, j: nat :: TopicAt(cluster, t, i, j))
      && (forall x, y :: 0 <= x < y < |topics| ==> ComesUpBefore(cluster, topics[x], topics[y]))
  {
    var all := AllTopics(cluster);
    var topics := Dedup(all);
    forall t ensures t in topics <==> exists i: nat, j: nat :: TopicAt(cluster, t, i, j) {
      if t in all {
        var p :| 0 <= p < |all| && all[p] == t;
        var i, j := FlatPlace(cluster, p);
      }
      forall i: nat, j: nat | TopicAt(cluster, t, i, j) ensures t in all {
        FlatAt(cluster, i, j);
      }
    }
    forall x, y | 0 <= x < y < |topics| ensures ComesUpBefore(cluster, topics[x], topics[y]) {
      var p := DedupOrder(all, x, y);
      var i, j := FlatPlace(cluster, p);
      forall k: nat, l: nat | TopicAt(cluster, topics[y], k, l) ensures i < k || (i == k && j < l) {
        FlatAt(cluster, k, l);
        PlacesInOrder(cluster, i, j, k, l);
      }
    }
  }

  // --- truncation -----------------------------------------------------------------------------

  lemma ProminenceTotal<V(!new)>()
    ensures TotalOrder(Prominence<V>())
  {
  }

  /** The sum of the members' relevance, one member at a time from either end, so in any order. */
  lemma {:induction false} SumsMembers<V>(a: seq<Item<V>>, b: seq<Item<V>>)
    ensures TotalRelevance<V>([]) == 0.0
    ensures forall x: Item<V> :: TotalRelevance([x]) == x.relevance
    ensures TotalRelevance(a + b) == TotalRelevance(a) + TotalRelevance(b)
  {
    forall x: Item<V> ensures TotalRelevance([x]) == x.relevance {
      assert [x][1..] == [];
    }
    if a == [] {
      assert a + b == b;
    } else {
      assert (a + b)[1..] == a[1..] + b;
      SumsMembers(a[1..], b);
    }
  }

  lemma ByTheirSums(x: real, y: real, n: int)
    requires n > 0
    ensures x / (n as real) >= y / (n as real) <==> x >= y
    ensures x / (n as real) == y / (n as real) <==> x == y
  {
    var r := n as real;
    assert x == (x / r) * r && y == (y / r) * r;
    if x / r > y / r {
      assert (x / r - y / r) * r > 0.0;
    }
    if x / r < y / r {
      assert (y / r - x / r) * r > 0.0;
    }
  }

  /**
   The bigger cluster leads; of two of a size the one whose members' relevance sums up to more; of two with one
   sum the one whose head has the smaller hash.
   */
  predicate Leads<V>(a: seq<Item<V>>, b: seq<Item<V>>) {
    && |a| >= |b|
    && (|a| == |b| ==> TotalRelevance(a) >= TotalRelevance(b))
    && (|a| == |b| > 0 && TotalRelevance(a) == TotalRelevance(b) ==> a[0].hash <= b[0].hash)
  }

  lemma ProminentLeads<V>(a: seq<Item<V>>, b: seq<Item<V>>)
    requires Prominence()(a, b)
    ensures Leads(a, b)
  {
    if |a| == |b| > 0 {
      ByTheirSums(TotalRelevance(a), TotalRelevance(b), |a|);
    }
  }

  /**
   Cutting to `maxThemes` keeps the leading themes: there are as many as asked for or as exist, each leads the
   ones after it and every dropped one, and kept and dropped together are all the clusters.
   */
  lemma TopThemesAreProminent<V(!new)>(items: seq<Item<V>>, dist: (V, V) -> real, threshold: real, maxThemes: nat)
    returns (dropped: seq<seq<Item<V>>>)
    ensures var themes, kept := Themes(items, dist, threshold), TopThemes(items, dist, threshold, maxThemes);
      && |kept| == (if |themes| <= maxThemes then |themes| else maxThemes)
      && multiset(kept) + multiset(dropped) == multiset(themes)
      && (forall i, j :: 0 <= i < j < |kept| ==> Leads(kept[i], kept[j]))
      && forall a <- kept, b <- dropped :: Leads(a, b)
  {
    ProminenceTotal<V>();
    var ranked := Sort(Themes(items, dist, threshold), Prominence());
    SortSorts(Themes(items, dist, threshold), Prominence());
    var n := if |ranked| <= maxThemes then |ranked| else maxThemes;
    CutOrdered(ranked, n, Prominence());
    var kept := TopThemes(items, dist, threshold, maxThemes);
    assert kept == ranked[..n];
    dropped := ranked[n..];
    forall i, j | 0 <= i < j < |kept| ensures Leads(kept[i], kept[j]) {
      ProminentLeads(kept[i], kept[j]);
    }
    forall a <- kept, b <- dropped ensures Leads(a, b) {
      ProminentLeads(a, b);
    }
  }
}
