/**
 What the fused ranking promises: it does not depend on how the lists are supplied, a single list
 keeps its order, and agreement of both halves beats any single find exactly when the candidate
 pool is shallow enough for the damping constant.
 */
module HybridSearch {
  import opened Common
  import opened Sorting
  import opened Fusion

  // --- the fusion is a function of the lists, in any order ---------------------------------

  function NonEmpty(rankings: seq<seq<Id>>): seq<seq<Id>> {
    if rankings == [] then []
    else
      var n := |rankings|;
      NonEmpty(rankings[..n - 1]) + if rankings[n - 1] == [] then [] else [rankings[n - 1]]
  }

  lemma {:induction false} EmptiesScore(rankings: seq<seq<Id>>, k: nat, id: Id)
    ensures Score(NonEmpty(rankings), k, id) == Score(rankings, k, id)
  {
    if rankings != [] {
      var n := |rankings|;
      var rest := NonEmpty(rankings[..n - 1]);
      EmptiesScore(rankings[..n - 1], k, id);
      if rankings[n - 1] == [] {
        assert NonEmpty(rankings) == rest;
      } else {
        ScoreSnoc(rest, rankings[n - 1], k, id);
      }
    }
  }

  lemma {:induction false} EmptiesListed(rankings: seq<seq<Id>>, id: Id)
    ensures Listed(NonEmpty(rankings), id) <==> Listed(rankings, id)
  {
    if rankings != [] {
      var n := |rankings|;
      var rest := rankings[..n - 1];
      EmptiesListed(rest, id);
      ScoreSnoc(rest, rankings[n - 1], 0, id);
      ScoreSnoc(NonEmpty(rest), rankings[n - 1], 0, id);
      assert rankings == rest + [rankings[n - 1]];
      assert NonEmpty(rest) + [] == NonEmpty(rest);
    }
  }

  lemma EmptiesWeighNothing(rankings: seq<seq<Id>>, k: nat, id: Id)
    ensures Score(NonEmpty(rankings), k, id) == Score(rankings, k, id)
    ensures Listed(NonEmpty(rankings), id) <==> Listed(rankings, id)
  {
    EmptiesScore(rankings, k, id);
    EmptiesListed(rankings, id);
  }

  lemma {:induction false} ScoreWithout(rankings: seq<seq<Id>>, i: nat, k: nat, id: Id)
    requires i < |rankings|
    ensures Score(rankings, k, id) == Score(rankings[..i] + rankings[i + 1..], k, id) + ListScore(rankings[i], k, id)
    decreases |rankings|
  {
    var n := |rankings|;
    var rest, last := rankings[..n - 1], rankings[n - 1];
    if i < n - 1 {
      ScoreWithout(rest, i, k, id);
      assert rankings[..i] + rankings[i + 1..] == rest[..i] + rest[i + 1..] + [last];
      ScoreSnoc(rest[..i] + rest[i + 1..], last, k, id);
    } else {
      assert rankings[..i] + rankings[i + 1..] == rest;
    }
  }

  lemma {:induction false} ReorderingKeepsScores(a: seq<seq<Id>>, b: seq<seq<Id>>, k: nat, id: Id)
    requires multiset(a) == multiset(b)
    ensures Score(a, k, id) == Score(b, k, id)
  {
    if a == [] {
      assert |multiset(b)| == 0;
    } else {
      var n := |a|;
      var i := LastElsewhere(a, b);
      ReorderingKeepsScores(a[..n - 1], b[..i] + b[i + 1..], k, id);
      ScoreWithout(b, i, k, id);
    }
  }

  lemma WithoutOne<T>(s: seq<T>, i: nat)
    requires i < |s|
    ensures multiset(s) == multiset(s[..i] + s[i + 1..]) + multiset{s[i]}
  {
    assert s == s[..i] + [s[i]] + s[i + 1..];
  }

  /** Where the last element of `a` stands in a permutation `b`, and that the rest are permutations too. */
  lemma LastElsewhere<T>(a: seq<T>, b: seq<T>) returns (i: nat)
    requires a != [] && multiset(a) == multiset(b)
    ensures i < |b| && b[i] == a[|a| - 1]
    ensures multiset(a[..|a| - 1]) == multiset(b[..i] + b[i + 1..])
  {
    var n := |a| - 1;
    assert a[n] in multiset(b);
    i :| 0 <= i < |b| && b[i] == a[n];
    WithoutOne(a, n);
    WithoutOne(b, i);
    assert a[..n] + a[n + 1..] == a[..n];
    assert multiset(a[..n]) == multiset(a) - multiset{a[n]};
    assert multiset(b[..i] + b[i + 1..]) == multiset(b) - multiset{b[i]};
  }

  lemma ReorderingKeepsIds(a: seq<seq<Id>>, b: seq<seq<Id>>, id: Id)
    requires multiset(a) == multiset(b)
    ensures Listed(a, id) ==> Listed(b, id)
  {
    if Listed(a, id) {
      var i :| 0 <= i < |a| && id in a[i];
      assert a[i] in multiset(b);
    }
  }

  lemma FusionDetermined(f: seq<(Id, real)>, g: seq<(Id, real)>, a: seq<seq<Id>>, b: seq<seq<Id>>, k: nat)
    requires IsFusion(f, a, k) && IsFusion(g, b, k)
    requires forall id: Id :: Listed(a, id) <==> Listed(b, id)
    requires forall id: Id :: Score(a, k, id) == Score(b, k, id)
    ensures f == g
  {
    forall x ensures multiset(f)[x] == multiset(g)[x] {
      CountAtMost(f, x);
      CountAtMost(g, x);
      if x in f { assert Listed(a, x.0); }
      if x in g { assert Listed(b, x.0); }
    }
    OrderedUnique(f, g, FusedOrder());
  }

  /** Swapping the lists, or leaving out the empty ones, gives the identical ranking. */
  lemma FusionForgetsOrder(f: seq<(Id, real)>, g: seq<(Id, real)>, a: seq<seq<Id>>, b: seq<seq<Id>>, k: nat)
    requires IsFusion(f, a, k) && IsFusion(g, b, k)
    requires multiset(NonEmpty(a)) == multiset(NonEmpty(b))
    ensures f == g
  {
    forall id: Id
      ensures Listed(a, id) <==> Listed(b, id)
      ensures Score(a, k, id) == Score(b, k, id)
    {
      EmptiesWeighNothing(a, k, id);
      EmptiesWeighNothing(b, k, id);
      ReorderingKeepsScores(NonEmpty(a), NonEmpty(b), k, id);
      ReorderingKeepsIds(NonEmpty(a), NonEmpty(b), id);
      ReorderingKeepsIds(NonEmpty(b), NonEmpty(a), id);
    }
    FusionDetermined(f, g, a, b, k);
  }

  // --- one list -------------------------------------------------------------------------------

  /** In a duplicate-free list an id earns what its one rank is worth. */
  lemma {:induction false} RankWorth(list: seq<Id>, i: nat, k: nat)
    requires NoDup(list) && i < |list|
    ensures ListScore(list, k, list[i]) == 1.0 / ((k + i + 1) as real)
  {
    var n := |list|;
    if i == n - 1 {
      AbsentScore(list[..n - 1], k, list[i]);
    } else {
      RankWorth(list[..n - 1], i, k);
    }
  }

  lemma Reciprocals(a: nat, b: nat)
    requires 0 < a < b
    ensures 1.0 / (a as real) > 1.0 / (b as real)
  {
    var x, y := a as real, b as real;
    assert 1.0 / x - 1.0 / y == (y - x) / (x * y);
  }

  /** Lexical-only search: a single duplicate-free list comes back in its own order. */
  lemma SingleListKeepsOrder(fused: seq<(Id, real)>, list: seq<Id>, k: nat)
    requires NoDup(list) && IsFusion(fused, [list], k)
    ensures |fused| == |list|
    ensures forall i :: 0 <= i < |list| ==> fused[i].0 == list[i]
  {
    var own := seq(|list|, i requires 0 <= i < |list| => (list[i], 1.0 / ((k + i + 1) as real)));
    forall id: Id
      ensures Score([list], k, id) == ListScore(list, k, id) && (Listed([list], id) <==> id in list)
    {
      ScoreSnoc([], list, k, id);
      assert [] + [list] == [list];
    }
    forall i | 0 <= i < |own|
      ensures Listed([list], own[i].0) && own[i].1 == Score([list], k, own[i].0)
    {
      RankWorth(list, i, k);
    }
    forall i, j | 0 <= i < j < |own| ensures FusedOrder()(own[i], own[j]) {
      Reciprocals(k + i + 1, k + j + 1);
    }
    forall id: Id | Listed([list], id) ensures (id, Score([list], k, id)) in own {
      var i :| 0 <= i < |list| && list[i] == id;
      assert own[i] == (id, Score([list], k, id));
    }
    FusionDetermined(fused, own, [list], [list], k);
  }

  // --- corroboration -----------------------------------------------------------------------------

  predicate InBoth(id: Id, fts: seq<Id>, vec: seq<Id>) {
    id in fts && id in vec
  }

  lemma TwoLists(fts: seq<Id>, vec: seq<Id>, k: nat, id: Id)
    ensures Score([fts, vec], k, id) == ListScore(fts, k, id) + ListScore(vec, k, id)
    ensures Listed([fts, vec], id) <==> id in fts || id in vec
  {
    assert [fts, vec] == [] + [fts] + [vec];
    ScoreSnoc([], fts, k, id);
    ScoreSnoc([fts], vec, k, id);
  }

  /** What one list of at most `pool` ids can give: nothing, or between 1/(k+pool) and 1/(k+1). */
  lemma ListWorth(list: seq<Id>, pool: nat, k: nat, id: Id)
    requires NoDup(list) && |list| <= pool
    ensures id !in list ==> ListScore(list, k, id) == 0.0
    ensures id in list ==> 1.0 / ((k + pool) as real) <= ListScore(list, k, id) <= 1.0 / ((k + 1) as real)
  {
    if id in list {
      var i :| 0 <= i < |list| && list[i] == id;
      RankWorth(list, i, k);
      if i + 1 < pool { Reciprocals(k + i + 1, k + pool); }
      if i > 0 { Reciprocals(k + 1, k + i + 1); }
    } else {
      AbsentScore(list, k, id);
    }
  }

  /** An id found by both halves strictly outscores every id found by one, over all candidate lists. */
  ghost predicate AgreementWins(pool: nat, k: nat) {
    forall fts: seq<Id>, vec: seq<Id>, a: Id, b: Id ::
      NoDup(fts) && NoDup(vec) && |fts| <= pool && |vec| <= pool
      && InBoth(a, fts, vec) && !InBoth(b, fts, vec)
      ==> Score([fts, vec], k, a) > Score([fts, vec], k, b)
  }

  lemma TwoBeatOne(x: nat, y: nat)
    requires 0 < x < 2 * y
    ensures 1.0 / (x as real) + 1.0 / (x as real) > 1.0 / (y as real)
  {
    Reciprocals(x, 2 * y);
    var z := y as real;
    assert 1.0 / (2.0 * z) + 1.0 / (2.0 * z) == 1.0 / z;
  }

  lemma ShallowPool(fts: seq<Id>, vec: seq<Id>, pool: nat, k: nat, a: Id, b: Id)
    requires pool < k + 2
    requires NoDup(fts) && NoDup(vec) && |fts| <= pool && |vec| <= pool
    requires InBoth(a, fts, vec) && !InBoth(b, fts, vec)
    ensures Score([fts, vec], k, a) > Score([fts, vec], k, b)
  {
    TwoLists(fts, vec, k, a);
    TwoLists(fts, vec, k, b);
    ListWorth(fts, pool, k, a);
    ListWorth(vec, pool, k, a);
    ListWorth(fts, pool, k, b);
    ListWorth(vec, pool, k, b);
    TwoBeatOne(k + pool, k + 1);
  }

  lemma ShallowPools(pool: nat, k: nat)
    requires pool < k + 2
    ensures AgreementWins(pool, k)
  {
    forall fts: seq<Id>, vec: seq<Id>, a: Id, b: Id
      | NoDup(fts) && NoDup(vec) && |fts| <= pool && |vec| <= pool && InBoth(a, fts, vec) && !InBoth(b, fts, vec)
      ensures Score([fts, vec], k, a) > Score([fts, vec], k, b)
    {
      ShallowPool(fts, vec, pool, k, a, b);
    }
  }

  /** Two lists of length k + 2 in which the shared last id only ties with the other's first. */
  lemma DeepPool(k: nat) returns (fts: seq<Id>, vec: seq<Id>, a: Id, b: Id)
    ensures NoDup(fts) && NoDup(vec) && |fts| == k + 2 == |vec|
    ensures InBoth(a, fts, vec) && !InBoth(b, fts, vec)
    ensures Score([fts, vec], k, a) == Score([fts, vec], k, b) && b < a
  {
    fts := seq(k + 2, i requires 0 <= i => i);
    vec := seq(k + 2, i requires 0 <= i => if i == k + 1 then i else k + 2 + i);
    a, b := k + 1, 0;
    assert fts[k + 1] == a && vec[k + 1] == a && fts[0] == b;
    RankWorth(fts, k + 1, k);
    RankWorth(vec, k + 1, k);
    RankWorth(fts, 0, k);
    AbsentScore(vec, k, b);
    TwoLists(fts, vec, k, a);
    TwoLists(fts, vec, k, b);
    TwoHalves(k);
  }

  lemma TwoHalves(k: nat)
    ensures 1.0 / ((k + (k + 1) + 1) as real) + 1.0 / ((k + (k + 1) + 1) as real) == 1.0 / ((k + 1) as real)
  {
    var y := (k + 1) as real;
    assert (k + (k + 1) + 1) as real == 2.0 * y;
    assert 1.0 / (2.0 * y) + 1.0 / (2.0 * y) == 1.0 / y;
  }

  /** Corroboration holds exactly for pools shallower than k + 2; the defaults 50 and 60 are well inside. */
  lemma Corroboration(pool: nat, k: nat)
    ensures AgreementWins(pool, k) <==> pool < k + 2
    ensures AgreementWins(50, 60)
  {
    if pool < k + 2 {
      ShallowPools(pool, k);
    } else {
      var fts, vec, a, b := DeepPool(k);
      assert !(Score([fts, vec], k, a) > Score([fts, vec], k, b));
    }
    ShallowPools(50, 60);
  }

  // --- hybrid_search -------------------------------------------------------------------------------

  datatype Source = Lexical | Semantic
  datatype Hit<Row> = Hit(id: Id, row: Row, score: real, sources: seq<Source>)

  function SourcesOf(id: Id, fts: seq<Id>, vec: seq<Id>): seq<Source> {
    (if id in fts then [Lexical] else []) + (if id in vec then [Semantic] else [])
  }

  /** The display rows of a ranking: ids whose row vanished are skipped, the rest keep their order. */
  function Hits<Row>(fused: seq<(Id, real)>, table: map<Id, Row>, fts: seq<Id>, vec: seq<Id>): seq<Hit<Row>> {
    if fused == [] then []
    else
      var (id, score) := fused[|fused| - 1];
      Hits(fused[..|fused| - 1], table, fts, vec)
      + if id in table then [Hit(id, table[id], score, SourcesOf(id, fts, vec))] else []
  }

  function Cut<T>(s: seq<T>, limit: nat): seq<T> {
    if limit < |s| then s[..limit] else s
  }

  lemma OneList(list: seq<Id>, k: nat, id: Id)
    ensures Score([list], k, id) == ListScore(list, k, id)
    ensures Listed([list], id) <==> id in list
  {
    assert [list] == [] + [list];
    ScoreSnoc([], list, k, id);
  }

  lemma HitsSnoc<Row>(fused: seq<(Id, real)>, i: nat, table: map<Id, Row>, fts: seq<Id>, vec: seq<Id>)
    requires i < |fused|
    ensures var (id, score) := fused[i];
      Hits(fused[..i + 1], table, fts, vec) == Hits(fused[..i], table, fts, vec)
        + if id in table then [Hit(id, table[id], score, SourcesOf(id, fts, vec))] else []
  {
    assert fused[..i + 1][..i] == fused[..i];
  }

  lemma OnlyNonEmptyLists(fts: seq<Id>, vec: seq<Id>, k: nat, id: Id)
    ensures var rankings := (if fts != [] then [fts] else []) + (if vec != [] then [vec] else []);
      Score(rankings, k, id) == Score([fts, vec], k, id) && (Listed(rankings, id) <==> Listed([fts, vec], id))
  {
    TwoLists(fts, vec, k, id);
    OneList(fts, k, id);
    OneList(vec, k, id);
    assert [vec] == [] + [vec] && [fts] == [fts] + [] && [fts, vec] == [fts] + [vec];
  }

  /** `vec` is None when there is no query embedding; `table` holds the rows `_hydrate` can find. */
  method Search<Row>(fts: seq<Id>, vec: Option<seq<Id>>, table: map<Id, Row>, limit: nat, k: nat)
    returns (out: seq<Hit<Row>>)
    ensures var found := vec.GetOr([]);
      exists fused :: IsFusion(fused, [fts, found], k) && out == Hits(Cut(fused, limit), table, fts, found)
  {
    var found := vec.GetOr([]);
    var rankings := (if fts != [] then [fts] else []) + (if found != [] then [found] else []);
    forall id: Id {
      OnlyNonEmptyLists(fts, found, k, id);
    }
    out := [];
    if rankings == [] {
      assert IsFusion([], [fts, found], k);
      return;
    }
    var ranked := Fuse(rankings, k);
    ghost var fused := ranked;
    assert IsFusion(fused, [fts, found], k);
    ranked := Cut(ranked, limit);
    for i := 0 to |ranked|
      invariant out == Hits(ranked[..i], table, fts, found)
    {
      var (id, score) := ranked[i];
      HitsSnoc(ranked, i, table, fts, found);
      if id in table {
        out := out + [Hit(id, table[id], score, SourcesOf(id, fts, found))];
      }
    }
    assert ranked[..|ranked|] == ranked;
  }

  /** Each hit comes from its own place in the ranking, places ascending. */
  lemma {:induction false} HitPlaces<Row>(fused: seq<(Id, real)>, table: map<Id, Row>, fts: seq<Id>, vec: seq<Id>)
    returns (at: seq<nat>)
    ensures PlacesOf(Hits(fused, table, fts, vec), at, fused, table, fts, vec)
  {
    at := [];
    if fused != [] {
      var n := |fused|;
      at := HitPlaces(fused[..n - 1], table, fts, vec);
      PlacesSnoc(Hits(fused[..n - 1], table, fts, vec), at, fused, table, fts, vec);
      if fused[n - 1].0 in table {
        at := at + [n - 1];
      }
    }
  }

  ghost predicate PlacesOf<Row>(out: seq<Hit<Row>>, at: seq<nat>, fused: seq<(Id, real)>, table: map<Id, Row>,
                                fts: seq<Id>, vec: seq<Id>)
  {
    && |at| == |out|
    && (forall i, j :: 0 <= i < j < |at| ==> at[i] < at[j])
    && (forall i :: 0 <= i < |at| ==> at[i] < |fused| && IsHit(out[i], fused[at[i]], table, fts, vec))
    && (forall p :: 0 <= p < |fused| && fused[p].0 in table ==> p in at)
  }

  /** The hit shows its entry's row and score, and the half or halves that found it. */
  ghost predicate IsHit<Row>(hit: Hit<Row>, entry: (Id, real), table: map<Id, Row>, fts: seq<Id>, vec: seq<Id>) {
    && hit.id == entry.0 && hit.score == entry.1 && hit.id in table && hit.row == table[hit.id]
    && (hit.id in fts && hit.id in vec ==> hit.sources == [Lexical, Semantic])
    && (hit.id in fts && hit.id !in vec ==> hit.sources == [Lexical])
    && (hit.id !in fts && hit.id in vec ==> hit.sources == [Semantic])
  }

  lemma PlacesSnoc<Row>(out: seq<Hit<Row>>, at: seq<nat>, fused: seq<(Id, real)>, table: map<Id, Row>, fts: seq<Id>,
                        vec: seq<Id>)
    requires fused != [] && PlacesOf(out, at, fused[..|fused| - 1], table, fts, vec)
    ensures var (id, score) := fused[|fused| - 1];
      if id in table
      then PlacesOf(out + [Hit(id, table[id], score, SourcesOf(id, fts, vec))],
                    at + [|fused| - 1], fused, table, fts, vec)
      else PlacesOf(out, at, fused, table, fts, vec)
  {
    var n := |fused| - 1;
    forall p | 0 <= p < n && fused[p].0 in table ensures p in at {
      assert fused[..n][p].0 in table;
    }
    forall i | 0 <= i < |at| ensures IsHit(out[i], fused[at[i]], table, fts, vec) {
      assert fused[..n][at[i]] == fused[at[i]];
    }
  }

  /**
   What is displayed: the fused entries within the limit that still have a row, in order, each once, with its
   row, its score and the halves that found it.
   */
  lemma HitsTell<Row>(fused: seq<(Id, real)>, table: map<Id, Row>, limit: nat, fts: seq<Id>, vec: seq<Id>)
    returns (at: seq<nat>)
    ensures var out := Hits(Cut(fused, limit), table, fts, vec);
      && |at| == |out|
      && (forall i, j :: 0 <= i < j < |at| ==> at[i] < at[j])
      && (forall i :: 0 <= i < |at| ==>
            at[i] < |fused| && at[i] < limit && IsHit(out[i], fused[at[i]], table, fts, vec))
      && (forall p :: 0 <= p < |fused| && p < limit && fused[p].0 in table ==> p in at)
  {
    at := HitPlaces(Cut(fused, limit), table, fts, vec);
  }

  /** Hits found by both halves come before all others, whatever rows are missing and wherever the limit cuts. */
  lemma CorroboratedFirst<Row>(fused: seq<(Id, real)>, fts: seq<Id>, vec: seq<Id>, table: map<Id, Row>, limit: nat,
                               pool: nat, k: nat)
    requires NoDup(fts) && NoDup(vec) && |fts| <= pool && |vec| <= pool && pool < k + 2
    requires IsFusion(fused, [fts, vec], k)
    ensures var out := Hits(Cut(fused, limit), table, fts, vec);
      && (forall i :: 0 <= i < |out| ==> (out[i].sources == [Lexical, Semantic] <==> InBoth(out[i].id, fts, vec)))
      && (forall i, j :: 0 <= i < j < |out| && out[j].sources == [Lexical, Semantic] ==>
           out[i].sources == [Lexical, Semantic])
  {
    var cut := Cut(fused, limit);
    var out := Hits(cut, table, fts, vec);
    var at := HitPlaces(cut, table, fts, vec);
    forall i, j | 0 <= i < j < |out| && InBoth(out[j].id, fts, vec) ensures InBoth(out[i].id, fts, vec) {
      assert FusedOrder()(fused[at[i]], fused[at[j]]);
      if !InBoth(out[i].id, fts, vec) {
        ShallowPool(fts, vec, pool, k, out[j].id, out[i].id);
      }
    }
  }

  /** Without a query embedding the hits are the first `limit` lexical candidates that still have a row, in order. */
  lemma LexicalOnly<Row>(fused: seq<(Id, real)>, fts: seq<Id>, table: map<Id, Row>, limit: nat, k: nat)
    returns (at: seq<nat>)
    requires NoDup(fts) && IsFusion(fused, [fts, []], k)
    ensures var out := Hits(Cut(fused, limit), table, fts, []);
      && |at| == |out|
      && (forall i, j :: 0 <= i < j < |at| ==> at[i] < at[j])
      && (forall i :: 0 <= i < |at| ==>
           at[i] < |fts| && at[i] < limit && out[i].id == fts[at[i]] && out[i].sources == [Lexical])
      && (forall p :: 0 <= p < |fts| && p < limit && fts[p] in table ==> p in at)
  {
    forall id: Id
      ensures Score([fts], k, id) == Score([fts, []], k, id) && (Listed([fts], id) <==> Listed([fts, []], id))
    {
      assert [fts] + [[]] == [fts, []];
      ScoreSnoc([fts], [], k, id);
    }
    SingleListKeepsOrder(fused, fts, k);
    at := HitPlaces(Cut(fused, limit), table, fts, []);
  }
}
