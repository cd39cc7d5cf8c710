/**
 Reciprocal rank fusion of ranked id lists, and the part of hybrid search around it.

 Scores are exact numbers (the source adds floats); an id is a content hash, read as a number.
 */
module Fusion {
  import opened Sorting

  type Id = nat

  // --- the closed form -------------------------------------------------------------------

  /** What one list gives an id: 1/(k + rank) for every place it holds, rank counted from 1. */
  function ListScore(list: seq<Id>, k: nat, id: Id): real {
    if list == [] then 0.0
    else
      var n := |list|;
      ListScore(list[..n - 1], k, id) + if list[n - 1] == id then 1.0 / ((k + n) as real) else 0.0
  }

  function Score(rankings: seq<seq<Id>>, k: nat, id: Id): real {
    if rankings == [] then 0.0
    else
      var n := |rankings|;
      Score(rankings[..n - 1], k, id) + ListScore(rankings[n - 1], k, id)
  }

  predicate Listed(rankings: seq<seq<Id>>, id: Id) {
    exists i :: 0 <= i < |rankings| && id in rankings[i]
  }

  /** Fused score descending, ties by id. */
  function FusedOrder(): ((Id, real), (Id, real)) -> bool {
    (a: (Id, real), b: (Id, real)) => a.1 > b.1 || (a.1 == b.1 && a.0 <= b.0)
  }

  /** Exactly the listed ids, each once with its score, best first. */
  ghost predicate IsFusion(fused: seq<(Id, real)>, rankings: seq<seq<Id>>, k: nat) {
    && (forall i :: 0 <= i < |fused| ==> Listed(rankings, fused[i].0) && fused[i].1 == Score(rankings, k, fused[i].0))
    && (forall id: Id :: Listed(rankings, id) ==> (id, Score(rankings, k, id)) in fused)
    && NoDup(fused)
    && Ordered(fused, FusedOrder())
  }

  // --- the loop ------------------------------------------------------------------------------

  /** The score dictionary, with its keys in insertion order. */
  datatype Scores = Scores(entries: map<Id, real>, keys: seq<Id>)

  ghost predicate ScoresOk(s: Scores, rankings: seq<seq<Id>>, k: nat) {
    && NoDup(s.keys)
    && (forall id :: id in s.keys <==> id in s.entries)
    && (forall id :: id in s.entries <==> Listed(rankings, id))
    && (forall id <- s.entries :: s.entries[id] == Score(rankings, k, id))
  }

  lemma ScoreSnoc(rankings: seq<seq<Id>>, list: seq<Id>, k: nat, id: Id)
    ensures Score(rankings + [list], k, id) == Score(rankings, k, id) + ListScore(list, k, id)
    ensures Listed(rankings + [list], id) <==> Listed(rankings, id) || id in list
  {
    assert (rankings + [list])[..|rankings|] == rankings;
    if Listed(rankings, id) {
      var i :| 0 <= i < |rankings| && id in rankings[i];
      assert id in (rankings + [list])[i];
    }
    if id in list {
      assert id in (rankings + [list])[|rankings|];
    }
  }

  lemma ListSnoc(list: seq<Id>, x: Id, k: nat, id: Id)
    ensures ListScore(list + [x], k, id)
         == ListScore(list, k, id) + if x == id then 1.0 / ((k + |list| + 1) as real) else 0.0
  {
    assert (list + [x])[..|list|] == list;
  }

  /** The dictionary after one more entry of the list being read. */
  lemma ScoresSnoc(s: Scores, t: Scores, done: seq<seq<Id>>, part: seq<Id>, id: Id, k: nat)
    requires ScoresOk(s, done + [part], k)
    requires t.entries ==
      s.entries[id := (if id in s.entries then s.entries[id] else 0.0) + 1.0 / ((k + |part| + 1) as real)]
    requires t.keys == if id in s.entries then s.keys else s.keys + [id]
    ensures ScoresOk(t, done + [part + [id]], k)
  {
    forall x
      ensures Listed(done + [part + [id]], x) <==> Listed(done + [part], x) || x == id
      ensures Score(done + [part + [id]], k, x)
           == Score(done + [part], k, x) + if x == id then 1.0 / ((k + |part| + 1) as real) else 0.0
    {
      ScoreSnoc(done, part, k, x);
      ScoreSnoc(done, part + [id], k, x);
      ListSnoc(part, id, k, x);
    }
    if !Listed(done + [part], id) {
      UnlistedScore(done + [part], k, id);
    }
  }

  lemma {:induction false} UnlistedScore(rankings: seq<seq<Id>>, k: nat, id: Id)
    requires !Listed(rankings, id)
    ensures Score(rankings, k, id) == 0.0
  {
    if rankings != [] {
      var n := |rankings|;
      assert rankings == rankings[..n - 1] + [rankings[n - 1]];
      ScoreSnoc(rankings[..n - 1], rankings[n - 1], k, id);
      UnlistedScore(rankings[..n - 1], k, id);
      AbsentScore(rankings[n - 1], k, id);
    }
  }

  lemma {:induction false} AbsentScore(list: seq<Id>, k: nat, id: Id)
    requires id !in list
    ensures ListScore(list, k, id) == 0.0
  {
    if list != [] {
      AbsentScore(list[..|list| - 1], k, id);
    }
  }

  /** The inner loop: one list's entries. */
  method AddList(before: Scores, ranked: seq<Id>, k: nat, ghost done: seq<seq<Id>>) returns (s: Scores)
    requires ScoresOk(before, done, k)
    ensures ScoresOk(s, done + [ranked], k)
  {
    s := before;
    EmptyListAdds(s, done, k);
    assert ranked[..0] == [];
    for position := 0 to |ranked|
      invariant ScoresOk(s, done + [ranked[..position]], k)
    {
      var id, rank := ranked[position], position + 1;
      var score := if id in s.entries then s.entries[id] else 0.0;
      var t := Scores(s.entries[id := score + 1.0 / ((k + rank) as real)],
                      if id in s.entries then s.keys else s.keys + [id]);
      ScoresSnoc(s, t, done, ranked[..position], id, k);
      assert ranked[..position] + [id] == ranked[..position + 1];
      s := t;
    }
    assert ranked[..|ranked|] == ranked;
  }

  /** The nested loops over lists and positions fill the dictionary with the closed form. */
  method Accumulate(rankings: seq<seq<Id>>, k: nat) returns (s: Scores)
    ensures ScoresOk(s, rankings, k)
  {
    s := Scores(map[], []);
    for r := 0 to |rankings|
      invariant ScoresOk(s, rankings[..r], k)
    {
      s := AddList(s, rankings[r], k, rankings[..r]);
      assert rankings[..r] + [rankings[r]] == rankings[..r + 1];
    }
    assert rankings[..|rankings|] == rankings;
  }

  lemma EmptyListAdds(s: Scores, done: seq<seq<Id>>, k: nat)
    requires ScoresOk(s, done, k)
    ensures ScoresOk(s, done + [[]], k)
  {
    forall id
      ensures Score(done + [[]], k, id) == Score(done, k, id)
      ensures Listed(done + [[]], id) <==> Listed(done, id)
    {
      ScoreSnoc(done, [], k, id);
    }
  }

  lemma FusedOrderTotal()
    ensures TotalOrder(FusedOrder())
  {
  }

  /** scores.items(), in insertion order. */
  function Items(s: Scores): seq<(Id, real)> {
    seq(|s.keys|, i requires 0 <= i < |s.keys| =>
      (s.keys[i], if s.keys[i] in s.entries then s.entries[s.keys[i]] else 0.0))
  }

  lemma ItemsFacts(s: Scores, rankings: seq<seq<Id>>, k: nat)
    requires ScoresOk(s, rankings, k)
    ensures NoDup(Items(s))
    ensures forall i :: 0 <= i < |Items(s)| ==>
      Listed(rankings, Items(s)[i].0) && Items(s)[i].1 == Score(rankings, k, Items(s)[i].0)
    ensures forall id: Id :: Listed(rankings, id) ==> (id, Score(rankings, k, id)) in Items(s)
  {
    forall id: Id | Listed(rankings, id) ensures (id, Score(rankings, k, id)) in Items(s) {
      var i :| 0 <= i < |s.keys| && s.keys[i] == id;
      assert Items(s)[i] == (id, Score(rankings, k, id));
    }
  }

  /** Sorting the items gives the fusion. */
  lemma SortedItemsFuse(items: seq<(Id, real)>, rankings: seq<seq<Id>>, k: nat)
    requires NoDup(items)
    requires forall i :: 0 <= i < |items| ==>
      Listed(rankings, items[i].0) && items[i].1 == Score(rankings, k, items[i].0)
    requires forall id: Id :: Listed(rankings, id) ==> (id, Score(rankings, k, id)) in items
    ensures IsFusion(Sort(items, FusedOrder()), rankings, k)
  {
    var fused := Sort(items, FusedOrder());
    FusedOrderTotal();
    SortSorts(items, FusedOrder());
    SamePairs(items, fused);
    forall i | 0 <= i < |fused| ensures Listed(rankings, fused[i].0) && fused[i].1 == Score(rankings, k, fused[i].0) {
      assert fused[i] in multiset(fused);
      assert fused[i] in items;
    }
  }

  /** reciprocal_rank_fusion. */
  method Fuse(rankings: seq<seq<Id>>, k: nat) returns (fused: seq<(Id, real)>)
    ensures IsFusion(fused, rankings, k)
    ensures forall i, j :: 0 <= i < j < |fused| ==>
      fused[i].1 > fused[j].1 || (fused[i].1 == fused[j].1 && fused[i].0 < fused[j].0)
  {
    var s := Accumulate(rankings, k);
    fused := Sort(Items(s), FusedOrder());
    ItemsFacts(s, rankings, k);
    SortedItemsFuse(Items(s), rankings, k);
    forall i, j | 0 <= i < j < |fused|
      ensures fused[i].1 > fused[j].1 || (fused[i].1 == fused[j].1 && fused[i].0 < fused[j].0) {
      assert FusedOrder()(fused[i], fused[j]) && fused[i] != fused[j];
    }
  }

  /** What a list gives is what its parts give, the second ranked after the first; one place gives 1/(k + 1). */
  lemma {:induction false} ListScoreSplits(a: seq<Id>, b: seq<Id>, k: nat, id: Id)
    ensures ListScore(a + b, k, id) == ListScore(a, k, id) + ListScore(b, k + |a|, id)
    ensures ListScore([id], k, id) == 1.0 / ((k + 1) as real)
    ensures id !in b ==> ListScore(b, k, id) == 0.0
  {
    assert [id][..0] == [];
    if id !in b {
      AbsentScore(b, k, id);
    }
    if b == [] {
      assert a + b == a;
    } else {
      var n := |b| - 1;
      assert a + b == a + b[..n] + [b[n]];
      ListSnoc(a + b[..n], b[n], k, id);
      ListScoreSplits(a, b[..n], k, id);
    }
  }
}
