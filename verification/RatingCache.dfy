/**
 The rating tables and the semantic cache over them: where every copied rating came from.

 Both tables keep the first row written for a hash and never change one. Rating and embedding jobs
 interleave freely between reading a neighbour and writing the copy.
 */
module RatingCache {
  import opened Common

  datatype Rating = Rating(relevance: real, confidence: real, topics: seq<string>, summary: string)
  datatype RatingRow = RatingRow(hash: nat, model: string, rating: Rating)
  datatype Vector = Vector(coordinates: seq<real>)
  datatype Call = Call(hash: nat, model: string, rating: Rating)

  /** signal_ratings in insertion order, signal_embeddings, and the model calls that returned a rating. */
  datatype Tables = Tables(ratings: seq<RatingRow>, embeddings: map<nat, Vector>, calls: set<Call>)

  /** `distance` is None where cosine distance has no value. */
  datatype Config = Config(distance: (Vector, Vector) -> Option<real>, maxDistance: real)

  // --- model names and tags ---------------------------------------------------------------------

  const PROVIDERS := {"ollama", "deepseek", "groq", "openrouter", "anthropic"}
  const EMBEDDERS := {"openai", "ollama", "together", "voyage", "mistral"}
  const CACHE := "cache:"

  /** str.partition("/"): what is before the first slash, whether there is one, and what is after. */
  function Partition(s: string): (string, bool, string) {
    if s == "" then ("", false, "")
    else if s[0] == '/' then ("", true, s[1..])
    else
      var (before, found, after) := Partition(s[1..]);
      ([s[0]] + before, found, after)
  }

  /** `keys` are the providers whose API key is in the environment. */
  predicate Names(model: string, providers: set<string>, keys: set<string>) {
    var (provider, found, name) := Partition(model);
    found && name != "" && provider in providers && (provider == "ollama" || provider in keys)
  }

  /** resolve_model succeeds. */
  predicate Resolves(model: string, keys: set<string>) {
    Names(model, PROVIDERS, keys)
  }

  /** resolve_embedding_model succeeds. */
  predicate ResolvesEmbedding(model: string, keys: set<string>) {
    Names(model, EMBEDDERS, keys)
  }

  /**
   The cache lookup raises ValueError, which it does not catch: embeddings are on, the content has no
   stored one, and the embedding model's name does not resolve.
   */
  predicate LookupRaises(embedder: Option<string>, stored: bool, keys: set<string>) {
    embedder.Some? && !stored && !ResolvesEmbedding(embedder.value, keys)
  }

  lemma {:induction false} PartitionExactly(s: string)
    ensures var (before, found, after) := Partition(s);
      && '/' !in before && (found <==> '/' in s) && s == before + (if found then "/" else "") + after
      && (!found ==> after == "")
  {
    if s != "" && s[0] != '/' {
      PartitionExactly(s[1..]);
      assert s == [s[0]] + s[1..];
    }
  }

  lemma {:induction false} PartitionsAt(before: string, after: string)
    requires '/' !in before
    ensures Partition(before + "/" + after) == (before, true, after)
  {
    var s := before + "/" + after;
    if before == "" {
      assert s[1..] == after;
    } else {
      assert s[1..] == before[1..] + "/" + after && s[0] == before[0] && before[0] in before;
      PartitionsAt(before[1..], after);
      assert [before[0]] + before[1..] == before;
    }
  }

  /**
   A name resolves exactly if it is a provider of the list, a slash and a model's name, and the provider's key is
   there or it is the one that needs none.
   */
  lemma NamesExactly(model: string, providers: set<string>, keys: set<string>)
    requires forall p <- providers :: '/' !in p
    ensures Names(model, providers, keys) <==>
      exists p <- providers :: p + "/" < model && (p == "ollama" || p in keys)
  {
    if Names(model, providers, keys) {
      var (provider, found, name) := Partition(model);
      PartitionExactly(model);
      assert model == provider + "/" + name;
      assert provider in providers && provider + "/" < model;
    }
    forall p <- providers | p + "/" < model && (p == "ollama" || p in keys) ensures Names(model, providers, keys) {
      var name := model[|p| + 1..];
      assert model == p + "/" + name;
      PartitionsAt(p, name);
    }
  }

  /** The two tables of providers: what a rating model and an embedding model may be called. */
  lemma ResolveExactly(model: string, keys: set<string>)
    ensures Resolves(model, keys) <==>
      exists p <- {"ollama", "deepseek", "groq", "openrouter", "anthropic"} ::
        p + "/" < model && (p == "ollama" || p in keys)
    ensures ResolvesEmbedding(model, keys) <==>
      exists p <- {"openai", "ollama", "together", "voyage", "mistral"} ::
        p + "/" < model && (p == "ollama" || p in keys)
  {
    NamesExactly(model, PROVIDERS, keys);
    NamesExactly(model, EMBEDDERS, keys);
  }

  predicate IsCached(model: string) {
    CACHE <= model
  }

  lemma ProviderIsPrefix(model: string)
    ensures Partition(model).0 <= model
    ensures Partition(model).1 ==> Partition(model).0 + "/" <= model
  {
  }

  /**
   No model that can be called is named like a copy, and no copy's tag could be called: the tag tells
   the two apart.
   */
  lemma TagsAreNotModels(model: string, keys: set<string>)
    ensures Resolves(model, keys) ==> !IsCached(model)
    ensures !Resolves(CACHE + model, keys)
  {
    if Resolves(model, keys) {
      NoProviderLooksCached(model, keys);
    }
    if Resolves(CACHE + model, keys) {
      NoProviderLooksCached(CACHE + model, keys);
    }
  }

  lemma NoProviderLooksCached(model: string, keys: set<string>)
    requires Resolves(model, keys)
    ensures !IsCached(model)
  {
    var provider := Partition(model).0;
    ProviderIsPrefix(model);
    assert (provider + "/")[0] == model[0];
    if |provider| >= 5 { assert model[5] == (provider + "/")[5]; }
    assert provider == "ollama" || provider == "deepseek" || provider == "groq" || provider == "openrouter"
      || provider == "anthropic";
    assert CACHE[0] == 'c';
  }

  // --- the tables ------------------------------------------------------------------------------

  predicate Rated(t: Tables, hash: nat) {
    exists i :: 0 <= i < |t.ratings| && t.ratings[i].hash == hash
  }

  /** insert_rating, ON CONFLICT DO NOTHING. */
  function InsertRating(t: Tables, row: RatingRow): Tables {
    if Rated(t, row.hash) then t else t.(ratings := t.ratings + [row])
  }

  /** insert_embedding, ON CONFLICT DO NOTHING. */
  function InsertEmbedding(t: Tables, hash: nat, v: Vector): Tables {
    if hash in t.embeddings then t else t.(embeddings := t.embeddings[hash := v])
  }

  /** Two embedded contents within the cache's reach. */
  predicate Near(t: Tables, h: nat, g: nat, c: Config) {
    && h in t.embeddings && g in t.embeddings
    && var d := c.distance(t.embeddings[g], t.embeddings[h]);
       d.Some? && d.value <= c.maxDistance
  }

  /** A candidate row of the neighbour query that is near enough to copy. */
  predicate Donor(t: Tables, d: nat, hash: nat, c: Config) {
    d < |t.ratings| && t.ratings[d].hash != hash && Near(t, hash, t.ratings[d].hash, c)
  }

  predicate Grows(t: Tables, u: Tables) {
    && t.ratings <= u.ratings && t.calls <= u.calls
    && forall h <- t.embeddings :: h in u.embeddings && u.embeddings[h] == t.embeddings[h]
  }

  // --- provenance --------------------------------------------------------------------------------

  /** Row k was written by a model call of its own. */
  predicate Fresh(t: Tables, k: nat) {
    k < |t.ratings| && !IsCached(t.ratings[k].model)
    && Call(t.ratings[k].hash, t.ratings[k].model, t.ratings[k].rating) in t.calls
  }

  /** Row k is a copy of the earlier row d. */
  predicate CopyOf(t: Tables, k: nat, d: nat, c: Config) {
    d < k < |t.ratings| && IsCached(t.ratings[k].model)
    && t.ratings[d].rating == t.ratings[k].rating && Donor(t, d, t.ratings[k].hash, c)
  }

  ghost predicate Sourced(t: Tables, c: Config) {
    && (forall i, j :: 0 <= i < j < |t.ratings| ==> t.ratings[i].hash != t.ratings[j].hash)
    && forall k: nat :: k < |t.ratings| ==> Fresh(t, k) || HasDonor(t, k, c)
  }

  ghost predicate HasDonor(t: Tables, k: nat, c: Config) {
    exists d: nat :: CopyOf(t, k, d, c)
  }

  /** From row k back to a row a model wrote, each hop a copy of the next. */
  ghost predicate Chain(t: Tables, path: seq<nat>, c: Config) {
    && path != []
    && (forall i :: 0 <= i < |path| - 1 ==> CopyOf(t, path[i], path[i + 1], c))
    && Fresh(t, path[|path| - 1])
  }

  lemma {:induction false} ChainFrom(t: Tables, k: nat, c: Config) returns (path: seq<nat>)
    requires Sourced(t, c) && k < |t.ratings|
    ensures Chain(t, path, c) && path[0] == k
    decreases k
  {
    if Fresh(t, k) {
      path := [k];
    } else {
      assert HasDonor(t, k, c);
      var d: nat :| CopyOf(t, k, d, c);
      var rest := ChainFrom(t, d, c);
      path := [k] + rest;
    }
  }

  /** Along a chain the rows get strictly earlier and the rating stays the same. */
  lemma {:induction false} ChainDescends(t: Tables, path: seq<nat>, c: Config, i: nat, j: nat)
    requires Chain(t, path, c) && i < j < |path|
    ensures path[j] < path[i] < |t.ratings| && t.ratings[path[i]].rating == t.ratings[path[j]].rating
    decreases j
  {
    assert CopyOf(t, path[j - 1], path[j], c);
    if i < j - 1 {
      ChainDescends(t, path, c, i, j - 1);
    }
  }

  lemma GrowthKeeps(t: Tables, u: Tables, c: Config)
    requires Grows(t, u)
    ensures forall k: nat :: k < |t.ratings| && Fresh(t, k) ==> Fresh(u, k)
    ensures forall k: nat, d: nat :: CopyOf(t, k, d, c) ==> CopyOf(u, k, d, c)
    ensures forall h, g :: Near(t, h, g, c) ==> Near(u, h, g, c)
    ensures forall k: nat :: HasDonor(t, k, c) ==> HasDonor(u, k, c)
    ensures forall d: nat, h: nat :: Donor(t, d, h, c) ==> Donor(u, d, h, c)
  {
    forall k: nat | HasDonor(t, k, c) ensures HasDonor(u, k, c) {
      var d: nat :| CopyOf(t, k, d, c);
      assert CopyOf(u, k, d, c);
    }
  }

  /** A row from a model call, or copied from a donor near enough, keeps every row sourced. */
  lemma InsertSourced(t: Tables, row: RatingRow, c: Config)
    requires Sourced(t, c)
    requires (!IsCached(row.model) && Call(row.hash, row.model, row.rating) in t.calls)
          || (IsCached(row.model) && exists d: nat :: Donor(t, d, row.hash, c) && t.ratings[d].rating == row.rating)
    ensures Sourced(InsertRating(t, row), c) && Grows(t, InsertRating(t, row))
  {
    var u := InsertRating(t, row);
    GrowthKeeps(t, u, c);
    if !Rated(t, row.hash) {
      var k := |t.ratings|;
      if !IsCached(row.model) {
        assert Fresh(u, k);
      } else {
        var d: nat :| Donor(t, d, row.hash, c) && t.ratings[d].rating == row.rating;
        assert CopyOf(u, k, d, c);
      }
    }
  }

  lemma OtherTablesSourced(t: Tables, u: Tables, c: Config)
    requires Sourced(t, c) && Grows(t, u) && u.ratings == t.ratings
    ensures Sourced(u, c)
  {
    GrowthKeeps(t, u, c);
  }
}
