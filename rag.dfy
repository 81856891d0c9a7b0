/**
 * The retrieval-augmented search coordinator: a result cache with a
 * five-minute lifetime, a fast path for persona-creation questions, dispatch
 * by search type to a best-chunk semantic search and a BM25 keyword search,
 * the 0.6/0.4 score merge, intent-based reranking and a fallback when
 * anything fails after initialisation.  Storage, the embedding model, the
 * query analyzer's outcome and the response generator are parameters.
 */
module Rag {
  import opened Common
  import opened Text
  import opened Seqs
  import QueryAnalyzer
  import DocumentSpecific
  import EnhancedQuery
  import Bm25
  import Embedding

  // ---------------------------------------------------------------------------
  // Results
  // ---------------------------------------------------------------------------

  datatype HitKind = SemanticHit | KeywordHit | SectionHit | UserDocument | StoredHit

  datatype Source = FromSemantic | FromKeyword

  /**
   * One search result: `finalScore` is set by the merge, `sources` lists the
   * searches that found it, `adjustedScore` is set by the reranking.
   */
  datatype Hit = Hit(
    id: string, content: string, score: real, kind: HitKind, uploadedAt: Option<int>,
    finalScore: Option<real>, sources: seq<Source>, adjustedScore: Option<real>)

  function ScoreKey(h: Hit): real { h.score }

  function FinalKey(h: Hit): real { if h.finalScore.Some? then h.finalScore.value else 0.0 }

  function AdjustedKey(h: Hit): real { if h.adjustedScore.Some? then h.adjustedScore.value else 0.0 }

  predicate UniqueIds(hs: seq<Hit>) {
    forall i, j :: 0 <= i < j < |hs| ==> hs[i].id != hs[j].id
  }

  predicate ScoresInUnit(hs: seq<Hit>) {
    forall i :: 0 <= i < |hs| ==> 0.0 <= hs[i].score <= 1.0
  }

  function Max(a: real, b: real): real { if a >= b then a else b }

  function IdOf(h: Hit): string { h.id }

  /** A stored document as the storage layer lists it. */
  datatype StoredDoc = StoredDoc(
    id: string, title: string, filename: string, category: string,
    tags: Option<seq<string>>, uploadedAt: Option<int>)

  /** The `embeddings_<id>` record: the document's chunks and one vector per chunk. */
  datatype EmbeddingData = EmbeddingData(chunks: seq<string>, embeddings: seq<Embedding.Vector>)

  /** A failed basic search is caught and reads as no results. */
  function BasicResults(r: Result<seq<Hit>>): seq<Hit> {
    if r.Ok? then r.value else []
  }

  // ---------------------------------------------------------------------------
  // Semantic search: the best chunk of each document
  // ---------------------------------------------------------------------------

  datatype Best = Best(score: real, chunk: string)

  /** Chunk i's similarity to the query; a missing embedding throws like a dimension mismatch. */
  function ChunkSimilarity(q: Embedding.Vector, data: EmbeddingData, i: nat, root: real -> real): Result<real> {
    if i < |data.embeddings| then Embedding.CosineSimilarity(q, data.embeddings[i], root)
    else Err("TypeError")
  }

  /** The best of the first n chunks, starting from score 0 and the empty chunk; a strictly higher score wins. */
  function BestOf(q: Embedding.Vector, data: EmbeddingData, n: nat, root: real -> real): Result<Best>
    requires n <= |data.chunks|
  {
    if n == 0 then Ok(Best(0.0, ""))
    else
      match BestOf(q, data, n - 1, root)
      case Err(m) => Err(m)
      case Ok(b) =>
        match ChunkSimilarity(q, data, n - 1, root)
        case Err(m) => Err(m)
        case Ok(s) => if s > b.score then Ok(Best(s, data.chunks[n - 1])) else Ok(b)
  }

  /** Every one of the first n chunks has an embedding of the query's dimension. */
  predicate Comparable(q: Embedding.Vector, data: EmbeddingData, n: nat) {
    n <= |data.embeddings| && forall i :: 0 <= i < n ==> |data.embeddings[i]| == |q|
  }

  function Sim(q: Embedding.Vector, data: EmbeddingData, i: nat, root: real -> real): real
    requires i < |data.embeddings| && |data.embeddings[i]| == |q|
  {
    Embedding.Cosine(q, data.embeddings[i], root)
  }

  /** Chunk i holds the best score and no earlier chunk reaches it. */
  predicate FirstBest(q: Embedding.Vector, data: EmbeddingData, n: nat, i: nat, root: real -> real, b: Best)
    requires Comparable(q, data, n) && n <= |data.chunks|
  {
    && i < n
    && b.chunk == data.chunks[i] && b.score == Sim(q, data, i, root)
    && forall j :: 0 <= j < i ==> Sim(q, data, j, root) < b.score
  }

  /**
   * The best-chunk loop throws exactly when some chunk has no embedding of
   * the query's dimension.  Otherwise its score is at least 0 and at least
   * every chunk's similarity; a positive score belongs to the first chunk
   * reaching it, and a score of 0 comes with the empty chunk.
   */
  lemma {:induction false} BestOfSpec(q: Embedding.Vector, data: EmbeddingData, n: nat, root: real -> real)
    requires n <= |data.chunks|
    ensures BestOf(q, data, n, root).Err? <==> !Comparable(q, data, n)
    ensures Comparable(q, data, n) ==>
      var b := BestOf(q, data, n, root).value;
      && b.score >= 0.0
      && (forall j :: 0 <= j < n ==> Sim(q, data, j, root) <= b.score)
      && (b.score == 0.0 ==> b.chunk == "")
      && (b.score > 0.0 ==> exists i :: FirstBest(q, data, n, i, root, b))
  {
    if n > 0 {
      BestOfSpec(q, data, n - 1, root);
      var prev := BestOf(q, data, n - 1, root);
      if Comparable(q, data, n) {
        assert Comparable(q, data, n - 1);
        var b0 := prev.value;
        var s := Sim(q, data, n - 1, root);
        var b := BestOf(q, data, n, root).value;
        if s > b0.score {
          assert FirstBest(q, data, n, n - 1, root, b);
        } else if b.score > 0.0 {
          var i :| FirstBest(q, data, n - 1, i, root, b0);
          assert FirstBest(q, data, n, i, root, b);
        }
      } else if prev.Ok? {
        assert Comparable(q, data, n - 1);
      }
    }
  }

  lemma {:induction false} BestOfErrSticks(q: Embedding.Vector, data: EmbeddingData, i: nat, n: nat, root: real -> real)
    requires i <= n <= |data.chunks| && BestOf(q, data, i, root).Err?
    ensures BestOf(q, data, n, root) == BestOf(q, data, i, root)
    decreases n - i
  {
    if i < n {
      BestOfErrSticks(q, data, i, n - 1, root);
    }
  }

  /** `performSemanticSearch`'s inner loop over one document's chunks. */
  method BestChunk(q: Embedding.Vector, data: EmbeddingData, root: real -> real) returns (r: Result<Best>)
    ensures r == BestOf(q, data, |data.chunks|, root)
  {
    var best := Best(0.0, "");
    var i := 0;
    while i < |data.chunks|
      invariant 0 <= i <= |data.chunks|
      invariant BestOf(q, data, i, root) == Ok(best)
    {
      var sim: Result<real>;
      if i < |data.embeddings| {
        sim := Embedding.CosineLoop(q, data.embeddings[i], root);
      } else {
        sim := Err("TypeError");
      }
      if sim.Err? {
        BestOfErrSticks(q, data, i + 1, |data.chunks|, root);
        return Err(sim.error);
      }
      if sim.value > best.score {
        best := Best(sim.value, data.chunks[i]);
      }
      i := i + 1;
    }
    r := Ok(best);
  }

  const SemanticThreshold: real := 0.3

  function SemanticHitOf(d: StoredDoc, b: Best): Hit {
    Hit(d.id, b.chunk, b.score, SemanticHit, d.uploadedAt, None, [], None)
  }

  /** The hit a document contributes: it has embedding data and its best chunk scores above 0.3. */
  predicate Qualifies(q: Embedding.Vector, d: StoredDoc, store: string -> Option<EmbeddingData>, root: real -> real, h: Hit) {
    && store(d.id).Some?
    && var data := store(d.id).value;
      && BestOf(q, data, |data.chunks|, root).Ok?
      && BestOf(q, data, |data.chunks|, root).value.score > SemanticThreshold
      && h == SemanticHitOf(d, BestOf(q, data, |data.chunks|, root).value)
  }

  /** The loop over the documents; the first failure throws. */
  function SemanticCandidates(q: Embedding.Vector, docs: seq<StoredDoc>, store: string -> Option<EmbeddingData>, root: real -> real): Result<seq<Hit>>
    decreases |docs|
  {
    if docs == [] then Ok([])
    else
      match SemanticCandidates(q, docs[..|docs| - 1], store, root)
      case Err(m) => Err(m)
      case Ok(hits) =>
        var d := docs[|docs| - 1];
        match store(d.id)
        case None => Ok(hits)
        case Some(data) =>
          match BestOf(q, data, |data.chunks|, root)
          case Err(m) => Err(m)
          case Ok(b) => if b.score > SemanticThreshold then Ok(hits + [SemanticHitOf(d, b)]) else Ok(hits)
  }

  /**
   * When the loop does not throw, its hits are exactly the documents that
   * qualify, in document order.
   */
  lemma {:induction false} SemanticCandidatesSpec(q: Embedding.Vector, docs: seq<StoredDoc>, store: string -> Option<EmbeddingData>, root: real -> real)
    ensures var r := SemanticCandidates(q, docs, store, root);
      r.Ok? ==>
        && (forall h :: h in r.value ==> exists i :: 0 <= i < |docs| && Qualifies(q, docs[i], store, root, h))
        && (forall i, h :: 0 <= i < |docs| && Qualifies(q, docs[i], store, root, h) ==> h in r.value)
    decreases |docs|
  {
    if docs != [] {
      var init := docs[..|docs| - 1];
      SemanticCandidatesSpec(q, init, store, root);
      var r := SemanticCandidates(q, docs, store, root);
      if r.Ok? {
        var prev := SemanticCandidates(q, init, store, root);
        assert prev.Ok?;
        forall h | h in r.value ensures exists i :: 0 <= i < |docs| && Qualifies(q, docs[i], store, root, h) {
          if h in prev.value {
            var i :| 0 <= i < |init| && Qualifies(q, init[i], store, root, h);
            assert init[i] == docs[i];
          } else {
            assert Qualifies(q, docs[|docs| - 1], store, root, h);
          }
        }
        forall i, h | 0 <= i < |docs| && Qualifies(q, docs[i], store, root, h) ensures h in r.value {
          if i < |docs| - 1 {
            assert init[i] == docs[i];
          }
        }
      }
    }
  }

  lemma {:induction false} SemanticCandidatesErrSticks(q: Embedding.Vector, docs: seq<StoredDoc>, n: nat, store: string -> Option<EmbeddingData>, root: real -> real)
    requires n <= |docs| && SemanticCandidates(q, docs[..n], store, root).Err?
    ensures SemanticCandidates(q, docs, store, root).Err?
    decreases |docs| - n
  {
    if n < |docs| {
      assert docs[..n + 1][..n] == docs[..n];
      SemanticCandidatesErrSticks(q, docs, n + 1, store, root);
    } else {
      assert docs[..n] == docs;
    }
  }

  /** `performSemanticSearch` as a value: [] without entities or on any failure. */
  function SemanticSearchOf(entities: seq<string>, docs: Result<seq<StoredDoc>>, store: string -> Option<EmbeddingData>,
                            embed: string -> Embedding.Vector, root: real -> real, maxResults: nat): seq<Hit> {
    if docs.Err? || entities == [] then []
    else
      match SemanticCandidates(embed(Join(entities, " ")), docs.value, store, root)
      case Err(_) => []
      case Ok(hits) => Take(SortDesc(hits, ScoreKey), maxResults)
  }

  /**
   * `performSemanticSearch`: for every stored document with embedding data,
   * find the best chunk; keep the documents above the threshold, best first,
   * at most maxResults.  Any failure is caught and yields [].
   */
  method PerformSemanticSearch(entities: seq<string>, docs: Result<seq<StoredDoc>>, store: string -> Option<EmbeddingData>,
                               embed: string -> Embedding.Vector, root: real -> real, maxResults: nat) returns (results: seq<Hit>)
    ensures results == SemanticSearchOf(entities, docs, store, embed, root, maxResults)
  {
    if docs.Err? || entities == [] {
      return [];
    }
    var documents := docs.value;
    var q := embed(Join(entities, " "));
    var hits: seq<Hit> := [];
    var i := 0;
    while i < |documents|
      invariant 0 <= i <= |documents|
      invariant SemanticCandidates(q, documents[..i], store, root) == Ok(hits)
    {
      assert documents[..i + 1][..i] == documents[..i];
      var d := documents[i];
      match store(d.id) {
        case None =>
        case Some(data) =>
          var best := BestChunk(q, data, root);
          if best.Err? {
            SemanticCandidatesErrSticks(q, documents, i + 1, store, root);
            return [];
          }
          if best.value.score > SemanticThreshold {
            hits := hits + [SemanticHitOf(d, best.value)];
          }
      }
      i := i + 1;
    }
    assert documents[..i] == documents;
    results := Take(SortDesc(hits, ScoreKey), maxResults);
  }

  /**
   * The semantic search returns [] without entities; otherwise at most
   * maxResults hits, sorted by decreasing score, each one a qualifying
   * document (best chunk above 0.3), and a qualifying document is left out
   * only when maxResults hits outrank it.
   */
  lemma SemanticSearchSpec(entities: seq<string>, docs: Result<seq<StoredDoc>>, store: string -> Option<EmbeddingData>,
                           embed: string -> Embedding.Vector, root: real -> real, maxResults: nat)
    ensures entities == [] ==> SemanticSearchOf(entities, docs, store, embed, root, maxResults) == []
    ensures var r := SemanticSearchOf(entities, docs, store, embed, root, maxResults);
      && |r| <= maxResults
      && SortedDesc(r, ScoreKey)
      && (forall k :: 0 <= k < |r| ==> r[k].score > SemanticThreshold && r[k].kind == SemanticHit)
      && (docs.Ok? && entities != [] ==> forall k :: 0 <= k < |r| ==>
            exists i :: 0 <= i < |docs.value| && Qualifies(embed(Join(entities, " ")), docs.value[i], store, root, r[k]))
  {
    var r := SemanticSearchOf(entities, docs, store, embed, root, maxResults);
    if docs.Ok? && entities != [] {
      var q := embed(Join(entities, " "));
      var c := SemanticCandidates(q, docs.value, store, root);
      if c.Ok? {
        SemanticCandidatesSpec(q, docs.value, store, root);
        var sorted := SortDesc(c.value, ScoreKey);
        assert r == Take(sorted, maxResults);
        SortDescMembers(c.value, ScoreKey);
        forall k | 0 <= k < |r|
          ensures r[k].score > SemanticThreshold && r[k].kind == SemanticHit
          ensures exists i :: 0 <= i < |docs.value| && Qualifies(q, docs.value[i], store, root, r[k])
        {
          assert r[k] == sorted[k];
          assert r[k] in c.value;
          var i :| 0 <= i < |docs.value| && Qualifies(q, docs.value[i], store, root, r[k]);
          QualifiedHit(q, docs.value[i], store, root, r[k]);
        }
      }
    }
  }

  /** A qualifying hit is a semantic hit scoring above the threshold. */
  lemma QualifiedHit(q: Embedding.Vector, d: StoredDoc, store: string -> Option<EmbeddingData>, root: real -> real, h: Hit)
    requires Qualifies(q, d, store, root, h)
    ensures h.score > SemanticThreshold && h.kind == SemanticHit
  {
  }

  /** A document qualifying but missing from the semantic results is outranked by maxResults hits. */
  lemma SemanticSearchComplete(entities: seq<string>, docs: seq<StoredDoc>, store: string -> Option<EmbeddingData>,
                               embed: string -> Embedding.Vector, root: real -> real, maxResults: nat, i: nat, h: Hit)
    requires entities != [] && i < |docs|
    requires SemanticCandidates(embed(Join(entities, " ")), docs, store, root).Ok?
    requires Qualifies(embed(Join(entities, " ")), docs[i], store, root, h)
    requires h !in SemanticSearchOf(entities, Ok(docs), store, embed, root, maxResults)
    ensures var r := SemanticSearchOf(entities, Ok(docs), store, embed, root, maxResults);
      |r| == maxResults && forall k :: 0 <= k < |r| ==> r[k].score >= h.score
  {
    var q := embed(Join(entities, " "));
    var c := SemanticCandidates(q, docs, store, root).value;
    SemanticCandidatesSpec(q, docs, store, root);
    SortDescMembers(c, ScoreKey);
    TopKComplete(SortDesc(c, ScoreKey), ScoreKey, maxResults, h);
    var r := SemanticSearchOf(entities, Ok(docs), store, embed, root, maxResults);
    assert forall k :: 0 <= k < |r| ==> r[k] in r;
  }

  // ---------------------------------------------------------------------------
  // Keyword search
  // ---------------------------------------------------------------------------

  /** The text the engine indexes for a stored document: its chunks joined by spaces, or nothing. */
  function ContentOf(id: string, store: string -> Option<EmbeddingData>): string {
    match store(id)
    case Some(data) => Join(data.chunks, " ")
    case None => ""
  }

  function DocumentInputOf(d: StoredDoc, store: string -> Option<EmbeddingData>): Bm25.DocumentInput {
    Bm25.DocumentInput(d.id, d.title, ContentOf(d.id, store), d.tags, d.filename,
      Bm25.Metadata(d.uploadedAt, d.category, if d.tags.Some? then d.tags.value else []))
  }

  /** The engine's documents after indexing every listed document whose id is not yet present. */
  function EnsuredDocs(m: map<string, Bm25.ProcessedDoc>, docs: seq<StoredDoc>, store: string -> Option<EmbeddingData>): map<string, Bm25.ProcessedDoc>
    decreases |docs|
  {
    if docs == [] then m
    else
      var prev := EnsuredDocs(m, docs[..|docs| - 1], store);
      var d := docs[|docs| - 1];
      if d.id in prev then prev else prev[d.id := Bm25.Preprocess(DocumentInputOf(d, store))]
  }

  /** Reading one more listed document indexes it unless its id is already present. */
  lemma EnsuredStep(m: map<string, Bm25.ProcessedDoc>, docs: seq<StoredDoc>, i: nat, store: string -> Option<EmbeddingData>)
    requires i < |docs|
    ensures var prev := EnsuredDocs(m, docs[..i], store);
      EnsuredDocs(m, docs[..i + 1], store)
        == if docs[i].id in prev then prev else prev[docs[i].id := Bm25.Preprocess(DocumentInputOf(docs[i], store))]
  {
    assert docs[..i + 1][..i] == docs[..i];
  }

  /**
   * Indexing only new ids: documents already indexed keep their entry,
   * every listed document ends up indexed, and nothing else is added.
   */
  lemma {:induction false} EnsuredDocsSpec(m: map<string, Bm25.ProcessedDoc>, docs: seq<StoredDoc>, store: string -> Option<EmbeddingData>)
    ensures forall id :: id in m ==> id in EnsuredDocs(m, docs, store) && EnsuredDocs(m, docs, store)[id] == m[id]
    ensures forall i :: 0 <= i < |docs| ==> docs[i].id in EnsuredDocs(m, docs, store)
    ensures forall id :: id in EnsuredDocs(m, docs, store) ==> id in m || exists i :: 0 <= i < |docs| && docs[i].id == id
    decreases |docs|
  {
    if docs != [] {
      var init := docs[..|docs| - 1];
      EnsuredDocsSpec(m, init, store);
      forall id | id in EnsuredDocs(m, docs, store) ensures id in m || exists i :: 0 <= i < |docs| && docs[i].id == id {
        if id !in m && id != docs[|docs| - 1].id {
          var i :| 0 <= i < |init| && init[i].id == id;
          assert docs[i] == init[i];
        }
      }
      forall i | 0 <= i < |docs| - 1 ensures docs[i].id in EnsuredDocs(m, docs, store) {
        assert docs[i] == init[i];
      }
    }
  }

  /** `extractRelevantSnippet`: the first 200 characters of the content (or the title), '...' when cut. */
  function ExtractRelevantSnippet(content: string, title: string): (r: string) {
    var text := if content != "" then content else title;
    Prefix(text, 200) + (if |text| > 200 then "..." else "")
  }

  lemma SnippetSpec(content: string, title: string)
    ensures var text := if content != "" then content else title;
      var r := ExtractRelevantSnippet(content, title);
      && (|text| <= 200 ==> r == text)
      && (|text| > 200 ==> r == text[..200] + "..." && |r| == 203)
  {
  }

  /** A keyword hit, its snippet taken from the document's indexed text. */
  function KeywordHitOf(r: Bm25.SearchHit): Hit {
    var text := Join(r.document.content, " ");
    var title := Join(r.document.title, " ");
    Hit(r.id, ExtractRelevantSnippet(text, title), r.score, KeywordHit, r.document.metadata.uploadedAt, None, [], None)
  }

  function KeywordHits(results: seq<Bm25.SearchHit>): (r: seq<Hit>)
    ensures |r| == |results|
    ensures forall i :: 0 <= i < |r| ==> r[i] == KeywordHitOf(results[i])
  {
    seq(|results|, i requires 0 <= i < |results| => KeywordHitOf(results[i]))
  }

  /**
   * The result mapping as written: the snippet is cut from
   * `document.content`, which the engine holds as an array of tokens; arrays
   * have no `substring`, so the mapping throws whenever there is a hit.
   */
  function KeywordHitsAsWritten(results: seq<Bm25.SearchHit>): Result<seq<Hit>> {
    if results == [] then Ok([]) else Err("TypeError: content.substring is not a function")
  }

  /** The keyword search as written: its catch turns the failure into []. */
  function KeywordSearchAsWritten(results: seq<Bm25.SearchHit>): (r: seq<Hit>) {
    match KeywordHitsAsWritten(results)
    case Ok(hits) => hits
    case Err(_) => []
  }

  /** As written, the keyword search returns nothing even when the engine found documents. */
  lemma KeywordSearchAsWrittenLosesHits(results: seq<Bm25.SearchHit>)
    requires results != []
    ensures KeywordSearchAsWritten(results) == []
    ensures |KeywordHits(results)| == |results| > 0
  {
  }

  /** The boosts the keyword search passes to the engine. */
  const KeywordBoost := Bm25.Boost(2.0, 1.0, 1.5, 1.2)

  /** The engine's own default minimum score. */
  const KeywordMinScore: real := 0.1

  lemma RelativeScoreInUnit(raw: real, n: nat)
    requires raw >= KeywordMinScore && n >= 1
    ensures 0.0 < Bm25.Min(raw / n as real, 1.0) <= 1.0
  {
    assert raw / n as real > 0.0;
  }

  /** Keyword hits: distinct ids, scores in (0, 1], tagged as keyword hits. */
  predicate KeywordShaped(hits: seq<Hit>, maxResults: nat) {
    && |hits| <= maxResults
    && UniqueIds(hits)
    && forall i :: 0 <= i < |hits| ==> hits[i].kind == KeywordHit && 0.0 < hits[i].score <= 1.0
  }

  /** The options the keyword search hands the engine. */
  function KeywordOptions(filters: Filters, maxResults: nat): Bm25.SearchOptions {
    Bm25.SearchOptions(maxResults, filters, KeywordBoost, KeywordMinScore)
  }

  /**
   * `results` is the engine's ranking, over the index `st`, of the entities
   * joined by spaces under the keyword options, and `hits` are its snippets.
   */
  ghost predicate KeywordRankedBy(hits: seq<Hit>, results: seq<Bm25.SearchHit>, st: Bm25.IndexState,
                                  entities: seq<string>, filters: Filters, maxResults: nat, now: int, ln: real -> real) {
    && Bm25.ScoringSafe(st)
    && var terms := Bm25.Tokenize(Join(entities, " "));
      var scores := Bm25.ScoreMap(st, terms, KeywordOptions(filters, maxResults), now, ln);
      && (terms == [] ==> results == [])
      && Bm25.RankedHits(results, scores, KeywordMinScore, maxResults)
      && (forall i | 0 <= i < |results| ::
            results[i].id in scores && results[i].score == Bm25.Min(scores[results[i].id] / |terms| as real, 1.0))
      && hits == KeywordHits(results)
  }

  /** The keyword hits are the snippets of the engine's ranking over `st`. */
  ghost predicate KeywordRanked(hits: seq<Hit>, st: Bm25.IndexState, entities: seq<string>, filters: Filters,
                                maxResults: nat, now: int, ln: real -> real) {
    exists results :: KeywordRankedBy(hits, results, st, entities, filters, maxResults, now, ln)
  }

  /**
   * The corrected keyword search loses none of the engine's hits: a
   * document scoring at least the minimum is returned, unless maxResults
   * better-or-equal documents already fill the list.
   */
  lemma KeywordRankedKeeps(hits: seq<Hit>, st: Bm25.IndexState, entities: seq<string>, filters: Filters,
                           maxResults: nat, now: int, ln: real -> real, d: string)
    requires KeywordRanked(hits, st, entities, filters, maxResults, now, ln)
    requires Bm25.ScoringSafe(st)
    requires var scores := Bm25.ScoreMap(st, Bm25.Tokenize(Join(entities, " ")), KeywordOptions(filters, maxResults), now, ln);
      d in scores && scores[d] >= KeywordMinScore
    ensures (exists i :: 0 <= i < |hits| && hits[i].id == d) || |hits| == maxResults
    ensures maxResults >= 1 ==> hits != []
  {
    var results: seq<Bm25.SearchHit> :| KeywordRankedBy(hits, results, st, entities, filters, maxResults, now, ln);
    if forall i :: 0 <= i < |hits| ==> hits[i].id != d {
      forall i | 0 <= i < |results| ensures results[i].id != d {
        assert hits[i].id == results[i].id;
      }
    } else {
      var i :| 0 <= i < |hits| && hits[i].id == d;
    }
  }

  // ---------------------------------------------------------------------------
  // Merge
  // ---------------------------------------------------------------------------

  /** `Map.prototype.get` on the entries in insertion order. */
  function Lookup(m: seq<Hit>, id: string): (r: Option<Hit>)
    ensures r.Some? ==> r.value in m && r.value.id == id
    ensures r.None? <==> forall i :: 0 <= i < |m| ==> m[i].id != id
  {
    if m == [] then None
    else if m[0].id == id then Some(m[0])
    else
      var r := Lookup(m[1..], id);
      assert forall i :: 1 <= i < |m| ==> m[i] == m[1..][i - 1];
      r
  }

  /** `Map.prototype.set`: replace the entry in place, or append a new one. */
  function Put(m: seq<Hit>, h: Hit): seq<Hit> {
    if m == [] then [h]
    else if m[0].id == h.id then [h] + m[1..]
    else [m[0]] + Put(m[1..], h)
  }

  lemma {:induction false} PutLookup(m: seq<Hit>, h: Hit, id: string)
    ensures Lookup(Put(m, h), id) == if id == h.id then Some(h) else Lookup(m, id)
  {
    if m != [] && m[0].id != h.id {
      PutLookup(m[1..], h, id);
    }
  }

  lemma {:induction false} PutMembers(m: seq<Hit>, h: Hit)
    ensures h in Put(m, h)
    ensures forall x :: x in Put(m, h) ==> x == h || x in m
  {
    if m != [] && m[0].id != h.id {
      PutMembers(m[1..], h);
    }
  }

  lemma {:induction false} PutIds(m: seq<Hit>, h: Hit)
    ensures forall x :: x in Put(m, h) ==> x == h || exists i :: 0 <= i < |m| && m[i].id == x.id
  {
    PutMembers(m, h);
  }

  lemma {:induction false} PutUnique(m: seq<Hit>, h: Hit)
    requires UniqueIds(m)
    ensures UniqueIds(Put(m, h))
  {
    if m != [] && m[0].id != h.id {
      var rest := Put(m[1..], h);
      PutUnique(m[1..], h);
      PutMembers(m[1..], h);
      forall j | 0 <= j < |rest| ensures rest[j].id != m[0].id {
        assert rest[j] in rest;
        if rest[j] != h {
          var k :| 0 <= k < |m[1..]| && m[1..][k] == rest[j];
          assert m[k + 1] == rest[j];
        }
      }
    } else if m != [] {
      forall j | 1 <= j < |m| ensures m[j].id != h.id {
        assert m[0].id == h.id;
      }
    }
  }

  function SemanticEntry(r: Hit): Hit {
    r.(finalScore := Some(r.score * 0.6), sources := [FromSemantic])
  }

  function KeywordEntry(r: Hit): Hit {
    r.(finalScore := Some(r.score * 0.4), sources := [FromKeyword])
  }

  /** A keyword hit for an id already merged: the better final score, the keyword source, the better content. */
  function Combined(e: Hit, r: Hit): Hit {
    e.(finalScore := Some(Max(FinalKey(e), e.score * 0.6 + r.score * 0.4)),
       sources := e.sources + [FromKeyword],
       content := if r.score > e.score then r.content else e.content)
  }

  function KeywordStep(m: seq<Hit>, r: Hit): seq<Hit> {
    match Lookup(m, r.id)
    case Some(e) => Put(m, Combined(e, r))
    case None => Put(m, KeywordEntry(r))
  }

  function SemanticFold(s: seq<Hit>): seq<Hit>
    decreases |s|
  {
    if s == [] then [] else Put(SemanticFold(s[..|s| - 1]), SemanticEntry(s[|s| - 1]))
  }

  function KeywordFold(m: seq<Hit>, k: seq<Hit>): seq<Hit>
    decreases |k|
  {
    if k == [] then m else KeywordStep(KeywordFold(m, k[..|k| - 1]), k[|k| - 1])
  }

  /** The merged map's values in insertion order. */
  function MergedOf(semantic: seq<Hit>, keyword: seq<Hit>): seq<Hit> {
    KeywordFold(SemanticFold(semantic), keyword)
  }

  /** `mergeSearchResults`: fill a map keyed by id, then sort by final score and keep maxResults. */
  method MergeSearchResults(semantic: seq<Hit>, keyword: seq<Hit>, maxResults: nat) returns (r: seq<Hit>)
    ensures r == Take(SortDesc(MergedOf(semantic, keyword), FinalKey), maxResults)
  {
    var merged: seq<Hit> := [];
    for i := 0 to |semantic|
      invariant merged == SemanticFold(semantic[..i])
    {
      assert semantic[..i + 1][..i] == semantic[..i];
      merged := Put(merged, SemanticEntry(semantic[i]));
    }
    assert semantic[..|semantic|] == semantic;
    ghost var base := merged;
    for i := 0 to |keyword|
      invariant merged == KeywordFold(base, keyword[..i])
    {
      assert keyword[..i + 1][..i] == keyword[..i];
      var existing := Lookup(merged, keyword[i].id);
      match existing {
        case Some(e) => merged := Put(merged, Combined(e, keyword[i]));
        case None => merged := Put(merged, KeywordEntry(keyword[i]));
      }
    }
    assert keyword[..|keyword|] == keyword;
    r := Take(SortDesc(merged, FinalKey), maxResults);
  }

  /**
   * The merged entry of an id, stated without the map: found by semantic
   * search only, 0.6 s; by keyword search only, 0.4 k; by both,
   * max(0.6 s, 0.6 s + 0.4 k) with both sources, and the keyword snippet
   * replaces the semantic one exactly when k > s.
   */
  function Expected(s: Option<Hit>, k: Option<Hit>): Option<Hit> {
    match (s, k)
    case (None, None) => None
    case (Some(a), None) => Some(a.(finalScore := Some(a.score * 0.6), sources := [FromSemantic]))
    case (None, Some(b)) => Some(b.(finalScore := Some(b.score * 0.4), sources := [FromKeyword]))
    case (Some(a), Some(b)) =>
      Some(a.(finalScore := Some(Max(a.score * 0.6, a.score * 0.6 + b.score * 0.4)),
              sources := [FromSemantic, FromKeyword],
              content := if b.score > a.score then b.content else a.content))
  }

  lemma {:induction false} LookupSnoc(m: seq<Hit>, x: Hit, id: string)
    ensures Lookup(m + [x], id) ==
      if Lookup(m, id).Some? then Lookup(m, id) else if x.id == id then Some(x) else None
  {
    if m != [] {
      assert (m + [x])[1..] == m[1..] + [x];
      LookupSnoc(m[1..], x, id);
    }
  }

  lemma {:induction false} SemanticFoldLookup(s: seq<Hit>, id: string)
    requires UniqueIds(s)
    ensures Lookup(SemanticFold(s), id) == Expected(Lookup(s, id), None)
    decreases |s|
  {
    if s != [] {
      var init, x := s[..|s| - 1], s[|s| - 1];
      assert s == init + [x];
      assert UniqueIds(init) by {
        forall i, j | 0 <= i < j < |init| ensures init[i].id != init[j].id {
          assert init[i] == s[i] && init[j] == s[j];
        }
      }
      SemanticFoldLookup(init, id);
      if x.id == id {
        LastIdFresh(s);
      }
      SemanticFoldStep(init, x, id);
    }
  }

  /** One more semantic hit, whose id is fresh when it is the id looked up, keeps the merged entry as expected. */
  lemma SemanticFoldStep(init: seq<Hit>, x: Hit, id: string)
    requires Lookup(SemanticFold(init), id) == Expected(Lookup(init, id), None)
    requires x.id == id ==> Lookup(init, id) == None
    ensures Lookup(SemanticFold(init + [x]), id) == Expected(Lookup(init + [x], id), None)
  {
    var e := SemanticEntry(x);
    assert (init + [x])[..|init|] == init;
    assert SemanticFold(init + [x]) == Put(SemanticFold(init), e);
    PutLookup(SemanticFold(init), e, id);
    LookupSnoc(init, x, id);
    if x.id == id {
      assert Lookup(init + [x], id) == Some(x);
      ExpectedSemanticOnly(x);
    } else {
      assert Lookup(init + [x], id) == Lookup(init, id);
    }
  }

  lemma ExpectedSemanticOnly(a: Hit)
    ensures Expected(Some(a), None) == Some(SemanticEntry(a))
  {
  }

  lemma KeywordStepLookup(m: seq<Hit>, x: Hit, id: string)
    ensures Lookup(KeywordStep(m, x), id) ==
      if id != x.id then Lookup(m, id)
      else if Lookup(m, id).Some? then Some(Combined(Lookup(m, id).value, x))
      else Some(KeywordEntry(x))
  {
    match Lookup(m, x.id) {
      case Some(e) => PutLookup(m, Combined(e, x), id);
      case None => PutLookup(m, KeywordEntry(x), id);
    }
  }

  /** The last keyword hit's id occurs nowhere before it. */
  lemma LastIdFresh(k: seq<Hit>)
    requires k != [] && UniqueIds(k)
    ensures Lookup(k[..|k| - 1], k[|k| - 1].id) == None
  {
    var init := k[..|k| - 1];
    forall i | 0 <= i < |init| ensures init[i].id != k[|k| - 1].id {
      assert init[i] == k[i];
    }
  }

  /** The entry of an id found by the keyword search, given what the semantic search left for it. */
  lemma KeywordEntryExpected(e: Option<Hit>, a: Option<Hit>, x: Hit)
    requires e == Expected(a, None)
    ensures (if e.Some? then Some(Combined(e.value, x)) else Some(KeywordEntry(x))) == Expected(a, Some(x))
  {
    assert [FromSemantic] + [FromKeyword] == [FromSemantic, FromKeyword];
  }

  lemma {:induction false} KeywordFoldLookup(s: seq<Hit>, k: seq<Hit>, id: string)
    requires UniqueIds(s) && UniqueIds(k)
    ensures Lookup(KeywordFold(SemanticFold(s), k), id) == Expected(Lookup(s, id), Lookup(k, id))
    decreases |k|
  {
    if k == [] {
      SemanticFoldLookup(s, id);
    } else {
      var init, x := k[..|k| - 1], k[|k| - 1];
      assert k == init + [x];
      assert UniqueIds(init);
      var m := KeywordFold(SemanticFold(s), init);
      assert KeywordFold(SemanticFold(s), k) == KeywordStep(m, x);
      KeywordFoldLookup(s, init, id);
      LookupSnoc(init, x, id);
      KeywordStepLookup(m, x, id);
      if id == x.id {
        LastIdFresh(k);
        KeywordEntryExpected(Lookup(m, id), Lookup(s, id), x);
      }
    }
  }

  /**
   * With no id repeated within either list, every id found by either search
   * has exactly the entry `Expected` describes, and no other id appears.
   */
  lemma MergedLookupSpec(semantic: seq<Hit>, keyword: seq<Hit>, id: string)
    requires UniqueIds(semantic) && UniqueIds(keyword)
    ensures Lookup(MergedOf(semantic, keyword), id) == Expected(Lookup(semantic, id), Lookup(keyword, id))
  {
    KeywordFoldLookup(semantic, keyword, id);
  }

  /** A merged entry: a score in [0, 1] and a final score in [0, 1]. */
  predicate MergedBound(h: Hit) {
    0.0 <= h.score <= 1.0 && h.finalScore.Some? && 0.0 <= h.finalScore.value <= 1.0
  }

  lemma {:induction false} SemanticFoldBound(s: seq<Hit>)
    requires ScoresInUnit(s)
    ensures forall h :: h in SemanticFold(s) ==> MergedBound(h)
    ensures UniqueIds(SemanticFold(s))
    decreases |s|
  {
    if s != [] {
      var init := s[..|s| - 1];
      SemanticFoldBound(init);
      PutMembers(SemanticFold(init), SemanticEntry(s[|s| - 1]));
      PutUnique(SemanticFold(init), SemanticEntry(s[|s| - 1]));
    }
  }

  lemma {:induction false} KeywordFoldBound(m: seq<Hit>, k: seq<Hit>)
    requires ScoresInUnit(k) && UniqueIds(m) && forall h :: h in m ==> MergedBound(h)
    ensures forall h :: h in KeywordFold(m, k) ==> MergedBound(h)
    ensures UniqueIds(KeywordFold(m, k))
    decreases |k|
  {
    if k != [] {
      var init, x := k[..|k| - 1], k[|k| - 1];
      KeywordFoldBound(m, init);
      var m1 := KeywordFold(m, init);
      match Lookup(m1, x.id) {
        case Some(e) =>
          assert MergedBound(e);
          PutMembers(m1, Combined(e, x));
          PutUnique(m1, Combined(e, x));
        case None =>
          PutMembers(m1, KeywordEntry(x));
          PutUnique(m1, KeywordEntry(x));
      }
    }
  }

  /**
   * With every input score in [0, 1], the merge returns at most maxResults
   * entries with distinct ids, sorted by decreasing final score, each final
   * score in [0, 1].
   */
  lemma MergeSearchResultsSpec(semantic: seq<Hit>, keyword: seq<Hit>, maxResults: nat)
    requires ScoresInUnit(semantic) && ScoresInUnit(keyword)
    ensures var r := Take(SortDesc(MergedOf(semantic, keyword), FinalKey), maxResults);
      && |r| <= maxResults
      && SortedDesc(r, FinalKey)
      && UniqueIds(r)
      && (forall i :: 0 <= i < |r| ==> MergedBound(r[i]))
  {
    var merged := MergedOf(semantic, keyword);
    SemanticFoldBound(semantic);
    KeywordFoldBound(SemanticFold(semantic), keyword);
    RankedNames(merged, FinalKey, IdOf, maxResults);
  }

  // ---------------------------------------------------------------------------
  // Reranking
  // ---------------------------------------------------------------------------

  /** Seven days in milliseconds. */
  const WeekMs: int := 604800000

  /** `result.finalScore || result.score`: a missing or zero final score falls back to the score. */
  function BaseScore(h: Hit): real {
    if h.finalScore.Some? && h.finalScore.value != 0.0 then h.finalScore.value else h.score
  }

  /**
   * The intent weights: problem_solving boosts documents uploaded less than
   * seven days before `now` by 1.2, how_to boosts content longer than 300
   * characters by 1.1; every other intent leaves the score alone.
   */
  function AdjustedScore(h: Hit, intent: string, now: int): (r: real)
    ensures intent != "problem_solving" && intent != "how_to" ==> r == BaseScore(h)
    ensures BaseScore(h) >= 0.0 ==> BaseScore(h) <= r <= BaseScore(h) * 1.2
    ensures intent == "problem_solving" && (h.uploadedAt.None? || now - h.uploadedAt.value >= WeekMs) ==> r == BaseScore(h)
    ensures intent == "how_to" && |h.content| <= 300 ==> r == BaseScore(h)
  {
    var base := BaseScore(h);
    if intent == "problem_solving" && h.uploadedAt.Some? && now - h.uploadedAt.value < WeekMs then base * 1.2
    else if intent == "how_to" && |h.content| > 300 then base * 1.1
    else base
  }

  function Adjust(h: Hit, intent: string, now: int): Hit {
    h.(adjustedScore := Some(AdjustedScore(h, intent, now)))
  }

  function AdjustAll(results: seq<Hit>, intent: string, now: int): (r: seq<Hit>)
    ensures |r| == |results|
    ensures forall i :: 0 <= i < |r| ==> r[i] == Adjust(results[i], intent, now)
  {
    seq(|results|, i requires 0 <= i < |results| => Adjust(results[i], intent, now))
  }

  /** `reRankResults`: every result with its adjusted score, sorted by it. */
  function ReRankResults(results: seq<Hit>, intent: string, now: int): seq<Hit> {
    SortDesc(AdjustAll(results, intent, now), AdjustedKey)
  }

  /**
   * Reranking keeps every result (a permutation of the inputs, each with
   * its adjusted score), sorts by the adjusted score, and under an intent
   * without weights every adjusted score is the base score.
   */
  lemma ReRankSpec(results: seq<Hit>, intent: string, now: int)
    ensures var r := ReRankResults(results, intent, now);
      && |r| == |results|
      && multiset(r) == multiset(AdjustAll(results, intent, now))
      && SortedDesc(r, AdjustedKey)
      && (forall k :: 0 <= k < |r| ==> exists i :: 0 <= i < |results| && r[k] == Adjust(results[i], intent, now))
      && (intent != "problem_solving" && intent != "how_to" ==>
            forall k :: 0 <= k < |r| ==> r[k].adjustedScore == Some(BaseScore(r[k])))
  {
    var a := AdjustAll(results, intent, now);
    var r := ReRankResults(results, intent, now);
    SortDescMembers(a, AdjustedKey);
    forall k | 0 <= k < |r| ensures exists i :: 0 <= i < |results| && r[k] == Adjust(results[i], intent, now) {
      assert r[k] in r;
      assert r[k] in a;
    }
  }

  // ---------------------------------------------------------------------------
  // The fast path for persona-creation questions
  // ---------------------------------------------------------------------------

  /** `/怎么.*创建.*人设/`, `/如何.*创建.*角色/`, `/人设.*创建.*方法/`, `/角色.*设定.*步骤/`, `/短剧.*人物.*创建/`. */
  const SpecificPatterns: seq<seq<string>> := [
    ["怎么", "创建", "人设"],
    ["如何", "创建", "角色"],
    ["人设", "创建", "方法"],
    ["角色", "设定", "步骤"],
    ["短剧", "人物", "创建"]
  ]

  /** `patterns.some(p => p.test(query))`. */
  function AnyPatternMatches(query: string, patterns: seq<seq<string>>): (r: bool)
    ensures r <==> exists i :: 0 <= i < |patterns| && PatternTest(query, patterns[i])
  {
    if patterns == [] then false
    else if PatternTest(query, patterns[0]) then true
    else
      var r := AnyPatternMatches(query, patterns[1..]);
      assert forall i :: 1 <= i < |patterns| ==> patterns[i] == patterns[1..][i - 1];
      r
  }

  /** `isSpecificQuery`: one of the five patterns matches. */
  function IsSpecificQuery(query: string): bool {
    AnyPatternMatches(query, SpecificPatterns)
  }

  function SectionHitOf(r: DocumentSpecific.SectionResult): Hit {
    Hit(r.id, r.content, r.score, SectionHit, None, None, [], None)
  }

  function SectionHits(rs: seq<DocumentSpecific.SectionResult>): (r: seq<Hit>)
    ensures |r| == |rs|
    ensures forall i :: 0 <= i < |r| ==> r[i] == SectionHitOf(rs[i])
  {
    seq(|rs|, i requires 0 <= i < |rs| => SectionHitOf(rs[i]))
  }

  /** The user's own documents, tagged `user_document`. */
  function UserHits(hs: seq<Hit>): (r: seq<Hit>)
    ensures |r| == |hs|
    ensures forall i :: 0 <= i < |r| ==> r[i] == hs[i].(kind := UserDocument)
  {
    seq(|hs|, i requires 0 <= i < |hs| => hs[i].(kind := UserDocument))
  }

  const SpecificLimit: nat := 10

  /** The curated sections first, then the user's basic search hits, at most 10. */
  function CombinedHits(sections: seq<DocumentSpecific.SectionResult>, user: seq<Hit>): seq<Hit> {
    Take(SectionHits(sections) + UserHits(user), SpecificLimit)
  }

  /**
   * The combined list holds at most 10 hits: the curated sections in their
   * order, then the user's hits tagged `user_document`, and it is empty only
   * when both are.
   */
  lemma CombinedHitsSpec(sections: seq<DocumentSpecific.SectionResult>, user: seq<Hit>)
    ensures var r := CombinedHits(sections, user);
      && |r| <= SpecificLimit
      && (r == [] <==> sections == [] && user == [])
      && (forall i :: 0 <= i < |r| && i < |sections| ==> r[i] == SectionHitOf(sections[i]))
      && (forall i :: |sections| <= i < |r| ==> r[i] == user[i - |sections|].(kind := UserDocument))
  {
    var all := SectionHits(sections) + UserHits(user);
    var r := CombinedHits(sections, user);
    forall i | 0 <= i < |r| && i < |sections| ensures r[i] == SectionHitOf(sections[i]) {
      assert r[i] == all[i];
    }
    forall i | |sections| <= i < |r| ensures r[i] == user[i - |sections|].(kind := UserDocument) {
      assert r[i] == all[i];
    }
  }

  datatype SpecificResult = SpecificResult(search: DocumentSpecific.PersonaSearch, results: seq<Hit>)

  /**
   * `performSpecificSearch`: the curated section search and the user's
   * basic search, combined.  Neither can fail (the basic search catches), so
   * the `null` of its catch is never returned.
   */
  method PerformSpecificSearch(query: string, basic: Result<seq<Hit>>) returns (r: SpecificResult)
    ensures r.results == CombinedHits(r.search.results, BasicResults(basic))
    ensures r.search == DocumentSpecific.PersonaSearchOf(query, EnhancedQuery.EnhanceQuery(query), DocumentSpecific.PrdSections)
  {
    var search := DocumentSpecific.SearchPersonaCreation(query, DocumentSpecific.PrdSections);
    var user := BasicResults(basic);
    r := SpecificResult(search, CombinedHits(search.results, user));
  }

  // ---------------------------------------------------------------------------
  // Cache keys
  // ---------------------------------------------------------------------------

  /** The request options as given; absent ones take their defaults. */
  datatype RequestOptions = RequestOptions(
    responseType: Option<string>, includeReferences: Option<bool>,
    maxResults: Option<nat>, useCache: Option<bool>)

  function OptionText(o: Option<string>): string {
    match o
    case None => ""
    case Some(s) => "=" + s
  }

  function FlagText(o: Option<bool>): string {
    match o
    case None => ""
    case Some(b) => if b then "true" else "false"
  }

  function CountText(o: Option<nat>): string {
    match o
    case None => ""
    case Some(n) => NatToString(n)
  }

  /** The key of a search: the query, the user and the options as given, encoded injectively. */
  function SearchKey(query: string, userId: string, options: RequestOptions): string {
    ExactKey([query, userId, OptionText(options.responseType), FlagText(options.includeReferences),
              CountText(options.maxResults), FlagText(options.useCache)])
  }

  /** Two users never share a cached search. */
  lemma SearchKeySeparatesUsers(query: string, user1: string, user2: string, options: RequestOptions)
    requires user1 != user2
    ensures SearchKey(query, user1, options) != SearchKey(query, user2, options)
  {
    var p1 := [query, user1, OptionText(options.responseType), FlagText(options.includeReferences),
               CountText(options.maxResults), FlagText(options.useCache)];
    var p2 := [query, user2, OptionText(options.responseType), FlagText(options.includeReferences),
               CountText(options.maxResults), FlagText(options.useCache)];
    assert p1[1] != p2[1];
    if ExactKey(p1) == ExactKey(p2) {
      ExactKeyInjective(p1, p2);
    }
  }

  /** The key as written: `btoa(query + userId + JSON.stringify(options)).substring(0, 32)`. */
  function SearchKeyAsWritten(query: string, userId: string, optionsJson: string): Option<string> {
    CacheKey(query + userId + optionsJson)
  }

  /**
   * As written, a query holding a character above U+00FF has no key: `btoa`
   * throws, and the search ends in its fallback before reaching the cache or
   * the fast path.  A Latin-1 query of 24 characters or more gets the same
   * key for every user.
   */
  lemma SearchKeyAsWrittenFails(query: string, userId: string, optionsJson: string, i: nat, other: string)
    requires i < |query| && query[i] as int > 255
    ensures SearchKeyAsWritten(query, userId, optionsJson) == None
    ensures IsLatin1(other) && IsLatin1(userId) && IsLatin1(optionsJson) && |other| >= 24 ==>
      SearchKeyAsWritten(other, userId, optionsJson) == SearchKeyAsWritten(other, "", optionsJson)
  {
    assert (query + userId + optionsJson)[i] == query[i];
    CacheKeyRejectsCjk(query + userId + optionsJson, i);
    if IsLatin1(other) && IsLatin1(userId) && IsLatin1(optionsJson) && |other| >= 24 {
      assert other + userId + optionsJson == other + (userId + optionsJson);
      assert other + "" + optionsJson == other + optionsJson;
      CacheKeyCollides(other, userId + optionsJson, optionsJson);
    }
  }

  // ---------------------------------------------------------------------------
  // The service
  // ---------------------------------------------------------------------------

  datatype AnalysisSummary =
    | SpecificAnalysis             // { intent: 'how_to', confidence: 0.95, searchType: 'specific' }
    | FullAnalysis(analysis: QueryAnalyzer.Analysis)
    | NoAnalysis

  datatype SearchResponse = SearchResponse(
    query: string, analysis: AnalysisSummary, answer: string, searchResults: seq<Hit>,
    totalResults: nat, searchType: string, confidence: real)

  datatype CacheEntry = CacheEntry(result: SearchResponse, timestamp: int)

  /**
   * What the coordinator receives from the services around it: whether
   * storage initialises, the user's stored documents, the embedding records,
   * the basic search, the embedding model, square root and natural log, the
   * query analyzer's outcome and the response generator's answer.
   */
  datatype Collaborators = Collaborators(
    storageReady: bool,
    documents: Result<seq<StoredDoc>>,
    store: string -> Option<EmbeddingData>,
    basic: string -> Result<seq<Hit>>,
    embed: string -> Embedding.Vector,
    root: real -> real,
    ln: real -> real,
    analysis: Result<QueryAnalyzer.Analysis>,
    respond: seq<Hit> -> string)

  const CacheTtlMs: int := 300000
  const FallbackAnswer: string := "搜索过程中遇到问题，以下是基础搜索结果："

  /** An entry younger than five minutes may be served, when caching is on. */
  predicate Fresh(cache: map<string, CacheEntry>, key: string, now: int, useCache: bool) {
    useCache && key in cache && now - cache[key].timestamp < CacheTtlMs
  }

  function Stored(cache: map<string, CacheEntry>, key: string, result: SearchResponse, now: int, useCache: bool): map<string, CacheEntry> {
    if useCache then cache[key := CacheEntry(result, now)] else cache
  }

  /** The curated section search of a specific query. */
  function PersonaSearchFor(query: string): DocumentSpecific.PersonaSearch {
    DocumentSpecific.PersonaSearchOf(query, EnhancedQuery.EnhanceQuery(query), DocumentSpecific.PrdSections)
  }

  /**
   * The fast path: a specific query answered from the curated sections and
   * the user's documents combined, with the canned answer for the query.
   */
  predicate SpecificOutcome(query: string, c: Collaborators, v: SearchResponse) {
    && IsSpecificQuery(query)
    && v.query == query
    && v.searchType == "document_specific" && v.analysis == SpecificAnalysis && v.confidence == 0.95
    && v.searchResults == CombinedHits(PersonaSearchFor(query).results, BasicResults(c.basic(query)))
    && v.answer == DocumentSpecific.GenerateSpecificAnswer(query, v.searchResults)
    && 1 <= |v.searchResults| <= SpecificLimit && v.totalResults == |v.searchResults|
  }

  /** The fallback: the analysis failed, and the basic search's results are returned. */
  predicate FallbackOutcome(query: string, c: Collaborators, v: SearchResponse) {
    && c.analysis.Err?
    && v.searchType == "fallback" && v.analysis == NoAnalysis && v.confidence == 0.5
    && v.query == query && v.answer == FallbackAnswer
    && v.searchResults == BasicResults(c.basic(query)) && v.totalResults == |v.searchResults|
  }

  /**
   * The keyword index after `performHybridSearch`: a purely semantic search
   * leaves it alone; a keyword or hybrid one first indexes the user's
   * documents, when they can be listed.
   */
  function SearchedDocs(m: map<string, Bm25.ProcessedDoc>, a: QueryAnalyzer.Analysis, c: Collaborators): map<string, Bm25.ProcessedDoc> {
    if a.searchType == "semantic" || c.documents.Err? then m
    else EnsuredDocs(m, c.documents.value, c.store)
  }

  /** The keyword index after a search the cache could not serve: only the full path touches it. */
  function AnsweredDocs(m: map<string, Bm25.ProcessedDoc>, query: string, c: Collaborators): map<string, Bm25.ProcessedDoc> {
    if SpecificFound(query, c) || c.analysis.Err? then m
    else SearchedDocs(m, c.analysis.value, c)
  }

  /**
   * What `performHybridSearch` returns for the analysis over the index
   * `st`: the semantic ranking, the engine's keyword ranking, or the merge
   * of both at half size each; never more than maxResults.
   */
  ghost predicate HybridOutcome(a: QueryAnalyzer.Analysis, maxResults: nat, c: Collaborators, now: int,
                                st: Bm25.IndexState, results: seq<Hit>) {
    && |results| <= maxResults
    && (a.searchType == "semantic" ==>
          results == SemanticSearchOf(a.entities, c.documents, c.store, c.embed, c.root, maxResults))
    && (a.searchType == "keyword" ==>
          KeywordShaped(results, maxResults) && KeywordRanked(results, st, a.entities, a.filters, maxResults, now, c.ln))
    && (a.searchType != "semantic" && a.searchType != "keyword" ==>
          exists semantic, keyword ::
            && semantic == SemanticSearchOf(a.entities, c.documents, c.store, c.embed, c.root, (maxResults + 1) / 2)
            && KeywordShaped(keyword, (maxResults + 1) / 2)
            && KeywordRanked(keyword, st, a.entities, a.filters, (maxResults + 1) / 2, now, c.ln)
            && results == Take(SortDesc(MergedOf(semantic, keyword), FinalKey), maxResults))
  }

  /** The response the full path builds from the hybrid results: reranked, answered, cut to five. */
  predicate BuiltFrom(a: QueryAnalyzer.Analysis, c: Collaborators, now: int, results: seq<Hit>, v: SearchResponse) {
    var reranked := ReRankResults(results, a.intent, now);
    && v.answer == c.respond(reranked)
    && v.searchResults == Take(reranked, 5)
    && v.totalResults == |results|
  }

  /**
   * The full path: the analysis's search type and confidence, and at most
   * five results sorted by adjusted score, taken with the answer from the
   * reranked hybrid results over the index `st`.
   */
  ghost predicate FullOutcome(query: string, c: Collaborators, maxResults: nat, now: int, st: Bm25.IndexState, v: SearchResponse) {
    && c.analysis.Ok? && v.query == query && v.analysis == FullAnalysis(c.analysis.value)
    && v.searchType == c.analysis.value.searchType && v.confidence == c.analysis.value.confidence
    && |v.searchResults| <= 5 && SortedDesc(v.searchResults, AdjustedKey)
    && exists results :: HybridOutcome(c.analysis.value, maxResults, c, now, st, results)
                      && BuiltFrom(c.analysis.value, c, now, results, v)
  }

  /** A specific query for which the curated sections or the user's documents yield a hit. */
  predicate SpecificFound(query: string, c: Collaborators) {
    && IsSpecificQuery(query)
    && (|| PersonaSearchFor(query).results != []
        || BasicResults(c.basic(query)) != [])
  }

  /**
   * A search the cache could not serve, answered as `v` with the cache
   * going from `before` to `after`: the fast path when it finds hits, the
   * uncached fallback when the analysis failed, the full path otherwise;
   * fast-path and full results are stored when caching is on.
   */
  ghost predicate Answered(query: string, key: string, useCache: bool, maxResults: nat, c: Collaborators, now: int,
                           st: Bm25.IndexState, before: map<string, CacheEntry>, after: map<string, CacheEntry>, v: SearchResponse) {
    && (SpecificFound(query, c) ==>
          SpecificOutcome(query, c, v) && after == Stored(before, key, v, now, useCache))
    && (!SpecificFound(query, c) && c.analysis.Err? ==>
          FallbackOutcome(query, c, v) && after == before)
    && (!SpecificFound(query, c) && c.analysis.Ok? ==>
          FullOutcome(query, c, maxResults, now, st, v) && after == Stored(before, key, v, now, useCache))
  }

  /**
   * The fast path is taken exactly when the query is a specific one and the
   * curated sections or the user's documents yield at least one hit.
   */
  method SpecificPath(query: string, c: Collaborators) returns (found: bool, result: SearchResponse)
    ensures found <==> SpecificFound(query, c)
    ensures found ==> SpecificOutcome(query, c, result)
  {
    found := false;
    result := SearchResponse(query, NoAnalysis, "", [], 0, "", 0.0);
    if IsSpecificQuery(query) {
      var specific := PerformSpecificSearch(query, c.basic(query));
      CombinedHitsSpec(specific.search.results, BasicResults(c.basic(query)));
      if |specific.results| > 0 {
        var answer := DocumentSpecific.GenerateSpecificAnswer(query, specific.results);
        result := SearchResponse(query, SpecificAnalysis, answer, specific.results, |specific.results|, "document_specific", 0.95);
        found := true;
      }
    }
  }

  class RagService {
    const engine: Bm25.Bm25SearchEngine
    var initialized: bool
    var searchCache: map<string, CacheEntry>
    var totalQueries: nat
    var avgResponseTime: real
    var cacheHitRate: real

    ghost predicate Valid()
      reads this, engine
    {
      engine.Valid() && 0.0 <= cacheHitRate <= 1.0
    }

    constructor(engine: Bm25.Bm25SearchEngine)
      requires engine.Valid()
      ensures this.engine == engine && Valid()
      ensures !initialized && searchCache == map[] && totalQueries == 0 && cacheHitRate == 0.0
    {
      this.engine := engine;
      initialized := false;
      searchCache := map[];
      totalQueries := 0;
      avgResponseTime := 0.0;
      cacheHitRate := 0.0;
    }

    /** `updateMetrics`: count the query, halve towards the new response time and, on a hit, towards 1. */
    method UpdateMetrics(responseTime: nat, cacheHit: bool)
      requires Valid()
      modifies this
      ensures Valid()
      ensures totalQueries == old(totalQueries) + 1
      ensures avgResponseTime == (old(avgResponseTime) + responseTime as real) / 2.0
      ensures cacheHitRate == if cacheHit then (old(cacheHitRate) + 1.0) / 2.0 else old(cacheHitRate)
      ensures initialized == old(initialized) && searchCache == old(searchCache)
    {
      totalQueries := totalQueries + 1;
      avgResponseTime := (avgResponseTime + responseTime as real) / 2.0;
      if cacheHit {
        cacheHitRate := (cacheHitRate + 1.0) / 2.0;
      }
    }

    /** `ensureUserDocumentsInBM25`: index every stored document whose id the engine does not hold yet. */
    method EnsureUserDocumentsInBM25(docs: Result<seq<StoredDoc>>, store: string -> Option<EmbeddingData>)
      requires engine.Valid()
      modifies engine
      ensures engine.Valid()
      ensures engine.documents == if docs.Ok? then EnsuredDocs(old(engine.documents), docs.value, store) else old(engine.documents)
    {
      if docs.Err? {
        return;
      }
      var documents := docs.value;
      ghost var start := engine.documents;
      for i := 0 to |documents|
        invariant engine.Valid()
        invariant engine.documents == EnsuredDocs(start, documents[..i], store)
      {
        EnsuredStep(start, documents, i, store);
        var d := documents[i];
        if d.id !in engine.documents {
          engine.AddDocument(d.id, DocumentInputOf(d, store));
        }
      }
      assert documents[..|documents|] == documents;
    }

    /**
     * `performKeywordSearch`: index the user's documents, run the engine on
     * the entities with the search's boosts, and map each hit to a snippet.
     */
    method PerformKeywordSearch(entities: seq<string>, filters: Filters, maxResults: nat, c: Collaborators, now: int) returns (hits: seq<Hit>)
      requires engine.Valid()
      modifies engine
      ensures engine.Valid()
      ensures engine.documents == if c.documents.Ok? then EnsuredDocs(old(engine.documents), c.documents.value, c.store) else old(engine.documents)
      ensures KeywordShaped(hits, maxResults)
      ensures KeywordRanked(hits, engine.State(), entities, filters, maxResults, now, c.ln)
    {
      EnsureUserDocumentsInBM25(c.documents, c.store);
      var query := Join(entities, " ");
      var options := KeywordOptions(filters, maxResults);
      var results := engine.Search(query, options, now, c.ln);
      hits := KeywordHits(results);
      assert KeywordRankedBy(hits, results, engine.State(), entities, filters, maxResults, now, c.ln);
      ghost var scores := Bm25.ScoreMap(engine.State(), Bm25.Tokenize(query), options, now, c.ln);
      forall i | 0 <= i < |hits| ensures hits[i].kind == KeywordHit && 0.0 < hits[i].score <= 1.0 {
        RelativeScoreInUnit(scores[results[i].id], |Bm25.Tokenize(query)|);
      }
      forall i, j | 0 <= i < j < |hits| ensures hits[i].id != hits[j].id {
        assert results[i].id != results[j].id;
      }
    }

    /**
     * `performHybridSearch`: 'semantic' and 'keyword' run one search with
     * maxResults; anything else runs both with ceil(maxResults / 2) each and
     * merges.  Each search catches its own failures, so the outer catch is
     * never reached.
     */
    method PerformHybridSearch(a: QueryAnalyzer.Analysis, maxResults: nat, c: Collaborators, now: int) returns (results: seq<Hit>)
      requires engine.Valid()
      modifies engine
      ensures engine.Valid()
      ensures engine.documents == SearchedDocs(old(engine.documents), a, c)
      ensures HybridOutcome(a, maxResults, c, now, engine.State(), results)
    {
      if a.searchType == "semantic" {
        results := PerformSemanticSearch(a.entities, c.documents, c.store, c.embed, c.root, maxResults);
        SemanticSearchSpec(a.entities, c.documents, c.store, c.embed, c.root, maxResults);
      } else if a.searchType == "keyword" {
        results := PerformKeywordSearch(a.entities, a.filters, maxResults, c, now);
      } else {
        var half := (maxResults + 1) / 2;
        var semantic := PerformSemanticSearch(a.entities, c.documents, c.store, c.embed, c.root, half);
        var keyword := PerformKeywordSearch(a.entities, a.filters, half, c, now);
        results := MergeSearchResults(semantic, keyword, maxResults);
      }
    }

    /** The full path: hybrid search, reranking, the generated answer and the first five results. */
    method FullPath(query: string, a: QueryAnalyzer.Analysis, maxResults: nat, c: Collaborators, now: int) returns (result: SearchResponse)
      requires engine.Valid() && c.analysis == Ok(a)
      modifies engine
      ensures engine.Valid()
      ensures engine.documents == SearchedDocs(old(engine.documents), a, c)
      ensures FullOutcome(query, c, maxResults, now, engine.State(), result)
    {
      var results := PerformHybridSearch(a, maxResults, c, now);
      var reranked := ReRankResults(results, a.intent, now);
      ReRankSpec(results, a.intent, now);
      var answer := c.respond(reranked);
      var top := Take(reranked, 5);
      result := SearchResponse(query, FullAnalysis(a), answer, top, |results|, a.searchType, a.confidence);
      assert HybridOutcome(a, maxResults, c, now, engine.State(), results) && BuiltFrom(a, c, now, results, result);
    }

    /** Cache an answered search when caching is on, and count it as a miss. */
    method Finish(key: string, useCache: bool, result: SearchResponse, now: int, responseTime: nat)
      requires Valid()
      modifies this
      ensures Valid()
      ensures initialized == old(initialized)
      ensures searchCache == Stored(old(searchCache), key, result, now, useCache)
    {
      if useCache {
        searchCache := searchCache[key := CacheEntry(result, now)];
      }
      UpdateMetrics(responseTime, false);
    }

    /** A search the cache could not serve: the fast path, the fallback or the full path. */
    method Answer(query: string, key: string, useCache: bool, maxResults: nat, c: Collaborators, now: int, responseTime: nat)
      returns (result: SearchResponse)
      requires Valid()
      modifies this, engine
      ensures Valid()
      ensures initialized == old(initialized)
      ensures engine.documents == AnsweredDocs(old(engine.documents), query, c)
      ensures Answered(query, key, useCache, maxResults, c, now, engine.State(), old(searchCache), searchCache, result)
    {
      var found, specific := SpecificPath(query, c);
      if found {
        Finish(key, useCache, specific, now, responseTime);
        return specific;
      }
      if c.analysis.Err? {
        var fallback := BasicResults(c.basic(query));
        return SearchResponse(query, NoAnalysis, FallbackAnswer, fallback, |fallback|, "fallback", 0.5);
      }
      result := FullPath(query, c.analysis.value, maxResults, c, now);
      Finish(key, useCache, result, now, responseTime);
    }

    /**
     * `intelligentSearch`.  Initialisation fails only when storage does,
     * and that failure is not caught.  Then: a fresh cached result is
     * served; a specific query with at least one combined hit takes the fast
     * path with confidence 0.95; a failed analysis yields the basic search's
     * results as a 'fallback' with confidence 0.5; otherwise the hybrid
     * search's results are reranked, answered and the first five returned.
     * Fast-path and full results are cached when caching is on.
     */
    method IntelligentSearch(query: string, userId: string, options: RequestOptions, c: Collaborators, now: int, responseTime: nat)
      returns (r: Result<SearchResponse>)
      requires Valid()
      modifies this, engine
      ensures Valid()
      ensures r.Err? <==> !old(initialized) && !c.storageReady
      ensures r.Err? ==> searchCache == old(searchCache) && engine.documents == old(engine.documents)
      ensures r.Ok? ==> initialized
      ensures var key := SearchKey(query, userId, options);
        var useCache := if options.useCache.Some? then options.useCache.value else true;
        var maxResults := if options.maxResults.Some? then options.maxResults.value else 10;
        r.Ok? ==>
          && (Fresh(old(searchCache), key, now, useCache) ==>
                r.value == old(searchCache)[key].result && searchCache == old(searchCache)
                && engine.documents == old(engine.documents))
          && (!Fresh(old(searchCache), key, now, useCache) ==>
                engine.documents == AnsweredDocs(old(engine.documents), query, c) &&
                Answered(query, key, useCache, maxResults, c, now, engine.State(), old(searchCache), searchCache, r.value))
    {
      if !initialized {
        if !c.storageReady {
          return Err("storage initialisation failed");
        }
        initialized := true;
      }
      var useCache := if options.useCache.Some? then options.useCache.value else true;
      var maxResults := if options.maxResults.Some? then options.maxResults.value else 10;
      var key := SearchKey(query, userId, options);
      if useCache && key in searchCache && now - searchCache[key].timestamp < CacheTtlMs {
        UpdateMetrics(responseTime, true);
        return Ok(searchCache[key].result);
      }
      var result := Answer(query, key, useCache, maxResults, c, now, responseTime);
      return Ok(result);
    }
  }
}
