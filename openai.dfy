/**
 * The OpenAI-backed document service: documents kept in browser storage,
 * per-user listing and deletion, and a search that asks the chat API for
 * an answer and ranks the user's documents by keyword matches, falling back
 * to keyword ranking alone when anything fails.  The API call's outcome,
 * the clock and the stored values are parameters.
 */
module OpenAi {
  import opened Common
  import opened Text
  import opened Seqs

  datatype Doc = Doc(id: string, title: string, content: string, userId: string,
                     createdAt: int, source: string, category: string, tags: seq<string>)

  /** What a caller passes to `addDocument`; a missing or empty field takes its default. */
  datatype DocInput = DocInput(title: string, content: string, userId: Option<string>,
                               source: Option<string>, category: Option<string>, tags: Option<seq<string>>)

  const AnonymousUser := "anonymous_user"

  /** The document `addDocument` stores. */
  function NewDoc(input: DocInput, now: nat): (d: Doc)
    ensures d.id == NatToString(now) && d.title == input.title && d.content == input.content
    ensures d.userId == OrElse(input.userId, AnonymousUser)
    ensures d.source == OrElse(input.source, "manual") && d.category == OrElse(input.category, "general")
    ensures d.tags == if input.tags.Some? then input.tags.value else []
  {
    Doc(NatToString(now), input.title, input.content, OrElse(input.userId, AnonymousUser), now,
        OrElse(input.source, "manual"), OrElse(input.category, "general"),
        if input.tags.Some? then input.tags.value else [])
  }

  function OwnedBy(user: string): Doc -> bool {
    (d: Doc) => d.userId == user
  }

  /** The index of the first document with the id, or |docs| when there is none. */
  function FindIndex(docs: seq<Doc>, id: string): (i: nat)
    ensures i <= |docs|
    ensures i < |docs| ==> docs[i].id == id
    ensures forall k :: 0 <= k < i ==> docs[k].id != id
  {
    if docs == [] then 0
    else if docs[0].id == id then 0
    else 1 + FindIndex(docs[1..], id)
  }

  // ---------------------------------------------------------------------
  // Keyword ranking
  // ---------------------------------------------------------------------

  /** Twice for each word in the title, once for each word in the content. */
  function MatchPoints(words: seq<string>, title: string, content: string): (n: nat)
    ensures n <= 3 * |words|
    ensures n > 0 <==> exists k :: 0 <= k < |words| && (Contains(title, words[k]) || Contains(content, words[k]))
  {
    if words == [] then 0
    else
      var rest := MatchPoints(words[1..], title, content);
      assert forall k :: 1 <= k < |words| ==> words[k] == words[1..][k - 1];
      (if Contains(title, words[0]) then 2 else 0) + (if Contains(content, words[0]) then 1 else 0) + rest
  }

  /** A sentence mentions one of the (lower-cased) query words. */
  function Mentions(words: seq<string>): string -> bool {
    s => ContainsAny(ToLower(s), words)
  }

  /**
   * `extractRelevantContent`: the first three sentences that mention a query
   * word, joined by `。` and closed with `。`; when none does, the first 200
   * characters with `...` exactly when the content was longer.
   */
  function ExtractRelevantContent(content: string, words: seq<string>): (r: string)
    ensures var relevant := Filter(SplitOn(content, SentenceEnds), Mentions(words));
      (relevant != [] ==> r == Join(Take(relevant, 3), "。") + "。")
      && (relevant == [] && |content| <= 200 ==> r == content)
      && (relevant == [] && |content| > 200 ==> r == content[..200] + "...")
  {
    var relevant := Filter(SplitOn(content, SentenceEnds), Mentions(words));
    if relevant != [] then Join(Take(relevant, 3), "。") + "。"
    else Prefix(content, 200) + (if |content| > 200 then "..." else "")
  }

  /** The sentences the excerpt is built from each mention a query word. */
  lemma ExcerptSentencesMention(content: string, words: seq<string>)
    ensures forall s :: s in Take(Filter(SplitOn(content, SentenceEnds), Mentions(words)), 3) ==>
      s in SplitOn(content, SentenceEnds) && ContainsAny(ToLower(s), words)
  {
    var relevant := Filter(SplitOn(content, SentenceEnds), Mentions(words));
    forall s | s in Take(relevant, 3)
      ensures s in SplitOn(content, SentenceEnds) && ContainsAny(ToLower(s), words)
    {
      var i :| 0 <= i < |Take(relevant, 3)| && Take(relevant, 3)[i] == s;
      assert s == relevant[i];
      assert Mentions(words)(relevant[i]);
    }
  }

  /** A document with its score and excerpt. */
  datatype Scored = Scored(doc: Doc, score: real, excerpt: string)

  /** The hit the search returns for a scored document. */
  datatype Hit = Hit(docId: string, title: string, content: string, score: real, createdAt: int)

  /** Some query word occurs in the document's lower-cased title or content. */
  predicate MatchesDoc(words: seq<string>, d: Doc) {
    exists k :: 0 <= k < |words| && (Contains(ToLower(d.title), words[k]) || Contains(ToLower(d.content), words[k]))
  }

  lemma Average(points: nat, n: nat)
    requires 0 < n && points <= 3 * n
    ensures 0.0 <= points as real / n as real <= 3.0
    ensures points as real / n as real > 0.0 <==> points > 0
  {
    var q := points as real / n as real;
    assert q * n as real == points as real;
  }

  /**
   * A document's score: the points of the query words it contains, over the
   * number of words; positive exactly when some word occurs in it.
   */
  function ScoreDoc(words: seq<string>, d: Doc): (s: Scored)
    requires words != []
    ensures s.doc == d
    ensures 0.0 <= s.score <= 3.0
    ensures s.score > 0.0 <==> MatchesDoc(words, d)
  {
    var points := MatchPoints(words, ToLower(d.title), ToLower(d.content));
    Average(points, |words|);
    Scored(d, points as real / |words| as real, ExtractRelevantContent(d.content, words))
  }

  /** The scoring of one query, as a function of the document. */
  function Scorer(words: seq<string>): (f: Doc -> Scored)
    requires words != []
    ensures forall d :: f(d) == ScoreDoc(words, d)
  {
    d => ScoreDoc(words, d)
  }

  function ScoreAll(docs: seq<Doc>, f: Doc -> Scored): (r: seq<Scored>)
    ensures |r| == |docs|
    ensures forall i :: 0 <= i < |r| ==> r[i] == f(docs[i])
  {
    if docs == [] then [] else [f(docs[0])] + ScoreAll(docs[1..], f)
  }

  function ScoreOf(s: Scored): real { s.score }

  function Positive(s: Scored): bool { s.score > 0.0 }

  /** Positive scores only, best first (stably), the first `topK`. */
  function RankBy(docs: seq<Doc>, f: Doc -> Scored, topK: nat): seq<Scored> {
    Take(SortDesc(Filter(ScoreAll(docs, f), Positive), ScoreOf), topK)
  }

  /** The ranking of `findRelevantDocuments`: the documents scored against the query's lower-cased words. */
  function Ranked(query: string, docs: seq<Doc>, topK: nat): seq<Scored> {
    RankBy(docs, Scorer(Words(ToLower(query))), topK)
  }

  function ToHit(s: Scored): (h: Hit)
    ensures h.docId == s.doc.id && h.score == s.score
  {
    Hit(s.doc.id, s.doc.title, s.excerpt, s.score, s.doc.createdAt)
  }

  function Hits(ss: seq<Scored>): (r: seq<Hit>)
    ensures |r| == |ss|
    ensures forall i :: 0 <= i < |r| ==> r[i] == ToHit(ss[i])
  {
    if ss == [] then [] else [ToHit(ss[0])] + Hits(ss[1..])
  }

  /** `findRelevantDocuments`: at most `topK` hits, all with positive scores, best first. */
  function FindRelevantDocuments(query: string, docs: seq<Doc>, topK: nat): (r: seq<Hit>)
    ensures |r| <= topK
    ensures forall i :: 0 <= i < |r| ==> r[i].score > 0.0
    ensures forall i, j :: 0 <= i < j < |r| ==> r[i].score >= r[j].score
  {
    var words := Words(ToLower(query));
    var f := Scorer(words);
    RankBySpec(docs, f, topK);
    Hits(RankBy(docs, f, topK))
  }

  /** Every kept entry is the score of an input document, and positive. */
  predicate FromDocs(r: seq<Scored>, f: Doc -> Scored, docs: seq<Doc>) {
    forall i :: 0 <= i < |r| ==> r[i].score > 0.0 && r[i].doc in docs && r[i] == f(r[i].doc)
  }

  /** Every positively scored document left out is outranked by all `topK` entries kept. */
  predicate Outranks(r: seq<Scored>, f: Doc -> Scored, docs: seq<Doc>, topK: nat) {
    forall d | d in docs && f(d).score > 0.0 && f(d) !in r ::
      |r| == topK && forall i :: 0 <= i < |r| ==> r[i].score >= f(d).score
  }

  /**
   * The ranking keeps only documents of the input with a positive score,
   * best first, and a positively scored document left out is outranked by
   * all `topK` documents kept.
   */
  lemma RankBySpec(docs: seq<Doc>, f: Doc -> Scored, topK: nat)
    requires forall d :: f(d).doc == d
    ensures |RankBy(docs, f, topK)| <= topK
    ensures SortedDesc(RankBy(docs, f, topK), ScoreOf)
    ensures FromDocs(RankBy(docs, f, topK), f, docs)
    ensures Outranks(RankBy(docs, f, topK), f, docs, topK)
  {
    var scored := ScoreAll(docs, f);
    var positive := Filter(scored, Positive);
    var sorted := SortDesc(positive, ScoreOf);
    var r := Take(sorted, topK);
    SortDescMembers(positive, ScoreOf);
    forall i | 0 <= i < |r|
      ensures r[i].score > 0.0 && r[i].doc in docs && r[i] == f(r[i].doc)
    {
      assert r[i] == sorted[i];
      assert r[i] in positive;
      assert Positive(r[i]);
      var j :| 0 <= j < |scored| && scored[j] == r[i];
      assert r[i].doc == docs[j];
    }
    forall d | d in docs && f(d).score > 0.0 && f(d) !in r
      ensures |r| == topK && forall i :: 0 <= i < |r| ==> r[i].score >= f(d).score
    {
      var x := f(d);
      var j :| 0 <= j < |docs| && docs[j] == d;
      assert scored[j] == x;
      assert Positive(x);
      assert x in positive;
      TopKComplete(sorted, ScoreOf, topK, x);
      forall i | 0 <= i < |r| ensures r[i].score >= x.score {
        assert r[i] in Take(sorted, topK);
      }
    }
  }

  /** For the query's scoring: the kept documents are exactly scored input documents, and the best ones. */
  lemma RankedSpec(query: string, docs: seq<Doc>, topK: nat)
    ensures var words := Words(ToLower(query));
      && SortedDesc(Ranked(query, docs, topK), ScoreOf)
      && FromDocs(Ranked(query, docs, topK), Scorer(words), docs)
      && Outranks(Ranked(query, docs, topK), Scorer(words), docs, topK)
  {
    RankBySpec(docs, Scorer(Words(ToLower(query))), topK);
  }

  // ---------------------------------------------------------------------
  // Search
  // ---------------------------------------------------------------------

  /** The `searchType` tag of a search outcome: `fallback`, `no_documents`, `openai_powered` or `simple_fallback`. */
  datatype SearchType = Fallback | NoDocuments | OpenAiPowered | SimpleFallback

  datatype SearchOutcome = SearchOutcome(results: seq<Hit>, intelligentAnswer: string, total: nat, searchType: SearchType)

  /**
   * The choice `searchDocuments` makes, given the key, the user's documents,
   * the fallback ranking and the API call's outcome.
   */
  function Respond(apiKey: string, docs: seq<Doc>, ranked: SearchOutcome, api: Result<string>): (r: SearchOutcome)
    ensures apiKey != "" && docs == [] ==> r == SearchOutcome([], NoDocumentsAnswer, 0, NoDocuments)
    ensures apiKey == "" || docs != [] ==> r.results == ranked.results && r.total == ranked.total
    ensures r.searchType == OpenAiPowered <==> apiKey != "" && docs != [] && api.Ok?
    ensures apiKey == "" ==> r.searchType == Fallback && r.intelligentAnswer == FallbackPrefix + MissingKey
    ensures apiKey != "" && docs != [] && api.Err? ==>
      r.searchType == Fallback && r.intelligentAnswer == FallbackPrefix + api.error
    ensures apiKey != "" && docs != [] && api.Ok? ==>
      r.intelligentAnswer == if api.value != "" then api.value else NoAnswer
  {
    if apiKey == "" then SearchOutcome(ranked.results, FallbackPrefix + MissingKey, ranked.total, Fallback)
    else if docs == [] then SearchOutcome([], NoDocumentsAnswer, 0, NoDocuments)
    else if api.Err? then SearchOutcome(ranked.results, FallbackPrefix + api.error, ranked.total, Fallback)
    else SearchOutcome(ranked.results, if api.value != "" then api.value else NoAnswer, ranked.total, OpenAiPowered)
  }

  const NoDocumentsAnswer := "您还没有上传任何文档。请先上传一些文档，然后再进行搜索。"
  const NoAnswer := "抱歉，无法生成回答。"
  const MissingKey := "OpenAI API密钥未设置"
  const FallbackPrefix := "搜索遇到问题，已切换到基础搜索模式。错误信息: "

  /** The documents the fallback ranks, as written: only an explicit user id matches anything. */
  function FallbackDocsAsWritten(docs: seq<Doc>, userId: Option<string>): seq<Doc> {
    Filter(docs, NamedOwner(userId))
  }

  /** The fallback's test on a document: an owner equal to the named user, false when no user is named. */
  function NamedOwner(userId: Option<string>): Doc -> bool {
    (d: Doc) => userId.Some? && d.userId == userId.value
  }

  /**
   * As written, a caller without a user id, whose documents were stored
   * under `anonymous_user`, gets no fallback results at all although
   * `getDocuments` would list every one of them.
   */
  lemma FallbackAsWrittenLosesAnonymous(docs: seq<Doc>)
    requires docs != [] && forall d :: d in docs ==> d.userId == AnonymousUser
    ensures FallbackDocsAsWritten(docs, None) == []
    ensures |Filter(docs, OwnedBy(OrElse(None, AnonymousUser)))| == |docs|
  {
    FilterNone(docs, NamedOwner(None));
    FilterAll(docs, OwnedBy(AnonymousUser));
  }

  lemma {:induction false} FilterNone(s: seq<Doc>, p: Doc -> bool)
    requires forall d :: d in s ==> !p(d)
    ensures Filter(s, p) == []
  {
    if s != [] {
      assert forall d :: d in s[1..] ==> d in s;
      FilterNone(s[1..], p);
    }
  }

  lemma {:induction false} FilterAll(s: seq<Doc>, p: Doc -> bool)
    requires forall d :: d in s ==> p(d)
    ensures Filter(s, p) == s
  {
    if s != [] {
      assert forall d :: d in s[1..] ==> d in s;
      FilterAll(s[1..], p);
      assert s == [s[0]] + s[1..];
    }
  }

  class OpenAiService {
    /** The API key in use; "" when none is set. */
    var apiKey: string
    /** The `openai_api_key` entry of browser storage. */
    var storedKey: Option<string>
    var documents: seq<Doc>

    /**
     * The key comes from the environment, or else from storage; the
     * documents from storage, [] when they are missing or unreadable.
     */
    constructor(envKey: Option<string>, storedKey: Option<string>, storedDocs: Option<seq<Doc>>)
      ensures apiKey == OrElse(envKey, OrElse(storedKey, ""))
      ensures this.storedKey == storedKey
      ensures documents == if storedDocs.Some? then storedDocs.value else []
    {
      apiKey := OrElse(envKey, OrElse(storedKey, ""));
      this.storedKey := storedKey;
      documents := if storedDocs.Some? then storedDocs.value else [];
    }

    /** `setApiKey`: used from now on and remembered in storage. */
    method SetApiKey(key: string)
      modifies this
      ensures apiKey == key && storedKey == Some(key) && documents == old(documents)
      ensures HasApiKey() <==> key != ""
    {
      apiKey := key;
      storedKey := Some(key);
    }

    function HasApiKey(): bool
      reads this
    {
      apiKey != ""
    }

    /** `addDocument`: appends the new document, with its defaults, and reports it. */
    method AddDocument(input: DocInput, now: nat) returns (d: Doc)
      modifies this
      ensures d == NewDoc(input, now)
      ensures documents == old(documents) + [d]
      ensures apiKey == old(apiKey) && storedKey == old(storedKey)
    {
      d := NewDoc(input, now);
      documents := documents + [d];
    }

    /** `getDocuments`: the documents of the user (`anonymous_user` when none is named), in order. */
    function GetDocuments(userId: Option<string>): (r: seq<Doc>)
      reads this
      ensures forall d :: d in r <==> d in documents && d.userId == OrElse(userId, AnonymousUser)
    {
      var target := OrElse(userId, AnonymousUser);
      var r := Filter(documents, OwnedBy(target));
      assert forall d :: d in r ==> OwnedBy(target)(d);
      assert forall i :: 0 <= i < |documents| && OwnedBy(target)(documents[i]) ==> documents[i] in r;
      r
    }

    /** `deleteDocument`: removes the first document with the id; false for an unknown id. */
    method DeleteDocument(id: string) returns (success: bool)
      modifies this
      ensures success <==> exists k :: 0 <= k < |old(documents)| && old(documents)[k].id == id
      ensures var i := FindIndex(old(documents), id);
        documents == if success then old(documents)[..i] + old(documents)[i + 1..] else old(documents)
      ensures apiKey == old(apiKey) && storedKey == old(storedKey)
    {
      var i := FindIndex(documents, id);
      if i < |documents| {
        documents := documents[..i] + documents[i + 1..];
        return true;
      }
      success := false;
    }

    /** The fallback search, ranking the documents of the user (with the same default as `getDocuments`). */
    function SimpleFallbackSearch(query: string, userId: Option<string>, topK: Option<nat>): (r: SearchOutcome)
      reads this
      ensures r.results == FindRelevantDocuments(query, GetDocuments(userId), if topK.Some? then topK.value else 5)
      ensures r.total == |r.results| && r.searchType == SimpleFallback
    {
      var results := FindRelevantDocuments(query, GetDocuments(userId), if topK.Some? then topK.value else 5);
      SearchOutcome(results, "", |results|, SimpleFallback)
    }

    /**
     * `searchDocuments`: the choice `Respond` makes over the user's documents
     * and their keyword ranking, so at most `topK` (5 by default) results,
     * best first, each scored positively, and the total is their number.
     */
    function SearchDocuments(query: string, userId: Option<string>, topK: Option<nat>, api: Result<string>): (r: SearchOutcome)
      reads this
      ensures |r.results| <= if topK.Some? then topK.value else 5
      ensures forall i :: 0 <= i < |r.results| ==> r.results[i].score > 0.0
      ensures forall i, j :: 0 <= i < j < |r.results| ==> r.results[i].score >= r.results[j].score
      ensures r.total == |r.results|
      ensures r == Respond(apiKey, GetDocuments(userId), SimpleFallbackSearch(query, userId, topK), api)
    {
      Respond(apiKey, GetDocuments(userId), SimpleFallbackSearch(query, userId, topK), api)
    }
  }
}
