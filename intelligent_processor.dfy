/**
 * `intelligentDocumentProcessor.js`, the service object: reading an
 * uploaded file, processing it into structure, knowledge points, question
 * and answer pairs and chunks, keeping each user's processed documents,
 * and the search over them (pairs, knowledge points and chunks, ranked by
 * score, the best ten returned).
 */
module IntelligentProcessor {
  import opened Common
  import opened Text
  import opened Seqs
  import S = IntelligentStructure
  import K = IntelligentKnowledge
  import R = LocalSearchResults

  // ---------------------------------------------------------------------
  // extractContent
  // ---------------------------------------------------------------------

  const Unsupported := "不支持的文件类型: "

  /**
   * `extractContent`: a `text/` type, or a name ending in `.md`, `.txt` or
   * `.json` whatever its case, is read; any other file is refused with
   * its type in the message.
   */
  function ExtractContent(file: R.File): (r: Result<string>)
    ensures r.Ok? <==>
      || StartsWith(file.mime, "text/")
      || EndsWith(ToLower(file.name), ".md") || EndsWith(ToLower(file.name), ".txt")
      || EndsWith(ToLower(file.name), ".json")
    ensures r.Ok? ==> r.value == file.text
    ensures r.Err? ==> r.error == Unsupported + file.mime
  {
    var name := ToLower(file.name);
    if StartsWith(file.mime, "text/") || EndsWith(name, ".md") || EndsWith(name, ".txt") then Ok(file.text)
    else if EndsWith(name, ".json") then Ok(file.text)
    else Err(Unsupported + file.mime)
  }

  /** Lower-casing keeps a suffix, lower-cased. */
  lemma LowerSuffix(s: string, p: string, lower: string)
    requires EndsWith(s, p) && ToLower(p) == lower
    ensures EndsWith(ToLower(s), lower)
  {
    var n := |s| - |p|;
    var t := ToLower(s);
    assert s[n..] == p;
    forall i | 0 <= i < |p| ensures t[n..][i] == ToLower(p)[i] {
      assert s[n..][i] == s[n + i];
    }
    assert t[n..] == ToLower(p);
  }

  /** A name whose extension lower-cases to `.md`, `.txt` or `.json` is read, whatever the file's type. */
  lemma ExtensionCaseIgnored(file: R.File, ext: string)
    requires EndsWith(file.name, ext) && ToLower(ext) in {".md", ".txt", ".json"}
    ensures ExtractContent(file) == Ok(file.text)
  {
    LowerSuffix(file.name, ext, ToLower(ext));
  }

  // ---------------------------------------------------------------------
  // The processed document
  // ---------------------------------------------------------------------

  /** What `processDocument` keeps of a document; the semantic index is its chunks. */
  datatype ProcessedDoc = ProcessedDoc(
    id: string,
    filename: string,
    title: string,
    content: string,
    structure: S.Structure,
    points: seq<K.Point>,
    pairs: seq<K.QAPair>,
    chunks: seq<string>,
    processedAt: string)

  const ChunkSize := 300

  /** The document processed from its text: structure, points, pairs and chunks of 300. */
  function NewDoc(file: R.File, meta: UploadMeta, id: string, now: string, rx: K.Matches, content: string): ProcessedDoc {
    var structure := S.AnalyzeFixed(content);
    var points := K.KnowledgePoints(structure, rx);
    ProcessedDoc(id, file.name, OrElse(meta.title, file.name), content, structure, points,
      K.QAPairs(points), K.Chunks(content, ChunkSize), now)
  }

  /** `processDocument`: the file's text processed, or the reading error. */
  function ProcessDoc(file: R.File, meta: UploadMeta, id: string, now: string, rx: K.Matches): Result<ProcessedDoc> {
    var content := ExtractContent(file);
    if content.Err? then Err(content.error) else Ok(NewDoc(file, meta, id, now, rx, content.value))
  }

  /**
   * Processing fails exactly when the file cannot be read; otherwise the
   * document keeps the id, the text and the name given, takes the title
   * given or else the name, and its pairs are those of its points, which
   * are those of its structure.
   */
  lemma ProcessDocSpec(file: R.File, meta: UploadMeta, id: string, now: string, rx: K.Matches)
    ensures var r := ProcessDoc(file, meta, id, now, rx);
      && (r.Err? <==> ExtractContent(file).Err?)
      && (r.Err? ==> r.error == Unsupported + file.mime)
      && (r.Ok? ==>
        && r.value.id == id && r.value.content == file.text && r.value.filename == file.name
        && r.value.title == OrElse(meta.title, file.name)
        && r.value.structure == S.AnalyzeFixed(file.text)
        && r.value.points == K.KnowledgePoints(r.value.structure, rx)
        && r.value.pairs == K.QAPairs(r.value.points)
        && r.value.chunks == K.Chunks(file.text, ChunkSize))
  {
  }

  /** `this.documentKnowledge.get(userId) || []`. */
  function DocsOf(m: map<string, seq<ProcessedDoc>>, userId: string): seq<ProcessedDoc> {
    if userId in m then m[userId] else []
  }

  /** `updateUserKnowledge` on the map: the document appended to its user's list, a new user starting from none. */
  function AddDoc(m: map<string, seq<ProcessedDoc>>, userId: string, doc: ProcessedDoc): (r: map<string, seq<ProcessedDoc>>)
    ensures r.Keys == m.Keys + {userId}
    ensures DocsOf(r, userId) == DocsOf(m, userId) + [doc]
    ensures forall v :: v != userId ==> DocsOf(r, v) == DocsOf(m, v)
  {
    m[userId := DocsOf(m, userId) + [doc]]
  }

  // ---------------------------------------------------------------------
  // Hits
  // ---------------------------------------------------------------------

  /** What a hit found: a question and answer pair, a knowledge point's text, or a chunk. */
  datatype Found =
    | PairFound(question: string, answer: string)
    | PointFound(content: string, knowledgeType: string)
    | ChunkFound(content: string)

  datatype Hit = Hit(found: Found, score: real, source: string)

  function ScoreOf(h: Hit): real { h.score }

  // ---------------------------------------------------------------------
  // searchQAPairs
  // ---------------------------------------------------------------------

  /**
   * `searchQAPairs`' score of a lower-cased question for the lower-cased
   * query: 0.9 when one holds the other, otherwise 0.7 times the share of
   * the query's words matching a word of the question.
   */
  function PairScore(question: string, q: string): (r: real)
    ensures 0.0 <= r <= 0.9
    ensures r == 0.9 <==> Contains(question, q) || Contains(q, question)
  {
    if Contains(question, q) || Contains(q, question) then 0.9
    else R.Fraction(|R.MatchedWords(question, q)|, |Words(q)|) * 0.7
  }

  /** Without containment, a pair is kept when more than three sevenths of the query's words match. */
  lemma PairThreshold(question: string, q: string)
    ensures PairScore(question, q) > 0.3 <==>
      || Contains(question, q) || Contains(q, question)
      || 7 * |R.MatchedWords(question, q)| > 3 * |Words(q)|
  {
    var m := |R.MatchedWords(question, q)|;
    var n := |Words(q)|;
    R.FractionAbove(m, n, 0.7, 0.3);
    assert (m as real) * 0.7 > 0.3 * (n as real) <==> 7 * m > 3 * n;
  }

  function PairHit(qa: K.QAPair, q: string): Hit {
    Hit(PairFound(qa.question, qa.answer), PairScore(ToLower(qa.question), q), qa.source)
  }

  /** A pair gives a hit when its score is above 0.3. */
  function PairOf(q: string): (f: K.QAPair -> Option<Hit>)
    ensures forall qa :: f(qa) == if PairScore(ToLower(qa.question), q) > 0.3 then Some(PairHit(qa, q)) else None
  {
    (qa: K.QAPair) => if PairScore(ToLower(qa.question), q) > 0.3 then Some(PairHit(qa, q)) else None
  }

  function PairHits(q: string, pairs: seq<K.QAPair>): seq<Hit> {
    R.Gather(pairs, PairOf(q))
  }

  /** The pair hits are exactly the pairs scoring above 0.3, each with its question, answer and source. */
  lemma PairHitsSpec(q: string, pairs: seq<K.QAPair>)
    ensures forall h :: h in PairHits(q, pairs) <==>
      exists k :: 0 <= k < |pairs| && PairScore(ToLower(pairs[k].question), q) > 0.3 && h == PairHit(pairs[k], q)
    ensures forall h :: h in PairHits(q, pairs) ==> h.found.PairFound? && 0.3 < h.score <= 0.9
  {
    R.GatherMembers(pairs, PairOf(q));
  }

  /** `searchQAPairs`: one pass over the pairs with the lower-cased query. */
  method SearchQAPairs(query: string, pairs: seq<K.QAPair>) returns (results: seq<Hit>)
    ensures results == PairHits(ToLower(query), pairs)
  {
    results := [];
    var queryLower := ToLower(query);
    ghost var f := PairOf(queryLower);
    for i := 0 to |pairs|
      invariant results == R.Gather(pairs[..i], f)
    {
      var qa := pairs[i];
      var score := PairScore(ToLower(qa.question), queryLower);
      assert pairs[..i + 1][..i] == pairs[..i];
      if score > 0.3 {
        results := results + [Hit(PairFound(qa.question, qa.answer), score, qa.source)];
      }
    }
    assert pairs[..|pairs|] == pairs;
  }

  // ---------------------------------------------------------------------
  // hasCommonWords
  // ---------------------------------------------------------------------

  predicate Long(w: string) { |w| > 1 }

  /** The words of a text longer than one character. */
  function LongWords(s: string): (r: seq<string>)
    ensures forall i :: 0 <= i < |r| ==> |r[i]| > 1
  {
    Filter(Words(s), Long)
  }

  /** `hasCommonWords`: some long word of the first text matches some long word of the second. */
  predicate HasCommonWords(a: string, b: string) {
    |Filter(LongWords(a), R.Matcher(LongWords(b)))| > 0
  }

  /** Two long words, one of each text, one holding the other. */
  predicate SharedWord(a: string, b: string) {
    var wa := LongWords(a);
    var wb := LongWords(b);
    exists i, j :: 0 <= i < |wa| && 0 <= j < |wb| && (Contains(wa[i], wb[j]) || Contains(wb[j], wa[i]))
  }

  lemma HasCommonWordsSpec(a: string, b: string)
    ensures HasCommonWords(a, b) <==> SharedWord(a, b)
  {
    var wa := LongWords(a);
    var wb := LongWords(b);
    var r := Filter(wa, R.Matcher(wb));
    if |r| > 0 {
      assert R.MatchesSome(r[0], wb);
      var i :| 0 <= i < |wa| && wa[i] == r[0];
    }
    if SharedWord(a, b) {
      var i, j :| 0 <= i < |wa| && 0 <= j < |wb| && (Contains(wa[i], wb[j]) || Contains(wb[j], wa[i]));
      assert R.MatchesSome(wa[i], wb);
      assert wa[i] in r;
    }
  }

  /** Sharing a word does not depend on the order of the texts. */
  lemma HasCommonWordsSymmetric(a: string, b: string)
    ensures HasCommonWords(a, b) == HasCommonWords(b, a)
  {
    HasCommonWordsSpec(a, b);
    HasCommonWordsSpec(b, a);
    var wa := LongWords(a);
    var wb := LongWords(b);
    if SharedWord(a, b) {
      var i, j :| 0 <= i < |wa| && 0 <= j < |wb| && (Contains(wa[i], wb[j]) || Contains(wb[j], wa[i]));
      assert 0 <= j < |wb| && 0 <= i < |wa| && (Contains(wb[j], wa[i]) || Contains(wa[i], wb[j]));
    }
    if SharedWord(b, a) {
      var j, i :| 0 <= j < |wb| && 0 <= i < |wa| && (Contains(wb[j], wa[i]) || Contains(wa[i], wb[j]));
      assert 0 <= i < |wa| && 0 <= j < |wb| && (Contains(wa[i], wb[j]) || Contains(wb[j], wa[i]));
    }
  }

  // ---------------------------------------------------------------------
  // searchKnowledgePoints
  // ---------------------------------------------------------------------

  /** The words that make a query a question about how to do something. */
  const HowWords := ["怎么", "如何", "步骤", "方法"]

  /**
   * `searchKnowledgePoints` for one point and the lower-cased query: a
   * definition whose term and the query hold one another (0.8), a
   * procedure sharing a word with a how-question (0.9), a feature sharing
   * a word with the query (0.6); table rows and list items give nothing.
   * Every score given is above the 0.3 the source checks.
   */
  function PointHit(p: K.Point, q: string): Option<Hit> {
    match p
    case Definition(term, definition, section) =>
      var t := ToLower(term);
      if Contains(q, t) || Contains(t, q) then Some(Hit(PointFound(term + "是" + definition, "definition"), 0.8, section))
      else None
    case Procedure(title, steps, section) =>
      if ContainsAny(q, HowWords) && HasCommonWords(q, ToLower(title)) then
        Some(Hit(PointFound(K.StepsAnswer(steps), "procedure"), 0.9, section))
      else None
    case Feature(feature, section) =>
      if HasCommonWords(q, ToLower(feature)) then Some(Hit(PointFound("支持" + feature + "功能", "feature"), 0.6, section))
      else None
    case _ => None
  }

  /** When each kind of point gives a hit, with which score, and that the hit names the point's section. */
  lemma PointHitSpec(p: K.Point, q: string)
    ensures p.TableRow? || p.ListPoint? ==> PointHit(p, q).None?
    ensures p.Definition? ==> (PointHit(p, q).Some? <==> Contains(q, ToLower(p.term)) || Contains(ToLower(p.term), q))
    ensures p.Procedure? ==> (PointHit(p, q).Some? <==>
      (exists k :: 0 <= k < |HowWords| && Contains(q, HowWords[k])) && SharedWord(q, ToLower(p.title)))
    ensures p.Feature? ==> (PointHit(p, q).Some? <==> SharedWord(q, ToLower(p.feature)))
    ensures PointHit(p, q).Some? ==>
      && PointHit(p, q).value.source == p.section
      && PointHit(p, q).value.found.PointFound?
      && PointHit(p, q).value.score == (if p.Definition? then 0.8 else if p.Procedure? then 0.9 else 0.6)
  {
    if p.Procedure? {
      HasCommonWordsSpec(q, ToLower(p.title));
    } else if p.Feature? {
      HasCommonWordsSpec(q, ToLower(p.feature));
    }
  }

  function PointOf(q: string): (f: K.Point -> Option<Hit>)
    ensures forall p :: f(p) == PointHit(p, q)
  {
    (p: K.Point) => PointHit(p, q)
  }

  function PointHits(q: string, points: seq<K.Point>): seq<Hit> {
    R.Gather(points, PointOf(q))
  }

  /** The point hits are exactly the hits of the points that give one; none comes from a table row or a list item. */
  lemma PointHitsSpec(q: string, points: seq<K.Point>)
    ensures forall h :: h in PointHits(q, points) <==> exists k :: 0 <= k < |points| && PointHit(points[k], q) == Some(h)
    ensures forall h :: h in PointHits(q, points) ==>
      h.found.PointFound? && h.score in {0.6, 0.8, 0.9} && exists k :: 0 <= k < |points| && points[k].section == h.source
  {
    R.GatherMembers(points, PointOf(q));
    forall h | h in PointHits(q, points)
      ensures h.found.PointFound? && h.score in {0.6, 0.8, 0.9} && exists k :: 0 <= k < |points| && points[k].section == h.source
    {
      var k :| 0 <= k < |points| && PointHit(points[k], q) == Some(h);
      PointHitSpec(points[k], q);
    }
  }

  /** `searchKnowledgePoints`: one pass over the points with the lower-cased query. */
  method SearchKnowledgePoints(query: string, points: seq<K.Point>) returns (results: seq<Hit>)
    ensures results == PointHits(ToLower(query), points)
  {
    results := [];
    var queryLower := ToLower(query);
    ghost var f := PointOf(queryLower);
    for i := 0 to |points|
      invariant results == R.Gather(points[..i], f)
    {
      var hit := PointHit(points[i], queryLower);
      assert points[..i + 1][..i] == points[..i];
      if hit.Some? {
        results := results + [hit.value];
      }
    }
    assert points[..|points|] == points;
  }

  // ---------------------------------------------------------------------
  // calculateContentScore, searchContent
  // ---------------------------------------------------------------------

  /** The occurrences in `content` of the words longer than one character, added up. */
  function Occurrences(words: seq<string>, content: string): nat {
    if words == [] then 0
    else
      var w := words[|words| - 1];
      Occurrences(words[..|words| - 1], content) + (if |w| > 1 then MatchCount(content, w) else 0)
  }

  /** `calculateContentScore`: a tenth per occurrence of a query word, at most 1. */
  function ContentScore(q: string, content: string): (r: real)
    ensures 0.0 <= r <= 1.0
  {
    var s := 0.1 * Occurrences(Words(q), content) as real;
    if s < 1.0 then s else 1.0
  }

  /** A chunk scores above 0.2 exactly when its query words occur three times or more. */
  lemma ContentScoreAbove(q: string, content: string)
    ensures ContentScore(q, content) > 0.2 <==> Occurrences(Words(q), content) >= 3
    ensures ContentScore(q, content) == 1.0 <==> Occurrences(Words(q), content) >= 10
  {
    var t := Occurrences(Words(q), content);
    if t >= 3 {
      assert 0.1 * t as real >= 0.3;
    } else {
      assert 0.1 * t as real <= 0.2;
    }
  }

  /** `calculateContentScore`: the loop over the query's words. */
  method CalculateContentScore(q: string, content: string) returns (score: real)
    ensures score == ContentScore(q, content)
  {
    var words := Words(q);
    score := 0.0;
    for i := 0 to |words|
      invariant score == 0.1 * Occurrences(words[..i], content) as real
    {
      var w := words[i];
      assert words[..i + 1][..i] == words[..i];
      if |w| > 1 {
        var matches := MatchCount(content, w);
        score := score + matches as real * 0.1;
      }
    }
    assert words[..|words|] == words;
    if score > 1.0 {
      score := 1.0;
    }
  }

  /** A chunk holding the lower-cased query gives a hit, under the document's title, when it scores above 0.2. */
  function ChunkHit(chunk: string, q: string, title: string): Option<Hit> {
    var lower := ToLower(chunk);
    if Contains(lower, q) && ContentScore(q, lower) > 0.2 then Some(Hit(ChunkFound(chunk), ContentScore(q, lower), title))
    else None
  }

  function ChunkOf(q: string, title: string): (f: string -> Option<Hit>)
    ensures forall c :: f(c) == ChunkHit(c, q, title)
  {
    (c: string) => ChunkHit(c, q, title)
  }

  function ContentHits(q: string, chunks: seq<string>, title: string): seq<Hit> {
    R.Gather(chunks, ChunkOf(q, title))
  }

  /**
   * The content hits are exactly the chunks holding the query in which the
   * query's words occur three times or more, each under the title.
   */
  lemma ContentHitsSpec(q: string, chunks: seq<string>, title: string)
    ensures forall h :: h in ContentHits(q, chunks, title) <==>
      exists k :: 0 <= k < |chunks|
        && Contains(ToLower(chunks[k]), q) && Occurrences(Words(q), ToLower(chunks[k])) >= 3
        && h == Hit(ChunkFound(chunks[k]), ContentScore(q, ToLower(chunks[k])), title)
    ensures forall h :: h in ContentHits(q, chunks, title) ==> h.found.ChunkFound? && 0.2 < h.score <= 1.0 && h.source == title
  {
    R.GatherMembers(chunks, ChunkOf(q, title));
    forall k | 0 <= k < |chunks| {
      ContentScoreAbove(q, ToLower(chunks[k]));
    }
  }

  /** `searchContent`: one pass over the document's chunks with the lower-cased query. */
  method SearchContent(query: string, doc: ProcessedDoc) returns (results: seq<Hit>)
    ensures results == ContentHits(ToLower(query), doc.chunks, doc.title)
  {
    results := [];
    var queryLower := ToLower(query);
    var chunks := doc.chunks;
    ghost var f := ChunkOf(queryLower, doc.title);
    for i := 0 to |chunks|
      invariant results == R.Gather(chunks[..i], f)
    {
      var chunk := chunks[i];
      var chunkLower := ToLower(chunk);
      assert chunks[..i + 1][..i] == chunks[..i];
      if Contains(chunkLower, queryLower) {
        var score := CalculateContentScore(queryLower, chunkLower);
        if score > 0.2 {
          results := results + [Hit(ChunkFound(chunk), score, doc.title)];
        }
      }
    }
    assert chunks[..|chunks|] == chunks;
  }

  // ---------------------------------------------------------------------
  // intelligentSearch
  // ---------------------------------------------------------------------

  /** One document's hits: its pairs', then its points', then its chunks'. */
  function DocHits(q: string, doc: ProcessedDoc): seq<Hit> {
    PairHits(q, doc.pairs) + PointHits(q, doc.points) + ContentHits(q, doc.chunks, doc.title)
  }

  /** Every document's hits, document after document. */
  function AllHits(q: string, docs: seq<ProcessedDoc>): seq<Hit> {
    if docs == [] then [] else AllHits(q, docs[..|docs| - 1]) + DocHits(q, docs[|docs| - 1])
  }

  /** A hit of all the documents is a hit of one of them. */
  lemma {:induction false} AllHitsMembers(q: string, docs: seq<ProcessedDoc>)
    ensures forall h :: h in AllHits(q, docs) <==> exists k :: 0 <= k < |docs| && h in DocHits(q, docs[k])
  {
    if docs != [] {
      var init := docs[..|docs| - 1];
      AllHitsMembers(q, init);
      assert forall k :: 0 <= k < |init| ==> init[k] == docs[k];
    }
  }

  /** Every hit of a document scores above 0.2 and at most 1. */
  lemma DocHitScores(q: string, doc: ProcessedDoc)
    ensures forall h :: h in DocHits(q, doc) ==> 0.2 < h.score <= 1.0
  {
    PairHitsSpec(q, doc.pairs);
    PointHitsSpec(q, doc.points);
    ContentHitsSpec(q, doc.chunks, doc.title);
  }

  const MaxResults := 10

  /** What `intelligentSearch` answers. */
  datatype Answer =
    | NoDocuments(message: string)
    | Results(results: seq<Hit>, totalFound: nat)

  const UploadFirst := "请先上传文档"

  /** `intelligentSearch` over a user's documents: the ten best hits of all, by decreasing score. */
  function Search(query: string, docs: seq<ProcessedDoc>): Answer {
    if docs == [] then NoDocuments(UploadFirst)
    else
      var all := AllHits(ToLower(query), docs);
      Results(Take(SortDesc(all, ScoreOf), MaxResults), |all|)
  }

  /**
   * A user without documents is told to upload one; otherwise at most ten
   * hits come back, by decreasing score, all found counted, and any hit
   * left out is outranked by ten hits returned.
   */
  lemma SearchSpec(query: string, docs: seq<ProcessedDoc>)
    ensures Search(query, docs).NoDocuments? <==> docs == []
    ensures docs == [] ==> Search(query, docs).message == UploadFirst
    ensures docs != [] ==>
      var all := AllHits(ToLower(query), docs);
      var r := Search(query, docs).results;
      && Search(query, docs).totalFound == |all|
      && |r| <= MaxResults && (|all| >= MaxResults ==> |r| == MaxResults)
      && SortedDesc(r, ScoreOf)
      && (forall h :: h in r ==> h in all)
      && (forall h :: h in all && h !in r ==> |r| == MaxResults && forall g :: g in r ==> g.score >= h.score)
  {
    if docs != [] {
      var all := AllHits(ToLower(query), docs);
      var sorted := SortDesc(all, ScoreOf);
      var r := Take(sorted, MaxResults);
      SortDescMembers(all, ScoreOf);
      assert forall i :: 0 <= i < |r| ==> r[i] == sorted[i];
      forall h | h in all && h !in r ensures |r| == MaxResults && forall g :: g in r ==> g.score >= h.score {
        TopKComplete(sorted, ScoreOf, MaxResults, h);
      }
    }
  }

  /** Every hit returned is a hit of one of the user's documents, scoring above 0.2 and at most 1. */
  lemma SearchHitsSound(query: string, docs: seq<ProcessedDoc>)
    requires docs != []
    ensures forall h :: h in Search(query, docs).results ==>
      (exists k :: 0 <= k < |docs| && h in DocHits(ToLower(query), docs[k])) && 0.2 < h.score <= 1.0
  {
    var q := ToLower(query);
    var all := AllHits(q, docs);
    var r := Search(query, docs).results;
    SortDescMembers(all, ScoreOf);
    AllHitsMembers(q, docs);
    forall h | h in r ensures (exists k :: 0 <= k < |docs| && h in DocHits(q, docs[k])) && 0.2 < h.score <= 1.0 {
      assert h in SortDesc(all, ScoreOf);
      var k :| 0 <= k < |docs| && h in DocHits(q, docs[k]);
      DocHitScores(q, docs[k]);
    }
  }

  // ---------------------------------------------------------------------
  // The service
  // ---------------------------------------------------------------------

  class IntelligentDocumentProcessor {
    /** Every processed document by its id. */
    var processedDocuments: map<string, ProcessedDoc>
    /** Each user's processed documents, in the order processed. */
    var documentKnowledge: map<string, seq<ProcessedDoc>>

    constructor()
      ensures processedDocuments == map[] && documentKnowledge == map[]
    {
      processedDocuments := map[];
      documentKnowledge := map[];
    }

    function UserDocs(userId: string): seq<ProcessedDoc>
      reads this
    {
      DocsOf(documentKnowledge, userId)
    }

    /** `updateUserKnowledge`: the document appended to its user's list. */
    method UpdateUserKnowledge(userId: string, doc: ProcessedDoc)
      modifies this
      ensures documentKnowledge == AddDoc(old(documentKnowledge), userId, doc)
      ensures processedDocuments == old(processedDocuments)
    {
      if userId !in documentKnowledge {
        documentKnowledge := documentKnowledge[userId := []];
      }
      documentKnowledge := documentKnowledge[userId := documentKnowledge[userId] + [doc]];
    }

    /**
     * `processDocument`: a readable file is processed, stored under its id
     * and appended to its user's documents; a file that cannot be read
     * changes nothing. The id and the time are given.
     */
    method ProcessDocument(file: R.File, meta: UploadMeta, userId: string, id: string, now: string, rx: K.Matches)
      returns (r: Result<ProcessedDoc>)
      modifies this
      ensures r == ProcessDoc(file, meta, id, now, rx)
      ensures r.Err? ==> processedDocuments == old(processedDocuments) && documentKnowledge == old(documentKnowledge)
      ensures r.Ok? ==>
        && processedDocuments == old(processedDocuments)[id := r.value]
        && documentKnowledge == AddDoc(old(documentKnowledge), userId, r.value)
    {
      r := Process(file, meta, id, now, rx);
      if r.Ok? {
        processedDocuments := processedDocuments[id := r.value];
        UpdateUserKnowledge(userId, r.value);
      }
    }

    /** Steps 1 to 5 of `processDocument`: the file read, then processed. */
    static method Process(file: R.File, meta: UploadMeta, id: string, now: string, rx: K.Matches)
      returns (r: Result<ProcessedDoc>)
      ensures r == ProcessDoc(file, meta, id, now, rx)
    {
      var content := ExtractContent(file);
      if content.Err? {
        return Err(content.error);
      }
      var doc := BuildDoc(file, meta, id, now, rx, content.value);
      return Ok(doc);
    }

    /** Steps 2 to 5 of `processDocument`: structure, knowledge points, pairs and chunks. */
    static method BuildDoc(file: R.File, meta: UploadMeta, id: string, now: string, rx: K.Matches, content: string)
      returns (doc: ProcessedDoc)
      ensures doc == NewDoc(file, meta, id, now, rx, content)
    {
      var structure := S.AnalyzeStructureFixed(content);
      var points := K.ExtractKnowledgePoints(structure, rx);
      var pairs := K.GenerateQAPairs(points);
      var chunks := K.SplitIntoChunks(content, ChunkSize);
      doc := ProcessedDoc(id, file.name, OrElse(meta.title, file.name), content, structure, points, pairs, chunks, now);
    }

    /** One document's pairs, knowledge points and chunks searched in turn. */
    static method SearchDocument(query: string, doc: ProcessedDoc) returns (hits: seq<Hit>)
      ensures hits == DocHits(ToLower(query), doc)
    {
      var pairHits := SearchQAPairs(query, doc.pairs);
      var pointHits := SearchKnowledgePoints(query, doc.points);
      var contentHits := SearchContent(query, doc);
      hits := pairHits + pointHits + contentHits;
    }

    /** `intelligentSearch`: each of the user's documents searched in turn, then ranked. */
    method IntelligentSearch(query: string, userId: string) returns (answer: Answer)
      ensures answer == Search(query, UserDocs(userId))
    {
      var docs := UserDocs(userId);
      if |docs| == 0 {
        return NoDocuments(UploadFirst);
      }
      var results := [];
      for i := 0 to |docs|
        invariant results == AllHits(ToLower(query), docs[..i])
      {
        assert docs[..i + 1][..i] == docs[..i];
        var hits := SearchDocument(query, docs[i]);
        results := results + hits;
      }
      assert docs[..|docs|] == docs;
      var sorted := SortDesc(results, ScoreOf);
      return Results(Take(sorted, MaxResults), |results|);
    }

    /** `getUserDocuments`: the user's documents, none for a user not seen. */
    method GetUserDocuments(userId: string) returns (docs: seq<ProcessedDoc>)
      ensures userId in documentKnowledge ==> docs == documentKnowledge[userId]
      ensures userId !in documentKnowledge ==> docs == []
    {
      docs := UserDocs(userId);
    }
  }
}
