/**
 * The simple document service: every document in one list kept in browser
 * storage under `knowledge_documents`, listed and deleted per user, and a
 * substring search that scores title and content hits, favours
 * persona-creation guides for "how to create a persona" questions and
 * answers with the best hit.  The clock and an uploaded file's name, text
 * and size are parameters.
 */
module SimpleDocument {
  import opened Common
  import opened Text
  import opened Seqs

  /**
   * A stored document.  The owner is absent when the caller named none;
   * `source` is set for documents added as data, `size` for uploaded files.
   */
  datatype Doc = Doc(id: string, userId: Option<string>, filename: string, title: string, content: string,
                     category: string, tags: seq<string>, uploadedAt: int,
                     source: Option<string>, size: Option<nat>)

  /** What `addDocumentFromData` receives. */
  datatype DocData = DocData(userId: Option<string>, title: string, content: string,
                             category: Option<string>, tags: Option<seq<string>>, source: Option<string>)

  /** The document `addDocumentFromData` stores: the clock as id, the title as file name. */
  function FromData(data: DocData, now: nat): (d: Doc)
    ensures d.id == NatToString(now) && d.userId == data.userId && d.filename == data.title
    ensures d.title == data.title && d.content == data.content
    ensures d.category == OrElse(data.category, "general") && d.source == Some(OrElse(data.source, "manual"))
  {
    Doc(NatToString(now), data.userId, data.title, data.title, data.content,
        OrElse(data.category, "general"), TagsOr(data.tags), now, Some(OrElse(data.source, "manual")), None)
  }

  /** The document `addDocument` stores for an uploaded file: the file name when no title is given. */
  function FromFile(name: string, text: string, size: nat, meta: UploadMeta, userId: Option<string>, now: nat): (d: Doc)
    ensures d.id == NatToString(now) && d.userId == userId && d.filename == name
    ensures d.title == OrElse(meta.title, name) && d.content == text && d.size == Some(size)
    ensures d.category == OrElse(meta.category, "general")
  {
    Doc(NatToString(now), userId, name, OrElse(meta.title, name), text,
        OrElse(meta.category, "general"), TagsOr(meta.tags), now, None, Some(size))
  }

  function OwnedBy(userId: Option<string>): Doc -> bool {
    (d: Doc) => d.userId == userId
  }

  /** The documents `deleteDocument` keeps: all but those with both the id and the owner. */
  function Survives(id: string, userId: Option<string>): Doc -> bool {
    (d: Doc) => !(d.id == id && d.userId == userId)
  }

  // ---------------------------------------------------------------------
  // Scoring one document
  // ---------------------------------------------------------------------

  /** The query asks how to create a persona: it holds 怎么, 创建 and 人设. */
  predicate PersonaQuery(q: string) {
    Contains(q, "怎么") && Contains(q, "创建") && Contains(q, "人设")
  }

  /** The content is a persona-creation guide. */
  predicate PersonaContent(content: string) {
    Contains(content, "创建人设") || Contains(content, "人设创建") || Contains(content, "角色设定")
  }

  predicate TitleHit(d: Doc, q: string) {
    Contains(ToLower(d.title), q)
  }

  predicate ContentHit(d: Doc, q: string) {
    Contains(ToLower(d.content), q)
  }

  /** 0.8 for a title hit plus 0.6 for a content hit. */
  function BaseScore(d: Doc, q: string): real {
    (if TitleHit(d, q) then 0.8 else 0.0) + (if ContentHit(d, q) then 0.6 else 0.0)
  }

  /** The score: the hits', raised to at least 0.9 for a persona guide when a persona is asked about. */
  function Score(d: Doc, q: string): (s: real)
    ensures s >= BaseScore(d, q)
    ensures PersonaQuery(q) && PersonaContent(d.content) ==> s >= 0.9
    ensures !(PersonaQuery(q) && PersonaContent(d.content)) ==> s == BaseScore(d, q)
  {
    var base := BaseScore(d, q);
    if PersonaQuery(q) && PersonaContent(d.content) && base < 0.9 then 0.9 else base
  }

  /** A document becomes a hit exactly when its title or content holds the query or it is a persona guide asked about. */
  lemma KeptIff(d: Doc, q: string)
    ensures Score(d, q) > 0.1 <==> TitleHit(d, q) || ContentHit(d, q) || (PersonaQuery(q) && PersonaContent(d.content))
  {
  }

  /** `/\d+[\.\、]/`: a digit directly followed by `.` or `、`. */
  predicate Numbered(line: string) {
    exists k :: 0 <= k < |line| - 1 && IsDigit(line[k]) && line[k + 1] in {'.', '、'}
  }

  /** A line that starts the steps of a persona guide. */
  predicate StepLine(line: string) {
    Contains(line, "创建人设") || Contains(line, "人设创建") || Contains(line, "步骤") || Contains(line, "流程")
    || Numbered(line) || Contains(line, "点击") || Contains(line, "填写")
  }

  /** The first line passing `isStep`, or |lines| when there is none. */
  function FirstStep(lines: seq<string>, isStep: string -> bool): (i: nat)
    ensures i <= |lines|
    ensures i < |lines| ==> isStep(lines[i])
    ensures forall k :: 0 <= k < i ==> !isStep(lines[k])
  {
    if lines == [] then 0
    else if isStep(lines[0]) then 0
    else 1 + FirstStep(lines[1..], isStep)
  }

  /** The trimmed non-blank lines among `lines[lo..hi]`, in order. */
  function Followers(lines: seq<string>, lo: nat, hi: nat): (r: seq<string>)
    requires hi <= |lines|
    ensures |r| <= if hi < lo then 0 else hi - lo
    decreases hi
  {
    if hi <= lo then []
    else Followers(lines, lo, hi - 1) + (if Trim(lines[hi - 1]) != "" then [Trim(lines[hi - 1])] else [])
  }

  /**
   * The persona steps: the first step line, trimmed, followed by the
   * non-blank ones of the next two lines; none without a step line.  The
   * test for a step line is `isStep`, which the search fixes to `StepLine`.
   */
  function StepLines(lines: seq<string>, isStep: string -> bool): (r: seq<string>)
    ensures |r| <= 3
    ensures r != [] <==> exists k :: 0 <= k < |lines| && isStep(lines[k])
    ensures r != [] ==> r[0] == Trim(lines[FirstStep(lines, isStep)])
  {
    var i := FirstStep(lines, isStep);
    if i == |lines| then []
    else [Trim(lines[i])] + Followers(lines, i + 1, if i + 3 < |lines| then i + 3 else |lines|)
  }

  /** The inner loop of the scan: the trimmed non-blank lines after a step line. */
  method CollectFollowers(lines: seq<string>, lo: nat, hi: nat) returns (followers: seq<string>)
    requires lo <= hi <= |lines|
    ensures followers == Followers(lines, lo, hi)
  {
    followers := [];
    var j := lo;
    while j < hi
      invariant lo <= j <= hi
      invariant followers == Followers(lines, lo, j)
    {
      var t := Trim(lines[j]);
      if t != "" {
        followers := followers + [t];
      }
      j := j + 1;
    }
  }

  /** The scan for the persona steps: stops at the first step line. */
  method FindStepLines(lines: seq<string>, isStep: string -> bool) returns (relevant: seq<string>)
    ensures relevant == StepLines(lines, isStep)
  {
    relevant := [];
    var i := 0;
    while i < |lines|
      invariant 0 <= i <= |lines|
      invariant forall k :: 0 <= k < i ==> !isStep(lines[k])
      invariant relevant == []
    {
      if isStep(lines[i]) {
        var end := if i + 3 < |lines| then i + 3 else |lines|;
        var followers := CollectFollowers(lines, i + 1, end);
        relevant := [Trim(lines[i])] + followers;
        assert FirstStep(lines, isStep) == i;
        return;
      }
      i := i + 1;
    }
  }

  /** A sentence whose trimmed text is longer than five characters. */
  predicate Substantial(s: string) {
    TrimmedLongerThan(s, 5)
  }

  function MentionsQuery(q: string): string -> bool {
    (s: string) => Contains(ToLower(s), q)
  }

  /**
   * The excerpt of a content hit: the first two substantial sentences that
   * hold the query, joined and closed by `。`; when none does, the text from
   * 50 characters before the first occurrence to 150 after it, with `...`.
   */
  function Excerpt(content: string, q: string): string {
    var matching := Filter(Filter(SplitOn(content, SentenceEnds), Substantial), MentionsQuery(q));
    if matching != [] then Join(Take(matching, 2), "。") + "。"
    else
      var index := IndexOf(ToLower(content), q);
      Substring(content, if index - 50 > 0 then index - 50 else 0,
                if index + 150 < |content| then index + 150 else |content|) + "..."
  }

  /**
   * The content shown for a document: the persona steps when they apply
   * and exist, else the excerpt of a content hit, else the title line of a
   * title hit, else nothing.
   */
  function MatchedContent(d: Doc, q: string): string {
    var titled := if TitleHit(d, q) then "标题匹配: " + d.title else "";
    var excerpted := if ContentHit(d, q) then Excerpt(d.content, q) else titled;
    var steps := StepLines(SplitOn(d.content, {'\n'}), StepLine);
    if PersonaQuery(q) && PersonaContent(d.content) && steps != [] then Join(steps, "\n") else excerpted
  }

  /** A search result: the document's id and title, the content shown and the score. */
  datatype Hit = Hit(id: string, title: string, content: string, score: real)

  function Evaluate(d: Doc, q: string): Hit {
    Hit(d.id, d.title, MatchedContent(d, q), Score(d, q))
  }

  /** The loop body of `search` for one document, against the lower-cased query. */
  method EvaluateDoc(d: Doc, q: string) returns (h: Hit)
    ensures h == Evaluate(d, q)
  {
    var score := 0.0;
    var matched := "";
    if TitleHit(d, q) {
      score := score + 0.8;
      matched := "标题匹配: " + d.title;
    }
    if ContentHit(d, q) {
      score := score + 0.6;
      matched := Excerpt(d.content, q);
    }
    if PersonaQuery(q) && PersonaContent(d.content) {
      if score < 0.9 {
        score := 0.9;
      }
      var relevant := FindStepLines(SplitOn(d.content, {'\n'}), StepLine);
      if relevant != [] {
        matched := Join(relevant, "\n");
      }
    }
    h := Hit(d.id, d.title, matched, score);
  }

  /** The evaluation of documents against one lower-cased query. */
  function Evaluator(q: string): (f: Doc -> Hit)
    ensures forall d :: f(d) == Evaluate(d, q)
  {
    d => Evaluate(d, q)
  }

  /** The hits of the documents, in document order: those scoring above 0.1. */
  function Collected(docs: seq<Doc>, f: Doc -> Hit): (r: seq<Hit>)
    decreases |docs|
    ensures |r| <= |docs|
    ensures forall k :: 0 <= k < |r| ==> r[k].score > 0.1
  {
    if docs == [] then []
    else
      var h := f(docs[|docs| - 1]);
      Collected(docs[..|docs| - 1], f) + (if h.score > 0.1 then [h] else [])
  }

  /** The hits are exactly the evaluations of the documents that score above 0.1. */
  lemma {:induction false} CollectedMembers(docs: seq<Doc>, f: Doc -> Hit)
    decreases |docs|
    ensures forall h :: h in Collected(docs, f) <==>
      (exists k :: 0 <= k < |docs| && h == f(docs[k])) && h.score > 0.1
  {
    if docs != [] {
      var init := docs[..|docs| - 1];
      CollectedMembers(init, f);
      assert forall k :: 0 <= k < |init| ==> init[k] == docs[k];
    }
  }

  function ScoreOf(h: Hit): real { h.score }

  const UploadFirst := "请先上传文档到知识库"
  const NotFound := "在您的文档中没有找到相关信息。请尝试使用不同的关键词搜索。"

  /** The query asks how: it holds 怎么 or 如何. */
  predicate HowQuery(q: string) {
    Contains(q, "怎么") || Contains(q, "如何")
  }

  /** The answer: the best hit's content, introduced by its title for a how-question. */
  function Answer(q: string, ranked: seq<Hit>): (a: string)
    ensures ranked == [] ==> a == NotFound
    ensures ranked != [] && !HowQuery(q) ==> a == ranked[0].content
    ensures ranked != [] && HowQuery(q) ==> a == "根据文档《" + ranked[0].title + "》的内容：\n\n" + ranked[0].content
  {
    if ranked == [] then NotFound
    else if HowQuery(q) then "根据文档《" + ranked[0].title + "》的内容：\n\n" + ranked[0].content
    else ranked[0].content
  }

  /** `totalFound` is absent from the early answer for a user without documents. */
  datatype SearchOutcome = SearchOutcome(results: seq<Hit>, answer: string, confidence: real, totalFound: Option<nat>)

  /** The ranking of the hits: the best five, the answer, the best score and the number of hits. */
  function Outcome(q: string, hits: seq<Hit>): SearchOutcome {
    var ranked := SortDesc(hits, ScoreOf);
    SearchOutcome(Take(ranked, 5), Answer(q, ranked), if ranked != [] then ranked[0].score else 0.0, Some(|ranked|))
  }

  /** The outcome of `search` over the user's documents. */
  function SearchResult(query: string, userDocs: seq<Doc>): SearchOutcome {
    if userDocs == [] then SearchOutcome([], UploadFirst, 0.0, None)
    else Outcome(ToLower(query), Collected(userDocs, Evaluator(ToLower(query))))
  }

  /** What the ranking of a list of hits promises. */
  predicate OutcomeSound(hits: seq<Hit>, r: SearchOutcome) {
    |r.results| <= 5
    && r.totalFound == Some(|hits|)
    && SortedDesc(r.results, ScoreOf)
    && (forall i :: 0 <= i < |r.results| ==> r.results[i] in hits)
    && (r.results == [] <==> hits == [])
    && (r.results == [] ==> r.confidence == 0.0 && r.answer == NotFound)
    && (r.results != [] ==> r.confidence == r.results[0].score)
    && (forall h :: h in hits ==> r.confidence >= h.score)
  }

  /**
   * At most five hits, best first, all drawn from the list; the confidence
   * is the best score of all (0 with no hit) and `totalFound` counts them.
   */
  lemma OutcomeSpec(q: string, hits: seq<Hit>)
    ensures OutcomeSound(hits, Outcome(q, hits))
  {
    var ranked := SortDesc(hits, ScoreOf);
    var r := Outcome(q, hits);
    SortDescMembers(hits, ScoreOf);
    forall h | h in hits
      ensures r.confidence >= h.score
    {
      var j :| 0 <= j < |ranked| && ranked[j] == h;
      assert j == 0 || ScoreOf(ranked[0]) >= ScoreOf(ranked[j]);
    }
    forall i | 0 <= i < |r.results|
      ensures r.results[i] in hits
    {
      assert r.results[i] == ranked[i];
    }
    if ranked != [] {
      assert r.results[0] == ranked[0];
    }
  }

  /**
   * A user without documents gets the upload notice.  Otherwise the ranking
   * of the hits, each the evaluation of one of the user's documents scoring
   * above 0.1; the confidence is at least the score of every such document.
   */
  lemma SearchSpec(query: string, userDocs: seq<Doc>)
    ensures userDocs == [] ==> SearchResult(query, userDocs) == SearchOutcome([], UploadFirst, 0.0, None)
    ensures userDocs != [] ==>
      OutcomeSound(Collected(userDocs, Evaluator(ToLower(query))), SearchResult(query, userDocs))
    ensures userDocs != [] ==> forall k :: 0 <= k < |userDocs| && Score(userDocs[k], ToLower(query)) > 0.1 ==>
      SearchResult(query, userDocs).confidence >= Score(userDocs[k], ToLower(query))
  {
    if userDocs != [] {
      var q := ToLower(query);
      var hits := Collected(userDocs, Evaluator(q));
      OutcomeSpec(q, hits);
      CollectedMembers(userDocs, Evaluator(q));
      forall k | 0 <= k < |userDocs| && Score(userDocs[k], q) > 0.1
        ensures Evaluate(userDocs[k], q) in hits
      {
      }
    }
  }

  /** A persona guide always ranks for a "how to create a persona" query. */
  lemma PersonaGuideFound(query: string, userDocs: seq<Doc>, k: nat)
    requires k < |userDocs| && PersonaQuery(ToLower(query)) && PersonaContent(userDocs[k].content)
    ensures SearchResult(query, userDocs).results != []
    ensures SearchResult(query, userDocs).confidence >= 0.9
  {
    var q := ToLower(query);
    SearchSpec(query, userDocs);
    CollectedMembers(userDocs, Evaluator(q));
    assert Evaluate(userDocs[k], q) in Collected(userDocs, Evaluator(q));
  }

  /** The loop of `search`: each document scored, those above 0.1 kept in order. */
  method CollectHits(userDocs: seq<Doc>, q: string) returns (results: seq<Hit>)
    ensures results == Collected(userDocs, Evaluator(q))
  {
    results := [];
    var i := 0;
    while i < |userDocs|
      invariant 0 <= i <= |userDocs|
      invariant results == Collected(userDocs[..i], Evaluator(q))
    {
      var h := EvaluateDoc(userDocs[i], q);
      assert userDocs[..i + 1][..i] == userDocs[..i];
      if h.score > 0.1 {
        results := results + [h];
      }
      i := i + 1;
    }
    assert userDocs[..i] == userDocs;
  }

  class SimpleDocumentService {
    /** The `knowledge_documents` entry of browser storage. */
    var storage: Slot<Doc>

    constructor(storage: Slot<Doc>)
      ensures this.storage == storage
    {
      this.storage := storage;
    }

    /** `getStoredDocuments`: the stored list, [] when it is missing or unreadable. */
    function GetStoredDocuments(): (r: seq<Doc>)
      reads this
      ensures storage.Parsed? ==> r == storage.items
      ensures !storage.Parsed? ==> r == []
    {
      ItemsOr(storage)
    }

    /** `addDocumentFromData`: the new document is appended to the stored ones, which are all kept. */
    method AddDocumentFromData(data: DocData, now: nat) returns (d: Doc)
      modifies this
      ensures d == FromData(data, now)
      ensures storage == Parsed(old(GetStoredDocuments()) + [d])
    {
      d := FromData(data, now);
      var existing := GetStoredDocuments();
      existing := existing + [d];
      storage := Parsed(existing);
    }

    /** `addDocument`: the same for an uploaded file, whose text is `text`. */
    method AddDocument(name: string, text: string, size: nat, meta: UploadMeta, userId: Option<string>, now: nat)
      returns (d: Doc)
      modifies this
      ensures d == FromFile(name, text, size, meta, userId, now)
      ensures storage == Parsed(old(GetStoredDocuments()) + [d])
    {
      d := FromFile(name, text, size, meta, userId, now);
      var existing := GetStoredDocuments();
      existing := existing + [d];
      storage := Parsed(existing);
    }

    /** `getUserDocuments`: exactly the stored documents of the user, in order. */
    function GetUserDocuments(userId: Option<string>): (r: seq<Doc>)
      reads this
      ensures forall d :: d in r <==> d in GetStoredDocuments() && d.userId == userId
    {
      var all := GetStoredDocuments();
      var r := Filter(all, OwnedBy(userId));
      assert forall i :: 0 <= i < |all| && OwnedBy(userId)(all[i]) ==> all[i] in r;
      r
    }

    /** `deleteDocument`: drops the documents with both the id and the owner, and keeps every other. */
    method DeleteDocument(id: string, userId: Option<string>)
      modifies this
      ensures storage == Parsed(Filter(old(GetStoredDocuments()), Survives(id, userId)))
      ensures forall d :: d in GetStoredDocuments() <==>
        d in old(GetStoredDocuments()) && !(d.id == id && d.userId == userId)
    {
      var all := GetStoredDocuments();
      var kept := Filter(all, Survives(id, userId));
      assert forall i :: 0 <= i < |all| && Survives(id, userId)(all[i]) ==> all[i] in kept;
      storage := Parsed(kept);
    }

    /** `clearAllDocuments`. */
    method ClearAllDocuments()
      modifies this
      ensures storage == Missing && GetStoredDocuments() == []
    {
      storage := Missing;
    }

    /** `search`: the user's documents scored one by one, then ranked. */
    method Search(query: string, userId: Option<string>) returns (r: SearchOutcome)
      ensures r == SearchResult(query, GetUserDocuments(userId))
    {
      var userDocs := GetUserDocuments(userId);
      if |userDocs| == 0 {
        return SearchOutcome([], UploadFirst, 0.0, None);
      }
      var q := ToLower(query);
      var results := CollectHits(userDocs, q);
      results := SortDesc(results, ScoreOf);
      var answer := Answer(q, results);
      r := SearchOutcome(Take(results, 5), answer, if |results| > 0 then results[0].score else 0.0, Some(|results|));
    }
  }
}
