/**
 * The local document service: document records and their searchable text
 * in two browser database stores, a per-user listing newest first, a
 * term search scored by title, content and tag hits, a snippet centred on
 * the window holding the most query terms, search suggestions and
 * per-user statistics.  The database is two lists in store order; the
 * clock, the random id and the uploaded file's text are parameters.
 */
module LocalDocument {
  import opened Common
  import opened Text
  import opened Seqs

  /** A record of the `documents` store. */
  datatype LDoc = LDoc(id: string, userId: string, filename: string, title: string, size: nat,
                       category: string, tags: seq<string>, uploadedAt: int, contentType: string)

  /** A record of the `documentContent` store: the lower-cased text and the original. */
  datatype ContentItem = ContentItem(docId: string, content: string, originalContent: string)

  /** An uploaded file: its name, size and MIME type. */
  datatype UploadedFile = UploadedFile(name: string, size: nat, kind: string)

  /** The record `saveDocument` stores. */
  function NewRecord(file: UploadedFile, meta: UploadMeta, userId: string, id: string, now: int): (d: LDoc)
    ensures d.id == id && d.userId == userId && d.filename == file.name && d.size == file.size
    ensures d.title == OrElse(meta.title, file.name) && d.category == OrElse(meta.category, "general")
    ensures d.tags == TagsOr(meta.tags)
  {
    LDoc(id, userId, file.name, OrElse(meta.title, file.name), file.size,
         OrElse(meta.category, "general"), TagsOr(meta.tags), now, file.kind)
  }

  /** Text files, JSON files and Markdown files are read as text. */
  predicate ReadAsText(file: UploadedFile) {
    StartsWith(file.kind, "text/") || file.kind == "application/json" || EndsWith(file.name, ".md")
  }

  /**
   * The searchable text: the file's text when it is read as text and the
   * read succeeds (`text` is its outcome), else the title, the file name
   * and the tags.
   */
  function SearchableText(file: UploadedFile, d: LDoc, text: Result<string>): (c: string)
    ensures ReadAsText(file) && text.Ok? ==> c == text.value
  {
    if ReadAsText(file) && text.Ok? then text.value
    else d.title + " " + d.filename + " " + Join(d.tags, " ")
  }

  function UploadedKey(d: LDoc): real { d.uploadedAt as real }

  function OwnedBy(userId: string): LDoc -> bool {
    (d: LDoc) => d.userId == userId
  }

  function DocKept(id: string): LDoc -> bool {
    (d: LDoc) => d.id != id
  }

  function ContentKept(id: string): ContentItem -> bool {
    (c: ContentItem) => c.docId != id
  }

  // ---------------------------------------------------------------------
  // Scoring
  // ---------------------------------------------------------------------

  predicate NonEmpty(t: string) { t != "" }

  /** The search terms: the lower-cased query split at spaces, empty pieces dropped. */
  function Terms(query: string): (ts: seq<string>)
    ensures forall k :: 0 <= k < |ts| ==> NonEmpty(ts[k])
  {
    Filter(SplitOn(ToLower(query), {' '}), NonEmpty)
  }

  /** Some tag holds the term once lower-cased. */
  predicate TagHit(tags: seq<string>, t: string) {
    exists k :: 0 <= k < |tags| && Contains(ToLower(tags[k]), t)
  }

  /** One term's points: 0.5 for the title, 0.1 per occurrence in the content, 0.3 for a tag. */
  function TermPoints(d: LDoc, content: string, t: string): (p: real)
    ensures p >= 0.0
    ensures Contains(content, t) ==> p >= 0.1
  {
    MatchCountPositive(content, t);
    (if Contains(ToLower(d.title), t) then 0.5 else 0.0)
    + 0.1 * MatchCount(content, t) as real
    + (if TagHit(d.tags, t) then 0.3 else 0.0)
  }

  /** The points of all terms, summed in term order. */
  function RawScore(d: LDoc, content: string, terms: seq<string>): (s: real)
    ensures s >= 0.0
    decreases |terms|
  {
    if terms == [] then 0.0
    else RawScore(d, content, terms[..|terms| - 1]) + TermPoints(d, content, terms[|terms| - 1])
  }

  /** A content holding some term scores at least 0.1, so every matching document is a result. */
  lemma {:induction false} RawScorePositive(d: LDoc, content: string, terms: seq<string>)
    requires ContainsAny(content, terms)
    ensures RawScore(d, content, terms) >= 0.1
    decreases |terms|
  {
    var last := terms[|terms| - 1];
    var init := terms[..|terms| - 1];
    if !Contains(content, last) {
      var k :| 0 <= k < |terms| && Contains(content, terms[k]);
      assert init[k] == terms[k];
      RawScorePositive(d, content, init);
    }
  }

  /** The `forEach` over the terms that accumulates the score. */
  method ScoreItem(d: LDoc, content: string, terms: seq<string>) returns (score: real)
    ensures score == RawScore(d, content, terms)
  {
    score := 0.0;
    var k := 0;
    while k < |terms|
      invariant 0 <= k <= |terms|
      invariant score == RawScore(d, content, terms[..k])
    {
      assert terms[..k + 1][..k] == terms[..k];
      score := score + TermPoints(d, content, terms[k]);
      k := k + 1;
    }
    assert terms[..k] == terms;
  }

  // ---------------------------------------------------------------------
  // Snippets
  // ---------------------------------------------------------------------

  const NoPreview := "暂无内容预览"

  /** How many of the terms (counted with repetition) the text holds. */
  function CountHeld(s: string, terms: seq<string>): (n: nat)
    ensures n <= |terms|
  {
    if terms == [] then 0 else (if Contains(s, terms[0]) then 1 else 0) + CountHeld(s, terms[1..])
  }

  /** The number of terms held by the window of `maxLength` characters at each start. */
  function WindowScore(lower: string, terms: seq<string>, maxLength: nat): (f: nat -> nat)
    ensures forall i: nat :: f(i) == CountHeld(Substring(lower, i, i + maxLength), terms)
  {
    (i: nat) => CountHeld(Substring(lower, i, i + maxLength), terms)
  }

  /** The candidate window starts: multiples of 50 below `limit`. */
  predicate IsWindow(j: int, limit: int) {
    0 <= j < limit && j % 50 == 0
  }

  /** The window loop from start `i` on, with the best start and its count so far. */
  function BestFrom(limit: int, score: nat -> nat, i: nat, best: nat, most: nat): nat
    decreases if i < limit then limit - i else 0
  {
    if i < limit then
      if score(i) > most then BestFrom(limit, score, i + 50, i, score(i))
      else BestFrom(limit, score, i + 50, best, most)
    else best
  }

  /** What the window loop keeps true, from any point on. */
  lemma {:induction false} BestFromSpec(limit: int, score: nat -> nat, i: nat, best: nat, most: nat)
    requires i % 50 == 0 && best <= i && (best == 0 || IsWindow(best, limit))
    requires forall j :: IsWindow(j, limit) && j < i ==> score(j) <= most
    requires forall j :: IsWindow(j, limit) && j < best ==> score(j) < score(best)
    requires most <= score(best) && (best > 0 ==> most == score(best))
    ensures var b := BestFrom(limit, score, i, best, most);
      (b == 0 || IsWindow(b, limit))
      && (forall j :: IsWindow(j, limit) ==> score(j) <= score(b))
      && (forall j :: IsWindow(j, limit) && j < b ==> score(j) < score(b))
    decreases if i < limit then limit - i else 0
  {
    if i < limit {
      assert forall j :: IsWindow(j, limit) && j < i + 50 ==> j < i || j == i;
      if score(i) > most {
        BestFromSpec(limit, score, i + 50, i, score(i));
      } else {
        BestFromSpec(limit, score, i + 50, best, most);
      }
    }
  }

  /**
   * The start `extractSnippet` picks: 0 or a window start, holding at least
   * as many terms as every window and strictly more than every earlier one.
   */
  lemma BestWindow(limit: int, score: nat -> nat)
    ensures var b := BestFrom(limit, score, 0, 0, 0);
      (b == 0 || IsWindow(b, limit))
      && (forall j :: IsWindow(j, limit) ==> score(j) <= score(b))
      && (forall j :: IsWindow(j, limit) && j < b ==> score(j) < score(b))
  {
    BestFromSpec(limit, score, 0, 0, 0);
  }

  /** The loop of `extractSnippet` that looks for the window holding the most terms. */
  method FindBestPosition(content: string, lower: string, terms: seq<string>, maxLength: nat) returns (best: nat)
    ensures best == BestFrom(|content| - maxLength, WindowScore(lower, terms, maxLength), 0, 0, 0)
  {
    ghost var score := WindowScore(lower, terms, maxLength);
    ghost var limit := |content| - maxLength;
    best := 0;
    var most: nat := 0;
    var i: nat := 0;
    while i < |content| - maxLength
      invariant BestFrom(limit, score, i, best, most) == BestFrom(limit, score, 0, 0, 0)
      decreases |content| - maxLength - i
    {
      var matches := CountHeld(Substring(lower, i, i + maxLength), terms);
      if matches > most {
        most := matches;
        best := i;
      }
      i := i + 50;
    }
  }

  /** `s.lastIndexOf(' ')`. */
  function LastSpace(s: string): (i: int)
    ensures -1 <= i < |s|
    ensures i >= 0 ==> s[i] == ' '
    ensures forall k :: i < k < |s| ==> s[k] != ' '
  {
    if s == [] then -1
    else if s[|s| - 1] == ' ' then |s| - 1
    else LastSpace(s[..|s| - 1])
  }

  /**
   * The window at `best`, without its leading partial word when it does not
   * start the text, and cut at its last space with `...` when it is full
   * and that space lies beyond 80% of `maxLength`.
   */
  function CutWindow(content: string, best: nat, maxLength: nat): (w: string)
    ensures |w| <= maxLength + 3
  {
    var window := Substring(content, best, best + maxLength);
    var space := IndexOf(window, " ");
    var trimmed := if best > 0 && space > 0 then window[space + 1..] else window;
    var last := LastSpace(trimmed);
    if |trimmed| >= maxLength && 5 * last > 4 * maxLength then trimmed[..last] + "..." else trimmed
  }

  /** `extractSnippet`. */
  function Snippet(content: string, terms: seq<string>, maxLength: nat): (r: string)
    ensures content == "" ==> r == NoPreview
    ensures content != "" ==> r != "" && |r| <= maxLength + 3
  {
    if content == "" then NoPreview
    else
      var best := BestFrom(|content| - maxLength, WindowScore(ToLower(content), terms, maxLength), 0, 0, 0);
      var w := CutWindow(content, best, maxLength);
      if w != "" then w else Prefix(content, maxLength) + "..."
  }

  /** The snippet's window start holds the most terms, and is the first that does. */
  lemma SnippetWindow(content: string, terms: seq<string>, maxLength: nat)
    ensures var score := WindowScore(ToLower(content), terms, maxLength);
      var limit := |content| - maxLength;
      var b := BestFrom(limit, score, 0, 0, 0);
      (b == 0 || IsWindow(b, limit))
      && (forall j :: IsWindow(j, limit) ==> score(j) <= score(b))
      && (forall j :: IsWindow(j, limit) && j < b ==> score(j) < score(b))
  {
    BestWindow(|content| - maxLength, WindowScore(ToLower(content), terms, maxLength));
  }

  /** The trimming steps of `extractSnippet` on the chosen window. */
  method CutSnippet(content: string, best: nat, maxLength: nat) returns (snippet: string)
    ensures snippet == CutWindow(content, best, maxLength)
  {
    snippet := Substring(content, best, best + maxLength);
    if best > 0 {
      var space := IndexOf(snippet, " ");
      if space > 0 {
        snippet := snippet[space + 1..];
      }
    }
    if |snippet| >= maxLength {
      var last := LastSpace(snippet);
      if 5 * last > 4 * maxLength {
        snippet := snippet[..last] + "...";
      }
    }
  }

  /** `extractSnippet`, step by step. */
  method ExtractSnippet(content: string, terms: seq<string>, maxLength: nat) returns (r: string)
    ensures r == Snippet(content, terms, maxLength)
  {
    if content == "" {
      return NoPreview;
    }
    var lower := ToLower(content);
    var best := FindBestPosition(content, lower, terms, maxLength);
    var snippet := CutSnippet(content, best, maxLength);
    r := if snippet != "" then snippet else Prefix(content, maxLength) + "...";
  }

  // ---------------------------------------------------------------------
  // Search
  // ---------------------------------------------------------------------

  /** A search result: the document's id, the snippet, the record's metadata and the capped score. */
  datatype LHit = LHit(id: string, content: string, source: string, title: string, category: string,
                       tags: seq<string>, uploadedAt: int, score: real)

  function HitScore(h: LHit): real { h.score }

  function Ids(docs: seq<LDoc>): (ids: seq<string>)
    ensures |ids| == |docs|
    ensures forall k :: 0 <= k < |docs| ==> ids[k] == docs[k].id
  {
    if docs == [] then [] else [docs[0].id] + Ids(docs[1..])
  }

  /** The content records searched: those of the user's documents that hold some term. */
  function Matching(ids: seq<string>, terms: seq<string>): ContentItem -> bool {
    (c: ContentItem) => c.docId in ids && ContainsAny(c.content, terms)
  }

  /** `docs.find(doc => doc.id === id)`. */
  function FindDoc(docs: seq<LDoc>, id: string): (r: Option<LDoc>)
    ensures r.Some? <==> id in Ids(docs)
    ensures r.Some? ==> r.value in docs && r.value.id == id
  {
    if docs == [] then None
    else if docs[0].id == id then Some(docs[0])
    else FindDoc(docs[1..], id)
  }

  /** The hit for a content record and its document when its score is positive, the score capped at 1. */
  function HitIfPositive(item: ContentItem, d: LDoc, terms: seq<string>): Option<LHit> {
    var score := RawScore(d, item.content, terms);
    if score > 0.0 then
      Some(LHit(d.id, Snippet(item.originalContent, terms, 200), d.filename, d.title, d.category, d.tags,
                d.uploadedAt, if score < 1.0 then score else 1.0))
    else None
  }

  /** A hit carries its document's id and a score in (0, 1]; a record holding a term always hits. */
  lemma HitIfPositiveSpec(item: ContentItem, d: LDoc, terms: seq<string>)
    ensures var h := HitIfPositive(item, d, terms);
      (h.Some? ==> h.value.id == d.id && 0.0 < h.value.score <= 1.0)
      && (ContainsAny(item.content, terms) ==> h.Some?)
  {
    if ContainsAny(item.content, terms) {
      RawScorePositive(d, item.content, terms);
    }
  }

  function Hitter(terms: seq<string>): (f: (ContentItem, LDoc) -> Option<LHit>)
    ensures forall c, d :: f(c, d) == HitIfPositive(c, d, terms)
  {
    (c: ContentItem, d: LDoc) => HitIfPositive(c, d, terms)
  }

  /** The hits of the records, in order: each record with a document and a hit. */
  function HitsOf(items: seq<ContentItem>, docs: seq<LDoc>, hit: (ContentItem, LDoc) -> Option<LHit>): (r: seq<LHit>)
    ensures |r| <= |items|
    decreases |items|
  {
    if items == [] then []
    else
      var item := items[|items| - 1];
      var found := FindDoc(docs, item.docId);
      HitsOf(items[..|items| - 1], docs, hit)
        + (if found.Some? && hit(item, found.value).Some? then [hit(item, found.value).value] else [])
  }

  /** Hits keep the scores and ids the scoring gives them. */
  lemma {:induction false} HitsOfSound(items: seq<ContentItem>, docs: seq<LDoc>, hit: (ContentItem, LDoc) -> Option<LHit>)
    requires forall c, d :: hit(c, d).Some? ==> hit(c, d).value.id == d.id && 0.0 < hit(c, d).value.score <= 1.0
    ensures forall h :: h in HitsOf(items, docs, hit) ==>
      0.0 < h.score <= 1.0 && h.id in Ids(docs) && exists k :: 0 <= k < |items| && items[k].docId == h.id
    decreases |items|
  {
    if items != [] {
      var init := items[..|items| - 1];
      HitsOfSound(init, docs, hit);
      assert forall k :: 0 <= k < |init| ==> init[k] == items[k];
    }
  }

  /** A record whose document is found and which hits is never dropped. */
  lemma {:induction false} HitsOfComplete(items: seq<ContentItem>, docs: seq<LDoc>, hit: (ContentItem, LDoc) -> Option<LHit>)
    requires forall k :: 0 <= k < |items| ==>
      FindDoc(docs, items[k].docId).Some? && hit(items[k], FindDoc(docs, items[k].docId).value).Some?
    ensures |HitsOf(items, docs, hit)| == |items|
    decreases |items|
  {
    if items != [] {
      var init := items[..|items| - 1];
      assert forall k :: 0 <= k < |init| ==> init[k] == items[k];
      HitsOfComplete(init, docs, hit);
    }
  }

  /** The ten best hits, best first. */
  function RankHits(items: seq<ContentItem>, docs: seq<LDoc>, hit: (ContentItem, LDoc) -> Option<LHit>): seq<LHit> {
    Take(SortDesc(HitsOf(items, docs, hit), HitScore), 10)
  }

  lemma RankHitsSpec(items: seq<ContentItem>, docs: seq<LDoc>, hit: (ContentItem, LDoc) -> Option<LHit>)
    requires forall c, d :: hit(c, d).Some? ==> hit(c, d).value.id == d.id && 0.0 < hit(c, d).value.score <= 1.0
    requires forall k :: 0 <= k < |items| ==>
      FindDoc(docs, items[k].docId).Some? && hit(items[k], FindDoc(docs, items[k].docId).value).Some?
    ensures var r := RankHits(items, docs, hit);
      |r| == (if |items| < 10 then |items| else 10) && SortedDesc(r, HitScore)
      && forall i :: 0 <= i < |r| ==> 0.0 < r[i].score <= 1.0 && r[i].id in Ids(docs)
  {
    var hits := HitsOf(items, docs, hit);
    var sorted := SortDesc(hits, HitScore);
    var r := Take(sorted, 10);
    HitsOfSound(items, docs, hit);
    HitsOfComplete(items, docs, hit);
    SortDescMembers(hits, HitScore);
    forall i | 0 <= i < |r|
      ensures 0.0 < r[i].score <= 1.0 && r[i].id in Ids(docs)
    {
      assert r[i] == sorted[i] && sorted[i] in hits;
    }
  }

  /** `searchDocuments` over the user's documents and the content store. */
  function SearchResult(query: string, userDocs: seq<LDoc>, contents: seq<ContentItem>): (r: seq<LHit>)
    ensures Trim(query) == "" ==> r == []
  {
    if Trim(query) == "" then []
    else
      var terms := Terms(query);
      RankHits(Filter(contents, Matching(Ids(userDocs), terms)), userDocs, Hitter(terms))
  }

  /**
   * A blank query finds nothing.  Otherwise at most ten hits, best first,
   * each scored in (0, 1] for one of the user's documents; and every stored
   * record of the user's documents holding a term is a hit, so that a
   * search lists them all when there are at most ten.
   */
  lemma SearchSpec(query: string, userDocs: seq<LDoc>, contents: seq<ContentItem>)
    ensures Trim(query) == "" ==> SearchResult(query, userDocs, contents) == []
    ensures Trim(query) != "" ==>
      var r := SearchResult(query, userDocs, contents);
      var matching := Filter(contents, Matching(Ids(userDocs), Terms(query)));
      |r| == (if |matching| < 10 then |matching| else 10) && SortedDesc(r, HitScore)
      && forall i :: 0 <= i < |r| ==> 0.0 < r[i].score <= 1.0 && r[i].id in Ids(userDocs)
  {
    if Trim(query) != "" {
      var terms := Terms(query);
      var hit := Hitter(terms);
      var matching := Filter(contents, Matching(Ids(userDocs), terms));
      forall c, d ensures hit(c, d).Some? ==> hit(c, d).value.id == d.id && 0.0 < hit(c, d).value.score <= 1.0 {
        HitIfPositiveSpec(c, d, terms);
      }
      forall k | 0 <= k < |matching|
        ensures FindDoc(userDocs, matching[k].docId).Some? && hit(matching[k], FindDoc(userDocs, matching[k].docId).value).Some?
      {
        assert Matching(Ids(userDocs), terms)(matching[k]);
        HitIfPositiveSpec(matching[k], FindDoc(userDocs, matching[k].docId).value, terms);
      }
      RankHitsSpec(matching, userDocs, hit);
    }
  }

  // ---------------------------------------------------------------------
  // Suggestions and statistics
  // ---------------------------------------------------------------------

  function TagMatches(q: string): string -> bool {
    (tag: string) => Contains(ToLower(tag), q)
  }

  /** What one document offers: its title when it holds the query, then its tags that do. */
  function Offered(d: LDoc, q: string): seq<string> {
    (if Contains(ToLower(d.title), q) then [d.title] else []) + Filter(d.tags, TagMatches(q))
  }

  function Offerer(q: string): (f: LDoc -> seq<string>)
    ensures forall d :: f(d) == Offered(d, q)
  {
    (d: LDoc) => Offered(d, q)
  }

  /** Everything offered, document by document. */
  function AllOffered(docs: seq<LDoc>, offer: LDoc -> seq<string>): seq<string>
    decreases |docs|
  {
    if docs == [] then [] else AllOffered(docs[..|docs| - 1], offer) + offer(docs[|docs| - 1])
  }

  /** Everything offered comes from one of the documents. */
  lemma {:induction false} AllOfferedFrom(docs: seq<LDoc>, offer: LDoc -> seq<string>)
    ensures forall s :: s in AllOffered(docs, offer) ==> exists k :: 0 <= k < |docs| && s in offer(docs[k])
    decreases |docs|
  {
    if docs != [] {
      var init := docs[..|docs| - 1];
      AllOfferedFrom(init, offer);
      assert forall k :: 0 <= k < |init| ==> init[k] == docs[k];
    }
  }

  /** A document offers only its title and its tags, and only those that hold the query. */
  lemma OfferedSound(d: LDoc, q: string, s: string)
    requires s in Offered(d, q)
    ensures Contains(ToLower(s), q) && (s == d.title || s in d.tags)
  {
    if s !in (if Contains(ToLower(d.title), q) then [d.title] else []) {
      var tags := Filter(d.tags, TagMatches(q));
      var k :| 0 <= k < |tags| && tags[k] == s;
      assert TagMatches(q)(tags[k]);
    }
  }

  /** `getSearchSuggestions`: [] for a blank query; otherwise the distinct offers, first seen first, at most `limit`. */
  function Suggestions(query: string, docs: seq<LDoc>, limit: nat): (r: seq<string>)
    ensures Trim(query) == "" ==> r == []
    ensures |r| <= limit
  {
    if Trim(query) == "" then [] else Take(Dedupe(AllOffered(docs, Offerer(ToLower(query)))), limit)
  }

  /** `s` is a title or a tag of one of the documents and holds `q`. */
  predicate Suggestible(docs: seq<LDoc>, q: string, s: string) {
    Contains(ToLower(s), q) && exists k :: 0 <= k < |docs| && (s == docs[k].title || s in docs[k].tags)
  }

  /** The first `limit` distinct elements are distinct and share what every element has. */
  lemma TakeDedupeKeeps<T>(xs: seq<T>, limit: nat, p: T -> bool)
    requires forall x :: x in xs ==> p(x)
    ensures var r := Take(Dedupe(xs), limit); Distinct(r) && forall i :: 0 <= i < |r| ==> p(r[i])
  {
    var d := Dedupe(xs);
    var r := Take(d, limit);
    forall i | 0 <= i < |r| ensures p(r[i]) {
      assert r[i] == d[i];
    }
    forall i, j | 0 <= i < j < |r| ensures r[i] != r[j] {
      assert r[i] == d[i] && r[j] == d[j];
    }
  }

  /**
   * The suggestions are distinct titles and tags of the user's documents,
   * each holding the query case-insensitively.
   */
  lemma SuggestionsSpec(query: string, docs: seq<LDoc>, limit: nat)
    ensures Distinct(Suggestions(query, docs, limit))
    ensures forall i :: 0 <= i < |Suggestions(query, docs, limit)| ==>
      Suggestible(docs, ToLower(query), Suggestions(query, docs, limit)[i])
  {
    if Trim(query) != "" {
      var q := ToLower(query);
      var all := AllOffered(docs, Offerer(q));
      assert Suggestions(query, docs, limit) == Take(Dedupe(all), limit);
      AllOfferedSuggestible(docs, q);
      TakeDedupeKeeps(all, limit, (s: string) => Suggestible(docs, q, s));
    }
  }

  lemma AllOfferedSuggestible(docs: seq<LDoc>, q: string)
    ensures forall s :: s in AllOffered(docs, Offerer(q)) ==> Suggestible(docs, q, s)
  {
    AllOfferedFrom(docs, Offerer(q));
    forall s | s in AllOffered(docs, Offerer(q)) ensures Suggestible(docs, q, s) {
      var k :| 0 <= k < |docs| && s in Offerer(q)(docs[k]);
      OfferedSound(docs[k], q, s);
    }
  }

  function Categories(docs: seq<LDoc>): (cs: seq<string>)
    ensures |cs| == |docs|
    ensures forall k :: 0 <= k < |docs| ==> cs[k] == docs[k].category
  {
    if docs == [] then [] else [docs[0].category] + Categories(docs[1..])
  }

  function TotalSize(docs: seq<LDoc>): nat {
    if docs == [] then 0 else docs[0].size + TotalSize(docs[1..])
  }

  datatype Stats = Stats(totalDocuments: nat, totalSize: nat, categories: seq<(string, nat)>, recentUploads: seq<LDoc>)

  /** `getStats` over the user's documents, newest first. */
  function StatsOf(docs: seq<LDoc>): (s: Stats)
    ensures s.totalDocuments == |docs| == TallySum(s.categories)
    ensures forall c :: CountOf(s.categories, c) == multiset(Categories(docs))[c]
    ensures s.recentUploads == docs[..if |docs| < 5 then |docs| else 5]
  {
    TallySpec(Categories(docs), "");
    forall c ensures CountOf(Tally(Categories(docs)), c) == multiset(Categories(docs))[c] {
      TallySpec(Categories(docs), c);
    }
    Stats(|docs|, TotalSize(docs), Tally(Categories(docs)), Take(docs, 5))
  }

  /** One pass of the search loop: the score, then the snippet of a record that scores. */
  method ScoreHit(item: ContentItem, d: LDoc, terms: seq<string>) returns (h: Option<LHit>)
    ensures h == HitIfPositive(item, d, terms)
  {
    var score := ScoreItem(d, item.content, terms);
    if score > 0.0 {
      var snippet := ExtractSnippet(item.originalContent, terms, 200);
      h := Some(LHit(d.id, snippet, d.filename, d.title, d.category, d.tags, d.uploadedAt,
                     if score < 1.0 then score else 1.0));
    } else {
      h := None;
    }
  }

  /** The search loop over the matching records. */
  method CollectHits(matching: seq<ContentItem>, userDocs: seq<LDoc>, terms: seq<string>) returns (results: seq<LHit>)
    ensures results == HitsOf(matching, userDocs, Hitter(terms))
  {
    ghost var hit := Hitter(terms);
    results := [];
    var i := 0;
    while i < |matching|
      invariant 0 <= i <= |matching|
      invariant results == HitsOf(matching[..i], userDocs, hit)
    {
      var item := matching[i];
      assert matching[..i + 1][..i] == matching[..i];
      var found := FindDoc(userDocs, item.docId);
      if found.Some? {
        var h := ScoreHit(item, found.value, terms);
        if h.Some? {
          results := results + [h.value];
        }
      }
      i := i + 1;
    }
    assert matching[..i] == matching;
  }

  /** The suggestion loop: each document's offers added to an insertion-ordered set. */
  method CollectOffers(docs: seq<LDoc>, offer: LDoc -> seq<string>) returns (suggestions: seq<string>)
    ensures suggestions == Dedupe(AllOffered(docs, offer))
  {
    suggestions := [];
    var i := 0;
    while i < |docs|
      invariant 0 <= i <= |docs|
      invariant suggestions == AddAll([], AllOffered(docs[..i], offer))
    {
      assert docs[..i + 1][..i] == docs[..i];
      AddAllAppend([], AllOffered(docs[..i], offer), offer(docs[i]));
      suggestions := AddAll(suggestions, offer(docs[i]));
      i := i + 1;
    }
    assert docs[..i] == docs;
  }

  class LocalDocumentService {
    /** The `documents` and `documentContent` stores, in store order. */
    var documents: seq<LDoc>
    var contents: seq<ContentItem>

    constructor(documents: seq<LDoc>, contents: seq<ContentItem>)
      ensures this.documents == documents && this.contents == contents
    {
      this.documents := documents;
      this.contents := contents;
    }

    /**
     * `saveDocument`: stores the record and its searchable text, lower-cased
     * for search and as it was for snippets.  `id` is the random id and
     * `text` the outcome of reading the file.
     */
    method SaveDocument(file: UploadedFile, meta: UploadMeta, userId: string, id: string, now: int, text: Result<string>)
      returns (d: LDoc)
      modifies this
      ensures d == NewRecord(file, meta, userId, id, now)
      ensures documents == old(documents) + [d]
      ensures var c := SearchableText(file, d, text); contents == old(contents) + [ContentItem(id, ToLower(c), c)]
    {
      d := NewRecord(file, meta, userId, id, now);
      var content := "";
      if ReadAsText(file) && text.Ok? {
        content := text.value;
      } else {
        content := d.title + " " + d.filename + " " + Join(d.tags, " ");
      }
      documents := documents + [d];
      contents := contents + [ContentItem(id, ToLower(content), content)];
    }

    /** `getUserDocuments`: exactly the user's records, newest first. */
    function GetUserDocuments(userId: string): (r: seq<LDoc>)
      reads this
      ensures forall d :: d in r <==> d in documents && d.userId == userId
      ensures SortedDesc(r, UploadedKey)
    {
      var mine := Filter(documents, OwnedBy(userId));
      SortDescMembers(mine, UploadedKey);
      assert forall i :: 0 <= i < |documents| && OwnedBy(userId)(documents[i]) ==> documents[i] in mine;
      SortDesc(mine, UploadedKey)
    }

    /** `deleteDocument`: the record and its text are removed from both stores; nothing else changes. */
    method DeleteDocument(id: string)
      modifies this
      ensures documents == Filter(old(documents), DocKept(id))
      ensures contents == Filter(old(contents), ContentKept(id))
      ensures forall d :: d in documents <==> d in old(documents) && d.id != id
    {
      var before := documents;
      documents := Filter(documents, DocKept(id));
      assert forall i :: 0 <= i < |before| && DocKept(id)(before[i]) ==> before[i] in documents;
      contents := Filter(contents, ContentKept(id));
    }

    /** `searchDocuments`: the matching records scored one by one, then ranked. */
    method SearchDocuments(query: string, userId: string) returns (r: seq<LHit>)
      ensures r == SearchResult(query, GetUserDocuments(userId), contents)
    {
      if Trim(query) == "" {
        return [];
      }
      var terms := Terms(query);
      var userDocs := GetUserDocuments(userId);
      var matching := Filter(contents, Matching(Ids(userDocs), terms));
      var results := CollectHits(matching, userDocs, terms);
      r := Take(SortDesc(results, HitScore), 10);
    }

    /** `getSearchSuggestions`: offers collected document by document into an insertion-ordered set. */
    method GetSearchSuggestions(query: string, userId: string, limit: nat) returns (r: seq<string>)
      ensures r == Suggestions(query, GetUserDocuments(userId), limit)
    {
      if Trim(query) == "" {
        return [];
      }
      var docs := GetUserDocuments(userId);
      var suggestions := CollectOffers(docs, Offerer(ToLower(query)));
      r := Take(suggestions, limit);
    }

    /** `getStats`: counts, total size, categories and the five newest uploads of the user. */
    function GetStats(userId: string): (s: Stats)
      reads this
      ensures s.totalDocuments == TallySum(s.categories)
      ensures |s.recentUploads| <= 5
      ensures forall d :: d in s.recentUploads ==> d in documents && d.userId == userId
    {
      var docs := GetUserDocuments(userId);
      var s := StatsOf(docs);
      assert forall d :: d in s.recentUploads ==> d in docs;
      s
    }
  }
}
