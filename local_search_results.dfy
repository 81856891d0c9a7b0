/**
 * The search half of `localIntelligentSearch.js`: question, keyword and
 * content hits over processed documents, their ranking and the answer
 * built from the best one, the browser-storage round trip of documents,
 * and the service object that keeps each user's documents.
 */
module LocalSearchResults {
  import opened Common
  import opened Text
  import opened Seqs
  import opened LocalIntelligentSearch

  /** A stored document: what `addDocument` builds and `saveToLocalStorage` keeps. */
  datatype Doc = Doc(
    id: string,
    filename: string,
    title: string,
    content: string,
    processed: Processed,
    uploadedAt: string)

  /** What a hit found: a question of the map, or a passage of a section. */
  datatype Found =
    | QaFound(question: string, answer: string)
    | KeywordFound(content: string)
    | ContentFound(content: string)

  datatype Hit = Hit(found: Found, score: real, section: string, docId: string, docTitle: string)

  function ScoreOf(h: Hit): real { h.score }

  /** `n / d` for a part `n` of a whole `d`. */
  function Fraction(n: nat, d: nat): (r: real)
    requires 0 < d && n <= d
    ensures 0.0 <= r <= 1.0
    ensures r == 1.0 <==> n == d
    ensures r > 0.0 <==> n > 0
    ensures r * (d as real) == n as real
  {
    FractionBounds(n, d);
    (n as real) / (d as real)
  }

  lemma FractionBounds(n: nat, d: nat)
    requires 0 < d && n <= d
    ensures 0.0 <= (n as real) / (d as real) <= 1.0
    ensures (n as real) / (d as real) == 1.0 <==> n == d
    ensures (n as real) / (d as real) > 0.0 <==> n > 0
    ensures (n as real) / (d as real) * (d as real) == n as real
  {
    assert (n as real) / (d as real) * (d as real) == n as real;
  }

  /** A share times a positive weight exceeds a threshold exactly when the part, so weighted, exceeds the threshold times the whole. */
  lemma FractionAbove(n: nat, d: nat, c: real, t: real)
    requires 0 < d && n <= d && c > 0.0 && t >= 0.0
    ensures Fraction(n, d) * c > t <==> (n as real) * c > t * (d as real)
  {
    var x := Fraction(n, d);
    var dd := d as real;
    if x * c > t {
      assert (x * c - t) * dd > 0.0;
      assert x * c * dd == (n as real) * c;
    }
    if (n as real) * c > t * dd {
      assert x * c * dd == (n as real) * c;
      assert (x * c - t) * dd > 0.0;
    }
  }

  // ---------------------------------------------------------------------
  // Hits gathered item by item
  // ---------------------------------------------------------------------

  /** The hits items give, in item order: at most one per item. */
  function Gather<T, H>(xs: seq<T>, f: T -> Option<H>): (r: seq<H>)
    ensures |r| <= |xs|
  {
    if xs == [] then []
    else
      var o := f(xs[|xs| - 1]);
      Gather(xs[..|xs| - 1], f) + (if o.Some? then [o.value] else [])
  }

  lemma {:induction false} GatherMembers<T, H>(xs: seq<T>, f: T -> Option<H>)
    ensures forall h :: h in Gather(xs, f) <==> exists k :: 0 <= k < |xs| && f(xs[k]) == Some(h)
  {
    if xs != [] {
      var init := xs[..|xs| - 1];
      GatherMembers(init, f);
      assert forall k :: 0 <= k < |init| ==> init[k] == xs[k];
    }
  }

  /** The hits items give, in item order, or the first error an item throws. */
  function Collect<T>(xs: seq<T>, f: T -> Result<seq<Hit>>): (r: Result<seq<Hit>>)
  {
    if xs == [] then Ok([])
    else
      var prev := Collect(xs[..|xs| - 1], f);
      if prev.Err? then prev
      else
        var last := f(xs[|xs| - 1]);
        if last.Err? then Err(last.error) else Ok(prev.value + last.value)
  }

  /** Collecting succeeds exactly when every item does, and then gives all their hits. */
  lemma {:induction false} CollectSpec<T>(xs: seq<T>, f: T -> Result<seq<Hit>>)
    ensures Collect(xs, f).Ok? <==> forall k :: 0 <= k < |xs| ==> f(xs[k]).Ok?
    ensures Collect(xs, f).Ok? ==>
      forall h :: h in Collect(xs, f).value <==> exists k :: 0 <= k < |xs| && h in f(xs[k]).value
  {
    if xs != [] {
      var init := xs[..|xs| - 1];
      CollectSpec(init, f);
      assert forall k :: 0 <= k < |init| ==> init[k] == xs[k];
    }
  }

  /** Items that all give no hit collect to none. */
  lemma {:induction false} CollectNone<T>(xs: seq<T>, f: T -> Result<seq<Hit>>)
    requires forall k :: 0 <= k < |xs| ==> f(xs[k]) == Ok([])
    ensures Collect(xs, f) == Ok([])
  {
    if xs != [] {
      var init := xs[..|xs| - 1];
      assert forall k :: 0 <= k < |init| ==> init[k] == xs[k];
      CollectNone(init, f);
      assert f(xs[|xs| - 1]) == Ok([]);
      assert Collect(init, f).value + f(xs[|xs| - 1]).value == [];
    }
  }

  /** Collecting one more item: its error, or its hits appended. */
  lemma CollectStep<T>(xs: seq<T>, f: T -> Result<seq<Hit>>, i: nat)
    requires i < |xs| && Collect(xs[..i], f).Ok?
    ensures f(xs[i]).Err? ==> Collect(xs[..i + 1], f) == Err(f(xs[i]).error)
    ensures f(xs[i]).Ok? ==> Collect(xs[..i + 1], f) == Ok(Collect(xs[..i], f).value + f(xs[i]).value)
  {
    assert xs[..i + 1][..i] == xs[..i];
  }

  /** Once a prefix throws, so does the whole. */
  lemma {:induction false} CollectErrExtends<T>(xs: seq<T>, f: T -> Result<seq<Hit>>, n: nat)
    requires n <= |xs| && Collect(xs[..n], f).Err?
    ensures Collect(xs, f) == Collect(xs[..n], f)
    decreases |xs| - n
  {
    if n < |xs| {
      assert xs[..n + 1][..n] == xs[..n];
      CollectErrExtends(xs, f, n + 1);
    } else {
      assert xs[..n] == xs;
    }
  }

  // ---------------------------------------------------------------------
  // searchQA
  // ---------------------------------------------------------------------

  /** Some word of `ws` contains `w` or is contained in it. */
  predicate MatchesSome(w: string, ws: seq<string>) {
    exists i :: 0 <= i < |ws| && (Contains(ws[i], w) || Contains(w, ws[i]))
  }

  function Matcher(ws: seq<string>): (p: string -> bool)
    ensures forall w :: p(w) == MatchesSome(w, ws)
  {
    w => MatchesSome(w, ws)
  }

  /** The query's words that match some word of the question. */
  function MatchedWords(question: string, q: string): (r: seq<string>)
    ensures |r| <= |Words(q)|
  {
    Filter(Words(q), Matcher(Words(question)))
  }

  /**
   * `searchQA`'s score of a map question for the lower-cased query:
   * 1 for the same text, 0.9 when one holds the other, and otherwise 0.8
   * times the share of query words matching a question word.
   */
  function QAScore(question: string, q: string): (r: real)
    ensures 0.0 <= r <= 1.0
    ensures r == 1.0 <==> question == q
    ensures r >= 0.9 <==> Contains(question, q) || Contains(q, question)
  {
    if question == q then
      assert OccursAt(question, q, 0);
      1.0
    else if Contains(question, q) || Contains(q, question) then 0.9
    else WordScore(question, q)
  }

  /** 0.8 times the share of the query's words that match a word of the question. */
  function WordScore(question: string, q: string): (r: real)
    ensures 0.0 <= r <= 0.8
  {
    Fraction(|MatchedWords(question, q)|, |Words(q)|) * 0.8
  }

  /** Without containment, a question is kept when more than three eighths of the query's words match. */
  lemma QAWordThreshold(question: string, q: string)
    requires !Contains(question, q) && !Contains(q, question)
    ensures QAScore(question, q) == WordScore(question, q)
    ensures QAScore(question, q) > 0.3 <==> 8 * |MatchedWords(question, q)| > 3 * |Words(q)|
  {
    assert question != q by {
      if question == q {
        assert OccursAt(question, q, 0);
      }
    }
    FractionAbove(|MatchedWords(question, q)|, |Words(q)|, 0.8, 0.3);
  }

  /** The hit a map entry gives. */
  function QAHit(e: (string, QA), q: string, d: Doc): Hit {
    Hit(QaFound(e.0, e.1.answer), QAScore(e.0, q), e.1.section, d.id, d.title)
  }

  /** A map entry gives a hit when its score is above 0.3. */
  function QAOf(q: string, d: Doc): (f: ((string, QA)) -> Option<Hit>)
    ensures forall e :: f(e) == if QAScore(e.0, q) > 0.3 then Some(QAHit(e, q, d)) else None
  {
    (e: (string, QA)) => if QAScore(e.0, q) > 0.3 then Some(QAHit(e, q, d)) else None
  }

  /** `searchQA` over a document's question map, with the document's id and title. */
  function QAHits(q: string, m: seq<(string, QA)>, d: Doc): seq<Hit> {
    Gather(m, QAOf(q, d))
  }

  /**
   * The question hits are exactly the map entries scoring above 0.3, each
   * with its question, answer and section; none scores more than 1.
   */
  lemma QAHitsSpec(q: string, m: seq<(string, QA)>, d: Doc)
    ensures forall h :: h in QAHits(q, m, d) <==>
      exists k :: 0 <= k < |m| && QAScore(m[k].0, q) > 0.3 && h == QAHit(m[k], q, d)
    ensures forall h :: h in QAHits(q, m, d) ==> h.found.QaFound? && 0.3 < h.score <= 1.0
  {
    GatherMembers(m, QAOf(q, d));
  }

  /** `searchQA`: one pass over the map's entries. */
  method SearchQA(query: string, m: seq<(string, QA)>, d: Doc) returns (results: seq<Hit>)
    ensures results == QAHits(ToLower(query), m, d)
  {
    results := [];
    var queryLower := ToLower(query);
    ghost var f := QAOf(queryLower, d);
    for i := 0 to |m|
      invariant results == Gather(m[..i], f)
    {
      var (question, qa) := m[i];
      var score := QAScore(question, queryLower);
      assert m[..i + 1][..i] == m[..i];
      if score > 0.3 {
        results := results + [Hit(QaFound(question, qa.answer), score, qa.section, d.id, d.title)];
      }
    }
    assert m[..|m|] == m;
  }

  // ---------------------------------------------------------------------
  // searchByKeywords
  // ---------------------------------------------------------------------

  const NoHas := "section.keywords.has is not a function"

  /** `section.keywords.has(w)`: a keyword set read back from storage is a plain object without `has`. */
  function Has(k: KeywordSet, w: string): (r: Result<bool>)
    ensures r.Ok? <==> k.Keys?
    ensures k.Keys? ==> r == Ok(w in k.items)
  {
    if k.Keys? then Ok(w in k.items) else Err(NoHas)
  }

  /** How many of the query keywords the set holds. */
  function Matched(qk: seq<string>, items: seq<string>): nat {
    if qk == [] then 0
    else Matched(qk[..|qk| - 1], items) + (if qk[|qk| - 1] in items then 1 else 0)
  }

  /** The count is at most the number of query keywords: all of them exactly when the set holds each, none exactly when it holds none. */
  lemma {:induction false} MatchedSpec(qk: seq<string>, items: seq<string>)
    ensures Matched(qk, items) <= |qk|
    ensures Matched(qk, items) == |qk| <==> forall i :: 0 <= i < |qk| ==> qk[i] in items
    ensures Matched(qk, items) > 0 <==> exists i :: 0 <= i < |qk| && qk[i] in items
  {
    if qk != [] {
      var init := qk[..|qk| - 1];
      MatchedSpec(init, items);
      assert forall i :: 0 <= i < |init| ==> init[i] == qk[i];
    }
  }

  /** The matching loop of `searchByKeywords` for one section: a count, or the error of the first `has`. */
  function KeywordCount(qk: seq<string>, k: KeywordSet): Result<nat> {
    if qk == [] then Ok(0)
    else if k.Plain? then Err(NoHas)
    else Ok(Matched(qk, k.items))
  }

  /** The counting loop: `has` for each query keyword in turn. */
  method CountMatches(qk: seq<string>, k: KeywordSet) returns (r: Result<nat>)
    ensures r == KeywordCount(qk, k)
  {
    var matchCount := 0;
    for i := 0 to |qk|
      invariant k.Keys? ==> matchCount == Matched(qk[..i], k.items)
      invariant i > 0 ==> k.Keys?
      invariant k.Plain? ==> matchCount == 0
    {
      var has := Has(k, qk[i]);
      if has.Err? {
        return Err(has.error);
      }
      assert qk[..i + 1][..i] == qk[..i];
      if has.value {
        matchCount := matchCount + 1;
      }
    }
    assert qk[..|qk|] == qk;
    return Ok(matchCount);
  }

  /** A section's first three lines, joined and closed by 。. */
  function Excerpt(s: Section): string {
    Join(Take(s.content, 3), "。") + "。"
  }

  /** The keyword hit of one section: none without a shared keyword. */
  function KeywordHit(qk: seq<string>, s: Section, d: Doc): Result<seq<Hit>> {
    var count := KeywordCount(qk, s.keywords);
    if count.Err? then Err(count.error)
    else if count.value == 0 then Ok([])
    else
      MatchedSpec(qk, s.keywords.items);
      Ok([Hit(KeywordFound(Excerpt(s)), Fraction(count.value, |qk|) * 0.7, s.title, d.id, d.title)])
  }

  /**
   * One section's keyword hit: an error exactly when there are query
   * keywords and the section's set was read back from storage; otherwise a
   * hit exactly when the set shares a query keyword, scoring in (0, 0.7]
   * and 0.7 exactly when it holds them all.
   */
  lemma KeywordHitSpec(qk: seq<string>, s: Section, d: Doc)
    ensures KeywordHit(qk, s, d).Err? <==> qk != [] && s.keywords.Plain?
    ensures KeywordHit(qk, s, d).Ok? ==>
      (KeywordHit(qk, s, d).value != [] <==> exists i :: 0 <= i < |qk| && qk[i] in Items(s.keywords))
    ensures KeywordHit(qk, s, d).Ok? ==> forall h :: h in KeywordHit(qk, s, d).value ==>
      && h == Hit(KeywordFound(Excerpt(s)), h.score, s.title, d.id, d.title)
      && 0.0 < h.score <= 0.7
      && (h.score == 0.7 <==> forall i :: 0 <= i < |qk| ==> qk[i] in Items(s.keywords))
  {
    MatchedSpec(qk, Items(s.keywords));
  }

  function KeywordOf(qk: seq<string>, d: Doc): (f: Section -> Result<seq<Hit>>)
    ensures forall s :: f(s) == KeywordHit(qk, s, d)
  {
    s => KeywordHit(qk, s, d)
  }

  /** `searchByKeywords` with the query's keywords `qk`. */
  function KeywordHits(qk: seq<string>, secs: seq<Section>, d: Doc): Result<seq<Hit>> {
    Collect(secs, KeywordOf(qk, d))
  }

  /**
   * `searchByKeywords` throws exactly when the query has keywords and some
   * section's set was read back from storage; without query keywords it
   * finds nothing.
   */
  lemma KeywordHitsSpec(qk: seq<string>, secs: seq<Section>, d: Doc)
    ensures KeywordHits(qk, secs, d).Ok? <==> qk == [] || forall k :: 0 <= k < |secs| ==> secs[k].keywords.Keys?
    ensures qk == [] ==> KeywordHits(qk, secs, d) == Ok([])
    ensures KeywordHits(qk, secs, d).Ok? ==> forall h :: h in KeywordHits(qk, secs, d).value ==>
      exists k :: 0 <= k < |secs| && h in KeywordHit(qk, secs[k], d).value
  {
    var f := KeywordOf(qk, d);
    CollectSpec(secs, f);
    forall k | 0 <= k < |secs| ensures f(secs[k]).Err? <==> qk != [] && secs[k].keywords.Plain? {
      KeywordHitSpec(qk, secs[k], d);
    }
    if qk == [] {
      CollectNone(secs, f);
    }
  }

  /** `searchByKeywords`: the query's keywords, then the sections one by one. */
  method SearchByKeywords(query: string, d: Doc) returns (r: Result<seq<Hit>>)
    ensures r == KeywordHits(ExtractKeywords(query), d.processed.sections, d)
  {
    var queryKeywords := ExtractKeywords(query);
    r := MatchSections(queryKeywords, d);
  }

  /** The loop of `searchByKeywords` over the sections, counting matches in each. */
  method MatchSections(queryKeywords: seq<string>, d: Doc) returns (r: Result<seq<Hit>>)
    ensures r == KeywordHits(queryKeywords, d.processed.sections, d)
  {
    var results: seq<Hit> := [];
    var secs := d.processed.sections;
    ghost var f := KeywordOf(queryKeywords, d);
    for i := 0 to |secs|
      invariant Collect(secs[..i], f) == Ok(results)
    {
      var section := secs[i];
      assert secs[..i + 1][..i] == secs[..i];
      var matchCount := CountMatches(queryKeywords, section.keywords);
      if matchCount.Err? {
        CollectErrExtends(secs, f, i + 1);
        return Err(matchCount.error);
      }
      if matchCount.value > 0 {
        MatchedSpec(queryKeywords, section.keywords.items);
        var score := Fraction(matchCount.value, |queryKeywords|) * 0.7;
        assert f(section) == Ok([Hit(KeywordFound(Excerpt(section)), score, section.title, d.id, d.title)]);
        results := results + [Hit(KeywordFound(Excerpt(section)), score, section.title, d.id, d.title)];
      } else {
        assert f(section) == Ok([]);
        assert results + [] == results;
      }
    }
    assert secs[..|secs|] == secs;
    return Ok(results);
  }

  // ---------------------------------------------------------------------
  // searchContent
  // ---------------------------------------------------------------------

  /** The sentence mentions the lower-cased query. */
  function Mentions(q: string): (p: string -> bool)
    ensures forall s :: p(s) == Contains(ToLower(s), q)
  {
    s => Contains(ToLower(s), q)
  }

  /** The hit from a section's substantial sentences: those `mentions` accepts, if any. */
  function SentenceHit(mentions: string -> bool, sentences: seq<string>, s: Section, d: Doc): Option<Hit> {
    var relevant := Filter(sentences, mentions);
    if relevant == [] then None
    else Some(Hit(ContentFound(Join(Take(relevant, 2), "。") + "。"),
      Fraction(|relevant|, |sentences|) * 0.6, s.title, d.id, d.title))
  }

  /**
   * Sentences give a hit exactly when one of them mentions the query; its
   * score, the share of such sentences times 0.6, is in (0, 0.6] and 0.6
   * exactly when every sentence mentions the query.
   */
  lemma SentenceHitSpec(mentions: string -> bool, sentences: seq<string>, s: Section, d: Doc)
    ensures SentenceHit(mentions, sentences, s, d).Some? <==> exists i :: 0 <= i < |sentences| && mentions(sentences[i])
    ensures SentenceHit(mentions, sentences, s, d).Some? ==>
      var h := SentenceHit(mentions, sentences, s, d).value;
      && h.found.ContentFound? && h.section == s.title && h.docId == d.id && h.docTitle == d.title
      && 0.0 < h.score <= 0.6
      && (h.score == 0.6 <==> forall i :: 0 <= i < |sentences| ==> mentions(sentences[i]))
  {
    var relevant := Filter(sentences, mentions);
    FilterAll(sentences, mentions);
    if exists i :: 0 <= i < |sentences| && mentions(sentences[i]) {
      var i :| 0 <= i < |sentences| && mentions(sentences[i]);
      assert sentences[i] in relevant;
    }
  }

  /** The content hit of one section: none unless its lower-cased text holds the query. */
  function ContentHit(q: string, s: Section, d: Doc): Option<Hit> {
    var text := SectionText(s);
    if Contains(ToLower(text), q) then SentenceHit(Mentions(q), LongSentences(text), s, d) else None
  }

  /**
   * A section gives a content hit exactly when its lower-cased text holds
   * the query and one of its substantial sentences mentions it; the hit
   * scores in (0, 0.6].
   */
  lemma ContentHitSpec(q: string, s: Section, d: Doc)
    ensures ContentHit(q, s, d).Some? <==> (Contains(ToLower(SectionText(s)), q) &&
      exists i :: 0 <= i < |LongSentences(SectionText(s))| && Contains(ToLower(LongSentences(SectionText(s))[i]), q))
    ensures ContentHit(q, s, d).Some? ==>
      ContentHit(q, s, d).value.found.ContentFound? && 0.0 < ContentHit(q, s, d).value.score <= 0.6
  {
    SentenceHitSpec(Mentions(q), LongSentences(SectionText(s)), s, d);
  }

  /** The body of `searchContent`'s loop for one section. */
  method SearchSection(queryLower: string, section: Section, d: Doc) returns (hit: Option<Hit>)
    ensures hit == ContentHit(queryLower, section, d)
  {
    var sectionContent := SectionText(section);
    if !Contains(ToLower(sectionContent), queryLower) {
      return None;
    }
    var sentences := LongSentences(sectionContent);
    hit := ScoreSentences(Mentions(queryLower), sentences, section, d);
  }

  /** The relevant sentences of a section and the hit they make. */
  method ScoreSentences(mentions: string -> bool, sentences: seq<string>, section: Section, d: Doc) returns (hit: Option<Hit>)
    ensures hit == SentenceHit(mentions, sentences, section, d)
  {
    var relevantSentences := Filter(sentences, mentions);
    if |relevantSentences| == 0 {
      return None;
    }
    var score := Fraction(|relevantSentences|, |sentences|) * 0.6;
    return Some(Hit(ContentFound(Join(Take(relevantSentences, 2), "。") + "。"), score, section.title, d.id, d.title));
  }

  function ContentOf(q: string, d: Doc): (f: Section -> Option<Hit>)
    ensures forall s :: f(s) == ContentHit(q, s, d)
  {
    s => ContentHit(q, s, d)
  }

  /** `searchContent` over a document's sections. */
  function ContentHits(q: string, secs: seq<Section>, d: Doc): seq<Hit> {
    Gather(secs, ContentOf(q, d))
  }

  /** `searchContent`: the sections one by one. */
  method SearchContent(query: string, d: Doc) returns (results: seq<Hit>)
    ensures results == ContentHits(ToLower(query), d.processed.sections, d)
  {
    results := [];
    var queryLower := ToLower(query);
    var secs := d.processed.sections;
    ghost var f := ContentOf(queryLower, d);
    for i := 0 to |secs|
      invariant results == Gather(secs[..i], f)
    {
      var section := secs[i];
      assert secs[..i + 1][..i] == secs[..i];
      var hit := SearchSection(queryLower, section, d);
      if hit.Some? {
        results := results + [hit.value];
      } else {
        assert results + [] == results;
      }
    }
    assert secs[..|secs|] == secs;
  }

  // ---------------------------------------------------------------------
  // search, rankResults, generateIntelligentAnswer
  // ---------------------------------------------------------------------

  /** One document's hits: its questions, then its keyword hits, then its content hits. */
  function DocHits(query: string, d: Doc): Result<seq<Hit>> {
    var q := ToLower(query);
    var keyed := KeywordHits(ExtractKeywords(query), d.processed.sections, d);
    if keyed.Err? then Err(keyed.error)
    else Ok(QAHits(q, d.processed.qaMap, d) + keyed.value + ContentHits(q, d.processed.sections, d))
  }

  function DocHitsOf(query: string): (f: Doc -> Result<seq<Hit>>)
    ensures forall d :: f(d) == DocHits(query, d)
  {
    d => DocHits(query, d)
  }

  /** All documents' hits, document after document. */
  function AllHits(query: string, docs: seq<Doc>): Result<seq<Hit>> {
    Collect(docs, DocHitsOf(query))
  }

  /** Every hit of a document scores in (0, 1]. */
  lemma DocHitScores(query: string, d: Doc)
    ensures DocHits(query, d).Ok? ==> forall h :: h in DocHits(query, d).value ==> 0.0 < h.score <= 1.0
  {
    var q := ToLower(query);
    var qk := ExtractKeywords(query);
    var secs := d.processed.sections;
    QAHitsSpec(q, d.processed.qaMap, d);
    KeywordHitsSpec(qk, secs, d);
    forall k | 0 <= k < |secs| ensures KeywordHit(qk, secs[k], d).Ok? ==>
      forall h :: h in KeywordHit(qk, secs[k], d).value ==> 0.0 < h.score <= 1.0 {
      KeywordHitSpec(qk, secs[k], d);
    }
    GatherMembers(secs, ContentOf(q, d));
    forall k | 0 <= k < |secs| ensures ContentHit(q, secs[k], d).Some? ==> 0.0 < ContentHit(q, secs[k], d).value.score <= 1.0 {
      ContentHitSpec(q, secs[k], d);
    }
  }

  /** `rankResults`' duplicate key: `${type}_${section}_${content?.substring(0, 50)}`. */
  function HitKey(h: Hit): string {
    match h.found
    case QaFound(_, _) => "qa_" + h.section + "_undefined"
    case KeywordFound(c) => "keyword_" + h.section + "_" + Prefix(c, 50)
    case ContentFound(c) => "content_" + h.section + "_" + Prefix(c, 50)
  }

  /** `rankResults`: sorted by decreasing score, the first hit of each key kept. */
  function Ranked(results: seq<Hit>): seq<Hit> {
    DedupeBy(SortDesc(results, ScoreOf), HitKey)
  }

  /**
   * The ranking keeps hits of the input, sorted by decreasing score, no two
   * with one key; every hit of the input has a kept one with its key and
   * at least its score.
   */
  lemma RankedSpec(results: seq<Hit>)
    ensures forall i :: 0 <= i < |Ranked(results)| ==> Ranked(results)[i] in results
    ensures SortedDesc(Ranked(results), ScoreOf)
    ensures forall i, j :: 0 <= i < j < |Ranked(results)| ==> HitKey(Ranked(results)[i]) != HitKey(Ranked(results)[j])
    ensures forall h :: h in results ==> Covered(Ranked(results), h, HitKey, ScoreOf)
  {
    var sorted := SortDesc(results, ScoreOf);
    SortDescMembers(results, ScoreOf);
    DedupeByKeys(sorted, HitKey);
    DedupeBySortedDesc(sorted, HitKey, ScoreOf);
    DedupeByDistinct(sorted, HitKey);
    DedupeByCovers(sorted, HitKey, ScoreOf);
    forall h | h in results ensures Covered(Ranked(results), h, HitKey, ScoreOf) {
      var i :| 0 <= i < |sorted| && sorted[i] == h;
    }
  }

  /** Question hits carry no content, so those of one section share a key. */
  lemma QaKeyBySection(a: Hit, b: Hit)
    requires a.found.QaFound? && b.found.QaFound?
    ensures HitKey(a) == HitKey(b) <==> a.section == b.section
  {
    if HitKey(a) == HitKey(b) {
      assert |a.section| == |b.section|;
      assert HitKey(a)[3..3 + |a.section|] == a.section;
      assert HitKey(b)[3..3 + |b.section|] == b.section;
    }
  }

  /** After ranking, a section has at most one question hit. */
  lemma RankedOneQuestionPerSection(results: seq<Hit>)
    ensures forall i, j :: (0 <= i < j < |Ranked(results)| && Ranked(results)[i].found.QaFound? &&
      Ranked(results)[j].found.QaFound?) ==> Ranked(results)[i].section != Ranked(results)[j].section
  {
    RankedSpec(results);
    forall i, j | 0 <= i < j < |Ranked(results)| && Ranked(results)[i].found.QaFound? && Ranked(results)[j].found.QaFound?
      ensures Ranked(results)[i].section != Ranked(results)[j].section
    {
      QaKeyBySection(Ranked(results)[i], Ranked(results)[j]);
    }
  }

  /** `rankResults`: sort, then one pass with a `seen` set of keys. */
  method RankResults(results: seq<Hit>) returns (uniqueResults: seq<Hit>)
    ensures uniqueResults == Ranked(results)
  {
    var sorted := SortDesc(results, ScoreOf);
    var seen: set<string> := {};
    uniqueResults := [];
    for i := 0 to |sorted|
      invariant seen == KeySet(sorted[..i], HitKey)
      invariant uniqueResults == DedupeBy(sorted[..i], HitKey)
    {
      var result := sorted[i];
      var key := HitKey(result);
      assert sorted[..i + 1][..i] == sorted[..i];
      if key !in seen {
        seen := seen + {key};
        uniqueResults := uniqueResults + [result];
      }
    }
    assert sorted[..|sorted|] == sorted;
  }

  const NoInfo := "在您的文档中没有找到相关信息。"

  /**
   * `generateIntelligentAnswer`: the best question hit's answer, or the
   * best passage introduced by its document and section.
   */
  function IntelligentAnswer(ranked: seq<Hit>): (a: string)
    ensures ranked == [] ==> a == NoInfo
    ensures ranked != [] && ranked[0].found.QaFound? ==> a == ranked[0].found.answer
    ensures ranked != [] && !ranked[0].found.QaFound? ==>
      StartsWith(a, "根据文档《" + ranked[0].docTitle + "》中的" + ranked[0].section) &&
      EndsWith(a, ranked[0].found.content)
  {
    if ranked == [] then NoInfo
    else
      var best := ranked[0];
      if best.found.QaFound? then best.found.answer
      else
        var head := "根据文档《" + best.docTitle + "》中的" + best.section;
        var a := head + "部分：\n\n" + best.found.content;
        assert a[..|head|] == head;
        assert a[|a| - |best.found.content|..] == best.found.content;
        a
  }

  const UploadFirst := "请先上传文档到知识库"

  datatype Outcome = Outcome(results: seq<Hit>, answer: string, confidence: real, totalFound: Option<nat>)

  /** What `search` returns once the hits are ranked. */
  function OutcomeOf(ranked: seq<Hit>): Outcome {
    Outcome(Take(ranked, 5), IntelligentAnswer(ranked),
      if |ranked| > 0 then ranked[0].score else 0.0, Some(|ranked|))
  }

  /** `search` over a user's documents. */
  function SearchDocs(query: string, docs: seq<Doc>): Result<Outcome> {
    if docs == [] then Ok(Outcome([], UploadFirst, 0.0, None))
    else
      var all := AllHits(query, docs);
      if all.Err? then Err(all.error) else Ok(OutcomeOf(Ranked(all.value)))
  }

  /**
   * `search` throws exactly when the query has keywords and a section of
   * some document has its keyword set read back from storage.
   */
  lemma SearchFailsExactly(query: string, docs: seq<Doc>)
    ensures SearchDocs(query, docs).Err? <==> (ExtractKeywords(query) != [] &&
      exists k, j :: 0 <= k < |docs| && 0 <= j < |docs[k].processed.sections| && docs[k].processed.sections[j].keywords.Plain?)
  {
    var f := DocHitsOf(query);
    CollectSpec(docs, f);
    forall k | 0 <= k < |docs| ensures f(docs[k]).Ok? <==> (ExtractKeywords(query) == [] ||
      forall j :: 0 <= j < |docs[k].processed.sections| ==> docs[k].processed.sections[j].keywords.Keys?)
    {
      KeywordHitsSpec(ExtractKeywords(query), docs[k].processed.sections, docs[k]);
    }
  }

  /**
   * From ranked hits scored in (0, 1], `search` returns at most five by
   * decreasing score, no two with one key, with the best score as
   * confidence and the number of ranked hits.
   */
  lemma OutcomeSpec(ranked: seq<Hit>)
    requires SortedDesc(ranked, ScoreOf)
    requires forall i, j :: 0 <= i < j < |ranked| ==> HitKey(ranked[i]) != HitKey(ranked[j])
    requires forall i :: 0 <= i < |ranked| ==> 0.0 < ranked[i].score <= 1.0
    ensures var o := OutcomeOf(ranked);
      && o.results == Take(ranked, 5)
      && |o.results| <= 5
      && SortedDesc(o.results, ScoreOf)
      && (forall i, j :: 0 <= i < j < |o.results| ==> HitKey(o.results[i]) != HitKey(o.results[j]))
      && o.totalFound == Some(|ranked|)
      && 0.0 <= o.confidence <= 1.0
      && (forall i :: 0 <= i < |o.results| ==> o.results[i].score <= o.confidence)
  {
    var top := Take(ranked, 5);
    assert forall i :: 0 <= i < |top| ==> top[i] == ranked[i];
  }

  /** Ranking hits scored in (0, 1] meets what `OutcomeSpec` asks of ranked hits. */
  lemma RankedOutcomeSpec(all: seq<Hit>)
    requires forall i :: 0 <= i < |all| ==> 0.0 < all[i].score <= 1.0
    ensures var ranked := Ranked(all);
      && SortedDesc(ranked, ScoreOf)
      && (forall i, j :: 0 <= i < j < |ranked| ==> HitKey(ranked[i]) != HitKey(ranked[j]))
      && (forall i :: 0 <= i < |ranked| ==> 0.0 < ranked[i].score <= 1.0)
  {
    RankedSpec(all);
  }

  /** Every hit gathered from the documents scores in (0, 1]. */
  lemma AllHitScores(query: string, docs: seq<Doc>)
    requires AllHits(query, docs).Ok?
    ensures forall i :: 0 <= i < |AllHits(query, docs).value| ==> 0.0 < AllHits(query, docs).value[i].score <= 1.0
  {
    var all := AllHits(query, docs).value;
    var f := DocHitsOf(query);
    CollectSpec(docs, f);
    forall i | 0 <= i < |all| ensures 0.0 < all[i].score <= 1.0 {
      assert all[i] in all;
      var k :| 0 <= k < |docs| && all[i] in f(docs[k]).value;
      DocHitScores(query, docs[k]);
    }
  }

  /**
   * Without documents, `search` asks for an upload; otherwise, when it
   * does not throw, it ranks the hits of every document as
   * `OutcomeOf(Ranked(...))` does, all of them scored in (0, 1].
   */
  lemma SearchSpec(query: string, docs: seq<Doc>)
    ensures docs == [] ==> SearchDocs(query, docs) == Ok(Outcome([], UploadFirst, 0.0, None))
    ensures docs != [] && SearchDocs(query, docs).Ok? ==>
      && AllHits(query, docs).Ok?
      && SearchDocs(query, docs).value == OutcomeOf(Ranked(AllHits(query, docs).value))
      && (forall i :: 0 <= i < |AllHits(query, docs).value| ==> 0.0 < AllHits(query, docs).value[i].score <= 1.0)
  {
    if docs != [] && SearchDocs(query, docs).Ok? {
      AllHitScores(query, docs);
    }
  }

  // ---------------------------------------------------------------------
  // Browser storage
  // ---------------------------------------------------------------------

  /** A section as `JSON.stringify` writes it: its keyword set becomes some JSON value. */
  datatype SavedSection = SavedSection(level: nat, title: string, content: seq<string>, lineStart: nat, keywords: Json)

  /** A document as `saveToLocalStorage` writes it, its map as its entries and its set as an array. */
  datatype SavedDoc = SavedDoc(
    id: string,
    filename: string,
    title: string,
    content: string,
    sections: seq<SavedSection>,
    qaMap: seq<(string, QA)>,
    keywords: seq<string>,
    uploadedAt: string)

  function StorageKey(userId: string): string { "intelligent_docs_" + userId }

  /** The section's fields with its keyword set written as `json`. */
  function Saved(s: Section, json: Json): SavedSection {
    SavedSection(s.level, s.title, s.content, s.lineStart, json)
  }

  /** The saved section's fields with the keyword set `k`. */
  function Restored(ss: SavedSection, k: KeywordSet): Section {
    Section(ss.level, ss.title, ss.content, ss.lineStart, k)
  }

  /** A `Set` has no enumerable properties: `JSON.stringify` writes it as `{}`. */
  function SetJson(k: KeywordSet): Json {
    if k.Keys? then JObj(map[]) else k.json
  }

  /** `saveToLocalStorage` keeps the sections as they are, so their keyword sets are written by `SetJson`. */
  function SaveDoc(d: Doc): SavedDoc {
    var secs := d.processed.sections;
    SavedDoc(d.id, d.filename, d.title, d.content,
      seq(|secs|, i requires 0 <= i < |secs| => Saved(secs[i], SetJson(secs[i].keywords))),
      d.processed.qaMap, d.processed.keywords, d.uploadedAt)
  }

  /** `loadUserDocuments` rebuilds the map and the document's set, but takes the sections as they were read. */
  function LoadDoc(sd: SavedDoc): Doc {
    var secs := sd.sections;
    Doc(sd.id, sd.filename, sd.title, sd.content,
      Processed(seq(|secs|, i requires 0 <= i < |secs| => Restored(secs[i], Plain(secs[i].keywords))),
        sd.qaMap, Dedupe(sd.keywords)),
      sd.uploadedAt)
  }

  /** Every section of a reloaded document has a plain object for a keyword set. */
  lemma LoadDocLosesKeywords(d: Doc)
    ensures |LoadDoc(SaveDoc(d)).processed.sections| == |d.processed.sections|
    ensures forall j :: 0 <= j < |d.processed.sections| && d.processed.sections[j].keywords.Keys? ==>
      LoadDoc(SaveDoc(d)).processed.sections[j].keywords == Plain(JObj(map[]))
  {
    var secs := d.processed.sections;
    var saved := SaveDoc(d).sections;
    assert |saved| == |secs|;
    forall j | 0 <= j < |secs| && secs[j].keywords.Keys?
      ensures LoadDoc(SaveDoc(d)).processed.sections[j].keywords == Plain(JObj(map[]))
    {
      assert saved[j] == Saved(secs[j], SetJson(secs[j].keywords));
      assert LoadDoc(SaveDoc(d)).processed.sections[j] == Restored(saved[j], Plain(saved[j].keywords));
    }
  }

  /**
   * As written, once documents are saved and read back, a search whose
   * query has a keyword throws as soon as one document has a section.
   */
  lemma ReloadedSearchFails(query: string, docs: seq<Doc>, k: nat)
    requires k < |docs| && docs[k].processed.sections != [] && ExtractKeywords(query) != []
    requires forall i, j :: 0 <= i < |docs| && 0 <= j < |docs[i].processed.sections| ==>
      docs[i].processed.sections[j].keywords.Keys?
    ensures SearchDocs(query, docs).Ok?
    ensures SearchDocs(query, seq(|docs|, i requires 0 <= i < |docs| => LoadDoc(SaveDoc(docs[i])))).Err?
  {
    var reloaded := seq(|docs|, i requires 0 <= i < |docs| => LoadDoc(SaveDoc(docs[i])));
    SearchFailsExactly(query, docs);
    SearchFailsExactly(query, reloaded);
    assert reloaded[k].processed.sections[0].keywords.Plain?;
  }

  /** The keyword set written as the array `Array.from(set)`. */
  function SetJsonFixed(k: KeywordSet): Json {
    if k.Keys? then JArr(seq(|k.items|, i requires 0 <= i < |k.items| => JStr(k.items[i]))) else k.json
  }

  /** The strings of a parsed array; nothing for any other value. */
  function JsonStrings(j: Json): seq<string> {
    if j.JArr? then Strings(j.items) else []
  }

  function Strings(items: seq<Json>): seq<string> {
    if items == [] then []
    else Strings(items[..|items| - 1]) + (if items[|items| - 1].JStr? then [items[|items| - 1].s] else [])
  }

  lemma {:induction false} StringsOfStrs(ws: seq<string>)
    ensures Strings(seq(|ws|, i requires 0 <= i < |ws| => JStr(ws[i]))) == ws
  {
    if ws != [] {
      var init := ws[..|ws| - 1];
      StringsOfStrs(init);
      var js := seq(|ws|, i requires 0 <= i < |ws| => JStr(ws[i]));
      assert js[..|js| - 1] == seq(|init|, i requires 0 <= i < |init| => JStr(init[i]));
    }
  }

  /** Corrected saving: each section's keyword set written as an array. */
  function SaveDocFixed(d: Doc): SavedDoc {
    var secs := d.processed.sections;
    SavedDoc(d.id, d.filename, d.title, d.content,
      seq(|secs|, i requires 0 <= i < |secs| => Saved(secs[i], SetJsonFixed(secs[i].keywords))),
      d.processed.qaMap, d.processed.keywords, d.uploadedAt)
  }

  /** Corrected loading: each section's set rebuilt with `new Set(array)`. */
  function LoadDocFixed(sd: SavedDoc): Doc {
    var secs := sd.sections;
    Doc(sd.id, sd.filename, sd.title, sd.content,
      Processed(seq(|secs|, i requires 0 <= i < |secs| => Restored(secs[i], Keys(Dedupe(JsonStrings(secs[i].keywords))))),
        sd.qaMap, Dedupe(sd.keywords)),
      sd.uploadedAt)
  }

  /** A document whose keyword sets are all live sets without repeats. */
  predicate Intact(d: Doc) {
    && (forall j :: 0 <= j < |d.processed.sections| ==>
          d.processed.sections[j].keywords.Keys? && Distinct(d.processed.sections[j].keywords.items))
    && Distinct(d.processed.keywords)
  }

  /** Whatever was stored, a document loaded by the corrected code is intact. */
  lemma LoadedIntact(sd: SavedDoc)
    ensures Intact(LoadDocFixed(sd))
  {
  }

  /** Corrected saving and loading give back an intact document unchanged. */
  lemma RoundTripFixed(d: Doc)
    requires Intact(d)
    ensures LoadDocFixed(SaveDocFixed(d)) == d
  {
    var secs := d.processed.sections;
    var back := LoadDocFixed(SaveDocFixed(d)).processed.sections;
    forall j | 0 <= j < |secs| ensures back[j] == secs[j] {
      StringsOfStrs(secs[j].keywords.items);
      DedupeDistinct(secs[j].keywords.items);
    }
    assert back == secs;
    DedupeDistinct(d.processed.keywords);
  }

  /** A search over intact documents never throws. */
  lemma IntactSearchOk(query: string, docs: seq<Doc>)
    requires forall i :: 0 <= i < |docs| ==> Intact(docs[i])
    ensures SearchDocs(query, docs).Ok?
  {
    SearchFailsExactly(query, docs);
  }

  // ---------------------------------------------------------------------
  // The service
  // ---------------------------------------------------------------------

  /** An uploaded file: its name, its MIME type and its text. */
  datatype File = File(name: string, mime: string, text: string)

  const Unsupported := "不支持的文件类型"

  /** `extractContent`: text files and Markdown or text file names are read, any other file is refused. */
  function ExtractContent(file: File): (r: Result<string>)
    ensures r.Ok? <==> StartsWith(file.mime, "text/") || EndsWith(file.name, ".md") || EndsWith(file.name, ".txt")
    ensures r.Ok? ==> r.value == file.text
    ensures r.Err? ==> r.error == Unsupported
  {
    if StartsWith(file.mime, "text/") || EndsWith(file.name, ".md") || EndsWith(file.name, ".txt") then Ok(file.text)
    else Err(Unsupported)
  }

  /** The document `addDocument` builds from a readable file. */
  function NewDoc(file: File, meta: UploadMeta, id: string, now: string, processed: Processed): Doc {
    Doc(id, file.name, OrElse(meta.title, file.name), file.text, processed, now)
  }

  /** A processed document is intact: each section's set and the document's set hold no repeats. */
  lemma ProcessedIntact(content: string, file: File, meta: UploadMeta, id: string, now: string)
    ensures Intact(NewDoc(file, meta, id, now, ProcessDocument(content)))
  {
    ProcessedKeywords(content);
  }

  class SearchService {
    /** Each user's documents, once added or loaded. */
    var documents: map<string, seq<Doc>>
    /** Browser storage: the saved documents under `StorageKey(userId)`. */
    var storage: map<string, seq<SavedDoc>>

    /** Every document held is intact. */
    ghost predicate Valid()
      reads this
    {
      AllIntact(documents)
    }

    constructor(storage: map<string, seq<SavedDoc>>)
      ensures documents == map[] && this.storage == storage
      ensures Valid()
    {
      documents := map[];
      this.storage := storage;
    }

    /** `JSON.parse(localStorage.getItem(key) || '[]')`. */
    function Stored(userId: string): seq<SavedDoc>
      reads this
    {
      if StorageKey(userId) in storage then storage[StorageKey(userId)] else []
    }

    /** `this.documents.get(userId) || []`. */
    function UserDocs(userId: string): seq<Doc>
      reads this
    {
      if userId in documents then documents[userId] else []
    }

    /** The saved forms of the documents, in order. */
    static function SaveAll(docs: seq<Doc>): seq<SavedDoc> {
      seq(|docs|, i requires 0 <= i < |docs| => SaveDocFixed(docs[i]))
    }

    /** The loaded forms of the saved documents, in order. */
    static function LoadAll(saved: seq<SavedDoc>): (r: seq<Doc>)
      ensures forall i :: 0 <= i < |r| ==> Intact(r[i])
    {
      var r := seq(|saved|, i requires 0 <= i < |saved| => LoadDocFixed(saved[i]));
      assert forall i :: 0 <= i < |r| ==> r[i] == LoadDocFixed(saved[i]);
      forall i | 0 <= i < |r| ensures Intact(r[i]) {
        LoadedIntact(saved[i]);
      }
      r
    }

    /** `saveToLocalStorage`: the document is appended to the user's stored list. */
    method SaveToLocalStorage(userId: string, d: Doc)
      modifies this
      ensures storage == old(storage)[StorageKey(userId) := old(Stored(userId)) + [SaveDocFixed(d)]]
      ensures documents == old(documents)
    {
      var key := StorageKey(userId);
      var existing := Stored(userId);
      existing := existing + [SaveDocFixed(d)];
      storage := storage[key := existing];
    }

    /**
     * `addDocument`: a readable file is processed, appended to the user's
     * documents (a user not seen yet starts from none) and saved; any other
     * file is refused and nothing changes.
     */
    method AddDocument(file: File, meta: UploadMeta, userId: string, id: string, now: string) returns (r: Result<Doc>)
      requires Valid()
      modifies this
      ensures Valid()
      ensures ExtractContent(file).Err? ==>
        r == Err(Unsupported) && documents == old(documents) && storage == old(storage)
      ensures ExtractContent(file).Ok? ==>
        && r == Ok(NewDoc(file, meta, id, now, ProcessDocument(file.text)))
        && documents == old(documents)[userId := old(UserDocs(userId)) + [r.value]]
        && storage == old(storage)[StorageKey(userId) := old(Stored(userId)) + [SaveDocFixed(r.value)]]
    {
      var content := ExtractContent(file);
      if content.Err? {
        return Err(content.error);
      }
      var processed := ProcessLines(content.value);
      var d := NewDoc(file, meta, id, now, processed);
      ProcessedIntact(content.value, file, meta, id, now);
      AppendIntact(documents, userId, d);
      documents := documents[userId := UserDocs(userId) + [d]];
      SaveToLocalStorage(userId, d);
      return Ok(d);
    }

    /** `loadUserDocuments`: a user seen already is left alone; otherwise the stored list is read. */
    method LoadUserDocuments(userId: string)
      requires Valid()
      modifies this
      ensures Valid()
      ensures userId in documents
      ensures old(userId in documents) ==> documents == old(documents)
      ensures old(userId !in documents) ==> documents == old(documents)[userId := LoadAll(old(Stored(userId)))]
      ensures storage == old(storage)
    {
      if userId in documents {
        return;
      }
      var stored := Stored(userId);
      documents := documents[userId := LoadAll(stored)];
    }

    /** `getUserDocuments`: the user's documents once loaded. */
    method GetUserDocuments(userId: string) returns (docs: seq<Doc>)
      requires Valid()
      modifies this
      ensures Valid()
      ensures old(userId in documents) ==> documents == old(documents)
      ensures old(userId !in documents) ==> documents == old(documents)[userId := LoadAll(old(Stored(userId)))]
      ensures storage == old(storage)
      ensures docs == documents[userId]
    {
      LoadUserDocuments(userId);
      docs := UserDocs(userId);
    }

    /**
     * `deleteDocument`: the user's documents with that id are dropped, every
     * other is kept in order, and the rest replaces the stored list; a user
     * not loaded yet holds none, so the stored list is emptied.
     */
    method DeleteDocument(docId: string, userId: string)
      requires Valid()
      modifies this
      ensures Valid()
      ensures documents == old(documents)[userId := Filter(old(UserDocs(userId)), NotId(docId))]
      ensures storage == old(storage)[StorageKey(userId) := SaveAll(documents[userId])]
      ensures forall d :: d in documents[userId] <==> d in old(UserDocs(userId)) && d.id != docId
      ensures old(userId !in documents) ==> storage[StorageKey(userId)] == []
    {
      var userDocs := UserDocs(userId);
      var filteredDocs := Filter(userDocs, NotId(docId));
      assert forall i :: 0 <= i < |userDocs| && NotId(docId)(userDocs[i]) ==> userDocs[i] in filteredDocs;
      documents := documents[userId := filteredDocs];
      storage := storage[StorageKey(userId) := SaveAll(filteredDocs)];
    }

    /**
     * `search`: the user's documents are loaded, every document's hits
     * gathered, ranked, and the best five returned with an answer; over
     * intact documents it never throws.
     */
    method Search(query: string, userId: string) returns (r: Result<Outcome>)
      requires Valid()
      modifies this
      ensures Valid()
      ensures old(userId in documents) ==> documents == old(documents)
      ensures old(userId !in documents) ==> documents == old(documents)[userId := LoadAll(old(Stored(userId)))]
      ensures storage == old(storage)
      ensures r == SearchDocs(query, documents[userId])
      ensures r.Ok?
    {
      LoadUserDocuments(userId);
      var userDocs := documents[userId];
      if |userDocs| == 0 {
        return Ok(Outcome([], UploadFirst, 0.0, None));
      }
      IntactSearchOk(query, userDocs);
      var allResults := SearchDocuments(query, userDocs);
      var sortedResults := RankResults(allResults.value);
      var answer := IntelligentAnswer(sortedResults);
      r := Ok(Outcome(Take(sortedResults, 5), answer,
        if |sortedResults| > 0 then sortedResults[0].score else 0.0, Some(|sortedResults|)));
    }
  }

  /** Every document held by every user is intact. */
  ghost predicate AllIntact(documents: map<string, seq<Doc>>) {
    forall u :: u in documents ==> forall i :: 0 <= i < |documents[u]| ==> Intact(documents[u][i])
  }

  /** Appending an intact document to a user's list keeps every document intact. */
  lemma AppendIntact(documents: map<string, seq<Doc>>, userId: string, d: Doc)
    requires AllIntact(documents) && Intact(d)
    ensures AllIntact(documents[userId := (if userId in documents then documents[userId] else []) + [d]])
  {
  }

  /** One turn of the loop of `search`: a document's question, keyword and passage hits. */
  method SearchDocument(query: string, doc: Doc) returns (r: Result<seq<Hit>>)
    ensures r == DocHits(query, doc)
  {
    var qaResults := SearchQA(query, doc.processed.qaMap, doc);
    var keywordResults := SearchByKeywords(query, doc);
    if keywordResults.Err? {
      return Err(keywordResults.error);
    }
    var contentResults := SearchContent(query, doc);
    return Ok(qaResults + keywordResults.value + contentResults);
  }

  /** The loop of `search` over the user's documents; a document that throws ends it. */
  method SearchDocuments(query: string, userDocs: seq<Doc>) returns (r: Result<seq<Hit>>)
    ensures r == AllHits(query, userDocs)
  {
    var allResults: seq<Hit> := [];
    ghost var f := DocHitsOf(query);
    for i := 0 to |userDocs|
      invariant Collect(userDocs[..i], f) == Ok(allResults)
    {
      var docResults := SearchDocument(query, userDocs[i]);
      CollectStep(userDocs, f, i);
      if docResults.Err? {
        CollectErrExtends(userDocs, f, i + 1);
        return Err(docResults.error);
      }
      allResults := allResults + docResults.value;
    }
    assert userDocs[..|userDocs|] == userDocs;
    return Ok(allResults);
  }

  function NotId(docId: string): (p: Doc -> bool)
    ensures forall d :: p(d) == (d.id != docId)
  {
    (d: Doc) => d.id != docId
  }
}
