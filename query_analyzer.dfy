/**
 * Query understanding: a rule-based analysis of a search query (intent,
 * entities, search type, filters, complexity, suggested queries), the
 * allow-list validation of the analysis a language model returns as JSON,
 * the merge of the two analyses, and the analysis cache.
 */
module QueryAnalyzer {
  import opened Common
  import opened Text
  import opened Seqs

  datatype Intent = InformationSeeking | ProblemSolving | HowTo | ConceptExplanation

  function IntentName(i: Intent): string {
    match i
    case InformationSeeking => "information_seeking"
    case ProblemSolving => "problem_solving"
    case HowTo => "how_to"
    case ConceptExplanation => "concept_explanation"
  }

  const ValidIntents: seq<string> := ["information_seeking", "problem_solving", "how_to", "concept_explanation"]

  datatype SearchType = Semantic | Keyword | Hybrid

  function SearchTypeName(t: SearchType): string {
    match t
    case Semantic => "semantic"
    case Keyword => "keyword"
    case Hybrid => "hybrid"
  }

  const ValidSearchTypes: seq<string> := ["semantic", "keyword", "hybrid"]

  datatype Complexity = Simple | Medium | Complex

  function ComplexityName(c: Complexity): string {
    match c
    case Simple => "simple"
    case Medium => "medium"
    case Complex => "complex"
  }

  // ---------------------------------------------------------------------
  // Entities found by rules
  // ---------------------------------------------------------------------

  datatype Entity = Entity(text: string, category: string, confidence: real)

  function ConfidenceOf(e: Entity): real {
    e.confidence
  }

  /** The key of the de-duplicating Map: the lower-cased text. */
  function Key(e: Entity): string {
    ToLower(e.text)
  }

  function Tagged(texts: seq<string>, category: string, confidence: real): (r: seq<Entity>)
    ensures |r| == |texts|
    ensures forall k :: 0 <= k < |r| ==> r[k] == Entity(texts[k], category, confidence)
  {
    seq(|texts|, k requires 0 <= k < |texts| => Entity(texts[k], category, confidence))
  }

  /** The category patterns, in declaration order, all matched with the `gi` flags. */
  const EntityPatterns: seq<(string, seq<Alt>)> := [
    ("product", Lits(["产品", "功能", "特性", "模块", "组件", "系统"])),
    ("docType", Lits(["文档", "手册", "指南", "教程", "说明", "规范", "标准"])),
    ("time", Lits(["今天", "昨天", "本周", "上周", "本月", "上月", "最近"]) + [DigitsThen("天前"), DigitsThen("月前")]),
    ("action", Lits(["如何", "怎么", "怎样", "方法", "步骤", "流程", "操作"])),
    ("problem", Lits(["问题", "错误", "异常", "故障", "bug", "失败", "不能", "无法"]))]

  /** The matches of every category pattern in the lower-cased query, category by category. */
  function CategoryEntities(clean: string, pats: seq<(string, seq<Alt>)>): (r: seq<Entity>)
    ensures forall k :: 0 <= k < |r| ==> Contains(clean, r[k].text) && r[k].confidence == 0.8
    decreases |pats|
  {
    if pats == [] then []
    else
      var last := pats[|pats| - 1];
      CategoryEntities(clean, pats[..|pats| - 1]) + Tagged(MatchAll(clean, last.1), last.0, 0.8)
  }

  /** End of the run of ASCII letters that starts at `i`. */
  function LetterEnd(s: string, i: nat): (j: nat)
    requires i <= |s|
    ensures i <= j <= |s|
    decreases |s| - i
  {
    if i < |s| && IsAsciiLetter(s[i]) then LetterEnd(s, i + 1) else i
  }

  /** Length of `[A-Z][a-zA-Z]+` at `i`, or 0. */
  function CapWordAt(s: string, i: nat): (n: nat)
    requires i <= |s|
    ensures i + n <= |s|
  {
    if i + 1 < |s| && IsAsciiUpper(s[i]) && IsAsciiLetter(s[i + 1]) then LetterEnd(s, i + 1) - i else 0
  }

  /** Length matched by the greedy `(?:\s+[A-Z][a-zA-Z]+)*` from `j`. */
  function MoreCapWords(s: string, j: nat): (n: nat)
    requires j <= |s|
    ensures j + n <= |s|
    decreases |s| - j
  {
    var k := RunEnd(s, j, Whitespace);
    var w := CapWordAt(s, k);
    if k > j && w > 0 then (k - j) + w + MoreCapWords(s, k + w) else 0
  }

  /** `s.match(/[A-Z][a-zA-Z]+(?:\s+[A-Z][a-zA-Z]+)*\/g)` from `i` on. */
  function ProperNounsFrom(s: string, i: nat): (r: seq<string>)
    requires i <= |s|
    ensures forall k :: 0 <= k < |r| ==> Contains(s, r[k])
    decreases |s| - i
  {
    if i == |s| then []
    else
      var w := CapWordAt(s, i);
      if w > 0 then
        var n := w + MoreCapWords(s, i + w);
        assert OccursAt(s, s[i..i + n], i);
        [s[i..i + n]] + ProperNounsFrom(s, i + n)
      else ProperNounsFrom(s, i + 1)
  }

  /** End of the run of CJK ideographs that starts at `i`. */
  function CjkEnd(s: string, i: nat): (j: nat)
    requires i <= |s|
    ensures i <= j <= |s|
    decreases |s| - i
  {
    if i < |s| && IsCjk(s[i]) then CjkEnd(s, i + 1) else i
  }

  /** `s.match(/[一-龥]{2,4}/g)` from `i` on: runs cut into pieces of four, a last piece of one dropped. */
  function CjkKeywordsFrom(s: string, i: nat): (r: seq<string>)
    requires i <= |s|
    ensures forall k :: 0 <= k < |r| ==> Contains(s, r[k]) && 2 <= |r[k]| <= 4
    decreases |s| - i
  {
    if i == |s| then []
    else
      var run := CjkEnd(s, i) - i;
      var n := if run < 4 then run else 4;
      if n >= 2 then
        assert OccursAt(s, s[i..i + n], i);
        [s[i..i + n]] + CjkKeywordsFrom(s, i + n)
      else CjkKeywordsFrom(s, i + 1)
  }

  /** Every entity the rules find, before de-duplication. */
  function RawEntities(query: string): seq<Entity> {
    CategoryEntities(ToLower(query), EntityPatterns)
      + Tagged(ProperNounsFrom(query, 0), "proper_noun", 0.9)
      + Tagged(CjkKeywordsFrom(query, 0), "keyword", 0.6)
  }

  /** The loop over the category patterns, then the proper nouns and the Chinese keywords. */
  method CollectEntities(query: string) returns (entities: seq<Entity>)
    ensures entities == RawEntities(query)
  {
    var clean := ToLower(query);
    entities := [];
    for k := 0 to |EntityPatterns|
      invariant entities == CategoryEntities(clean, EntityPatterns[..k])
    {
      var (category, pattern) := EntityPatterns[k];
      var matches := MatchAll(clean, pattern);
      assert EntityPatterns[..k + 1][..k] == EntityPatterns[..k];
      entities := entities + Tagged(matches, category, 0.8);
    }
    assert EntityPatterns[..|EntityPatterns|] == EntityPatterns;
    entities := entities + Tagged(ProperNounsFrom(query, 0), "proper_noun", 0.9);
    entities := entities + Tagged(CjkKeywordsFrom(query, 0), "keyword", 0.6);
  }

  /** Index of the first entity of `acc` with key `key`, or `|acc|`. */
  function KeyIndex(acc: seq<Entity>, key: string): (k: nat)
    ensures k <= |acc|
    ensures k < |acc| ==> Key(acc[k]) == key
    ensures forall j :: 0 <= j < k ==> Key(acc[j]) != key
  {
    if acc == [] then 0
    else if Key(acc[0]) == key then 0
    else 1 + KeyIndex(acc[1..], key)
  }

  function Keys(es: seq<Entity>): set<string> {
    set e | e in es :: Key(e)
  }

  predicate DistinctKeys(es: seq<Entity>) {
    forall i, j :: 0 <= i < j < |es| ==> Key(es[i]) != Key(es[j])
  }

  /** `map.set(key(e), e)`: a known key keeps its place and takes the new entity. */
  function Upsert(acc: seq<Entity>, e: Entity): (r: seq<Entity>)
    requires DistinctKeys(acc)
    ensures DistinctKeys(r)
    ensures e in r && |acc| <= |r| <= |acc| + 1
    ensures forall i :: 0 <= i < |r| ==> r[i] in acc || r[i] == e
    ensures Keys(r) == Keys(acc) + {Key(e)}
  {
    var k := KeyIndex(acc, Key(e));
    if k < |acc| then
      var r := acc[k := e];
      assert forall i :: 0 <= i < |acc| ==> Key(r[i]) == Key(acc[i]);
      r
    else
      var r := acc + [e];
      assert forall i :: 0 <= i < |acc| ==> r[i] == acc[i];
      r
  }

  /**
   * `Array.from(new Map(es.map(e => [key(e), e])).values())`: one entity
   * per key, at the place where the key first occurred.
   */
  function ByKey(es: seq<Entity>): (r: seq<Entity>)
    ensures DistinctKeys(r)
    ensures |r| <= |es|
    decreases |es|
  {
    if es == [] then [] else Upsert(ByKey(es[..|es| - 1]), es[|es| - 1])
  }

  /** Every entity kept is one of the input. */
  lemma {:induction false} ByKeyMembers(es: seq<Entity>)
    ensures forall i :: 0 <= i < |ByKey(es)| ==> ByKey(es)[i] in es
    decreases |es|
  {
    if es != [] {
      var init := es[..|es| - 1];
      var acc := ByKey(init);
      var r := ByKey(es);
      ByKeyMembers(init);
      assert r == Upsert(acc, es[|es| - 1]);
      forall i | 0 <= i < |r| ensures r[i] in es {
        if r[i] in acc {
          assert r[i] in init;
        }
      }
    }
  }

  lemma KeysAppend(es: seq<Entity>, e: Entity)
    ensures Keys(es + [e]) == Keys(es) + {Key(e)}
  {
    assert forall x :: x in es + [e] <==> x in es || x == e;
  }

  /** Every key of the input is kept. */
  lemma {:induction false} ByKeyKeys(es: seq<Entity>)
    ensures Keys(ByKey(es)) == Keys(es)
    decreases |es|
  {
    if es != [] {
      var init := es[..|es| - 1];
      ByKeyKeys(init);
      assert es == init + [es[|es| - 1]];
      KeysAppend(init, es[|es| - 1]);
    }
  }

  /** The de-duplicated entities by decreasing confidence, at most eight. */
  function RankedEntities(query: string): seq<Entity> {
    Take(SortDesc(ByKey(RawEntities(query)), ConfidenceOf), 8)
  }

  function Texts(es: seq<Entity>): (r: seq<string>)
    ensures |r| == |es|
    ensures forall k :: 0 <= k < |es| ==> r[k] == es[k].text
  {
    seq(|es|, k requires 0 <= k < |es| => es[k].text)
  }

  /** What `extractEntitiesWithRules` returns. */
  function RuleEntities(query: string): seq<string> {
    Texts(RankedEntities(query))
  }

  method ExtractEntitiesWithRules(query: string) returns (texts: seq<string>)
    ensures texts == RuleEntities(query)
  {
    var entities := CollectEntities(query);
    var unique := ByKey(entities);
    var sorted := SortDesc(unique, ConfidenceOf);
    texts := Texts(Take(sorted, 8));
  }

  /** Every rule entity occurs in the query, ignoring case. */
  lemma RawEntitiesOccur(query: string)
    ensures forall e | e in RawEntities(query) :: Contains(ToLower(query), Key(e))
  {
    var clean := ToLower(query);
    var cat := CategoryEntities(clean, EntityPatterns);
    var nouns := Tagged(ProperNounsFrom(query, 0), "proper_noun", 0.9);
    var cjk := Tagged(CjkKeywordsFrom(query, 0), "keyword", 0.6);
    forall e | e in RawEntities(query) ensures Contains(clean, Key(e)) {
      if e in cat {
        var i :| 0 <= i <= |clean| - |e.text| && OccursAt(clean, e.text, i);
        SliceOfLower(query, i, i + |e.text|);
      } else if e in nouns {
        ContainsToLower(query, e.text);
      } else {
        assert e in cjk;
        ContainsToLower(query, e.text);
      }
    }
  }

  /** The top eight of entities with distinct keys found in `clean`. */
  lemma RankedOf(unique: seq<Entity>, clean: string)
    requires DistinctKeys(unique)
    requires forall e | e in unique :: Contains(clean, Key(e))
    ensures var ranked := Take(SortDesc(unique, ConfidenceOf), 8);
      && |ranked| <= 8
      && SortedDesc(ranked, ConfidenceOf)
      && DistinctKeys(ranked)
      && (forall i :: 0 <= i < |ranked| ==> Contains(clean, Key(ranked[i])))
      && (forall x | x in unique && x !in ranked ::
            |ranked| == 8 && forall i :: 0 <= i < |ranked| ==> ranked[i].confidence >= x.confidence)
  {
    RankedNames(unique, ConfidenceOf, Key, 8);
  }

  /**
   * At most eight entities, by decreasing confidence, no two equal ignoring
   * case, each found in the query; a de-duplicated entity left out is
   * outranked by all eight kept.
   */
  lemma RuleEntitiesSpec(query: string)
    ensures var ranked := RankedEntities(query);
      && |ranked| <= 8
      && RuleEntities(query) == Texts(ranked)
      && SortedDesc(ranked, ConfidenceOf)
      && DistinctKeys(ranked)
      && (forall i :: 0 <= i < |ranked| ==> Contains(ToLower(query), Key(ranked[i])))
      && (forall x | x in ByKey(RawEntities(query)) && x !in ranked ::
            |ranked| == 8 && forall i :: 0 <= i < |ranked| ==> ranked[i].confidence >= x.confidence)
  {
    var raw := RawEntities(query);
    var unique := ByKey(raw);
    RawEntitiesOccur(query);
    ByKeyMembers(raw);
    assert forall e | e in unique :: Contains(ToLower(query), Key(e));
    RankedOf(unique, ToLower(query));
  }

  // ---------------------------------------------------------------------
  // Intent, search type, filters, complexity, suggestions
  // ---------------------------------------------------------------------

  const ProblemWords: seq<string> := ["问题", "错误", "异常", "故障", "不能", "无法", "失败", "报错"]
  const HowToWords: seq<string> := ["如何", "怎么", "怎样", "方法", "步骤", "流程", "操作指南"]
  const ConceptWords: seq<string> := ["什么是", "定义", "概念", "原理", "介绍", "说明"]
  const SeekingWords: seq<string> := ["查找", "搜索", "找到", "获取", "了解", "知道"]

  /** The intent patterns in the order they are tried. */
  const IntentTable: seq<(Intent, seq<string>)> := [
    (ProblemSolving, ProblemWords), (HowTo, HowToWords),
    (ConceptExplanation, ConceptWords), (InformationSeeking, SeekingWords)]

  /** The first intent of the table whose pattern matches. */
  function FirstIntent(query: string, table: seq<(Intent, seq<string>)>): Intent
    decreases |table|
  {
    if table == [] then InformationSeeking
    else if ContainsAny(query, table[0].1) then table[0].0
    else FirstIntent(query, table[1..])
  }

  function DetectIntent(query: string): Intent {
    FirstIntent(query, IntentTable)
  }

  /** First match wins, in table order; information seeking when nothing matches. */
  lemma DetectIntentOrder(query: string)
    ensures DetectIntent(query) == ProblemSolving <==> ContainsAny(query, ProblemWords)
    ensures DetectIntent(query) == HowTo <==> !ContainsAny(query, ProblemWords) && ContainsAny(query, HowToWords)
    ensures DetectIntent(query) == ConceptExplanation <==>
      !ContainsAny(query, ProblemWords) && !ContainsAny(query, HowToWords) && ContainsAny(query, ConceptWords)
    ensures DetectIntent(query) == InformationSeeking <==>
      !ContainsAny(query, ProblemWords) && !ContainsAny(query, HowToWords) && !ContainsAny(query, ConceptWords)
  {
    var t0 := IntentTable;
    var t1, t2, t3 := t0[1..], t0[2..], t0[3..];
    assert t0[1..] == t1 && t1[1..] == t2 && t2[1..] == t3 && t3[1..] == [];
    assert t0[0] == (ProblemSolving, ProblemWords) && t1[0] == (HowTo, HowToWords);
    assert t2[0] == (ConceptExplanation, ConceptWords) && t3[0] == (InformationSeeking, SeekingWords);
    assert FirstIntent(query, t3) == InformationSeeking;
    assert FirstIntent(query, t2) == if ContainsAny(query, ConceptWords) then ConceptExplanation else InformationSeeking;
    assert FirstIntent(query, t1) == if ContainsAny(query, HowToWords) then HowTo else FirstIntent(query, t2);
    assert FirstIntent(query, t0) == if ContainsAny(query, ProblemWords) then ProblemSolving else FirstIntent(query, t1);
  }

  const ExactMarkers: seq<string> := ["\"", "精确", "完全匹配"]
  const SimilarWords: seq<string> := ["相关", "类似", "相似"]

  function DetermineSearchType(query: string, intent: string): (r: SearchType)
    ensures r == Keyword <==> ContainsAny(query, ExactMarkers)
    ensures r == Semantic <==>
      !ContainsAny(query, ExactMarkers) && (intent == "concept_explanation" || |query| > 20 || ContainsAny(query, SimilarWords))
  {
    if ContainsAny(query, ExactMarkers) then Keyword
    else if intent == "concept_explanation" || |query| > 20 || ContainsAny(query, SimilarWords) then Semantic
    else Hybrid
  }

  const RecentWords: seq<string> := ["最近", "近期", "今天", "昨天"]
  const WeekWords: seq<string> := ["本周", "这周", "上周"]
  const MonthWords: seq<string> := ["本月", "这月", "上月"]
  /** The document-type pattern, lower-cased: it is matched case-insensitively. */
  const DocTypeWords: seq<string> := ["文档", "手册", "指南", "教程", "说明", "api", "接口", "规范"]
  const HighWords: seq<string> := ["紧急", "急", "重要", "关键"]
  const LowWords: seq<string> := ["一般", "普通", "了解"]

  function TimeRangeOf(query: string): (r: string)
    ensures r == "recent" <==> ContainsAny(query, RecentWords)
    ensures r == "week" <==> !ContainsAny(query, RecentWords) && ContainsAny(query, WeekWords)
    ensures r == "month" <==> !ContainsAny(query, RecentWords) && !ContainsAny(query, WeekWords) && ContainsAny(query, MonthWords)
    ensures r == "all" <==> !ContainsAny(query, RecentWords) && !ContainsAny(query, WeekWords) && !ContainsAny(query, MonthWords)
  {
    if ContainsAny(query, RecentWords) then "recent"
    else if ContainsAny(query, WeekWords) then "week"
    else if ContainsAny(query, MonthWords) then "month"
    else "all"
  }

  function PriorityOf(query: string): (r: string)
    ensures r == "high" <==> ContainsAny(query, HighWords)
    ensures r == "low" <==> !ContainsAny(query, HighWords) && ContainsAny(query, LowWords)
    ensures r == "medium" <==> !ContainsAny(query, HighWords) && !ContainsAny(query, LowWords)
  {
    if ContainsAny(query, HighWords) then "high"
    else if ContainsAny(query, LowWords) then "low"
    else "medium"
  }

  /** The distinct document types named in the query, lower-cased, in order of first mention. */
  function DocTypesOf(query: string): (r: seq<string>)
    ensures Distinct(r)
    ensures forall k :: 0 <= k < |r| ==> r[k] in DocTypeWords && Contains(ToLower(query), r[k])
  {
    var matches := MatchAll(ToLower(query), Lits(DocTypeWords));
    assert forall k :: 0 <= k < |matches| ==> matches[k] in DocTypeWords by {
      forall k | 0 <= k < |matches| ensures matches[k] in DocTypeWords {
        var j :| 0 <= j < |Lits(DocTypeWords)| && Lits(DocTypeWords)[j].Lit? && Lits(DocTypeWords)[j].t == matches[k];
        assert DocTypeWords[j] == matches[k];
      }
    }
    Dedupe(matches)
  }

  /** `extractFilters`: every key is present, tags always empty. */
  function ExtractFilters(query: string): Filters {
    Filters(Some(TimeRangeOf(query)), Some(DocTypesOf(query)), Some([]), Some(PriorityOf(query)))
  }

  const LogicalWords: seq<string> := ["和", "或", "不是", "除了", "但是", "然而"]
  const QuestionMarks: set<char> := {'？', '?'}

  /** `query.split(/\s+/).length`. */
  function WordCount(query: string): nat {
    |SplitRuns(query, Whitespace)|
  }

  function AssessComplexity(query: string): (r: Complexity)
    ensures r == Complex <==>
      |query| > 50 || WordCount(query) > 10 || ContainsAny(query, LogicalWords) || CountIn(query, QuestionMarks) > 1
    ensures r == Simple <==>
      !(|query| > 50 || WordCount(query) > 10 || ContainsAny(query, LogicalWords) || CountIn(query, QuestionMarks) > 1)
      && |query| <= 20 && WordCount(query) <= 5
  {
    if |query| > 50 || WordCount(query) > 10 || ContainsAny(query, LogicalWords) || CountIn(query, QuestionMarks) > 1 then Complex
    else if |query| > 20 || WordCount(query) > 5 then Medium
    else Simple
  }

  /** A query of at most 20 characters, without spaces, operators or two question marks, is simple. */
  lemma ShortQueriesAreSimple(query: string)
    requires |query| <= 20 && NoneIn(query, Whitespace)
    requires !ContainsAny(query, LogicalWords) && CountIn(query, QuestionMarks) <= 1
    ensures AssessComplexity(query) == Simple
  {
    FirstInNone(query, Whitespace);
  }

  function GenerateSuggestedQueries(query: string, entities: seq<string>): (r: seq<string>)
    ensures |r| <= 3
    ensures entities != [] ==> |r| >= 2 && r[0] == entities[0] + "的详细说明" && r[1] == "如何使用" + entities[0]
    ensures |entities| > 1 ==> |r| == 3 && r[2] == entities[0] + "和" + entities[1] + "的区别"
    ensures entities == [] ==> r == (if Contains(query, "问题") then ["常见问题解答", "故障排除指南"] else [])
    ensures |entities| == 1 && Contains(query, "问题") ==> r == [r[0], r[1], "常见问题解答"]
  {
    var second := if |entities| > 1 then [entities[0] + "和" + entities[1] + "的区别"] else [];
    var fromEntities := if entities == [] then [] else [entities[0] + "的详细说明", "如何使用" + entities[0]] + second;
    var fromQuery := if Contains(query, "问题") then ["常见问题解答", "故障排除指南"] else [];
    Take(fromEntities + fromQuery, 3)
  }

  // ---------------------------------------------------------------------
  // Analyses
  // ---------------------------------------------------------------------

  function Strs(xs: seq<string>): (r: seq<Json>)
    ensures |r| == |xs|
    ensures forall k :: 0 <= k < |xs| ==> r[k] == JStr(xs[k])
  {
    seq(|xs|, k requires 0 <= k < |xs| => JStr(xs[k]))
  }

  /**
   * An analysis as the service returns it.  `complexity` and the suggested
   * queries may come from the model's JSON unchanged; `source` is set by the
   * rule analysis, `originalQuery` and `analysisMethod` by the merge.
   */
  datatype Analysis = Analysis(
    intent: string, entities: seq<string>, searchType: string, filters: Filters,
    complexity: Json, confidence: real, suggestedQueries: seq<Json>,
    source: Option<string>, originalQuery: Option<string>, analysisMethod: Option<string>)

  /** `performRuleBasedAnalysis`. */
  function RuleAnalysis(query: string): (a: Analysis)
    ensures a.entities == RuleEntities(query)
    ensures a.intent == IntentName(DetectIntent(query))
    ensures a.confidence == 0.7 && a.source == Some("rule-based")
  {
    var entities := RuleEntities(query);
    var intent := IntentName(DetectIntent(query));
    Analysis(
      intent, entities, SearchTypeName(DetermineSearchType(query, intent)), ExtractFilters(query),
      JStr(ComplexityName(AssessComplexity(query))), 0.7, Strs(GenerateSuggestedQueries(query, entities)),
      Some("rule-based"), None, None)
  }

  /** A query asking what something is, without exact-match markers, is searched semantically. */
  lemma ConceptQueriesAreSemantic(query: string)
    requires !ContainsAny(query, ProblemWords) && !ContainsAny(query, HowToWords) && ContainsAny(query, ConceptWords)
    requires !ContainsAny(query, ExactMarkers)
    ensures RuleAnalysis(query).searchType == "semantic"
  {
    DetectIntentOrder(query);
  }

  /** The model's analysis after validation (fields the merge never reads are not kept). */
  datatype LlmAnalysis = LlmAnalysis(
    intent: string, entities: seq<Json>, searchType: string, filters: Json,
    complexity: Json, confidence: Option<real>, suggestedQueries: Json)

  /** `Number(v)` where the model keeps it exact; None is NaN. */
  function ToNumber(j: Json): Option<real> {
    match j
    case JNum(n) => Some(n)
    case JBool(b) => Some(if b then 1.0 else 0.0)
    case JNull => Some(0.0)
    case _ => None
  }

  /** `Math.min(Math.max(x, 0), 1)`; NaN stays NaN. */
  function Clamp01(x: Option<real>): (r: Option<real>)
    ensures r.Some? <==> x.Some?
    ensures r.Some? ==> 0.0 <= r.value <= 1.0
    ensures x.Some? && 0.0 <= x.value <= 1.0 ==> r == x
  {
    match x
    case None => None
    case Some(v) => Some(if v < 0.0 then 0.0 else if v > 1.0 then 1.0 else v)
  }

  predicate ValidConfidence(c: Option<real>) {
    c.None? || 0.0 <= c.value <= 1.0
  }

  function FieldsOf(j: Json): map<string, Json> {
    if j.JObj? then j.fields else map[]
  }

  /** `validateAnalysisResult` on the parsed response; Err is the exception it throws. */
  function ValidateAnalysisResult(j: Json): (r: Result<LlmAnalysis>)
    ensures r.Err? <==>
      (j.JNull? || !TruthyField(FieldsOf(j), "intent") || !TruthyField(FieldsOf(j), "entities") || !TruthyField(FieldsOf(j), "searchType"))
    ensures r.Ok? ==> Validated(r.value)
  {
    if j.JNull? then Err("TypeError: Cannot read properties of null")
    else
      var m := FieldsOf(j);
      if !TruthyField(m, "intent") then Err("Missing required field: intent")
      else if !TruthyField(m, "entities") then Err("Missing required field: entities")
      else if !TruthyField(m, "searchType") then Err("Missing required field: searchType")
      else Ok(Normalized(m))
  }

  /** What validation guarantees: allowed intent and search type, confidence in [0, 1] or NaN. */
  predicate Validated(a: LlmAnalysis) {
    && a.intent in ValidIntents && a.searchType in ValidSearchTypes && ValidConfidence(a.confidence)
    && Truthy(a.filters) && Truthy(a.complexity) && Truthy(a.suggestedQueries)
  }

  /** The replacements and defaults of validation, for an object whose required fields are present. */
  function Normalized(m: map<string, Json>): (a: LlmAnalysis)
    requires "intent" in m && "entities" in m && "searchType" in m
    ensures Validated(a)
  {
    var entities := m["entities"];
    LlmAnalysis(
      Allowed(m["intent"], ValidIntents, "information_seeking"),
      if entities.JArr? then entities.items else [],
      Allowed(m["searchType"], ValidSearchTypes, "hybrid"),
      OrDefault(m, "filters", JObj(map[])),
      OrDefault(m, "complexity", JStr("medium")),
      Clamp01(ToNumber(OrDefault(m, "confidence", JNum(0.5)))),
      OrDefault(m, "suggestedQueries", JArr([])))
  }

  /** `if (!valid.includes(v)) v = fallback`. */
  function Allowed(j: Json, valid: seq<string>, fallback: string): (r: string)
    requires fallback in valid
    ensures r in valid
    ensures j.JStr? && j.s in valid ==> r == j.s
    ensures !(j.JStr? && j.s in valid) ==> r == fallback
  {
    if j.JStr? && j.s in valid then j.s else fallback
  }

  /** `m[key] || fallback`. */
  function OrDefault(m: map<string, Json>, key: string, fallback: Json): (r: Json)
    requires Truthy(fallback)
    ensures Truthy(r)
    ensures TruthyField(m, key) ==> r == m[key]
    ensures !TruthyField(m, key) ==> r == fallback
  {
    if TruthyField(m, key) then m[key] else fallback
  }

  /**
   * Validation keeps what is valid: an allowed intent or search type, an
   * entity array, a confidence already in (0, 1]; a missing or zero
   * confidence becomes 0.5.
   */
  lemma ValidationKeeps(m: map<string, Json>)
    requires ValidateAnalysisResult(JObj(m)).Ok?
    ensures var a := ValidateAnalysisResult(JObj(m)).value;
      && (m["intent"].JStr? && m["intent"].s in ValidIntents ==> a.intent == m["intent"].s)
      && (!(m["intent"].JStr? && m["intent"].s in ValidIntents) ==> a.intent == "information_seeking")
      && (m["searchType"].JStr? && m["searchType"].s in ValidSearchTypes ==> a.searchType == m["searchType"].s)
      && (!(m["searchType"].JStr? && m["searchType"].s in ValidSearchTypes) ==> a.searchType == "hybrid")
      && (m["entities"].JArr? ==> a.entities == m["entities"].items)
      && (!m["entities"].JArr? ==> a.entities == [])
      && (!TruthyField(m, "confidence") ==> a.confidence == Some(0.5))
      && ("confidence" in m && m["confidence"].JNum? && 0.0 < m["confidence"].n <= 1.0 ==>
            a.confidence == Some(m["confidence"].n))
  {
  }

  /** The analysis `extractStructuredInfo` builds from an intent and the rule entities. */
  function StructuredInfo(intent: Intent, entities: seq<string>): (a: LlmAnalysis)
    ensures a.searchType == "hybrid" && a.confidence == Some(0.6)
    ensures a.intent == IntentName(intent) && a.entities == Strs(entities)
    ensures Validated(a)
  {
    LlmAnalysis(IntentName(intent), Strs(entities), "hybrid", JObj(map[]), JStr("medium"), Some(0.6), JArr([]))
  }

  /** `extractStructuredInfo`: the rule entities and intent, hybrid search, confidence 0.6. */
  function ExtractStructuredInfo(query: string): (a: LlmAnalysis)
    ensures a.searchType == "hybrid" && a.confidence == Some(0.6)
    ensures a.intent == IntentName(DetectIntent(query)) && a.entities == Strs(RuleEntities(query))
    ensures Validated(a)
  {
    StructuredInfo(DetectIntent(query), RuleEntities(query))
  }

  /**
   * `performLLMAnalysis` once the model has answered: None is a response
   * that `JSON.parse` rejects; a parse or validation failure falls back to
   * the text extraction.
   */
  function PerformLlmAnalysis(query: string, parsed: Option<Json>): (a: LlmAnalysis)
    ensures Validated(a)
    ensures (parsed.None? || ValidateAnalysisResult(parsed.value).Err?) ==> a == ExtractStructuredInfo(query)
  {
    if parsed.None? then ExtractStructuredInfo(query)
    else
      var v := ValidateAnalysisResult(parsed.value);
      if v.Ok? then v.value else ExtractStructuredInfo(query)
  }

  function Lowered(xs: seq<string>): (r: seq<string>)
    ensures |r| == |xs|
    ensures forall k :: 0 <= k < |xs| ==> r[k] == ToLower(xs[k])
  {
    seq(|xs|, k requires 0 <= k < |xs| => ToLower(xs[k]))
  }

  predicate AllStrings(js: seq<Json>) {
    forall k :: 0 <= k < |js| ==> js[k].JStr?
  }

  function StringsOf(js: seq<Json>): (r: seq<string>)
    ensures |r| == |js|
    ensures forall k :: 0 <= k < |js| && js[k].JStr? ==> r[k] == js[k].s
  {
    seq(|js|, k requires 0 <= k < |js| => if js[k].JStr? then js[k].s else "")
  }

  /** `mergeEntities`; Err when a model entity is not a string (`toLowerCase` throws). */
  function MergeEntities(llm: seq<Json>, rule: seq<string>): (r: Result<seq<string>>)
    ensures r.Ok? <==> AllStrings(llm)
  {
    if AllStrings(llm) then Ok(Take(Dedupe(Lowered(StringsOf(llm) + rule)), 10)) else Err("TypeError")
  }

  /** Model entities that are all strings merge as their lower-cased, de-duplicated union. */
  lemma MergeOfStrings(llm: seq<string>, rule: seq<string>)
    ensures MergeEntities(Strs(llm), rule) == Ok(Take(Dedupe(Lowered(llm + rule)), 10))
  {
    assert StringsOf(Strs(llm)) == llm;
  }

  lemma LoweredAppend(xs: seq<string>, ys: seq<string>)
    ensures Lowered(xs + ys) == Lowered(xs) + Lowered(ys)
  {
  }

  /** At most ten lower-cased entities without repeats, each from one of the lists. */
  lemma MergeEntitiesSound(llm: seq<string>, rule: seq<string>)
    ensures var r := MergeEntities(Strs(llm), rule).value;
      && |r| <= 10 && Distinct(r)
      && (forall k :: 0 <= k < |r| ==> r[k] in Lowered(llm + rule))
  {
    MergeOfStrings(llm, rule);
    var r := MergeEntities(Strs(llm), rule).value;
    var d := Dedupe(Lowered(llm + rule));
    assert forall k :: 0 <= k < |r| ==> r[k] == d[k];
  }

  /** Nothing is lost while there are at most ten distinct entities. */
  lemma MergeEntitiesComplete(llm: seq<string>, rule: seq<string>)
    requires |Dedupe(Lowered(llm + rule))| <= 10
    ensures forall x | x in Lowered(llm + rule) :: x in MergeEntities(Strs(llm), rule).value
  {
    MergeOfStrings(llm, rule);
  }

  /** The model's own distinct entities come first. */
  lemma MergeEntitiesLlmFirst(llm: seq<string>, rule: seq<string>)
    requires |Dedupe(Lowered(llm))| <= 10
    ensures var r := MergeEntities(Strs(llm), rule).value;
      |Dedupe(Lowered(llm))| <= |r| && r[..|Dedupe(Lowered(llm))|] == Dedupe(Lowered(llm))
  {
    MergeOfStrings(llm, rule);
    LoweredAppend(llm, rule);
    DedupeAppendPrefix(Lowered(llm), Lowered(rule));
    TakeKeepsPrefix(Dedupe(Lowered(llm + rule)), Dedupe(Lowered(llm)), 10);
  }

  /** `[...(v || [])]`: falsy values spread as nothing, a string as its characters, other non-arrays throw. */
  function Spread(j: Json): (r: Result<seq<Json>>)
    ensures j.JArr? ==> r == Ok(j.items)
    ensures !Truthy(j) ==> r == Ok([])
  {
    if !Truthy(j) then Ok([])
    else match j
      case JArr(items) => Ok(items)
      case JStr(s) => Ok(Chars(s))
      case _ => Err("TypeError: not iterable")
  }

  /** A string spread into an array: one string per character. */
  function Chars(s: string): (r: seq<Json>)
    ensures |r| == |s|
  {
    seq(|s|, k requires 0 <= k < |s| => JStr([s[k]]))
  }

  /** The four filter keys of a filters object, where they hold values of the expected type. */
  function FiltersOf(j: Json): Filters {
    var m := FieldsOf(j);
    Filters(
      if "timeRange" in m && m["timeRange"].JStr? then Some(m["timeRange"].s) else None,
      if "docTypes" in m && m["docTypes"].JArr? && AllStrings(m["docTypes"].items) then Some(StringsOf(m["docTypes"].items)) else None,
      if "tags" in m && m["tags"].JArr? && AllStrings(m["tags"].items) then Some(StringsOf(m["tags"].items)) else None,
      if "priority" in m && m["priority"].JStr? then Some(m["priority"].s) else None)
  }

  /** `x || 0` for a possibly-NaN number. */
  function OrZero(x: Option<real>): real {
    if x.Some? then x.value else 0.0
  }

  function Max(a: real, b: real): real {
    if a >= b then a else b
  }

  /** The rule analysis wins when there is no model analysis or it is not confident (NaN is not below 0.5). */
  predicate RuleWins(llm: Option<LlmAnalysis>) {
    llm.None? || (llm.value.confidence.Some? && llm.value.confidence.value < 0.5)
  }

  /** `mergeAnalysis`; Err is the exception a malformed model analysis raises. */
  function MergeAnalysis(llm: Option<LlmAnalysis>, rule: Analysis, query: string): (r: Result<Analysis>)
    ensures RuleWins(llm) ==> r == Ok(rule.(originalQuery := Some(query), analysisMethod := Some("rule-based")))
    ensures !RuleWins(llm) ==> (r.Ok? <==> AllStrings(llm.value.entities) && Spread(llm.value.suggestedQueries).Ok?)
    ensures !RuleWins(llm) && r.Ok? ==>
      && r.value.analysisMethod == Some("hybrid") && r.value.originalQuery == Some(query)
      && r.value.confidence >= rule.confidence && r.value.confidence >= OrZero(llm.value.confidence)
      && (r.value.confidence == rule.confidence || r.value.confidence == OrZero(llm.value.confidence))
      && r.value.filters == OverrideFilters(rule.filters, FiltersOf(llm.value.filters))
      && |r.value.suggestedQueries| <= 5 && |r.value.entities| <= 10
  {
    if RuleWins(llm) then Ok(rule.(originalQuery := Some(query), analysisMethod := Some("rule-based")))
    else
      var a := llm.value;
      match MergeEntities(a.entities, rule.entities)
      case Err(e) => Err(e)
      case Ok(entities) =>
        match Spread(a.suggestedQueries)
        case Err(e) => Err(e)
        case Ok(suggested) =>
          Ok(Analysis(
            if a.intent != [] then a.intent else rule.intent,
            entities,
            if a.searchType != [] then a.searchType else rule.searchType,
            OverrideFilters(rule.filters, FiltersOf(a.filters)),
            if Truthy(a.complexity) then a.complexity else rule.complexity,
            Max(OrZero(a.confidence), rule.confidence),
            Take(suggested + rule.suggestedQueries, 5),
            None, Some(query), Some("hybrid")))
  }

  /**
   * What a fresh analysis yields, and whether it is cached: `llm` is the
   * model call, Err when it throws, and otherwise the outcome of
   * `JSON.parse` on its answer.  Any failure falls back to the rule
   * analysis, which is not cached.
   */
  function FreshAnalysis(query: string, llm: Result<Option<Json>>): (Analysis, bool) {
    var rule := RuleAnalysis(query);
    match llm
    case Err(_) => (rule, false)
    case Ok(parsed) =>
      match MergeAnalysis(Some(PerformLlmAnalysis(query, parsed)), rule, query)
      case Ok(merged) => (merged, true)
      case Err(_) => (rule, false)
  }

  /** What every analysis the service hands out satisfies. */
  predicate Sound(a: Analysis) {
    a.intent in ValidIntents && a.searchType in ValidSearchTypes && 0.7 <= a.confidence <= 1.0
  }

  lemma RuleAnalysisSound(query: string)
    ensures Sound(RuleAnalysis(query))
  {
    var intent := IntentName(DetectIntent(query));
    assert intent in ValidIntents;
    assert SearchTypeName(DetermineSearchType(query, intent)) in ValidSearchTypes;
  }

  /** Merging a validated model analysis into a sound rule analysis gives a sound analysis. */
  lemma MergeSound(a: LlmAnalysis, rule: Analysis, query: string)
    requires Validated(a) && Sound(rule)
    requires MergeAnalysis(Some(a), rule, query).Ok?
    ensures Sound(MergeAnalysis(Some(a), rule, query).value)
    ensures MergeAnalysis(Some(a), rule, query).value.analysisMethod.Some?
  {
  }

  /**
   * Whatever the model answers, the analysis has a valid intent and search
   * type and a confidence in [0.7, 1]; only merged analyses are cached.
   */
  lemma FreshAnalysisSound(query: string, llm: Result<Option<Json>>)
    ensures Sound(FreshAnalysis(query, llm).0)
    ensures FreshAnalysis(query, llm).1 ==> FreshAnalysis(query, llm).0.analysisMethod.Some?
    ensures llm.Err? ==> FreshAnalysis(query, llm) == (RuleAnalysis(query), false)
  {
    var rule := RuleAnalysis(query);
    RuleAnalysisSound(query);
    if llm.Ok? {
      var a := PerformLlmAnalysis(query, llm.value);
      if MergeAnalysis(Some(a), rule, query).Ok? {
        MergeSound(a, rule, query);
      }
    }
  }

  /** Every cached analysis is sound and says how it was made. */
  ghost predicate CacheSound(m: map<string, Analysis>) {
    forall k | k in m :: Sound(m[k]) && m[k].analysisMethod.Some?
  }

  /** The cache after a fresh analysis: stored under `k` only when it is to be cached. */
  function CacheAfter(m: map<string, Analysis>, k: string, outcome: (Analysis, bool)): map<string, Analysis> {
    if outcome.1 then m[k := outcome.0] else m
  }

  lemma CacheInsertSound(m: map<string, Analysis>, k: string, outcome: (Analysis, bool))
    requires CacheSound(m) && Sound(outcome.0) && (outcome.1 ==> outcome.0.analysisMethod.Some?)
    ensures CacheSound(CacheAfter(m, k, outcome))
  {
  }

  /**
   * `generateCacheKey` as written: `btoa(query + JSON.stringify(context))`
   * cut to 32 characters, with `context` the serialized context; None is the
   * exception btoa throws.
   */
  function CacheKeyAsWritten(query: string, context: string): (r: Option<string>)
    ensures r.Some? <==> IsLatin1(query + context)
  {
    CacheKey(query + context)
  }

  /** As written, a query holding any Chinese character makes `analyzeQuery` throw. */
  lemma ChineseQueryHasNoKey(query: string, context: string, i: nat)
    requires i < |query| && query[i] as int > 255
    ensures CacheKeyAsWritten(query, context) == None
  {
    assert (query + context)[i] == query[i];
    CacheKeyRejectsCjk(query + context, i);
  }

  /** As written, the context is ignored once the query has 24 characters: two contexts share one entry. */
  lemma ContextIgnoredAsWritten(query: string, c1: string, c2: string)
    requires IsLatin1(query) && IsLatin1(c1) && IsLatin1(c2) && |query| >= 24
    ensures CacheKeyAsWritten(query, c1) == CacheKeyAsWritten(query, c2)
  {
    assert query + c1 == query + c1;
    CacheKeyCollides(query, c1, c2);
  }

  /** The intended key: defined for every query, and one per (query, context) pair. */
  function AnalysisKey(query: string, context: string): string {
    ExactKey([query, context])
  }

  lemma AnalysisKeyInjective(q1: string, c1: string, q2: string, c2: string)
    requires AnalysisKey(q1, c1) == AnalysisKey(q2, c2)
    ensures q1 == q2 && c1 == c2
  {
    ExactKeyInjective([q1, c1], [q2, c2]);
    assert [q1, c1][0] == [q2, c2][0] && [q1, c1][1] == [q2, c2][1];
  }

  class Analyzer {
    var queryCache: map<string, Analysis>

    ghost predicate Valid()
      reads this
    {
      CacheSound(queryCache)
    }

    constructor()
      ensures queryCache == map[] && Valid()
    {
      queryCache := map[];
    }

    /**
     * `analyzeQuery` with the intended cache key.  `context` is the
     * serialized context and `llm` the model's answer as for `FreshAnalysis`.
     * A cached analysis is returned unchanged; otherwise a fresh one is made
     * and cached only when the merge succeeded.
     */
    method AnalyzeQuery(query: string, context: string, llm: Result<Option<Json>>) returns (a: Analysis)
      requires Valid()
      modifies this
      ensures Valid()
      ensures Sound(a)
      ensures AnalysisKey(query, context) in old(queryCache) ==>
        a == old(queryCache)[AnalysisKey(query, context)] && queryCache == old(queryCache)
      ensures AnalysisKey(query, context) !in old(queryCache) ==>
        && a == FreshAnalysis(query, llm).0
        && queryCache == CacheAfter(old(queryCache), AnalysisKey(query, context), FreshAnalysis(query, llm))
    {
      var k := AnalysisKey(query, context);
      if k in queryCache {
        return queryCache[k];
      }
      var outcome := FreshAnalysis(query, llm);
      FreshAnalysisSound(query, llm);
      CacheInsertSound(queryCache, k, outcome);
      queryCache := CacheAfter(queryCache, k, outcome);
      return outcome.0;
    }

    method ClearCache()
      modifies this
      ensures queryCache == map[] && Valid()
    {
      queryCache := map[];
    }
  }
}
