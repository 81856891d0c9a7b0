/**
 * The enhanced query processor: question typing by start-anchored
 * patterns, synonym expansion over a fixed domain table, weighted focus
 * keywords, the derived search strategy and query variants, and the
 * occurrence, context and line-window extraction used on document text.
 */
module EnhancedQuery {
  import opened Text
  import opened Seqs

  datatype QuestionType = HowTo | What | Where | Why | General

  function QuestionTypeName(q: QuestionType): string {
    match q
    case HowTo => "howTo"
    case What => "what"
    case Where => "where"
    case Why => "why"
    case General => "general"
  }

  /** `/^(a|b|c)/.test(s)`: the text starts with one of the alternatives. */
  predicate StartsWithAny(s: string, alternatives: seq<string>) {
    exists k :: 0 <= k < |alternatives| && StartsWith(s, alternatives[k])
  }

  /** `questionPatterns` in declaration order. */
  const QuestionPatterns: seq<(QuestionType, seq<string>)> := [
    (HowTo, ["怎么", "如何", "怎样", "方法", "步骤"]),
    (What, ["什么是", "什么叫", "定义"]),
    (Where, ["在哪", "哪里", "位置"]),
    (Why, ["为什么", "原因", "目的"])]

  /** The first pattern of the table that matches, or General. */
  function FirstQuestionType(query: string, table: seq<(QuestionType, seq<string>)>): (r: QuestionType)
    ensures r == General || exists k :: 0 <= k < |table| && table[k].0 == r && StartsWithAny(query, table[k].1)
    decreases |table|
  {
    if table == [] then General
    else if StartsWithAny(query, table[0].1) then table[0].0
    else FirstQuestionType(query, table[1..])
  }

  /** The type of the first pattern that matches; no earlier pattern matches. */
  lemma {:induction false} FirstQuestionTypeIsFirst(query: string, table: seq<(QuestionType, seq<string>)>)
    requires forall k :: 0 <= k < |table| ==> table[k].0 != General
    ensures FirstQuestionType(query, table) == General <==>
      forall k :: 0 <= k < |table| ==> !StartsWithAny(query, table[k].1)
    ensures FirstQuestionType(query, table) != General ==>
      exists k :: 0 <= k < |table| && table[k].0 == FirstQuestionType(query, table)
        && StartsWithAny(query, table[k].1) && forall j :: 0 <= j < k ==> !StartsWithAny(query, table[j].1)
    decreases |table|
  {
    if table != [] && !StartsWithAny(query, table[0].1) {
      FirstQuestionTypeIsFirst(query, table[1..]);
      var r := FirstQuestionType(query, table);
      if r != General {
        var k :| 0 <= k < |table[1..]| && table[1..][k].0 == r && StartsWithAny(query, table[1..][k].1)
          && (forall j :: 0 <= j < k ==> !StartsWithAny(query, table[1..][j].1));
        assert table[k + 1].0 == r && StartsWithAny(query, table[k + 1].1);
        assert forall j :: 0 <= j < k + 1 ==> !StartsWithAny(query, table[j].1) by {
          forall j | 0 <= j < k + 1 ensures !StartsWithAny(query, table[j].1) {
            if j > 0 { assert table[j] == table[1..][j - 1]; }
          }
        }
      } else {
        forall k | 0 <= k < |table| ensures !StartsWithAny(query, table[k].1) {
          if k > 0 { assert table[k] == table[1..][k - 1]; }
        }
      }
    }
  }

  function IdentifyQuestionType(query: string): QuestionType {
    FirstQuestionType(query, QuestionPatterns)
  }

  /** The strategy names the focus a question type asks for; why-questions are searched like any other. */
  function DetermineSearchStrategy(q: QuestionType): (r: string)
    ensures r == "procedure_focused" <==> q == HowTo
    ensures r == "definition_focused" <==> q == What
    ensures r == "location_focused" <==> q == Where
    ensures r == "hybrid" <==> q == Why || q == General
  {
    match q
    case HowTo => "procedure_focused"
    case What => "definition_focused"
    case Where => "location_focused"
    case _ => "hybrid"
  }

  // ---------------------------------------------------------------------
  // Synonym expansion
  // ---------------------------------------------------------------------

  /** `synonymMaps` in declaration order: each key with its synonyms. */
  const SynonymMaps: seq<(string, seq<string>)> := [
    ("人设", ["角色", "人物", "角色设定", "人物设定", "角色人设", "人物角色"]),
    ("创建", ["制作", "建立", "设计", "构建", "生成", "新建"]),
    ("怎么", ["如何", "怎样", "方法", "步骤", "流程"]),
    ("短剧", ["短视频", "微剧", "网剧", "剧集"]),
    ("解说", ["旁白", "配音", "说明", "讲解", "叙述"]),
    ("素材", ["资源", "材料", "文件", "内容", "资料"]),
    ("管理", ["管理", "整理", "组织", "维护"]),
    ("编辑", ["修改", "调整", "更新", "编辑"]),
    ("生成", ["创建", "制作", "产生", "生成"])]

  /** The word contains the key or one of its synonyms. */
  predicate EntryMatches(word: string, entry: (string, seq<string>)) {
    Contains(word, entry.0) || ContainsAny(word, entry.1)
  }

  /** What a matching entry adds: its synonyms, then its key. */
  function EntryTerms(entry: (string, seq<string>)): seq<string> {
    entry.1 + [entry.0]
  }

  /** The terms one word adds, entry by entry. */
  function WordAdds(word: string, table: seq<(string, seq<string>)>): seq<string>
    decreases |table|
  {
    if table == [] then []
    else
      var last := table[|table| - 1];
      WordAdds(word, table[..|table| - 1]) + (if EntryMatches(word, last) then EntryTerms(last) else [])
  }

  /** The terms all words add, word by word. */
  function AllAdds(words: seq<string>, table: seq<(string, seq<string>)>): seq<string>
    decreases |words|
  {
    if words == [] then [] else AllAdds(words[..|words| - 1], table) + WordAdds(words[|words| - 1], table)
  }

  /** The expanded set in insertion order: the words, then everything the words add. */
  function ExpandedTerms(query: string, table: seq<(string, seq<string>)>): seq<string> {
    var words := Words(query);
    AddAll(AddAll([], words), AllAdds(words, table))
  }

  lemma {:induction false} WordAddsMembers(word: string, table: seq<(string, seq<string>)>, x: string)
    ensures x in WordAdds(word, table) <==>
      exists j :: 0 <= j < |table| && EntryMatches(word, table[j]) && x in EntryTerms(table[j])
    decreases |table|
  {
    if table != [] {
      var init := table[..|table| - 1];
      WordAddsMembers(word, init, x);
      assert forall j :: 0 <= j < |init| ==> init[j] == table[j];
    }
  }

  lemma {:induction false} AllAddsMembers(words: seq<string>, table: seq<(string, seq<string>)>, x: string)
    ensures x in AllAdds(words, table) <==> exists i :: 0 <= i < |words| && x in WordAdds(words[i], table)
    decreases |words|
  {
    if words != [] {
      var init := words[..|words| - 1];
      AllAddsMembers(init, table, x);
      assert forall i :: 0 <= i < |init| ==> init[i] == words[i];
    }
  }

  /**
   * The expansion has no repeats, starts with the query's distinct words,
   * and holds exactly the words and the synonyms and key of every entry
   * some word matches.
   */
  lemma ExpandSynonymsSpec(query: string, table: seq<(string, seq<string>)>, x: string)
    ensures Distinct(ExpandedTerms(query, table))
    ensures |Dedupe(Words(query))| <= |ExpandedTerms(query, table)|
    ensures ExpandedTerms(query, table)[..|Dedupe(Words(query))|] == Dedupe(Words(query))
    ensures x in ExpandedTerms(query, table) <==>
      x in Words(query) ||
      exists i, j :: 0 <= i < |Words(query)| && 0 <= j < |table| &&
        EntryMatches(Words(query)[i], table[j]) && x in EntryTerms(table[j])
  {
    var words := Words(query);
    var adds := AllAdds(words, table);
    AddAllAppend([], words, adds);
    DedupeAppendPrefix(words, adds);
    AllAddsMembers(words, table, x);
    forall i | 0 <= i < |words| ensures x in WordAdds(words[i], table) <==>
      exists j :: 0 <= j < |table| && EntryMatches(words[i], table[j]) && x in EntryTerms(table[j])
    {
      WordAddsMembers(words[i], table, x);
    }
    assert x in words + adds <==> x in words || x in adds;
  }

  /** Adding a batch and then one more element is adding the longer batch. */
  lemma AddAllSnoc(acc: seq<string>, xs: seq<string>, y: string)
    ensures AddAll(acc, xs + [y]) == SetAdd(AddAll(acc, xs), y)
  {
    assert (xs + [y])[..|xs + [y]| - 1] == xs;
  }

  /** Adding a matching entry's synonyms and then its key extends the expansion by that entry. */
  lemma AddEntryStep(acc: seq<string>, word: string, table: seq<(string, seq<string>)>, j: nat)
    requires j < |table|
    ensures var before := AddAll(acc, WordAdds(word, table[..j]));
      AddAll(acc, WordAdds(word, table[..j + 1])) ==
        if EntryMatches(word, table[j]) then SetAdd(AddAll(before, table[j].1), table[j].0) else before
  {
    var entry := table[j];
    var w := WordAdds(word, table[..j]);
    assert table[..j + 1][..j] == table[..j];
    assert WordAdds(word, table[..j + 1]) == w + (if EntryMatches(word, entry) then EntryTerms(entry) else []);
    if EntryMatches(word, entry) {
      AddAllAppend(acc, w, entry.1);
      AddAllSnoc(acc, w + entry.1, entry.0);
      assert w + entry.1 + [entry.0] == w + EntryTerms(entry);
    } else {
      assert w + [] == w;
    }
  }

  /** The inner loop of `expandSynonyms`: one word against every entry of the table. */
  method AddWordSynonyms(acc: seq<string>, word: string, table: seq<(string, seq<string>)>) returns (expanded: seq<string>)
    ensures expanded == AddAll(acc, WordAdds(word, table))
  {
    expanded := acc;
    var j := 0;
    while j < |table|
      invariant 0 <= j <= |table|
      invariant expanded == AddAll(acc, WordAdds(word, table[..j]))
    {
      var entry := table[j];
      AddEntryStep(acc, word, table, j);
      if EntryMatches(word, entry) {
        expanded := AddAll(expanded, entry.1);
        expanded := SetAdd(expanded, entry.0);
      }
      j := j + 1;
    }
    assert table[..|table|] == table;
  }

  /** `expandSynonyms`: the query's words, then every word against the table. */
  method ExpandSynonyms(query: string, table: seq<(string, seq<string>)>) returns (expanded: seq<string>)
    ensures expanded == ExpandedTerms(query, table)
  {
    var words := Words(query);
    expanded := AddAll([], words);
    ghost var base := expanded;
    var i := 0;
    while i < |words|
      invariant 0 <= i <= |words|
      invariant expanded == AddAll(base, AllAdds(words[..i], table))
    {
      AddAllAppend(base, AllAdds(words[..i], table), WordAdds(words[i], table));
      expanded := AddWordSynonyms(expanded, words[i], table);
      assert words[..i + 1][..i] == words[..i];
      i := i + 1;
    }
    assert words[..|words|] == words;
  }

  // ---------------------------------------------------------------------
  // Focus keywords
  // ---------------------------------------------------------------------

  const HighWords: seq<string> := ["人设", "角色", "创建", "短剧", "解说", "功能", "流程", "步骤"]
  const MediumWords: seq<string> := ["管理", "素材", "内容", "编辑", "生成", "模板"]
  const LowWords: seq<string> := ["系统", "平台", "工具", "界面", "操作"]

  /** The three tiers of `keywordWeights`; the first tier that hits decides. */
  datatype Tiers = Tiers(high: seq<string>, medium: seq<string>, low: seq<string>)

  const KeywordWeights := Tiers(HighWords, MediumWords, LowWords)

  function WeightOf(word: string, tiers: Tiers): (w: nat)
    ensures w <= 3
    ensures w == 3 <==> ContainsAny(word, tiers.high)
    ensures w == 2 <==> !ContainsAny(word, tiers.high) && ContainsAny(word, tiers.medium)
    ensures w == 1 <==> !ContainsAny(word, tiers.high) && !ContainsAny(word, tiers.medium) && ContainsAny(word, tiers.low)
  {
    if ContainsAny(word, tiers.high) then 3
    else if ContainsAny(word, tiers.medium) then 2
    else if ContainsAny(word, tiers.low) then 1
    else 0
  }

  datatype Keyword = Keyword(word: string, weight: nat)

  function WeightKey(k: Keyword): real { k.weight as real }

  /** The words with a positive weight, in query order. */
  function Weighted(words: seq<string>, tiers: Tiers): seq<Keyword>
    decreases |words|
  {
    if words == [] then []
    else
      var w := words[|words| - 1];
      Weighted(words[..|words| - 1], tiers) + (if WeightOf(w, tiers) > 0 then [Keyword(w, WeightOf(w, tiers))] else [])
  }

  function FocusKeywords(query: string, tiers: Tiers): seq<Keyword> {
    SortDesc(Weighted(Words(query), tiers), WeightKey)
  }

  method ExtractFocusKeywords(query: string, tiers: Tiers) returns (keywords: seq<Keyword>)
    ensures keywords == FocusKeywords(query, tiers)
  {
    var words := Words(query);
    keywords := [];
    var i := 0;
    while i < |words|
      invariant 0 <= i <= |words|
      invariant keywords == Weighted(words[..i], tiers)
    {
      var word := words[i];
      var weight := 0;
      if ContainsAny(word, tiers.high) {
        weight := 3;
      } else if ContainsAny(word, tiers.medium) {
        weight := 2;
      } else if ContainsAny(word, tiers.low) {
        weight := 1;
      }
      if weight > 0 {
        keywords := keywords + [Keyword(word, weight)];
      }
      assert words[..i + 1][..i] == words[..i];
      i := i + 1;
    }
    assert words[..|words|] == words;
    keywords := SortDesc(keywords, WeightKey);
  }

  lemma {:induction false} WeightedSpec(words: seq<string>, tiers: Tiers)
    ensures forall k :: 0 <= k < |Weighted(words, tiers)| ==>
      var kw := Weighted(words, tiers)[k]; kw.word in words && 1 <= kw.weight <= 3 && kw.weight == WeightOf(kw.word, tiers)
    ensures forall w | w in words && WeightOf(w, tiers) > 0 :: Keyword(w, WeightOf(w, tiers)) in Weighted(words, tiers)
    decreases |words|
  {
    if words != [] {
      var init := words[..|words| - 1];
      WeightedSpec(init, tiers);
      assert forall w | w in init :: w in words;
      assert forall w | w in words :: w in init || w == words[|words| - 1];
    }
  }

  /**
   * The focus keywords are the query's words of positive weight, each with
   * its tier's weight (3, 2 or 1, first tier wins), by decreasing weight.
   */
  lemma FocusKeywordsSpec(query: string, tiers: Tiers)
    ensures SortedDesc(FocusKeywords(query, tiers), WeightKey)
    ensures forall k :: 0 <= k < |FocusKeywords(query, tiers)| ==>
      var kw := FocusKeywords(query, tiers)[k];
      kw.word in Words(query) && 1 <= kw.weight <= 3 && kw.weight == WeightOf(kw.word, tiers)
    ensures forall w | w in Words(query) && WeightOf(w, tiers) > 0 ::
      Keyword(w, WeightOf(w, tiers)) in FocusKeywords(query, tiers)
  {
    var ws := Weighted(Words(query), tiers);
    WeightedSpec(Words(query), tiers);
    SortDescMembers(ws, WeightKey);
    var r := FocusKeywords(query, tiers);
    forall k | 0 <= k < |r| ensures r[k] in ws { assert r[k] in r; }
  }

  // ---------------------------------------------------------------------
  // The enhanced query and its variants
  // ---------------------------------------------------------------------

  datatype Enhanced = Enhanced(
    originalQuery: string,
    expandedTerms: seq<string>,
    questionType: QuestionType,
    focusKeywords: seq<Keyword>,
    searchStrategy: string)

  /** `enhanceQuery`, with the processor's own tables. */
  function EnhanceQuery(query: string): (e: Enhanced)
    ensures e.originalQuery == query && e.expandedTerms == ExpandedTerms(query, SynonymMaps)
    ensures e.searchStrategy == DetermineSearchStrategy(e.questionType)
  {
    var q := IdentifyQuestionType(query);
    Enhanced(query, ExpandedTerms(query, SynonymMaps), q, FocusKeywords(query, KeywordWeights), DetermineSearchStrategy(q))
  }

  /** The `type` tag of an optimized query. */
  datatype VariantKind = Original | ExpandedVariant | Focused | DomainSpecific

  datatype OptimizedQuery = OptimizedQuery(query: string, weight: real, kind: VariantKind)

  function KeywordWords(ks: seq<Keyword>): (r: seq<string>)
    ensures |r| == |ks| && forall k :: 0 <= k < |ks| ==> r[k] == ks[k].word
  {
    if ks == [] then [] else [ks[0].word] + KeywordWords(ks[1..])
  }

  /** The query mentions persona creation, which earns the fixed domain query. */
  predicate MentionsPersonaCreation(query: string) {
    Contains(query, "人设") || Contains(query, "创建")
  }

  const DomainQuery: string := "创建人设 短剧解说 角色设定"

  predicate HasVariant(r: seq<OptimizedQuery>, kind: VariantKind) {
    exists k :: 0 <= k < |r| && r[k].kind == kind
  }

  /** The first five expanded terms, space separated. */
  function ExpandedQueryText(e: Enhanced): string {
    Join(Take(e.expandedTerms, 5), " ")
  }

  /** The three heaviest focus keywords, space separated. */
  function FocusedQueryText(e: Enhanced): string {
    Join(KeywordWords(Take(e.focusKeywords, 3)), " ")
  }

  function Optional(present: bool, q: OptimizedQuery): (r: seq<OptimizedQuery>)
    ensures present <==> r != []
    ensures forall k :: 0 <= k < |r| ==> r[k] == q
  {
    if present then [q] else []
  }

  /** In a concatenation of optional parts, a kind is present exactly when its part is. */
  lemma VariantsOfParts(a: seq<OptimizedQuery>, b: seq<OptimizedQuery>, c: seq<OptimizedQuery>, d: seq<OptimizedQuery>, kind: VariantKind)
    requires forall k :: 0 <= k < |a| ==> a[k].kind == Original
    requires forall k :: 0 <= k < |b| ==> b[k].kind == ExpandedVariant
    requires forall k :: 0 <= k < |c| ==> c[k].kind == Focused
    requires forall k :: 0 <= k < |d| ==> d[k].kind == DomainSpecific
    ensures var part := match kind case Original => a case ExpandedVariant => b case Focused => c case DomainSpecific => d;
      (HasVariant(a + b + c + d, kind) <==> part != [])
      && forall k :: 0 <= k < |a + b + c + d| && (a + b + c + d)[k].kind == kind ==> (a + b + c + d)[k] in part
  {
    var r := a + b + c + d;
    var part := match kind case Original => a case ExpandedVariant => b case Focused => c case DomainSpecific => d;
    assert forall k :: 0 <= k < |r| ==> r[k] in a || r[k] in b || r[k] in c || r[k] in d;
    if part != [] {
      var x := part[0];
      assert x in r;
      var k :| 0 <= k < |r| && r[k] == x;
      assert r[k].kind == kind;
    }
  }

  /**
   * `generateOptimizedQueries`: the original first, then the first five
   * expanded terms, the three heaviest focus keywords and the domain query,
   * each present exactly when its source is.
   */
  function GenerateOptimizedQueries(e: Enhanced): (r: seq<OptimizedQuery>)
    ensures |r| >= 1 && r[0] == OptimizedQuery(e.originalQuery, 1.0, Original)
    ensures forall k :: 0 <= k < |r| && r[k].kind == ExpandedVariant ==>
      r[k] == OptimizedQuery(ExpandedQueryText(e), 0.8, ExpandedVariant)
    ensures forall k :: 0 <= k < |r| && r[k].kind == Focused ==>
      r[k] == OptimizedQuery(FocusedQueryText(e), 0.9, Focused)
    ensures forall k :: 0 <= k < |r| && r[k].kind == DomainSpecific ==>
      r[k] == OptimizedQuery(DomainQuery, 1.2, DomainSpecific)
    ensures HasVariant(r, ExpandedVariant) <==> e.expandedTerms != []
    ensures HasVariant(r, Focused) <==> e.focusKeywords != []
    ensures HasVariant(r, DomainSpecific) <==> MentionsPersonaCreation(e.originalQuery)
  {
    var a := [OptimizedQuery(e.originalQuery, 1.0, Original)];
    var b := Optional(e.expandedTerms != [], OptimizedQuery(ExpandedQueryText(e), 0.8, ExpandedVariant));
    var c := Optional(e.focusKeywords != [], OptimizedQuery(FocusedQueryText(e), 0.9, Focused));
    var d := Optional(MentionsPersonaCreation(e.originalQuery), OptimizedQuery(DomainQuery, 1.2, DomainSpecific));
    VariantsOfParts(a, b, c, d, ExpandedVariant);
    VariantsOfParts(a, b, c, d, Focused);
    VariantsOfParts(a, b, c, d, DomainSpecific);
    a + b + c + d
  }

  // ---------------------------------------------------------------------
  // Occurrences, context windows and relevant line windows
  // ---------------------------------------------------------------------

  function Max(a: int, b: int): int { if a >= b then a else b }
  function Min(a: int, b: int): int { if a <= b then a else b }

  /** A slice of `s` that spans [p, p+len) contains that part. */
  lemma SliceContains(s: string, a: nat, b: nat, p: nat, len: nat)
    requires a <= p && p + len <= b <= |s|
    ensures Contains(s[a..b], s[p..p + len])
  {
    var x := s[a..b];
    var off := p - a;
    forall k | p <= k < p + len ensures x[k - a] == s[k] {}
    assert x[off..off + len] == s[p..p + len];
    assert OccursAt(x, s[p..p + len], off);
  }

  /** `extractContext` with the default context size of 100. */
  function ExtractContext(content: string, position: int, termLength: int): string {
    Substring(content, Max(0, position - 100), Min(|content|, position + termLength + 100))
  }

  /** The context of an occurrence holds it, with at most 100 characters on either side. */
  lemma ExtractContextSpec(content: string, position: int, termLength: int)
    ensures |ExtractContext(content, position, termLength)| <= |content|
    ensures 0 <= position && 0 <= termLength && position + termLength <= |content| ==>
      var r := ExtractContext(content, position, termLength);
      |r| <= termLength + 200 && Contains(r, content[position..position + termLength])
  {
    if 0 <= position && 0 <= termLength && position + termLength <= |content| {
      SliceContains(content, Max(0, position - 100), Min(|content|, position + termLength + 100), position, termLength);
    }
  }

  datatype Match = Match(term: string, position: nat, kind: string, context: string)

  /** The start of every occurrence `indexOf` finds from `from` on, each search resuming after the last find. */
  function Occurrences(s: string, t: string, from: nat): seq<nat>
    requires t != [] && from <= |s|
    decreases |s| - from
  {
    var i := IndexOfFrom(s, t, from);
    if i < 0 then [] else [i] + Occurrences(s, t, i + |t|)
  }

  /** The match record of each position, in order. */
  function MatchesAt(content: string, term: string, len: nat, kind: string, ps: seq<nat>): seq<Match>
    decreases |ps|
  {
    if ps == [] then []
    else
      var p := ps[|ps| - 1];
      MatchesAt(content, term, len, kind, ps[..|ps| - 1]) + [Match(term, p, kind, ExtractContext(content, p, len))]
  }

  lemma {:induction false} MatchesAtSpec(content: string, term: string, len: nat, kind: string, ps: seq<nat>)
    ensures |MatchesAt(content, term, len, kind, ps)| == |ps|
    ensures forall k :: 0 <= k < |ps| ==>
      MatchesAt(content, term, len, kind, ps)[k] == Match(term, ps[k], kind, ExtractContext(content, ps[k], len))
    decreases |ps|
  {
    if ps != [] {
      var init := ps[..|ps| - 1];
      MatchesAtSpec(content, term, len, kind, init);
      assert forall k :: 0 <= k < |init| ==> init[k] == ps[k];
    }
  }

  lemma MatchesAtSnoc(content: string, term: string, len: nat, kind: string, ps: seq<nat>, p: nat)
    ensures MatchesAt(content, term, len, kind, ps + [p])
      == MatchesAt(content, term, len, kind, ps) + [Match(term, p, kind, ExtractContext(content, p, len))]
  {
    assert (ps + [p])[..|ps|] == ps;
  }

  /** The matches of one term, searching the lower-cased text for the lower-cased term. */
  function TermMatches(content: string, term: string, kind: string): seq<Match>
    requires term != []
  {
    var t := ToLower(term);
    MatchesAt(content, term, |t|, kind, Occurrences(ToLower(content), t, 0))
  }

  /** Each term's matches in turn. */
  function AllMatches(terms: seq<string>, content: string, kind: string): seq<Match>
    requires forall k :: 0 <= k < |terms| ==> terms[k] != []
    decreases |terms|
  {
    if terms == [] then []
    else AllMatches(terms[..|terms| - 1], content, kind) + TermMatches(content, terms[|terms| - 1], kind)
  }

  /** One step of the search: the occurrence found next, then the rest. */
  lemma OccurrencesStep(s: string, t: string, from: nat, i: int)
    requires t != [] && from <= |s| && i == IndexOfFrom(s, t, from)
    ensures i < 0 ==> Occurrences(s, t, from) == []
    ensures i >= 0 ==> Occurrences(s, t, from) == [i] + Occurrences(s, t, i + |t|)
  {
  }

  /** The loop of `findMatches` keeps `done` a prefix of the occurrences, ahead of `index`. */
  lemma OccurrencesAdvance(s: string, t: string, index: nat, i: int, done: seq<nat>)
    requires t != [] && index <= |s| && i == IndexOfFrom(s, t, index)
    requires done + Occurrences(s, t, index) == Occurrences(s, t, 0)
    ensures i < 0 ==> done == Occurrences(s, t, 0)
    ensures i >= 0 ==> i + |t| <= |s| && (done + [i]) + Occurrences(s, t, i + |t|) == Occurrences(s, t, 0)
  {
    OccurrencesStep(s, t, index, i);
    if i >= 0 {
      assert OccursAt(s, t, i);
      assert done + ([i] + Occurrences(s, t, i + |t|)) == (done + [i]) + Occurrences(s, t, i + |t|);
    } else {
      assert done + [] == done;
    }
  }

  /** The inner loop of `findMatches`: `indexOf` from just after each occurrence found. */
  method FindTermMatches(content: string, contentLower: string, term: string, termLower: string, kind: string)
    returns (matches: seq<Match>)
    requires termLower != [] && |contentLower| == |content|
    ensures matches == MatchesAt(content, term, |termLower|, kind, Occurrences(contentLower, termLower, 0))
  {
    matches := [];
    ghost var done: seq<nat> := [];
    var index := 0;
    while true
      invariant 0 <= index <= |contentLower|
      invariant done + Occurrences(contentLower, termLower, index) == Occurrences(contentLower, termLower, 0)
      invariant matches == MatchesAt(content, term, |termLower|, kind, done)
      decreases |contentLower| - index
    {
      var i := IndexOfFrom(contentLower, termLower, index);
      OccurrencesAdvance(contentLower, termLower, index, i, done);
      if i == -1 {
        break;
      }
      MatchesAtSnoc(content, term, |termLower|, kind, done, i);
      matches := matches + [Match(term, i, kind, ExtractContext(content, i, |termLower|))];
      done := done + [i];
      index := i + |termLower|;
    }
  }

  /** `findMatches`: an empty term never advances, so every term must be non-empty. */
  method FindMatches(terms: seq<string>, content: string, kind: string) returns (matches: seq<Match>)
    requires forall k :: 0 <= k < |terms| ==> terms[k] != []
    ensures matches == AllMatches(terms, content, kind)
  {
    var contentLower := ToLower(content);
    matches := [];
    var k := 0;
    while k < |terms|
      invariant 0 <= k <= |terms|
      invariant matches == AllMatches(terms[..k], content, kind)
    {
      var term := terms[k];
      var found := FindTermMatches(content, contentLower, term, ToLower(term), kind);
      matches := matches + found;
      assert terms[..k + 1][..k] == terms[..k];
      k := k + 1;
    }
    assert terms[..|terms|] == terms;
  }

  /** Every position found is an occurrence at or after `from`. */
  lemma {:induction false} OccurrencesSound(s: string, t: string, from: nat)
    requires t != [] && from <= |s|
    ensures forall k :: 0 <= k < |Occurrences(s, t, from)| ==>
      from <= Occurrences(s, t, from)[k] && OccursAt(s, t, Occurrences(s, t, from)[k])
    decreases |s| - from
  {
    var i := IndexOfFrom(s, t, from);
    OccurrencesStep(s, t, from, i);
    if i >= 0 {
      OccurrencesSound(s, t, i + |t|);
      var r := Occurrences(s, t, from);
      var rest := Occurrences(s, t, i + |t|);
      forall k | 0 <= k < |r| ensures from <= r[k] && OccursAt(s, t, r[k]) {
        if k > 0 { assert r[k] == rest[k - 1]; }
      }
    }
  }

  /** Positions left to right, each at least `len` after the previous one. */
  predicate Spaced(ps: seq<nat>, len: nat) {
    forall k :: 0 <= k < |ps| - 1 ==> ps[k] + len <= ps[k + 1]
  }

  /** Occurrences found do not overlap and come left to right. */
  lemma {:induction false} OccurrencesOrdered(s: string, t: string, from: nat)
    requires t != [] && from <= |s|
    ensures Spaced(Occurrences(s, t, from), |t|)
    decreases |s| - from
  {
    var i := IndexOfFrom(s, t, from);
    OccurrencesStep(s, t, from, i);
    if i >= 0 {
      var rest := Occurrences(s, t, i + |t|);
      OccurrencesOrdered(s, t, i + |t|);
      OccurrencesSound(s, t, i + |t|);
      var r := Occurrences(s, t, from);
      forall k | 0 <= k < |r| - 1 ensures r[k] + |t| <= r[k + 1] {
        if k > 0 {
          assert r[k] == rest[k - 1] && r[k + 1] == rest[k];
        } else {
          assert r[1] == rest[0];
        }
      }
    }
  }

  /** Some position found starts an occurrence that spans p. */
  predicate Covers(ps: seq<nat>, p: int, len: nat) {
    exists k :: 0 <= k < |ps| && ps[k] <= p < ps[k] + len
  }

  /** Every occurrence at or after `from` is found or overlaps one found. */
  lemma {:induction false} OccurrencesComplete(s: string, t: string, from: nat, p: nat)
    requires t != [] && from <= |s| && from <= p && OccursAt(s, t, p)
    ensures Covers(Occurrences(s, t, from), p, |t|)
    decreases |s| - from
  {
    var i := IndexOfFrom(s, t, from);
    IndexOfFromFirst(s, t, from);
    OccurrencesStep(s, t, from, i);
    var r := Occurrences(s, t, from);
    assert i >= 0;
    var rest := Occurrences(s, t, i + |t|);
    if p >= i + |t| {
      OccurrencesComplete(s, t, i + |t|, p);
      var k :| 0 <= k < |rest| && rest[k] <= p < rest[k] + |t|;
      assert r[k + 1] == rest[k];
    } else {
      assert r[0] <= p < r[0] + |t|;
    }
  }

  /** As many occurrences as the global regular expression of the term matches. */
  lemma {:induction false} OccurrencesCount(s: string, t: string, from: nat)
    requires t != [] && from <= |s|
    ensures |Occurrences(s, t, from)| == CountFrom(s, t, from)
    decreases |s| - from
  {
    var i := IndexOfFrom(s, t, from);
    OccurrencesStep(s, t, from, i);
    if i >= 0 {
      OccurrencesCount(s, t, i + |t|);
    }
  }

  /** A line window of `extractRelevantSections`. */
  datatype LineWindow = LineWindow(content: string, lineNumber: nat, relevance: real)

  /** `calculateRelevance`: occurrences of each term, weighted by a tenth of the term's length. */
  function Relevance(text: string, terms: seq<string>): real
    decreases |terms|
  {
    if terms == [] then 0.0
    else
      var t := terms[|terms| - 1];
      Relevance(text, terms[..|terms| - 1]) + MatchCount(ToLower(text), ToLower(t)) as real * (|t| as real / 10.0)
  }

  method CalculateRelevance(text: string, terms: seq<string>) returns (relevance: real)
    ensures relevance == Relevance(text, terms)
  {
    relevance := 0.0;
    var textLower := ToLower(text);
    var k := 0;
    while k < |terms|
      invariant 0 <= k <= |terms|
      invariant relevance == Relevance(text, terms[..k])
    {
      var term := terms[k];
      relevance := relevance + MatchCount(textLower, ToLower(term)) as real * (|term| as real / 10.0);
      assert terms[..k + 1][..k] == terms[..k];
      k := k + 1;
    }
    assert terms[..|terms|] == terms;
  }

  predicate HasKeyword(line: string, terms: seq<string>) {
    exists k :: 0 <= k < |terms| && Contains(ToLower(line), ToLower(terms[k]))
  }

  /** The window of lines [i-2, i+3) around line i, clamped to the text. */
  function WindowAt(lines: seq<string>, i: nat, terms: seq<string>): LineWindow
    requires i < |lines|
  {
    LineWindow(Join(lines[Max(0, i - 2)..Min(|lines|, i + 3)], "\n"), i + 1, Relevance(lines[i], terms))
  }

  /** One window for every one of the first n lines that contains a term, in line order. */
  function Windows(lines: seq<string>, n: nat, terms: seq<string>): seq<LineWindow>
    requires n <= |lines|
  {
    if n == 0 then []
    else
      var rest := Windows(lines, n - 1, terms);
      if HasKeyword(lines[n - 1], terms) then rest + [WindowAt(lines, n - 1, terms)] else rest
  }

  /** The window of one of the lines that holds a term. */
  predicate IsWindow(w: LineWindow, lines: seq<string>, terms: seq<string>) {
    1 <= w.lineNumber <= |lines| && HasKeyword(lines[w.lineNumber - 1], terms)
    && w == WindowAt(lines, w.lineNumber - 1, terms)
  }

  /** Windows of keyword lines among the first n, by increasing line number. */
  predicate WindowsBelow(r: seq<LineWindow>, lines: seq<string>, terms: seq<string>, n: nat) {
    && (forall k :: 0 <= k < |r| ==> IsWindow(r[k], lines, terms) && r[k].lineNumber <= n)
    && (forall k, j :: 0 <= k < j < |r| ==> r[k].lineNumber < r[j].lineNumber)
  }

  lemma {:induction false} WindowsSpec(lines: seq<string>, n: nat, terms: seq<string>)
    requires n <= |lines|
    ensures WindowsBelow(Windows(lines, n, terms), lines, terms, n)
  {
    if n > 0 {
      WindowsSpec(lines, n - 1, terms);
    }
  }

  /** Every keyword line gets its window. */
  lemma {:induction false} WindowsComplete(lines: seq<string>, n: nat, terms: seq<string>, i: nat)
    requires i < n <= |lines| && HasKeyword(lines[i], terms)
    ensures WindowAt(lines, i, terms) in Windows(lines, n, terms)
  {
    if i < n - 1 {
      WindowsComplete(lines, n - 1, terms, i);
    }
  }

  function RelevanceOf(w: LineWindow): real { w.relevance }
  function LineOf(w: LineWindow): nat { w.lineNumber }

  /** The five most relevant windows of the lines. */
  function TopWindows(lines: seq<string>, terms: seq<string>): seq<LineWindow> {
    Take(SortDesc(Windows(lines, |lines|, terms), RelevanceOf), 5)
  }

  function RelevantSections(content: string, terms: seq<string>): seq<LineWindow> {
    TopWindows(SplitOn(content, {'\n'}), terms)
  }

  method ExtractRelevantSections(content: string, terms: seq<string>) returns (sections: seq<LineWindow>)
    ensures sections == RelevantSections(content, terms)
  {
    var lines := SplitOn(content, {'\n'});
    var found := [];
    var i := 0;
    while i < |lines|
      invariant 0 <= i <= |lines|
      invariant found == Windows(lines, i, terms)
    {
      var line := lines[i];
      if HasKeyword(line, terms) {
        var relevance := CalculateRelevance(line, terms);
        found := found + [LineWindow(Join(lines[Max(0, i - 2)..Min(|lines|, i + 3)], "\n"), i + 1, relevance)];
      }
      i := i + 1;
    }
    sections := Take(SortDesc(found, RelevanceOf), 5);
  }

  /** Each window is the window of a distinct keyword line. */
  predicate KeywordWindows(r: seq<LineWindow>, lines: seq<string>, terms: seq<string>) {
    && (forall k :: 0 <= k < |r| ==> IsWindow(r[k], lines, terms))
    && (forall k, j :: 0 <= k < j < |r| ==> r[k].lineNumber != r[j].lineNumber)
  }

  /** Every window kept is at least as relevant as `x`, and five were kept. */
  predicate Outranks(r: seq<LineWindow>, x: LineWindow) {
    |r| == 5 && forall k :: 0 <= k < |r| ==> r[k].relevance >= x.relevance
  }

  /**
   * At most five windows, each around a distinct line holding a term, by
   * decreasing relevance; a keyword line left out is outranked by the five kept.
   */
  lemma TopWindowsSpec(lines: seq<string>, terms: seq<string>, i: nat)
    ensures |TopWindows(lines, terms)| <= 5
    ensures SortedDesc(TopWindows(lines, terms), RelevanceOf)
    ensures KeywordWindows(TopWindows(lines, terms), lines, terms)
    ensures i < |lines| && HasKeyword(lines[i], terms) && WindowAt(lines, i, terms) !in TopWindows(lines, terms) ==>
      Outranks(TopWindows(lines, terms), WindowAt(lines, i, terms))
  {
    var ws := Windows(lines, |lines|, terms);
    var r := TopWindows(lines, terms);
    WindowsSpec(lines, |lines|, terms);
    RankedNames(ws, RelevanceOf, LineOf, 5);
    forall k | 0 <= k < |r| ensures IsWindow(r[k], lines, terms) {
      assert r[k] in ws;
    }
    if i < |lines| && HasKeyword(lines[i], terms) {
      WindowsComplete(lines, |lines|, terms, i);
    }
  }
}
