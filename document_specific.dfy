/**
 * The search specialised to the short-drama PRD document: a fixed table of
 * sections, each scored against the enhanced query (title, keyword and content
 * hits, a boost for how-to questions on a feature description, a cap of 10),
 * the relevant sentences of each kept section picked greedily within a length
 * budget, and a fixed answer for "how do I create a persona" questions.
 */
module DocumentSpecific {
  import opened Text
  import opened Seqs
  import opened EnhancedQuery

  // ---------------------------------------------------------------------------
  // The section table
  // ---------------------------------------------------------------------------

  datatype SectionKind = FunctionDescription | Process | DetailedDescription

  datatype Section = Section(title: string, content: string, keywords: seq<string>, kind: SectionKind)

  /** The one document of the table. */
  const PrdSource: string := "短剧创作功能PRD.md"

  const PrdSections: seq<Section> := [
    Section(
      "创建人设-短剧解说",
      "创建人设-短剧解说功能允许用户创建和编辑角色人设，包括角色名称、性格特征、背景故事、说话风格等。\n\n"
      + "核心字段包括：\n- 角色基本信息：姓名、年龄、职业、外貌特征\n- 性格特征：性格标签、行为习惯、价值观\n"
      + "- 背景设定：成长经历、人际关系、重要事件\n- 语言风格：说话习惯、口头禅、语调特点\n\n"
      + "交互设计：\n- 分步骤引导式创建流程\n- 可视化的性格特征选择器\n- 实时预览角色卡片\n- 支持模板快速创建\n\n"
      + "操作步骤：\n1. 点击\"新建人设\"弹出创建表单\n2. 拖拽标签添加性格特征\n3. 文本框输入背景故事\n"
      + "4. 下拉选择说话风格模板\n5. 保存角色人设",
      ["人设", "角色", "创建", "人物设定", "性格", "背景", "说话风格"],
      FunctionDescription),
    Section(
      "用户流程",
      "短剧创作的完整流程：\n1. 开始创作短剧\n2. 创建角色人设\n3. 上传/管理素材\n"
      + "4. 基于人设和素材创建解说内容\n5. 预览和调整\n6. 导出/发布",
      ["流程", "步骤", "创建", "人设", "角色"],
      Process),
    Section(
      "功能模块详细说明",
      "创建人设-短剧解说功能提供角色创建向导，帮助用户系统化地构建角色人设。\n\n"
      + "具体包括：\n- 角色基本信息设置\n- 性格特征标签选择\n- 背景故事编写\n- 语言风格定义\n"
      + "- 角色卡片预览\n- 模板化快速创建\n\n"
      + "边界条件：\n- 角色名称不能为空\n- 性格标签最多选择10个\n- 背景故事字数限制1000字\n- 保存失败时显示错误提示",
      ["人设", "角色", "创建", "向导", "系统化", "构建"],
      DetailedDescription)
  ]

  // ---------------------------------------------------------------------------
  // Section relevance
  // ---------------------------------------------------------------------------

  datatype Location = InTitle | InKeywords | InContent

  datatype MatchedTerm = MatchedTerm(term: string, location: Location, weight: real)

  /** The sum of the weights of `ms`. */
  function TotalWeight(ms: seq<MatchedTerm>): real {
    if ms == [] then 0.0 else TotalWeight(ms[..|ms| - 1]) + ms[|ms| - 1].weight
  }

  /** One title hit, of weight 3, per term the lower-cased title contains. */
  function TitleHits(titleLower: string, terms: seq<string>): seq<MatchedTerm> {
    if terms == [] then []
    else
      var t := terms[|terms| - 1];
      TitleHits(titleLower, terms[..|terms| - 1])
        + (if Contains(titleLower, ToLower(t)) then [MatchedTerm(t, InTitle, 3.0)] else [])
  }

  /** A keyword and a term are related when either contains the other, ignoring case. */
  predicate Related(keyword: string, term: string) {
    Contains(ToLower(keyword), ToLower(term)) || Contains(ToLower(term), ToLower(keyword))
  }

  /** One keyword hit, of weight 2, per term related to `keyword`. */
  function PairHits(keyword: string, terms: seq<string>): seq<MatchedTerm> {
    if terms == [] then []
    else
      var t := terms[|terms| - 1];
      PairHits(keyword, terms[..|terms| - 1])
        + (if Related(keyword, t) then [MatchedTerm(t, InKeywords, 2.0)] else [])
  }

  /** The keyword hits, keyword by keyword. */
  function KeywordHits(keywords: seq<string>, terms: seq<string>): seq<MatchedTerm> {
    if keywords == [] then []
    else KeywordHits(keywords[..|keywords| - 1], terms) + PairHits(keywords[|keywords| - 1], terms)
  }

  /** One content hit per term that occurs in the content, weighing half its occurrence count. */
  function ContentHits(contentLower: string, terms: seq<string>): seq<MatchedTerm> {
    if terms == [] then []
    else
      var t := terms[|terms| - 1];
      var m := MatchCount(contentLower, ToLower(t));
      ContentHits(contentLower, terms[..|terms| - 1])
        + (if m > 0 then [MatchedTerm(t, InContent, m as real * 0.5)] else [])
  }

  /** All hits of a section, in the order the scoring finds them. */
  function Hits(section: Section, terms: seq<string>): seq<MatchedTerm> {
    TitleHits(ToLower(section.title), terms)
      + KeywordHits(section.keywords, terms)
      + ContentHits(ToLower(section.content), terms)
  }

  /** Questions asking how to do something weigh feature descriptions one and a half times. */
  function Boost(q: QuestionType, kind: SectionKind): real {
    if q == HowTo && kind == FunctionDescription then 1.5 else 1.0
  }

  /** The section's score: the boosted total weight of its hits, at most 10. */
  function SectionScore(section: Section, e: Enhanced): real {
    var raw := TotalWeight(Hits(section, e.expandedTerms)) * Boost(e.questionType, section.kind);
    if raw <= 10.0 then raw else 10.0
  }

  lemma TotalWeightSnoc(ms: seq<MatchedTerm>, m: MatchedTerm)
    ensures TotalWeight(ms + [m]) == TotalWeight(ms) + m.weight
  {
    assert (ms + [m])[..|ms|] == ms;
  }

  lemma {:induction false} TotalWeightAppend(a: seq<MatchedTerm>, b: seq<MatchedTerm>)
    ensures TotalWeight(a + b) == TotalWeight(a) + TotalWeight(b)
    decreases |b|
  {
    if b == [] {
      assert a + b == a;
    } else {
      var c := b[..|b| - 1];
      assert a + b == (a + c) + [b[|b| - 1]];
      TotalWeightSnoc(a + c, b[|b| - 1]);
      TotalWeightSnoc(c, b[|b| - 1]);
      assert c + [b[|b| - 1]] == b;
      TotalWeightAppend(a, c);
    }
  }

  /** Every hit weighs something. */
  predicate Weighty(ms: seq<MatchedTerm>) {
    forall k :: 0 <= k < |ms| ==> ms[k].weight > 0.0
  }

  lemma {:induction false} WeightyTotal(ms: seq<MatchedTerm>)
    requires Weighty(ms)
    ensures TotalWeight(ms) >= 0.0
    ensures TotalWeight(ms) > 0.0 <==> ms != []
  {
    if ms != [] {
      WeightyTotal(ms[..|ms| - 1]);
    }
  }

  /** Every hit weighs `w`. */
  predicate Uniform(ms: seq<MatchedTerm>, w: real) {
    forall k :: 0 <= k < |ms| ==> ms[k].weight == w
  }

  lemma {:induction false} UniformTotal(ms: seq<MatchedTerm>, w: real)
    requires Uniform(ms, w)
    ensures TotalWeight(ms) == w * |ms| as real
  {
    if ms != [] {
      UniformTotal(ms[..|ms| - 1], w);
    }
  }

  /** A title hit: located in the title, weighing 3, for a term the title contains. */
  predicate IsTitleHit(m: MatchedTerm, titleLower: string, terms: seq<string>) {
    m.location == InTitle && m.weight == 3.0 && m.term in terms && Contains(titleLower, ToLower(m.term))
  }

  lemma {:induction false} TitleHitsSound(titleLower: string, terms: seq<string>)
    ensures forall m :: m in TitleHits(titleLower, terms) ==> IsTitleHit(m, titleLower, terms)
  {
    if terms != [] {
      var init := terms[..|terms| - 1];
      TitleHitsSound(titleLower, init);
      forall m | m in TitleHits(titleLower, init) ensures IsTitleHit(m, titleLower, terms) {
        assert IsTitleHit(m, titleLower, init);
        var j :| 0 <= j < |init| && init[j] == m.term;
        assert terms[j] == m.term;
      }
    }
  }

  lemma {:induction false} TitleHitsComplete(titleLower: string, terms: seq<string>)
    ensures forall j :: 0 <= j < |terms| && Contains(titleLower, ToLower(terms[j])) ==>
      MatchedTerm(terms[j], InTitle, 3.0) in TitleHits(titleLower, terms)
  {
    if terms != [] {
      var init := terms[..|terms| - 1];
      TitleHitsComplete(titleLower, init);
      forall j | 0 <= j < |terms| && Contains(titleLower, ToLower(terms[j]))
        ensures MatchedTerm(terms[j], InTitle, 3.0) in TitleHits(titleLower, terms)
      {
        if j < |init| {
          assert terms[j] == init[j];
        }
      }
    }
  }

  /**
   * Title hits: exactly one hit of weight 3, located in the title, for each term
   * the lower-cased title contains; they add 3 per hit to the score.
   */
  lemma TitleHitsSpec(titleLower: string, terms: seq<string>)
    ensures forall m :: m in TitleHits(titleLower, terms) ==> IsTitleHit(m, titleLower, terms)
    ensures forall j :: 0 <= j < |terms| && Contains(titleLower, ToLower(terms[j])) ==>
      MatchedTerm(terms[j], InTitle, 3.0) in TitleHits(titleLower, terms)
    ensures TotalWeight(TitleHits(titleLower, terms)) == 3.0 * |TitleHits(titleLower, terms)| as real
  {
    var hs := TitleHits(titleLower, terms);
    TitleHitsSound(titleLower, terms);
    TitleHitsComplete(titleLower, terms);
    forall k | 0 <= k < |hs| ensures hs[k].weight == 3.0 {
      assert IsTitleHit(hs[k], titleLower, terms);
    }
    UniformTotal(hs, 3.0);
  }

  /** A keyword hit: located in the keywords, weighing 2, for a term related to the keyword. */
  predicate IsPairHit(m: MatchedTerm, keyword: string, terms: seq<string>) {
    m.location == InKeywords && m.weight == 2.0 && m.term in terms && Related(keyword, m.term)
  }

  lemma {:induction false} PairHitsSound(keyword: string, terms: seq<string>)
    ensures forall m :: m in PairHits(keyword, terms) ==> IsPairHit(m, keyword, terms)
  {
    if terms != [] {
      var init := terms[..|terms| - 1];
      PairHitsSound(keyword, init);
      forall m | m in PairHits(keyword, init) ensures IsPairHit(m, keyword, terms) {
        assert IsPairHit(m, keyword, init);
        var j :| 0 <= j < |init| && init[j] == m.term;
        assert terms[j] == m.term;
      }
    }
  }

  lemma {:induction false} PairHitsComplete(keyword: string, terms: seq<string>)
    ensures forall j :: 0 <= j < |terms| && Related(keyword, terms[j]) ==>
      MatchedTerm(terms[j], InKeywords, 2.0) in PairHits(keyword, terms)
  {
    if terms != [] {
      var init := terms[..|terms| - 1];
      PairHitsComplete(keyword, init);
      forall j | 0 <= j < |terms| && Related(keyword, terms[j])
        ensures MatchedTerm(terms[j], InKeywords, 2.0) in PairHits(keyword, terms)
      {
        if j < |init| {
          assert terms[j] == init[j];
        }
      }
    }
  }

  /** Some keyword is related to the hit's term. */
  predicate IsKeywordHit(m: MatchedTerm, keywords: seq<string>, terms: seq<string>) {
    exists i :: 0 <= i < |keywords| && IsPairHit(m, keywords[i], terms)
  }

  lemma {:induction false} KeywordHitsSound(keywords: seq<string>, terms: seq<string>)
    ensures forall m :: m in KeywordHits(keywords, terms) ==> IsKeywordHit(m, keywords, terms)
  {
    if keywords != [] {
      var init := keywords[..|keywords| - 1];
      var last := |keywords| - 1;
      KeywordHitsSound(init, terms);
      PairHitsSound(keywords[last], terms);
      forall m | m in KeywordHits(keywords, terms) ensures IsKeywordHit(m, keywords, terms) {
        if m in KeywordHits(init, terms) {
          var i :| 0 <= i < |init| && IsPairHit(m, init[i], terms);
          assert keywords[i] == init[i];
        } else {
          assert IsPairHit(m, keywords[last], terms);
        }
      }
    }
  }

  lemma {:induction false} KeywordHitsComplete(keywords: seq<string>, terms: seq<string>)
    ensures forall i, j :: 0 <= i < |keywords| && 0 <= j < |terms| && Related(keywords[i], terms[j]) ==>
      MatchedTerm(terms[j], InKeywords, 2.0) in KeywordHits(keywords, terms)
  {
    if keywords != [] {
      var init := keywords[..|keywords| - 1];
      KeywordHitsComplete(init, terms);
      PairHitsComplete(keywords[|keywords| - 1], terms);
      forall i, j | 0 <= i < |keywords| && 0 <= j < |terms| && Related(keywords[i], terms[j])
        ensures MatchedTerm(terms[j], InKeywords, 2.0) in KeywordHits(keywords, terms)
      {
        if i < |init| {
          assert keywords[i] == init[i];
        }
      }
    }
  }

  /**
   * Keyword hits: one hit of weight 2, located in the keywords, for each
   * (keyword, term) pair in which either contains the other, and no others;
   * they add 2 per hit to the score.
   */
  lemma KeywordHitsSpec(keywords: seq<string>, terms: seq<string>)
    ensures forall m :: m in KeywordHits(keywords, terms) ==> IsKeywordHit(m, keywords, terms)
    ensures forall i, j :: 0 <= i < |keywords| && 0 <= j < |terms| && Related(keywords[i], terms[j]) ==>
      MatchedTerm(terms[j], InKeywords, 2.0) in KeywordHits(keywords, terms)
    ensures TotalWeight(KeywordHits(keywords, terms)) == 2.0 * |KeywordHits(keywords, terms)| as real
  {
    var hs := KeywordHits(keywords, terms);
    KeywordHitsSound(keywords, terms);
    KeywordHitsComplete(keywords, terms);
    forall k | 0 <= k < |hs| ensures hs[k].weight == 2.0 {
      assert IsKeywordHit(hs[k], keywords, terms);
    }
    UniformTotal(hs, 2.0);
  }

  /** A content hit: located in the content, weighing half the term's occurrence count. */
  predicate IsContentHit(m: MatchedTerm, contentLower: string, terms: seq<string>) {
    m.location == InContent && m.term in terms && Contains(contentLower, ToLower(m.term))
    && m.weight == MatchCount(contentLower, ToLower(m.term)) as real * 0.5
  }

  lemma {:induction false} ContentHitsSound(contentLower: string, terms: seq<string>)
    ensures forall m :: m in ContentHits(contentLower, terms) ==> IsContentHit(m, contentLower, terms)
  {
    if terms != [] {
      var init := terms[..|terms| - 1];
      ContentHitsSound(contentLower, init);
      MatchCountPositive(contentLower, ToLower(terms[|terms| - 1]));
      forall m | m in ContentHits(contentLower, init) ensures IsContentHit(m, contentLower, terms) {
        assert IsContentHit(m, contentLower, init);
        var j :| 0 <= j < |init| && init[j] == m.term;
        assert terms[j] == m.term;
      }
    }
  }

  lemma {:induction false} ContentHitsComplete(contentLower: string, terms: seq<string>)
    ensures forall j :: 0 <= j < |terms| && Contains(contentLower, ToLower(terms[j])) ==>
      MatchedTerm(terms[j], InContent, MatchCount(contentLower, ToLower(terms[j])) as real * 0.5)
        in ContentHits(contentLower, terms)
  {
    if terms != [] {
      var init := terms[..|terms| - 1];
      ContentHitsComplete(contentLower, init);
      MatchCountPositive(contentLower, ToLower(terms[|terms| - 1]));
      forall j | 0 <= j < |terms| && Contains(contentLower, ToLower(terms[j]))
        ensures MatchedTerm(terms[j], InContent, MatchCount(contentLower, ToLower(terms[j])) as real * 0.5)
          in ContentHits(contentLower, terms)
      {
        if j < |init| {
          assert terms[j] == init[j];
        }
      }
    }
  }

  lemma WeightyAppend(a: seq<MatchedTerm>, b: seq<MatchedTerm>)
    requires Weighty(a) && Weighty(b)
    ensures Weighty(a + b)
  {
    forall k | 0 <= k < |a + b| ensures (a + b)[k].weight > 0.0 {
      if k >= |a| {
        assert (a + b)[k] == b[k - |a|];
      }
    }
  }

  lemma {:induction false} TitleHitsWeighty(titleLower: string, terms: seq<string>)
    ensures Weighty(TitleHits(titleLower, terms))
  {
    if terms != [] {
      TitleHitsWeighty(titleLower, terms[..|terms| - 1]);
      var t := terms[|terms| - 1];
      WeightyAppend(TitleHits(titleLower, terms[..|terms| - 1]),
        if Contains(titleLower, ToLower(t)) then [MatchedTerm(t, InTitle, 3.0)] else []);
    }
  }

  lemma {:induction false} PairHitsWeighty(keyword: string, terms: seq<string>)
    ensures Weighty(PairHits(keyword, terms))
  {
    if terms != [] {
      PairHitsWeighty(keyword, terms[..|terms| - 1]);
      var t := terms[|terms| - 1];
      WeightyAppend(PairHits(keyword, terms[..|terms| - 1]),
        if Related(keyword, t) then [MatchedTerm(t, InKeywords, 2.0)] else []);
    }
  }

  lemma {:induction false} KeywordHitsWeighty(keywords: seq<string>, terms: seq<string>)
    ensures Weighty(KeywordHits(keywords, terms))
  {
    if keywords != [] {
      KeywordHitsWeighty(keywords[..|keywords| - 1], terms);
      PairHitsWeighty(keywords[|keywords| - 1], terms);
      WeightyAppend(KeywordHits(keywords[..|keywords| - 1], terms), PairHits(keywords[|keywords| - 1], terms));
    }
  }

  lemma {:induction false} ContentHitsWeighty(contentLower: string, terms: seq<string>)
    ensures Weighty(ContentHits(contentLower, terms))
  {
    if terms != [] {
      ContentHitsWeighty(contentLower, terms[..|terms| - 1]);
      var t := terms[|terms| - 1];
      var m := MatchCount(contentLower, ToLower(t));
      WeightyAppend(ContentHits(contentLower, terms[..|terms| - 1]),
        if m > 0 then [MatchedTerm(t, InContent, m as real * 0.5)] else []);
    }
  }

  lemma HitsWeighty(section: Section, terms: seq<string>)
    ensures Weighty(Hits(section, terms))
  {
    var a := TitleHits(ToLower(section.title), terms);
    var b := KeywordHits(section.keywords, terms);
    var c := ContentHits(ToLower(section.content), terms);
    TitleHitsWeighty(ToLower(section.title), terms);
    KeywordHitsWeighty(section.keywords, terms);
    ContentHitsWeighty(ToLower(section.content), terms);
    WeightyAppend(a, b);
    WeightyAppend(a + b, c);
  }

  /**
   * The score lies in [0, 10]; it is positive exactly when some term hit the
   * section, and it is either the cap or the boosted total weight of the hits.
   */
  lemma SectionScoreSpec(section: Section, e: Enhanced)
    ensures 0.0 <= SectionScore(section, e) <= 10.0
    ensures SectionScore(section, e) > 0.0 <==> Hits(section, e.expandedTerms) != []
    ensures SectionScore(section, e) == 10.0
      || SectionScore(section, e) == TotalWeight(Hits(section, e.expandedTerms)) * Boost(e.questionType, section.kind)
  {
    HitsWeighty(section, e.expandedTerms);
    WeightyTotal(Hits(section, e.expandedTerms));
  }

  /**
   * A how-to question on a feature description scores one and a half times what
   * any other question with the same terms scores, up to the cap.
   */
  lemma HowToBoost(section: Section, e: Enhanced, q: QuestionType)
    requires e.questionType == HowTo && section.kind == FunctionDescription && q != HowTo
    ensures var plain := SectionScore(section, e.(questionType := q));
      SectionScore(section, e) == if 1.5 * plain <= 10.0 then 1.5 * plain else 10.0
  {
    HitsWeighty(section, e.expandedTerms);
    WeightyTotal(Hits(section, e.expandedTerms));
  }

  lemma TitleHitsStep(titleLower: string, terms: seq<string>, i: nat)
    requires i < |terms|
    ensures TitleHits(titleLower, terms[..i + 1]) == TitleHits(titleLower, terms[..i])
      + (if Contains(titleLower, ToLower(terms[i])) then [MatchedTerm(terms[i], InTitle, 3.0)] else [])
  {
    assert terms[..i + 1][..i] == terms[..i];
  }

  lemma PairHitsStep(keyword: string, terms: seq<string>, j: nat)
    requires j < |terms|
    ensures PairHits(keyword, terms[..j + 1]) == PairHits(keyword, terms[..j])
      + (if Related(keyword, terms[j]) then [MatchedTerm(terms[j], InKeywords, 2.0)] else [])
  {
    assert terms[..j + 1][..j] == terms[..j];
  }

  lemma KeywordHitsStep(titled: seq<MatchedTerm>, keywords: seq<string>, terms: seq<string>, k: nat)
    requires k < |keywords|
    ensures titled + KeywordHits(keywords[..k + 1], terms) == titled + KeywordHits(keywords[..k], terms) + PairHits(keywords[k], terms)
  {
    assert keywords[..k + 1][..k] == keywords[..k];
  }

  lemma ContentHitsStep(contentLower: string, terms: seq<string>, i: nat)
    requires i < |terms|
    ensures var m := MatchCount(contentLower, ToLower(terms[i]));
      ContentHits(contentLower, terms[..i + 1]) == ContentHits(contentLower, terms[..i])
        + (if m > 0 then [MatchedTerm(terms[i], InContent, m as real * 0.5)] else [])
  {
    assert terms[..i + 1][..i] == terms[..i];
  }

  /** The title pass: +3 for each term the title contains. */
  method AddTitleHits(titleLower: string, terms: seq<string>, score0: real, acc: seq<MatchedTerm>)
    returns (score: real, matchedTerms: seq<MatchedTerm>)
    requires score0 == TotalWeight(acc)
    ensures matchedTerms == acc + TitleHits(titleLower, terms)
    ensures score == TotalWeight(matchedTerms)
  {
    score, matchedTerms := score0, acc;
    var i := 0;
    while i < |terms|
      invariant 0 <= i <= |terms|
      invariant matchedTerms == acc + TitleHits(titleLower, terms[..i])
      invariant score == TotalWeight(matchedTerms)
    {
      var termLower := ToLower(terms[i]);
      TitleHitsStep(titleLower, terms, i);
      if Contains(titleLower, termLower) {
        TotalWeightSnoc(matchedTerms, MatchedTerm(terms[i], InTitle, 3.0));
        score := score + 3.0;
        matchedTerms := matchedTerms + [MatchedTerm(terms[i], InTitle, 3.0)];
      }
      i := i + 1;
    }
    assert terms[..i] == terms;
  }

  /** The pairs of one keyword: +2 for each term related to it. */
  method AddPairHits(keyword: string, terms: seq<string>, score0: real, acc: seq<MatchedTerm>)
    returns (score: real, matchedTerms: seq<MatchedTerm>)
    requires score0 == TotalWeight(acc)
    ensures matchedTerms == acc + PairHits(keyword, terms)
    ensures score == TotalWeight(matchedTerms)
  {
    score, matchedTerms := score0, acc;
    var j := 0;
    while j < |terms|
      invariant 0 <= j <= |terms|
      invariant matchedTerms == acc + PairHits(keyword, terms[..j])
      invariant score == TotalWeight(matchedTerms)
    {
      PairHitsStep(keyword, terms, j);
      if Contains(ToLower(keyword), ToLower(terms[j])) || Contains(ToLower(terms[j]), ToLower(keyword)) {
        TotalWeightSnoc(matchedTerms, MatchedTerm(terms[j], InKeywords, 2.0));
        score := score + 2.0;
        matchedTerms := matchedTerms + [MatchedTerm(terms[j], InKeywords, 2.0)];
      }
      j := j + 1;
    }
    assert terms[..j] == terms;
  }

  /** The keyword pass: +2 for each (keyword, term) pair where either contains the other. */
  method AddKeywordHits(keywords: seq<string>, terms: seq<string>, score0: real, acc: seq<MatchedTerm>)
    returns (score: real, matchedTerms: seq<MatchedTerm>)
    requires score0 == TotalWeight(acc)
    ensures matchedTerms == acc + KeywordHits(keywords, terms)
    ensures score == TotalWeight(matchedTerms)
  {
    score, matchedTerms := score0, acc;
    var k := 0;
    while k < |keywords|
      invariant 0 <= k <= |keywords|
      invariant matchedTerms == acc + KeywordHits(keywords[..k], terms)
      invariant score == TotalWeight(matchedTerms)
    {
      score, matchedTerms := AddPairHits(keywords[k], terms, score, matchedTerms);
      KeywordHitsStep(acc, keywords, terms, k);
      k := k + 1;
    }
    assert keywords[..k] == keywords;
  }

  /** The content pass: +0.5 per non-overlapping occurrence of each term. */
  method AddContentHits(contentLower: string, terms: seq<string>, score0: real, acc: seq<MatchedTerm>)
    returns (score: real, matchedTerms: seq<MatchedTerm>)
    requires score0 == TotalWeight(acc)
    ensures matchedTerms == acc + ContentHits(contentLower, terms)
    ensures score == TotalWeight(matchedTerms)
  {
    score, matchedTerms := score0, acc;
    var i := 0;
    while i < |terms|
      invariant 0 <= i <= |terms|
      invariant matchedTerms == acc + ContentHits(contentLower, terms[..i])
      invariant score == TotalWeight(matchedTerms)
    {
      var termLower := ToLower(terms[i]);
      var matches := MatchCount(contentLower, termLower);
      ContentHitsStep(contentLower, terms, i);
      if matches > 0 {
        TotalWeightSnoc(matchedTerms, MatchedTerm(terms[i], InContent, matches as real * 0.5));
        score := score + matches as real * 0.5;
        matchedTerms := matchedTerms + [MatchedTerm(terms[i], InContent, matches as real * 0.5)];
      }
      i := i + 1;
    }
    assert terms[..i] == terms;
  }

  /** calculateSectionRelevance: three passes over the terms accumulate the score and the hits. */
  method CalculateSectionRelevance(section: Section, e: Enhanced) returns (score: real, matchedTerms: seq<MatchedTerm>)
    ensures matchedTerms == Hits(section, e.expandedTerms)
    ensures score == SectionScore(section, e)
  {
    var contentLower := ToLower(section.content);
    var titleLower := ToLower(section.title);
    score, matchedTerms := AddTitleHits(titleLower, e.expandedTerms, 0.0, []);
    assert [] + TitleHits(titleLower, e.expandedTerms) == TitleHits(titleLower, e.expandedTerms);
    score, matchedTerms := AddKeywordHits(section.keywords, e.expandedTerms, score, matchedTerms);
    score, matchedTerms := AddContentHits(contentLower, e.expandedTerms, score, matchedTerms);
    if e.questionType == HowTo && section.kind == FunctionDescription {
      score := score * 1.5;
    }
    score := if score <= 10.0 then score else 10.0;
  }

  // ---------------------------------------------------------------------------
  // Relevant content of a section
  // ---------------------------------------------------------------------------

  /** The default length budget of the selected sentences. */
  const MaxContentLength: nat := 300

  datatype Candidate = Candidate(sentence: string, relevance: nat)

  function RelevanceKey(c: Candidate): real { c.relevance as real }

  /** The number of terms the lower-cased sentence contains. */
  function TermsIn(sentenceLower: string, terms: seq<string>): nat {
    if terms == [] then 0
    else
      var hit := if Contains(sentenceLower, ToLower(terms[|terms| - 1])) then 1 else 0;
      TermsIn(sentenceLower, terms[..|terms| - 1]) + hit
  }

  lemma {:induction false} TermsInSpec(sentenceLower: string, terms: seq<string>)
    ensures TermsIn(sentenceLower, terms) <= |terms|
    ensures TermsIn(sentenceLower, terms) > 0 <==> ContainsAny(sentenceLower, Lowered(terms))
  {
    if terms != [] {
      var init := terms[..|terms| - 1];
      TermsInSpec(sentenceLower, init);
      var ls := Lowered(terms);
      assert Lowered(init) == ls[..|init|];
      if TermsIn(sentenceLower, terms) > 0 {
        if TermsIn(sentenceLower, init) > 0 {
          var k :| 0 <= k < |init| && Contains(sentenceLower, Lowered(init)[k]);
          assert ls[k] == Lowered(init)[k];
        } else {
          assert ls[|init|] == ToLower(terms[|terms| - 1]);
        }
      }
      if ContainsAny(sentenceLower, ls) {
        var k :| 0 <= k < |ls| && Contains(sentenceLower, ls[k]);
        if k < |init| {
          assert Lowered(init)[k] == ls[k];
        }
      }
    }
  }

  lemma TermsInStep(sentenceLower: string, terms: seq<string>, j: nat)
    requires j < |terms|
    ensures TermsIn(sentenceLower, terms[..j + 1])
      == TermsIn(sentenceLower, terms[..j]) + (if Contains(sentenceLower, ToLower(terms[j])) then 1 else 0)
  {
    assert terms[..j + 1][..j] == terms[..j];
  }

  /** The terms, lower-cased. */
  function Lowered(terms: seq<string>): (r: seq<string>)
    ensures |r| == |terms|
    ensures forall k :: 0 <= k < |terms| ==> r[k] == ToLower(terms[k])
  {
    if terms == [] then [] else Lowered(terms[..|terms| - 1]) + [ToLower(terms[|terms| - 1])]
  }

  /** Each sentence, trimmed, with the number of terms it contains. */
  function Scanned(sentences: seq<string>, terms: seq<string>): (r: seq<Candidate>)
    ensures |r| == |sentences|
  {
    seq(|sentences|, k requires 0 <= k < |sentences| => Candidate(Trim(sentences[k]), TermsIn(ToLower(sentences[k]), terms)))
  }

  /** A sentence worth reporting: at least 10 characters once trimmed, and at least one term. */
  predicate Worth(c: Candidate) {
    |c.sentence| >= 10 && c.relevance > 0
  }

  function Worthwhile(cs: seq<Candidate>): seq<Candidate> {
    if cs == [] then []
    else Worthwhile(cs[..|cs| - 1]) + (if Worth(cs[|cs| - 1]) then [cs[|cs| - 1]] else [])
  }

  /** The trimmed sentences of at least 10 characters that contain a term, with their term counts. */
  function Candidates(sentences: seq<string>, terms: seq<string>): seq<Candidate> {
    Worthwhile(Scanned(sentences, terms))
  }

  lemma ScannedAt(sentences: seq<string>, terms: seq<string>, k: nat)
    requires k < |sentences|
    ensures Scanned(sentences, terms)[k] == Candidate(Trim(sentences[k]), TermsIn(ToLower(sentences[k]), terms))
  {
  }

  lemma {:induction false} WorthwhileSpec(cs: seq<Candidate>)
    ensures forall c :: c in Worthwhile(cs) ==> c in cs && Worth(c)
    ensures forall k :: 0 <= k < |cs| && Worth(cs[k]) ==> cs[k] in Worthwhile(cs)
  {
    if cs != [] {
      var init := cs[..|cs| - 1];
      WorthwhileSpec(init);
      forall k | 0 <= k < |cs| && Worth(cs[k]) ensures cs[k] in Worthwhile(cs) {
        if k < |init| {
          assert cs[k] == init[k];
        }
      }
    }
  }

  /** A candidate stems from the sentence it trims. */
  predicate FromSentence(c: Candidate, sentences: seq<string>, terms: seq<string>) {
    exists k :: 0 <= k < |sentences| && c == Candidate(Trim(sentences[k]), TermsIn(ToLower(sentences[k]), terms))
  }

  /**
   * Candidates: each is a trimmed sentence of at least 10 characters that contains
   * at least one term, counted by the terms it contains; every such sentence is one.
   */
  lemma CandidatesSpec(sentences: seq<string>, terms: seq<string>)
    ensures forall c :: c in Candidates(sentences, terms) ==>
      |c.sentence| >= 10 && c.relevance >= 1 && FromSentence(c, sentences, terms)
    ensures forall k :: 0 <= k < |sentences| && |Trim(sentences[k])| >= 10 && TermsIn(ToLower(sentences[k]), terms) > 0 ==>
      Candidate(Trim(sentences[k]), TermsIn(ToLower(sentences[k]), terms)) in Candidates(sentences, terms)
  {
    var cs := Scanned(sentences, terms);
    WorthwhileSpec(cs);
    forall c | c in Worthwhile(cs)
      ensures |c.sentence| >= 10 && c.relevance >= 1 && FromSentence(c, sentences, terms)
    {
      assert c in cs && Worth(c);
      var k :| 0 <= k < |cs| && cs[k] == c;
      ScannedAt(sentences, terms, k);
      assert c == Candidate(Trim(sentences[k]), TermsIn(ToLower(sentences[k]), terms));
    }
    forall k | 0 <= k < |sentences| && |Trim(sentences[k])| >= 10 && TermsIn(ToLower(sentences[k]), terms) > 0
      ensures Candidate(Trim(sentences[k]), TermsIn(ToLower(sentences[k]), terms)) in Worthwhile(cs)
    {
      ScannedAt(sentences, terms, k);
    }
  }

  /** One step of the sentence scan: the next sentence, if worth it, joins the candidates. */
  lemma CandidatesStep(sentences: seq<string>, terms: seq<string>, i: nat)
    requires i < |sentences|
    ensures var c := Candidate(Trim(sentences[i]), TermsIn(ToLower(sentences[i]), terms));
      Candidates(sentences[..i + 1], terms) == Candidates(sentences[..i], terms) + (if Worth(c) then [c] else [])
  {
    assert sentences[..i + 1][..i] == sentences[..i];
    var cs := Scanned(sentences[..i + 1], terms);
    assert cs[..i] == Scanned(sentences[..i], terms);
  }

  /** The selected sentences, each followed by the full stop '。'. */
  function Punctuated(items: seq<Candidate>): string {
    if items == [] then "" else items[0].sentence + "。" + Punctuated(items[1..])
  }

  /** The summed lengths of the sentences. */
  function SumLengths(items: seq<Candidate>): nat {
    if items == [] then 0 else |items[0].sentence| + SumLengths(items[1..])
  }

  /** The greedy selection: sentences in order while the summed lengths stay within the budget. */
  function Greedy(items: seq<Candidate>, maxLength: nat, used: nat): string {
    if items == [] || used + |items[0].sentence| > maxLength then ""
    else items[0].sentence + "。" + Greedy(items[1..], maxLength, used + |items[0].sentence|)
  }

  /** How many sentences the greedy selection takes. */
  function Taken(items: seq<Candidate>, maxLength: nat, used: nat): nat {
    if items == [] || used + |items[0].sentence| > maxLength then 0
    else 1 + Taken(items[1..], maxLength, used + |items[0].sentence|)
  }

  /**
   * The greedy selection is a prefix of the sentences, each followed by '。': its
   * lengths fit the budget, the next sentence would not, and it is empty exactly
   * when it takes nothing.
   */
  lemma {:induction false} GreedySpec(items: seq<Candidate>, maxLength: nat, used: nat)
    requires used <= maxLength
    ensures Taken(items, maxLength, used) <= |items|
    ensures Greedy(items, maxLength, used) == Punctuated(items[..Taken(items, maxLength, used)])
    ensures used + SumLengths(items[..Taken(items, maxLength, used)]) <= maxLength
    ensures Taken(items, maxLength, used) < |items| ==>
      used + SumLengths(items[..Taken(items, maxLength, used)]) + |items[Taken(items, maxLength, used)].sentence| > maxLength
    ensures Greedy(items, maxLength, used) == "" <==> Taken(items, maxLength, used) == 0
  {
    if items != [] && used + |items[0].sentence| <= maxLength {
      var rest := items[1..];
      var u := used + |items[0].sentence|;
      GreedySpec(rest, maxLength, u);
      var t := Taken(rest, maxLength, u);
      assert items[..t + 1][1..] == rest[..t];
      assert items[..t + 1][0] == items[0];
      if t < |rest| {
        assert items[t + 1] == rest[t];
      }
    } else {
      assert items[..0] == [];
    }
  }

  /** extractRelevantContent as a value: the greedy selection, or the start of the content. */
  function RelevantContent(content: string, terms: seq<string>, maxLength: nat): string {
    var picked := Greedy(SortDesc(Candidates(SplitOn(content, SentenceEnds), terms), RelevanceKey), maxLength, 0);
    if picked != "" then picked else Substring(content, 0, maxLength) + "..."
  }

  /**
   * The relevant content is the punctuated greedy prefix of the candidates
   * ordered by term count when it takes any sentence, and otherwise the first
   * `maxLength` characters of the content followed by "...".
   */
  lemma RelevantContentSpec(content: string, terms: seq<string>, maxLength: nat)
    ensures var sorted := SortDesc(Candidates(SplitOn(content, SentenceEnds), terms), RelevanceKey);
      var t := Taken(sorted, maxLength, 0);
      SortedDesc(sorted, RelevanceKey)
      && (t == 0 ==> RelevantContent(content, terms, maxLength) == Substring(content, 0, maxLength) + "...")
      && t <= |sorted|
      && (t > 0 ==> RelevantContent(content, terms, maxLength) == Punctuated(sorted[..t])
                    && SumLengths(sorted[..t]) <= maxLength)
  {
    var sorted := SortDesc(Candidates(SplitOn(content, SentenceEnds), terms), RelevanceKey);
    GreedySpec(sorted, maxLength, 0);
  }

  /** The relevance of a sentence: one for each term it contains. */
  method CountTerms(sentenceLower: string, terms: seq<string>) returns (relevance: nat)
    ensures relevance == TermsIn(sentenceLower, terms)
  {
    relevance := 0;
    var j := 0;
    while j < |terms|
      invariant 0 <= j <= |terms|
      invariant relevance == TermsIn(sentenceLower, terms[..j])
    {
      TermsInStep(sentenceLower, terms, j);
      if Contains(sentenceLower, ToLower(terms[j])) {
        relevance := relevance + 1;
      }
      j := j + 1;
    }
    assert terms[..j] == terms;
  }

  /** The sentence scan: keep each sentence of 10 or more trimmed characters that contains a term. */
  method ScanSentences(sentences: seq<string>, terms: seq<string>) returns (relevant: seq<Candidate>)
    ensures relevant == Candidates(sentences, terms)
  {
    relevant := [];
    var i := 0;
    while i < |sentences|
      invariant 0 <= i <= |sentences|
      invariant relevant == Candidates(sentences[..i], terms)
    {
      var sentence := sentences[i];
      CandidatesStep(sentences, terms, i);
      if |Trim(sentence)| >= 10 {
        var relevance := CountTerms(ToLower(sentence), terms);
        if relevance > 0 {
          relevant := relevant + [Candidate(Trim(sentence), relevance)];
        }
      }
      i := i + 1;
    }
    assert sentences[..i] == sentences;
  }

  /** The greedy selection: append each sentence and '。' until the next would exceed the budget. */
  method SelectGreedily(sorted: seq<Candidate>, maxLength: nat) returns (result: string)
    ensures result == Greedy(sorted, maxLength, 0)
  {
    result := "";
    var currentLength: nat := 0;
    var k := 0;
    while k < |sorted|
      invariant 0 <= k <= |sorted|
      invariant result + Greedy(sorted[k..], maxLength, currentLength) == Greedy(sorted, maxLength, 0)
    {
      var item := sorted[k];
      assert sorted[k..][0] == item && sorted[k..][1..] == sorted[k + 1..];
      if currentLength + |item.sentence| > maxLength {
        assert result == Greedy(sorted, maxLength, 0);
        break;
      }
      result := result + item.sentence + "。";
      currentLength := currentLength + |item.sentence|;
      k := k + 1;
    }
    if k == |sorted| {
      assert sorted[k..] == [];
    }
  }

  /** extractRelevantContent: filter and count the sentences, order them, then take them greedily. */
  method ExtractRelevantContent(content: string, terms: seq<string>, maxLength: nat) returns (r: string)
    ensures r == RelevantContent(content, terms, maxLength)
  {
    var sentences := SplitOn(content, SentenceEnds);
    var relevant := ScanSentences(sentences, terms);
    var sorted := SortDesc(relevant, RelevanceKey);
    var result := SelectGreedily(sorted, maxLength);
    r := if result != "" then result else Substring(content, 0, maxLength) + "...";
  }

  // ---------------------------------------------------------------------------
  // The persona-creation search
  // ---------------------------------------------------------------------------

  datatype SectionResult = SectionResult(
    id: string,
    title: string,
    content: string,
    score: real,
    kind: SectionKind,
    source: string,
    keywords: seq<string>,
    matchedTerms: seq<MatchedTerm>)

  datatype PersonaSearch = PersonaSearch(
    query: string,
    enhancedQuery: Enhanced,
    results: seq<SectionResult>,
    totalResults: nat,
    searchType: string)

  /** `section_` followed by the title with each run of whitespace replaced by '_'. */
  function SectionId(title: string): string {
    "section_" + Join(Words(title), "_")
  }

  function ScoreOf(r: SectionResult): real { r.score }

  /** The result reported for a section. */
  function ResultOf(section: Section, e: Enhanced): SectionResult {
    SectionResult(
      SectionId(section.title), section.title,
      RelevantContent(section.content, e.expandedTerms, MaxContentLength),
      SectionScore(section, e), section.kind, PrdSource, section.keywords,
      Hits(section, e.expandedTerms))
  }

  /** The result of every section, in table order. */
  function Scored(sections: seq<Section>, e: Enhanced): (r: seq<SectionResult>)
    ensures |r| == |sections|
  {
    seq(|sections|, k requires 0 <= k < |sections| => ResultOf(sections[k], e))
  }

  /** The results that score above zero, in order. */
  function Positive(rs: seq<SectionResult>): seq<SectionResult> {
    if rs == [] then []
    else Positive(rs[..|rs| - 1]) + (if rs[|rs| - 1].score > 0.0 then [rs[|rs| - 1]] else [])
  }

  /** The results of the sections that score above zero, in table order. */
  function Kept(sections: seq<Section>, e: Enhanced): seq<SectionResult> {
    Positive(Scored(sections, e))
  }

  /** searchPersonaCreation for the enhanced query `e` of `query`. */
  function PersonaSearchOf(query: string, e: Enhanced, sections: seq<Section>): PersonaSearch {
    var kept := Kept(sections, e);
    PersonaSearch(query, e, SortDesc(kept, ScoreOf), |kept|, "document_specific")
  }

  predicate AllPositive(rs: seq<SectionResult>) {
    forall k :: 0 <= k < |rs| ==> rs[k].score > 0.0
  }

  /** Every result is the result of some section of the table. */
  predicate FromSections(rs: seq<SectionResult>, sections: seq<Section>, e: Enhanced) {
    forall x :: x in rs ==> exists k :: 0 <= k < |sections| && x == ResultOf(sections[k], e)
  }

  /** Every section that scores above zero has its result among `rs`. */
  predicate KeepsPositive(rs: seq<SectionResult>, sections: seq<Section>, e: Enhanced) {
    forall k :: 0 <= k < |sections| && SectionScore(sections[k], e) > 0.0 ==> ResultOf(sections[k], e) in rs
  }

  lemma ScoredAt(sections: seq<Section>, e: Enhanced, k: nat)
    requires k < |sections|
    ensures Scored(sections, e)[k] == ResultOf(sections[k], e)
  {
  }

  lemma {:induction false} PositiveSpec(rs: seq<SectionResult>)
    ensures forall x :: x in Positive(rs) ==> x in rs && x.score > 0.0
    ensures forall k :: 0 <= k < |rs| && rs[k].score > 0.0 ==> rs[k] in Positive(rs)
  {
    if rs != [] {
      var init := rs[..|rs| - 1];
      PositiveSpec(init);
      forall k | 0 <= k < |rs| && rs[k].score > 0.0 ensures rs[k] in Positive(rs) {
        if k < |init| {
          assert rs[k] == init[k];
        }
      }
    }
  }

  lemma KeptSpec(sections: seq<Section>, e: Enhanced)
    ensures AllPositive(Kept(sections, e))
    ensures FromSections(Kept(sections, e), sections, e)
    ensures KeepsPositive(Kept(sections, e), sections, e)
  {
    var rs := Scored(sections, e);
    var kept := Positive(rs);
    PositiveSpec(rs);
    forall k | 0 <= k < |kept| ensures kept[k].score > 0.0 {
      assert kept[k] in kept;
    }
    forall x | x in kept ensures exists k :: 0 <= k < |sections| && x == ResultOf(sections[k], e) {
      var k :| 0 <= k < |rs| && rs[k] == x;
      ScoredAt(sections, e, k);
    }
    forall k | 0 <= k < |sections| && SectionScore(sections[k], e) > 0.0
      ensures ResultOf(sections[k], e) in kept
    {
      ScoredAt(sections, e, k);
    }
  }

  /** One step of the section loop: the next section's result joins when it scores above zero. */
  lemma KeptStep(sections: seq<Section>, e: Enhanced, i: nat)
    requires i < |sections|
    ensures Kept(sections[..i + 1], e) == Kept(sections[..i], e)
      + (if SectionScore(sections[i], e) > 0.0 then [ResultOf(sections[i], e)] else [])
  {
    assert sections[..i + 1][..i] == sections[..i];
    var rs := Scored(sections[..i + 1], e);
    assert rs[..i] == Scored(sections[..i], e);
  }

  /**
   * The search reports exactly the sections scoring above zero, ordered by score
   * descending, with the count of them as its total.
   */
  lemma PersonaSearchSpec(query: string, e: Enhanced, sections: seq<Section>)
    ensures var r := PersonaSearchOf(query, e, sections);
      r.totalResults == |r.results| && SortedDesc(r.results, ScoreOf)
      && AllPositive(r.results)
      && FromSections(r.results, sections, e)
      && KeepsPositive(r.results, sections, e)
  {
    var kept := Kept(sections, e);
    KeptSpec(sections, e);
    var sorted := SortDesc(kept, ScoreOf);
    SortDescMembers(kept, ScoreOf);
    forall k | 0 <= k < |sorted| ensures sorted[k].score > 0.0 {
      assert sorted[k] in kept;
      var j :| 0 <= j < |kept| && kept[j] == sorted[k];
    }
    forall x | x in sorted ensures exists k :: 0 <= k < |sections| && x == ResultOf(sections[k], e) {
      assert x in kept;
    }
  }

  lemma ResultOfParts(section: Section, e: Enhanced, content: string, score: real, matchedTerms: seq<MatchedTerm>)
    requires content == RelevantContent(section.content, e.expandedTerms, MaxContentLength)
    requires score == SectionScore(section, e) && matchedTerms == Hits(section, e.expandedTerms)
    ensures SectionResult(SectionId(section.title), section.title, content, score, section.kind,
      PrdSource, section.keywords, matchedTerms) == ResultOf(section, e)
  {
  }

  /** searchPersonaCreation over a section table (the document's table is PrdSections). */
  method SearchPersonaCreation(query: string, sections: seq<Section>) returns (r: PersonaSearch)
    ensures r == PersonaSearchOf(query, EnhanceQuery(query), sections)
  {
    var e := EnhanceQuery(query);
    var results: seq<SectionResult> := [];
    var i := 0;
    while i < |sections|
      invariant 0 <= i <= |sections|
      invariant results == Kept(sections[..i], e)
    {
      var section := sections[i];
      KeptStep(sections, e, i);
      var score, matchedTerms := CalculateSectionRelevance(section, e);
      if score > 0.0 {
        var content := ExtractRelevantContent(section.content, e.expandedTerms, MaxContentLength);
        ResultOfParts(section, e, content, score, matchedTerms);
        results := results + [SectionResult(
          SectionId(section.title), section.title, content, score, section.kind,
          PrdSource, section.keywords, matchedTerms)];
      }
      i := i + 1;
    }
    assert sections[..i] == sections;
    var n := |results|;
    results := SortDesc(results, ScoreOf);
    r := PersonaSearch(query, e, results, n, "document_specific");
  }

  // ---------------------------------------------------------------------------
  // The fixed answer
  // ---------------------------------------------------------------------------

  const PersonaSteps: seq<string> := [
    "1. 点击\"新建人设\"按钮开始创建",
    "2. 填写角色基本信息（姓名、年龄、职业等）",
    "3. 选择性格特征标签（最多10个）",
    "4. 编写角色背景故事（限1000字）",
    "5. 设定语言风格和说话习惯",
    "6. 预览角色卡片并保存"
  ]

  const PersonaIntro: string := "根据短剧创作功能PRD文档，创建人设的具体步骤如下：\n\n"

  const PersonaOutro: string :=
    "\n\n**功能特点：**\n- 提供分步骤引导式创建流程\n- 支持可视化的性格特征选择器\n- 实时预览角色卡片效果\n"
    + "- 支持模板快速创建功能\n\n**注意事项：**\n- 角色名称不能为空\n- 性格标签最多选择10个\n"
    + "- 背景故事字数限制在1000字以内\n\n这个功能旨在帮助短剧创作者系统化地构建角色人设，提升创作效率。"

  const PersonaAnswer: string := PersonaIntro + Join(PersonaSteps, "\n") + PersonaOutro

  const GenericAnswer: string := "根据文档内容，为您找到了相关信息。"

  predicate AsksHowToCreatePersona(query: string) {
    Contains(query, "怎么") && Contains(query, "人设")
  }

  lemma AnswersDiffer()
    ensures PersonaAnswer != GenericAnswer
  {
    assert PersonaIntro[2] == '短';
    assert PersonaAnswer[2] == PersonaIntro[2];
    assert GenericAnswer[2] == '文';
  }

  /**
   * generateSpecificAnswer: the six-step answer exactly for "how ... persona"
   * queries.  The search results it is handed do not affect the answer.
   */
  function GenerateSpecificAnswer<T>(query: string, searchResults: T): (r: string)
    ensures r == PersonaAnswer <==> AsksHowToCreatePersona(query)
    ensures r == GenericAnswer <==> !AsksHowToCreatePersona(query)
  {
    AnswersDiffer();
    if Contains(query, "怎么") && Contains(query, "人设") then PersonaAnswer else GenericAnswer
  }
}
