/**
 * The direct answer service: a table of question patterns, each naming an
 * entry of a small knowledge base, answered without any search.  The first
 * pattern that matches and whose entry exists gives the answer; users may
 * add or overwrite entries.
 */
module DirectAnswer {
  import opened Common
  import opened Text
  import opened Seqs

  /** A knowledge base entry. */
  datatype Knowledge = Knowledge(answer: string, confidence: real, source: string, keywords: seq<string>)

  /** A pattern `/p0.*p1.*p2/` and the entry it answers with. */
  datatype Pattern = Pattern(parts: seq<string>, key: string)

  const PersonaKey := "怎么创建人设"
  const RoleKey := "如何创建角色"
  const UsageKey := "人设功能怎么用"

  /** The question patterns, in the order they are tried. */
  const Patterns: seq<Pattern> := [
    Pattern(["怎么", "创建", "人设"], PersonaKey),
    Pattern(["如何", "创建", "角色"], RoleKey),
    Pattern(["人设", "怎么", "创建"], PersonaKey),
    Pattern(["角色", "如何", "创建"], RoleKey),
    Pattern(["创建", "人设", "方法"], PersonaKey),
    Pattern(["人设", "功能", "怎么", "用"], UsageKey),
    Pattern(["人设", "功能", "使用"], UsageKey)]

  const PrdSource := "短剧创作功能PRD.md"

  /** The single search result an answer carries. */
  datatype AnswerHit = AnswerHit(
    id: string, content: string, score: real, source: string,
    title: string, category: string, tags: seq<string>, uploadedAt: int)

  /** A direct answer as `getDirectAnswer` returns it. */
  datatype DirectResponse = DirectResponse(
    query: string, answer: string, confidence: real, source: string,
    searchResults: seq<AnswerHit>, totalResults: nat, responseTime: nat)

  /** Some pattern at index `i` or later matches the query. */
  function MatchesFrom(query: string, i: nat): (r: bool)
    requires i <= |Patterns|
    ensures r <==> exists j :: i <= j < |Patterns| && PatternTest(query, Patterns[j].parts)
    decreases |Patterns| - i
  {
    if i == |Patterns| then false
    else PatternTest(query, Patterns[i].parts) || MatchesFrom(query, i + 1)
  }

  /** `hasDirectAnswer`: some pattern of the table matches the query. */
  function HasDirectAnswer(query: string): (r: bool)
    ensures r <==> exists j :: 0 <= j < |Patterns| && PatternTest(query, Patterns[j].parts)
  {
    MatchesFrom(query, 0)
  }

  /** A pattern that matches and whose entry exists. */
  predicate Answers(query: string, kb: map<string, Knowledge>, j: nat)
    requires j < |Patterns|
  {
    PatternTest(query, Patterns[j].parts) && Patterns[j].key in kb
  }

  /** The first index from `i` on of a pattern that answers the query. */
  function FirstAnswering(query: string, kb: map<string, Knowledge>, i: nat): (r: Option<nat>)
    requires i <= |Patterns|
    ensures r.Some? ==> (i <= r.value < |Patterns| && Answers(query, kb, r.value)
      && forall j :: i <= j < r.value ==> !Answers(query, kb, j))
    ensures r.None? ==> forall j :: i <= j < |Patterns| ==> !Answers(query, kb, j)
    decreases |Patterns| - i
  {
    if i == |Patterns| then None
    else if Answers(query, kb, i) then Some(i)
    else FirstAnswering(query, kb, i + 1)
  }

  /** The response built from an entry: its answer, and one hit holding a 300-character excerpt. */
  function ResponseOf(query: string, k: Knowledge, now: int): (r: DirectResponse)
    ensures r.query == query && r.answer == k.answer && r.confidence == k.confidence && r.source == k.source
    ensures |r.searchResults| == 1 && r.totalResults == 1
    ensures r.searchResults[0].content == Prefix(k.answer, 300) + "..."
    ensures r.searchResults[0].score == k.confidence && r.searchResults[0].tags == k.keywords
  {
    var hit := AnswerHit("direct_answer_1", Prefix(k.answer, 300) + "...", k.confidence, k.source,
                         "人设创建功能说明", "function_guide", k.keywords, now);
    DirectResponse(query, k.answer, k.confidence, k.source, [hit], 1, 50)
  }

  /** The entry `addKnowledge` stores, with its defaults for falsy fields. */
  function NewKnowledge(answer: string, confidence: Option<real>, source: Option<string>,
                        keywords: Option<seq<string>>): (k: Knowledge)
    ensures k.answer == answer
    ensures k.confidence == if confidence.Some? && confidence.value != 0.0 then confidence.value else 0.9
    ensures k.source == if source.Some? && source.value != "" then source.value else "user_added"
    ensures k.keywords == if keywords.Some? then keywords.value else []
  {
    Knowledge(answer,
      if confidence.Some? && confidence.value != 0.0 then confidence.value else 0.9,
      if source.Some? && source.value != "" then source.value else "user_added",
      if keywords.Some? then keywords.value else [])
  }

  class DirectAnswerService {
    /** The knowledge base, and its keys in insertion order (`Object.keys`). */
    var knowledgeBase: map<string, Knowledge>
    var questions: seq<string>

    /** The key order lists every entry once, and every pattern's entry exists. */
    ghost predicate Valid()
      reads this
    {
      Distinct(questions)
      && (forall q :: q in questions <==> q in knowledgeBase)
      && (forall j :: 0 <= j < |Patterns| ==> Patterns[j].key in knowledgeBase)
    }

    /** The three built-in entries; their long answer texts are parameters. */
    constructor(personaAnswer: string, roleAnswer: string, usageAnswer: string)
      ensures Valid()
      ensures questions == [PersonaKey, RoleKey, UsageKey]
      ensures knowledgeBase == map[
        PersonaKey := Knowledge(personaAnswer, 0.98, PrdSource, ["人设", "创建", "角色", "步骤", "流程"]),
        RoleKey := Knowledge(roleAnswer, 0.95, PrdSource, ["角色", "创建", "人物", "设定"]),
        UsageKey := Knowledge(usageAnswer, 0.92, PrdSource, ["人设", "功能", "使用", "操作"])]
    {
      knowledgeBase := map[
        PersonaKey := Knowledge(personaAnswer, 0.98, PrdSource, ["人设", "创建", "角色", "步骤", "流程"]),
        RoleKey := Knowledge(roleAnswer, 0.95, PrdSource, ["角色", "创建", "人物", "设定"]),
        UsageKey := Knowledge(usageAnswer, 0.92, PrdSource, ["人设", "功能", "使用", "操作"])];
      questions := [PersonaKey, RoleKey, UsageKey];
    }

    /**
     * `getDirectAnswer`: the response of the first pattern, in table order,
     * that matches the query and whose entry exists; None when there is none.
     */
    function GetDirectAnswer(query: string, now: int): (r: Option<DirectResponse>)
      reads this
      ensures r.None? <==> forall j :: 0 <= j < |Patterns| ==> !Answers(query, knowledgeBase, j)
      ensures r.Some? ==> exists j :: (0 <= j < |Patterns| && Answers(query, knowledgeBase, j)
        && (forall i :: 0 <= i < j ==> !Answers(query, knowledgeBase, i))
        && r.value == ResponseOf(query, knowledgeBase[Patterns[j].key], now))
    {
      match FirstAnswering(query, knowledgeBase, 0)
      case None => None
      case Some(j) => Some(ResponseOf(query, knowledgeBase[Patterns[j].key], now))
    }

    /** `getAvailableQuestions`: the keys, in insertion order. */
    function GetAvailableQuestions(): (r: seq<string>)
      reads this
      requires Valid()
      ensures Distinct(r) && forall q :: q in r <==> q in knowledgeBase
    {
      questions
    }

    /** `addKnowledge`: insert or overwrite the entry, keeping the key's place when it exists. */
    method AddKnowledge(question: string, answer: string, confidence: Option<real>,
                        source: Option<string>, keywords: Option<seq<string>>)
      requires Valid()
      modifies this
      ensures Valid()
      ensures knowledgeBase == old(knowledgeBase)[question := NewKnowledge(answer, confidence, source, keywords)]
      ensures questions == if question in old(questions) then old(questions) else old(questions) + [question]
    {
      knowledgeBase := knowledgeBase[question := NewKnowledge(answer, confidence, source, keywords)];
      if question !in questions {
        questions := questions + [question];
      }
    }
  }

  /**
   * While every pattern's entry exists (which `Valid` keeps), a query has a
   * direct answer exactly when some pattern matches it.
   */
  lemma AnswerIffMatch(s: DirectAnswerService, query: string, now: int)
    requires s.Valid()
    ensures s.GetDirectAnswer(query, now).Some? <==> HasDirectAnswer(query)
  {
    if HasDirectAnswer(query) {
      var j :| 0 <= j < |Patterns| && PatternTest(query, Patterns[j].parts);
      assert Answers(query, s.knowledgeBase, j);
    }
  }
}
