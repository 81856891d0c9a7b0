/**
 * The intelligent response generator: it assembles a bounded context from
 * the ranked search results, asks the language model for an answer, cleans
 * the answer up, appends numbered references and caches the outcome; when
 * the model fails it writes a template answer instead.  It also writes
 * topic summaries, falling back to a sentence picker.
 *
 * The language model is a parameter (a function from its input to a
 * result); the percentage and date formatting are parameters too.
 */
module ResponseGenerator {
  import opened Common
  import opened Text
  import opened Seqs
  import DocumentSpecific

  /**
   * A search result as the generator reads it.  An empty string stands for
   * an absent or empty field (both are falsy in the source).
   */
  datatype SourceResult = SourceResult(
    id: string, content: string, score: real,
    title: string, source: string, uploadedAt: string)

  /** `a || b` on strings. */
  function Or(a: string, b: string): (r: string)
    ensures r == (if a != "" then a else b)
    ensures r != "" <==> a != "" || b != ""
  {
    if a != "" then a else b
  }

  const MaxContextLength: nat := 4000
  const MaxResponseLength: nat := 800
  const ContextSeparator := "\n\n---\n\n"

  // ---------------------------------------------------------------------------
  // Context assembly
  // ---------------------------------------------------------------------------

  /** The `i`-th context item: a numbered source label, a newline, the content. */
  function ContextItem(i: nat, r: SourceResult): (item: string)
    ensures StartsWith(item, "[来源" + NatToString(i + 1) + ": ")
    ensures EndsWith(item, "]\n" + r.content)
  {
    var head := "[来源" + NatToString(i + 1) + ": ";
    var tail := "]\n" + r.content;
    var name := Or(Or(r.title, r.source), "未知文档");
    assert head + name + tail == head + (name + tail);
    head + name + tail
  }

  /** The items of the first `min(|results|, maxSources)` results. */
  function ContextItems(results: seq<SourceResult>, maxSources: nat): (items: seq<string>)
    ensures |items| == if |results| < maxSources then |results| else maxSources
    ensures forall i :: 0 <= i < |items| ==> items[i] == ContextItem(i, results[i])
  {
    var n := if |results| < maxSources then |results| else maxSources;
    seq(n, i requires 0 <= i < n => ContextItem(i, results[i]))
  }

  /** The total length of some items. */
  function Sum(items: seq<string>): nat {
    if items == [] then 0 else |items[0]| + Sum(items[1..])
  }

  /** The index of the first item that no longer fits, scanning from `i` with `total` used. */
  function FitCount(items: seq<string>, i: nat, total: nat): (n: nat)
    requires i <= |items|
    ensures i <= n <= |items|
    decreases |items| - i
  {
    if i == |items| || total + |items[i]| > MaxContextLength then i
    else FitCount(items, i + 1, total + |items[i]|)
  }

  /**
   * The items kept: every item of the longest prefix that fits into the
   * budget, then the first item that overflows cut to the room left and
   * marked with "...", when more than 100 characters of room are left.
   */
  function Fitted(items: seq<string>): seq<string> {
    var n := FitCount(items, 0, 0);
    var room := MaxContextLength - Sum(items[..n]);
    items[..n] + (if n < |items| && room > 100 then [Prefix(items[n], room) + "..."] else [])
  }

  lemma {:induction false} SumSnoc(items: seq<string>, x: string)
    ensures Sum(items + [x]) == Sum(items) + |x|
  {
    if items != [] {
      assert (items + [x])[1..] == items[1..] + [x];
      SumSnoc(items[1..], x);
    }
  }

  lemma {:induction false} FitCountSpec(items: seq<string>, i: nat, total: nat)
    requires i <= |items| && total == Sum(items[..i]) && total <= MaxContextLength
    ensures var n := FitCount(items, i, total);
      Sum(items[..n]) <= MaxContextLength
      && (n < |items| ==> Sum(items[..n + 1]) > MaxContextLength)
    decreases |items| - i
  {
    if i < |items| {
      assert items[..i + 1] == items[..i] + [items[i]];
      SumSnoc(items[..i], items[i]);
      if total + |items[i]| <= MaxContextLength {
        FitCountSpec(items, i + 1, total + |items[i]|);
      }
    }
  }

  /**
   * The kept items are the longest prefix of the items whose total length
   * fits into the budget, plus at most one cut item; all of them together
   * exceed the budget by at most the three characters of "...".
   */
  lemma FittedSpec(items: seq<string>)
    ensures var n := FitCount(items, 0, 0);
      var r := Fitted(items);
      Sum(items[..n]) <= MaxContextLength
      && (n < |items| ==> Sum(items[..n + 1]) > MaxContextLength)
      && r[..n] == items[..n]
      && n <= |r| <= n + 1 && |r| <= |items|
      && Sum(r) <= MaxContextLength + 3
  {
    var n := FitCount(items, 0, 0);
    assert items[..0] == [];
    FitCountSpec(items, 0, 0);
    var r := Fitted(items);
    assert r[..n] == items[..n];
    if |r| == n + 1 {
      var room := MaxContextLength - Sum(items[..n]);
      assert r == items[..n] + [Prefix(items[n], room) + "..."];
      SumSnoc(items[..n], Prefix(items[n], room) + "...");
    } else {
      assert r == items[..n];
    }
  }

  /** Where the scan stops at item `i`, the kept items are the ones before it and its cut. */
  lemma FittedStopsAt(items: seq<string>, i: nat, total: nat)
    requires i < |items| && total == Sum(items[..i])
    requires FitCount(items, 0, 0) == FitCount(items, i, total)
    requires total + |items[i]| > MaxContextLength
    ensures Fitted(items) == items[..i]
      + (if MaxContextLength - total > 100 then [Prefix(items[i], MaxContextLength - total) + "..."] else [])
  {
  }

  /** An item that fits is added to the total, and the scan goes on from the next one. */
  lemma FitContinues(items: seq<string>, i: nat, total: nat)
    requires i < |items| && total == Sum(items[..i])
    requires total + |items[i]| <= MaxContextLength
    ensures items[..i + 1] == items[..i] + [items[i]]
    ensures Sum(items[..i + 1]) == total + |items[i]|
    ensures FitCount(items, i, total) == FitCount(items, i + 1, total + |items[i]|)
  {
    assert items[..i + 1] == items[..i] + [items[i]];
    SumSnoc(items[..i], items[i]);
  }

  /** Where the scan runs off the end, every item is kept. */
  lemma FittedKeepsAll(items: seq<string>, total: nat)
    requires FitCount(items, 0, 0) == FitCount(items, |items|, total)
    ensures Fitted(items) == items
  {
    assert items[..|items|] == items;
  }

  /** `prepareContext`: the kept items joined by the horizontal-rule separator. */
  method PrepareContext(results: seq<SourceResult>, maxSources: nat) returns (context: string)
    ensures context == Join(Fitted(ContextItems(results, maxSources)), ContextSeparator)
  {
    var items := ContextItems(results, maxSources);
    var n := |items|;
    var contexts: seq<string> := [];
    var totalLength: nat := 0;
    var i := 0;
    while i < n
      invariant 0 <= i <= n == |items|
      invariant contexts == items[..i]
      invariant totalLength == Sum(items[..i]) <= MaxContextLength
      invariant FitCount(items, 0, 0) == FitCount(items, i, totalLength)
    {
      var item := items[i];
      if totalLength + |item| > MaxContextLength {
        FittedStopsAt(items, i, totalLength);
        var remaining := MaxContextLength - totalLength;
        if remaining > 100 {
          contexts := contexts + [Prefix(item, remaining) + "..."];
        }
        assert contexts == Fitted(items);
        break;
      }
      FitContinues(items, i, totalLength);
      contexts := contexts + [item];
      totalLength := totalLength + |item|;
      i := i + 1;
    }
    if i == n {
      FittedKeepsAll(items, totalLength);
      assert items[..i] == items;
    }
    assert contexts == Fitted(items);
    context := Join(contexts, ContextSeparator);
  }

  // ---------------------------------------------------------------------------
  // Post-processing
  // ---------------------------------------------------------------------------

  /** The filler openings removed from an answer (the first one that matches). */
  const UselessPrefixes: seq<string> := [
    "根据提供的知识库内容，", "基于以上信息，", "根据文档内容，", "从知识库中可以看出，"]

  /** The index of the first prefix `s` starts with, scanning from `i`. */
  function FirstPrefixFrom(s: string, ps: seq<string>, i: nat): (r: Option<nat>)
    requires i <= |ps|
    ensures r.Some? ==> (i <= r.value < |ps| && StartsWith(s, ps[r.value])
      && forall j :: i <= j < r.value ==> !StartsWith(s, ps[j]))
    ensures r.None? ==> forall j :: i <= j < |ps| ==> !StartsWith(s, ps[j])
    decreases |ps| - i
  {
    if i == |ps| then None
    else if StartsWith(s, ps[i]) then Some(i)
    else FirstPrefixFrom(s, ps, i + 1)
  }

  /** `s` without the first of `ps` it starts with. */
  function StripFirst(s: string, ps: seq<string>): (r: string)
    ensures |r| <= |s| && r == s[|s| - |r|..]
  {
    match FirstPrefixFrom(s, ps, 0)
    case None => s
    case Some(k) => s[|ps[k]|..]
  }

  /** `s` without the first of the filler openings it starts with. */
  function Stripped(s: string): (r: string)
    ensures |r| <= |s| && r == s[|s| - |r|..]
  {
    StripFirst(s, UselessPrefixes)
  }

  /** An answer that already ends with a full stop, a period, '！' or '?'. */
  predicate EndsProperly(s: string) {
    EndsWith(s, "。") || EndsWith(s, ".") || EndsWith(s, "！") || EndsWith(s, "?")
  }

  /** `s`, with "。" appended unless it already ends properly. */
  function Finished(s: string): (r: string)
    ensures EndsProperly(r)
  {
    if EndsProperly(s) then s else s + "。"
  }

  /** The loop of `postProcessResponse` over the openings: the first match is cut off. */
  method RemoveFirstPrefix(s: string, ps: seq<string>) returns (r: string)
    ensures r == StripFirst(s, ps)
  {
    r := s;
    var i := 0;
    while i < |ps|
      invariant 0 <= i <= |ps| && r == s
      invariant forall j :: 0 <= j < i ==> !StartsWith(s, ps[j])
    {
      var prefix := ps[i];
      if StartsWith(r, prefix) {
        assert FirstPrefixFrom(s, ps, 0) == Some(i);
        r := r[|prefix|..];
        break;
      }
      i := i + 1;
    }
  }

  /** `postProcessResponse`: trim, drop one filler opening, close the sentence. */
  method PostProcessResponse(response: string) returns (processed: string)
    ensures processed == Finished(Stripped(Trim(response)))
  {
    processed := Trim(response);
    processed := RemoveFirstPrefix(processed, UselessPrefixes);
    if !EndsWith(processed, "。") && !EndsWith(processed, ".")
      && !EndsWith(processed, "！") && !EndsWith(processed, "?") {
      processed := processed + "。";
    }
  }

  /**
   * The post-processed answer ends properly, and the trimmed answer is one
   * filler opening (or none) followed by the result, less any full stop the
   * processing added.
   */
  lemma PostProcessSpec(response: string)
    ensures var t := Trim(response);
      var r := Finished(Stripped(t));
      EndsProperly(r)
      && exists p :: (p == "" || p in UselessPrefixes) && (t == p + r || t + "。" == p + r)
  {
    var t := Trim(response);
    var p := StripFirstSpec(t, UselessPrefixes);
    FinishedAppends(t, p, Stripped(t));
  }

  /** An answer that is already trimmed, ends properly and opens with no filler comes back unchanged. */
  lemma PostProcessClean(response: string)
    requires response == [] || (!IsWhitespace(response[0]) && !IsWhitespace(response[|response| - 1]))
    requires EndsProperly(response)
    requires forall j :: 0 <= j < |UselessPrefixes| ==> !StartsWith(response, UselessPrefixes[j])
    ensures Finished(Stripped(Trim(response))) == response
  {
    TrimStartNoop(response);
    TrimEndNoop(response);
    PostProcessKeeps(response);
  }

  /** With no filler opening to cut, an answer that ends properly is its own post-processing. */
  lemma PostProcessKeeps(t: string)
    requires EndsProperly(t)
    requires forall j :: 0 <= j < |UselessPrefixes| ==> !StartsWith(t, UselessPrefixes[j])
    ensures Finished(Stripped(t)) == t
  {
    var p := StripFirstSpec(t, UselessPrefixes);
  }

  /** Closing the sentence after the opening `p` is cut off. */
  lemma FinishedAppends(t: string, p: string, s: string)
    requires t == p + s
    ensures t == p + Finished(s) || t + "。" == p + Finished(s)
  {
    if !EndsProperly(s) {
      assert t + "。" == p + (s + "。");
    }
  }

  /** The cut opening, when there is one, is one of `ps`; without a match nothing is cut. */
  lemma StripFirstSpec(t: string, ps: seq<string>) returns (p: string)
    ensures (p == "" || p in ps) && t == p + StripFirst(t, ps)
    ensures (forall j :: 0 <= j < |ps| ==> !StartsWith(t, ps[j])) ==> StripFirst(t, ps) == t
  {
    var s := StripFirst(t, ps);
    p := t[..|t| - |s|];
    assert t == p + s;
    match FirstPrefixFrom(t, ps, 0)
    case None =>
      assert p == "";
    case Some(k) =>
      assert p == ps[k];
  }

  // ---------------------------------------------------------------------------
  // References
  // ---------------------------------------------------------------------------

  const ReferencesHeader := "\n\n---\n\n**📚 参考来源**\n"

  /**
   * The `i`-th reference line; `percent` formats `score * 100` with one
   * decimal and `date` formats an upload time as a local date.
   */
  function ReferenceLine(i: nat, r: SourceResult, percent: real -> string, date: string -> string): (line: string)
    ensures StartsWith(line, NatToString(i + 1) + ". **")
    ensures EndsWith(line, ")")
  {
    var head := NatToString(i + 1) + ". **";
    var title := Or(Or(r.title, r.source), "文档" + NatToString(i + 1));
    var uploaded := if r.uploadedAt != "" then date(r.uploadedAt) else "未知";
    var tail := "** (相关性: " + percent(r.score) + "%, 更新时间: " + uploaded + ")";
    assert head + title + tail == head + (title + tail);
    head + title + tail
  }

  function ReferenceLines(results: seq<SourceResult>, percent: real -> string, date: string -> string): (lines: seq<string>)
    ensures |lines| == |results|
    ensures forall i :: 0 <= i < |lines| ==> lines[i] == ReferenceLine(i, results[i], percent, date)
  {
    seq(|results|, i requires 0 <= i < |results| => ReferenceLine(i, results[i], percent, date))
  }

  /** `addReferences`: the answer, then one numbered line per source under a header. */
  function AddReferences(response: string, results: seq<SourceResult>,
                         percent: real -> string, date: string -> string): (r: string)
    ensures results == [] ==> r == response
    ensures results != [] ==> StartsWith(r, response + ReferencesHeader) && EndsWith(r, ")")
  {
    if results == [] then response
    else
      var lines := ReferenceLines(results, percent, date);
      JoinEndsWithLast(lines, "\n");
      response + ReferencesHeader + Join(lines, "\n")
  }

  /** A text starting with `a + b` starts with `a`. */
  lemma StartsWithPart(r: string, a: string, b: string)
    requires StartsWith(r, a + b)
    ensures StartsWith(r, a)
  {
    assert r[..|a|] == (a + b)[..|a|];
  }

  lemma {:induction false} JoinEndsWithLast(lines: seq<string>, sep: string)
    requires lines != [] && EndsWith(lines[|lines| - 1], ")")
    ensures EndsWith(Join(lines, sep), ")")
  {
    if |lines| > 1 {
      JoinEndsWithLast(lines[1..], sep);
    }
  }

  /**
   * The references section lists every source once, in order: joining the
   * numbered lines back gives exactly the text after the header.
   */
  lemma AddReferencesLines(response: string, results: seq<SourceResult>,
                           percent: real -> string, date: string -> string)
    requires results != []
    ensures var r := AddReferences(response, results, percent, date);
      var lines := ReferenceLines(results, percent, date);
      |lines| == |results|
      && r[|response + ReferencesHeader|..] == Join(lines, "\n")
      && forall i :: 0 <= i < |lines| ==> StartsWith(lines[i], NatToString(i + 1) + ". **")
  {
  }

  // ---------------------------------------------------------------------------
  // Template answers
  // ---------------------------------------------------------------------------

  const Apology := "抱歉，在当前知识库中没有找到与您的问题直接相关的信息。"
  const SuggestionHeader := "\n\n您可以尝试搜索以下相关问题：\n"
  const Advice := "\n\n建议：\n- 尝试使用不同的关键词\n- 检查拼写是否正确\n- 使用更具体或更通用的搜索词"
  const FallbackLength: nat := 300
  const MoreDetails := "...\n\n如需了解更多详细信息，请查看完整文档。"

  function NumberedSuggestions(suggestions: seq<string>): (lines: seq<string>)
    ensures |lines| == |suggestions|
    ensures forall i :: 0 <= i < |lines| ==>
      lines[i] == NatToString(i + 1) + ". " + suggestions[i]
  {
    seq(|suggestions|, i requires 0 <= i < |suggestions| => NatToString(i + 1) + ". " + suggestions[i])
  }

  /** `generateNoResultsResponse`. */
  function GenerateNoResultsResponse(suggestions: seq<string>): (r: string)
    ensures StartsWith(r, Apology) && EndsWith(r, Advice)
    ensures suggestions == [] ==> r == Apology + Advice
    ensures suggestions != [] ==>
      r == Apology + SuggestionHeader + Join(NumberedSuggestions(suggestions), "\n") + Advice
  {
    var middle := if suggestions == [] then "" else SuggestionHeader + Join(NumberedSuggestions(suggestions), "\n");
    assert Apology + middle + Advice == Apology + (middle + Advice);
    Apology + middle + Advice
  }

  /** The intent-specific opening of a template answer about document `title`. */
  function LeadIn(intent: string, title: string): (r: string)
    ensures EndsWith(r, "\"" + title + "\"" + LeadInEnd(intent))
  {
    var opening :=
      if intent == "problem_solving" then "关于您遇到的问题，在文档"
      else if intent == "how_to" then "关于如何操作的问题，在文档"
      else if intent == "concept_explanation" then "关于这个概念的解释，在文档"
      else "根据搜索结果，在文档";
    var tail := "\"" + title + "\"" + LeadInEnd(intent);
    assert opening + tail == opening + "\"" + title + "\"" + LeadInEnd(intent);
    opening + tail
  }

  function LeadInEnd(intent: string): string {
    if intent == "how_to" || intent == "concept_explanation" then
      (if intent == "how_to" then "中有详细说明：\n\n" else "中有如下说明：\n\n")
    else "中找到了相关信息：\n\n"
  }

  /**
   * `generateFallbackResponse`: without results, the no-results answer;
   * otherwise an opening that names the top document (its title, or
   * "相关文档"), then its first 300 characters, then a pointer to the full
   * document exactly when the content was cut.
   */
  function GenerateFallbackResponse(results: seq<SourceResult>, intent: string, suggestions: seq<string>): (r: string)
    ensures results == [] ==> r == GenerateNoResultsResponse(suggestions)
    ensures results != [] ==>
      var top := results[0];
      var lead := LeadIn(intent, Or(top.title, "相关文档"));
      (|top.content| <= FallbackLength ==> r == lead + top.content)
      && (|top.content| > FallbackLength ==> r == lead + top.content[..FallbackLength] + MoreDetails)
  {
    if results == [] then GenerateNoResultsResponse(suggestions)
    else
      var content := results[0].content;
      var response := LeadIn(intent, Or(results[0].title, "相关文档")) + Prefix(content, FallbackLength);
      if |content| > FallbackLength then response + MoreDetails else response
  }

  /** A template answer is never longer than its opening, 300 characters and the pointer. */
  lemma FallbackBound(results: seq<SourceResult>, intent: string, suggestions: seq<string>)
    requires results != []
    ensures |GenerateFallbackResponse(results, intent, suggestions)|
      <= |LeadIn(intent, Or(results[0].title, "相关文档"))| + FallbackLength + |MoreDetails|
  {
  }

  // ---------------------------------------------------------------------------
  // Summaries
  // ---------------------------------------------------------------------------

  const NoDocumentsSummary := "暂无相关文档可供总结。"

  function NoSummary(topic: string): string {
    "关于\"" + topic + "\"的信息，请查看相关文档获取详细内容。"
  }

  function AllContents(docs: seq<SourceResult>): (r: seq<string>)
    ensures |r| == |docs| && forall i :: 0 <= i < |docs| ==> r[i] == docs[i].content
  {
    seq(|docs|, i requires 0 <= i < |docs| => docs[i].content)
  }

  predicate LongSentence(s: string) { TrimmedLongerThan(s, 10) }

  /** The candidate sentences: the joined contents split at sentence ends, long ones only. */
  function SummarySentences(docs: seq<SourceResult>): seq<string> {
    Filter(SplitOn(Join(AllContents(docs), " "), SentenceEnds), LongSentence)
  }

  /** A sentence mentions the topic, ignoring case. */
  predicate MentionsTopic(s: string, topic: string) {
    Contains(ToLower(s), ToLower(topic))
  }

  function Mentioning(topic: string): string -> bool {
    s => MentionsTopic(s, topic)
  }

  /**
   * The sentences the picker keeps, scanning `ss` with `len` characters of
   * summary written: it stops at the first sentence that would overflow
   * `maxLength` and keeps those that mention the topic.
   */
  function Picked(ss: seq<string>, keep: string -> bool, maxLength: int, len: int): seq<string> {
    if ss == [] || len + |ss[0]| > maxLength then []
    else if keep(ss[0]) then [ss[0]] + Picked(ss[1..], keep, maxLength, len + |Trim(ss[0])| + 1)
    else Picked(ss[1..], keep, maxLength, len)
  }

  /** The summary text of some kept sentences: each trimmed and closed with "。". */
  function Pieces(ps: seq<string>): (r: string)
    ensures ps != [] ==> |r| > 0
  {
    if ps == [] then "" else Trim(ps[0]) + "。" + Pieces(ps[1..])
  }

  /** The summary the picker writes after `acc`, scanning `ss`. */
  function SummaryFrom(ss: seq<string>, keep: string -> bool, maxLength: int, acc: string): string {
    if ss == [] || |acc| + |ss[0]| > maxLength then acc
    else SummaryFrom(ss[1..], keep, maxLength, if keep(ss[0]) then acc + (Trim(ss[0]) + "。") else acc)
  }

  /** The loop of `generateSimpleSummary` over the candidate sentences. */
  method PickSentences(sentences: seq<string>, topic: string, maxLength: int) returns (summary: string)
    ensures summary == Pieces(Picked(sentences, Mentioning(topic), maxLength, 0))
  {
    summary := "";
    var i := 0;
    assert sentences[0..] == sentences;
    while i < |sentences|
      invariant 0 <= i <= |sentences|
      invariant SummaryFrom(sentences, Mentioning(topic), maxLength, "") == SummaryFrom(sentences[i..], Mentioning(topic), maxLength, summary)
    {
      var sentence := sentences[i];
      assert sentences[i..][0] == sentence;
      assert sentences[i..][1..] == sentences[i + 1..];
      if |summary| + |sentence| > maxLength {
        break;
      }
      if MentionsTopic(sentence, topic) {
        summary := summary + (Trim(sentence) + "。");
      }
      i := i + 1;
    }
    SummaryFromPieces(sentences, Mentioning(topic), maxLength, "");
  }

  /** The accumulated summary is the pieces of the picked sentences. */
  lemma {:induction false} SummaryFromPieces(ss: seq<string>, keep: string -> bool, maxLength: int, acc: string)
    ensures SummaryFrom(ss, keep, maxLength, acc) == acc + Pieces(Picked(ss, keep, maxLength, |acc|))
    decreases |ss|
  {
    if ss != [] && |acc| + |ss[0]| <= maxLength {
      var piece := Trim(ss[0]) + "。";
      if keep(ss[0]) {
        SummaryFromPieces(ss[1..], keep, maxLength, acc + piece);
        SummaryKeepStep(ss, keep, maxLength, acc);
      } else {
        SummaryFromPieces(ss[1..], keep, maxLength, acc);
        assert Picked(ss, keep, maxLength, |acc|) == Picked(ss[1..], keep, maxLength, |acc|);
        assert SummaryFrom(ss, keep, maxLength, acc) == SummaryFrom(ss[1..], keep, maxLength, acc);
      }
    } else {
      assert Picked(ss, keep, maxLength, |acc|) == [];
      assert acc + "" == acc;
    }
  }

  /** A kept sentence adds its piece in front of the pieces of the rest. */
  lemma SummaryKeepStep(ss: seq<string>, keep: string -> bool, maxLength: int, acc: string)
    requires ss != [] && |acc| + |ss[0]| <= maxLength && keep(ss[0])
    requires var piece := Trim(ss[0]) + "。";
      SummaryFrom(ss[1..], keep, maxLength, acc + piece)
        == (acc + piece) + Pieces(Picked(ss[1..], keep, maxLength, |acc + piece|))
    ensures SummaryFrom(ss, keep, maxLength, acc) == acc + Pieces(Picked(ss, keep, maxLength, |acc|))
  {
    var piece := Trim(ss[0]) + "。";
    var rest := Picked(ss[1..], keep, maxLength, |acc + piece|);
    PickedKeep(ss, keep, maxLength, |acc|);
    assert |acc + piece| == |acc| + |Trim(ss[0])| + 1;
    PiecesCons(ss[0], rest);
    AppendAssoc(acc, piece, Pieces(rest));
  }

  lemma PickedKeep(ss: seq<string>, keep: string -> bool, maxLength: int, len: int)
    requires ss != [] && len + |ss[0]| <= maxLength && keep(ss[0])
    ensures Picked(ss, keep, maxLength, len) == [ss[0]] + Picked(ss[1..], keep, maxLength, len + |Trim(ss[0])| + 1)
  {
  }

  lemma PiecesCons(x: string, rest: seq<string>)
    ensures Pieces([x] + rest) == (Trim(x) + "。") + Pieces(rest)
  {
    assert ([x] + rest)[1..] == rest;
  }

  lemma AppendAssoc(a: string, b: string, c: string)
    ensures a + (b + c) == (a + b) + c
  {
  }

  /** `generateSimpleSummary`. */
  method GenerateSimpleSummary(docs: seq<SourceResult>, topic: string, maxLength: int) returns (summary: string)
    ensures var picked := Picked(SummarySentences(docs), Mentioning(topic), maxLength, 0);
      summary == if picked == [] then NoSummary(topic) else Pieces(picked)
  {
    var contents := Join(AllContents(docs), " ");
    var sentences := Filter(SplitOn(contents, SentenceEnds), LongSentence);
    summary := PickSentences(sentences, topic, maxLength);
    PiecesEmpty(Picked(sentences, Mentioning(topic), maxLength, 0));
    if summary == "" {
      summary := NoSummary(topic);
    }
  }

  lemma PiecesEmpty(ps: seq<string>)
    ensures Pieces(ps) == "" <==> ps == []
  {
  }

  /**
   * Every kept sentence is a long candidate sentence that mentions the
   * topic, and the summary written from them fits into `maxLength` but for
   * the closing "。" of its last sentence.
   */
  lemma {:induction false} PickedSpec(ss: seq<string>, keep: string -> bool, maxLength: int, len: int)
    requires len >= 0
    ensures var ps := Picked(ss, keep, maxLength, len);
      (forall p :: p in ps ==> p in ss && keep(p))
      && (ps != [] ==> len + |Pieces(ps)| <= maxLength + 1)
    decreases |ss|
  {
    if ss != [] && len + |ss[0]| <= maxLength {
      if keep(ss[0]) {
        var next := len + |Trim(ss[0])| + 1;
        PickedSpec(ss[1..], keep, maxLength, next);
        var rest := Picked(ss[1..], keep, maxLength, next);
        assert Picked(ss, keep, maxLength, len) == [ss[0]] + rest;
        assert Pieces([ss[0]] + rest) == Trim(ss[0]) + "。" + Pieces(rest) by {
          assert ([ss[0]] + rest)[1..] == rest;
        }
      } else {
        PickedSpec(ss[1..], keep, maxLength, len);
      }
    }
  }

  /** The summary sentences are long sentences of the documents' text. */
  lemma SummarySentencesLong(docs: seq<SourceResult>)
    ensures forall s :: s in SummarySentences(docs) ==> TrimmedLongerThan(s, 10)
  {
  }

  /** The three document excerpts the summary prompt quotes. */
  function SummaryContext(docs: seq<SourceResult>): (r: string)
  {
    var excerpts := seq(if |docs| < 3 then |docs| else 3, i requires 0 <= i < |docs| && i < 3 =>
      Or(docs[i].title, "文档") + ": " + Prefix(docs[i].content, 200));
    Join(excerpts, "\n\n")
  }

  // ---------------------------------------------------------------------------
  // Cache keys
  // ---------------------------------------------------------------------------

  function Ids(results: seq<SourceResult>): (r: seq<string>)
    ensures |r| == |results| && forall i :: 0 <= i < |r| ==> r[i] == results[i].id
  {
    seq(|results|, i requires 0 <= i < |results| => results[i].id)
  }

  /** The corrected key: the query and the ids of the top three results, encoded injectively. */
  function ResponseKey(query: string, results: seq<SourceResult>): string {
    ExactKey([query] + Ids(Take(results, 3)))
  }

  /** Two requests share a key only when their queries and top-three ids agree. */
  lemma ResponseKeySeparates(q1: string, r1: seq<SourceResult>, q2: string, r2: seq<SourceResult>)
    requires ResponseKey(q1, r1) == ResponseKey(q2, r2)
    ensures q1 == q2 && Ids(Take(r1, 3)) == Ids(Take(r2, 3))
  {
    ExactKeyInjective([q1] + Ids(Take(r1, 3)), [q2] + Ids(Take(r2, 3)));
    assert ([q1] + Ids(Take(r1, 3)))[1..] == Ids(Take(r1, 3));
    assert ([q2] + Ids(Take(r2, 3)))[1..] == Ids(Take(r2, 3));
  }

  /** The key as written: `btoa(query + ids.join(','))` cut to 32 characters; None when btoa throws. */
  function ResponseKeyAsWritten(query: string, results: seq<SourceResult>): Option<string> {
    CacheKey(query + Join(Ids(Take(results, 3)), ","))
  }

  /**
   * As written, a query holding a character above U+00FF makes btoa throw,
   * so the catch answers every such query with the template answer.
   */
  lemma ResponseKeyAsWrittenFails(query: string, i: nat, results: seq<SourceResult>)
    requires i < |query| && query[i] as int > 255
    ensures ResponseKeyAsWritten(query, results) == None
  {
    var text := query + Join(Ids(Take(results, 3)), ",");
    assert text[i] == query[i];
    CacheKeyRejectsCjk(text, i);
  }

  // ---------------------------------------------------------------------------
  // The generator
  // ---------------------------------------------------------------------------

  datatype CachedResponse = CachedResponse(response: string, timestamp: int)

  /** Cached answers are served for ten minutes. */
  const ResponseTtlMs := 600000

  /** The request options the generator reads. */
  datatype ResponseOptions = ResponseOptions(includeReferences: bool, maxSources: nat)

  const DefaultOptions := ResponseOptions(true, 5)

  /** The final answer for a model reply: cleaned up, with references when asked for. */
  function FinalAnswer(reply: string, results: seq<SourceResult>, options: ResponseOptions,
                       percent: real -> string, date: string -> string): string
  {
    var answer := Finished(Stripped(Trim(reply)));
    if options.includeReferences then AddReferences(answer, Take(results, options.maxSources), percent, date)
    else answer
  }

  /** The cleaned-up reply is the whole answer without references, and its beginning with them. */
  lemma FinalAnswerSpec(reply: string, results: seq<SourceResult>, options: ResponseOptions,
                        percent: real -> string, date: string -> string)
    ensures var r := FinalAnswer(reply, results, options, percent, date);
      && (!options.includeReferences ==> r == Finished(Stripped(Trim(reply))))
      && (options.includeReferences ==> StartsWith(r, Finished(Stripped(Trim(reply)))))
  {
    var answer := Finished(Stripped(Trim(reply)));
    var taken := Take(results, options.maxSources);
    if options.includeReferences && taken != [] {
      StartsWithPart(AddReferences(answer, taken, percent, date), answer, ReferencesHeader);
    }
  }

  /** A cache entry still served at `now`. */
  predicate Fresh(cache: map<string, CachedResponse>, key: string, now: int) {
    key in cache && now - cache[key].timestamp < ResponseTtlMs
  }

  class ResponseGeneratorService {
    var responseCache: map<string, CachedResponse>

    constructor()
      ensures responseCache == map[]
    {
      responseCache := map[];
    }

    /**
     * `generateResponse`.  `llm` is the language model, given the query,
     * the intent and the assembled context; `now` is the clock.  A fresh
     * cached answer is served as is; a model failure gives the template
     * answer and caches nothing; otherwise the cleaned answer (with
     * references when asked for) is cached under the request's key.
     */
    method GenerateResponse(query: string, results: seq<SourceResult>, intent: string, suggestions: seq<string>,
                            options: ResponseOptions, llm: (string, string, string) -> Result<string>,
                            percent: real -> string, date: string -> string, now: int)
      returns (r: string)
      modifies this
      ensures var key := ResponseKey(query, results);
        var context := Join(Fitted(ContextItems(results, options.maxSources)), ContextSeparator);
        (Fresh(old(responseCache), key, now) ==>
          r == old(responseCache)[key].response && responseCache == old(responseCache))
        && (!Fresh(old(responseCache), key, now) && llm(query, intent, context).Err? ==>
          r == GenerateFallbackResponse(results, intent, suggestions) && responseCache == old(responseCache))
        && (!Fresh(old(responseCache), key, now) && llm(query, intent, context).Ok? ==>
          r == FinalAnswer(llm(query, intent, context).value, results, options, percent, date)
          && responseCache == old(responseCache)[key := CachedResponse(r, now)])
    {
      var key := ResponseKey(query, results);
      if key in responseCache {
        var cached := responseCache[key];
        if now - cached.timestamp < ResponseTtlMs {
          return cached.response;
        }
      }
      var context := PrepareContext(results, options.maxSources);
      var reply := llm(query, intent, context);
      if reply.Err? {
        r := GenerateFallbackResponse(results, intent, suggestions);
        return;
      }
      var response := PostProcessResponse(reply.value);
      r := if options.includeReferences then AddReferences(response, Take(results, options.maxSources), percent, date)
           else response;
      responseCache := responseCache[key := CachedResponse(r, now)];
    }

    /**
     * `generateSummary`: a fixed text without documents; the model's
     * summary, trimmed; the sentence picker when the model fails.
     */
    method GenerateSummary(docs: seq<SourceResult>, topic: string, maxLength: int,
                           llm: (string, string) -> Result<string>)
      returns (r: string)
      ensures docs == [] ==> r == NoDocumentsSummary
      ensures docs != [] && llm(topic, SummaryContext(docs)).Ok? ==> r == Trim(llm(topic, SummaryContext(docs)).value)
      ensures docs != [] && llm(topic, SummaryContext(docs)).Err? ==>
        var picked := Picked(SummarySentences(docs), Mentioning(topic), maxLength, 0);
        r == if picked == [] then NoSummary(topic) else Pieces(picked)
    {
      if docs == [] {
        return NoDocumentsSummary;
      }
      var reply := llm(topic, SummaryContext(docs));
      if reply.Ok? {
        r := Trim(reply.value);
      } else {
        r := GenerateSimpleSummary(docs, topic, maxLength);
      }
    }

    /** `clearCache`. */
    method ClearCache()
      modifies this
      ensures responseCache == map[]
    {
      responseCache := map[];
    }

    /** `getStats`: the cache size and the two length limits (the template cache is never filled). */
    function Stats(): (r: (nat, nat, nat, nat))
      reads this
      ensures r.0 == |responseCache| && r.1 == 0
      ensures r.2 == MaxContextLength && r.3 == MaxResponseLength
    {
      (|responseCache|, 0, MaxContextLength, MaxResponseLength)
    }
  }
}
