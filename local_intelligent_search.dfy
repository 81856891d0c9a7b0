/**
 * The local intelligent search: documents cut into heading-led sections
 * with their keywords, a question-and-answer map generated from section
 * titles, a search that scores question, keyword and content matches,
 * ranks them and de-duplicates them, and a per-user list of documents
 * kept in memory and in browser storage.  The random id, the clock and
 * the uploaded file's text are parameters; storage is a map from the user
 * to the list read back from the `intelligent_docs_<userId>` entry.
 */
module LocalIntelligentSearch {
  import opened Common
  import opened Text
  import opened Seqs

  // ---------------------------------------------------------------------
  // Keywords
  // ---------------------------------------------------------------------

  /** A Chinese word is kept when it is two to six characters long. */
  predicate KeptCjk(w: string) { 2 <= |w| <= 6 }

  /** `[a-zA-Z]{3,}`: a Latin word counts from three letters on. */
  predicate LongLatin(w: string) { |w| >= 3 }

  function LowerAll(ws: seq<string>): (r: seq<string>)
    ensures |r| == |ws|
    ensures forall i :: 0 <= i < |ws| ==> r[i] == ToLower(ws[i])
  {
    seq(|ws|, i requires 0 <= i < |ws| => ToLower(ws[i]))
  }

  /**
   * `extractKeywords`: the runs of two to six CJK characters, then the
   * lower-cased runs of at least three Latin letters, each once, in the
   * order a `Set` first meets them.
   */
  function ExtractKeywords(text: string): seq<string> {
    Dedupe(Filter(Runs(text, IsCjk), KeptCjk) + LowerAll(Filter(Runs(text, IsAsciiLetter), LongLatin)))
  }

  lemma FilterMembers<T>(s: seq<T>, p: T -> bool)
    ensures forall x :: x in Filter(s, p) <==> x in s && p(x)
  {
    forall x | x in s && p(x) ensures x in Filter(s, p) {
      var i :| 0 <= i < |s| && s[i] == x;
    }
  }

  lemma LowerAllMembers(ws: seq<string>)
    ensures forall w :: w in LowerAll(ws) <==> exists v :: v in ws && w == ToLower(v)
  {
    forall w | exists v :: v in ws && w == ToLower(v) ensures w in LowerAll(ws) {
      var v :| v in ws && w == ToLower(v);
      var i :| 0 <= i < |ws| && ws[i] == v;
      assert LowerAll(ws)[i] == w;
    }
  }

  lemma DedupeMembers<T>(xs: seq<T>)
    ensures forall x :: x in Dedupe(xs) <==> x in xs
  {
    forall x | x in xs ensures x in Dedupe(xs) {
      var i :| 0 <= i < |xs| && xs[i] == x;
    }
  }

  /**
   * The keywords are exactly the CJK runs of two to six characters and the
   * lower-cased Latin runs of three letters or more, each listed once.
   */
  lemma ExtractKeywordsSpec(text: string)
    ensures Distinct(ExtractKeywords(text))
    ensures forall w :: w in ExtractKeywords(text) <==>
      (w in Runs(text, IsCjk) && 2 <= |w| <= 6)
      || (exists v :: v in Runs(text, IsAsciiLetter) && |v| >= 3 && w == ToLower(v))
  {
    var cjk := Filter(Runs(text, IsCjk), KeptCjk);
    var latin := Filter(Runs(text, IsAsciiLetter), LongLatin);
    var all := cjk + LowerAll(latin);
    DedupeMembers(all);
    FilterMembers(Runs(text, IsCjk), KeptCjk);
    FilterMembers(Runs(text, IsAsciiLetter), LongLatin);
    LowerAllMembers(latin);
    forall w ensures w in all <==> w in cjk || w in LowerAll(latin) {
    }
  }

  /** A keyword is two to six CJK characters, or three or more letters without an upper-case one. */
  lemma KeywordShape(text: string)
    ensures forall w :: w in ExtractKeywords(text) ==>
      (AllChars(w, IsCjk) && 2 <= |w| <= 6) || (IsLowerCase(w) && |w| >= 3)
  {
    var latin := Filter(Runs(text, IsAsciiLetter), LongLatin);
    FilterMembers(Runs(text, IsCjk), KeptCjk);
    LowerAllMembers(latin);
    forall w | w in ExtractKeywords(text) ensures (AllChars(w, IsCjk) && 2 <= |w| <= 6) || (IsLowerCase(w) && |w| >= 3) {
      if w !in Filter(Runs(text, IsCjk), KeptCjk) {
        var v :| v in latin && w == ToLower(v);
      }
    }
  }

  // ---------------------------------------------------------------------
  // Sections
  // ---------------------------------------------------------------------

  /** The keyword set of a section: a `Set`, or whatever `JSON.parse` gave back for it. */
  datatype KeywordSet = Keys(items: seq<string>) | Plain(json: Json)

  /** The keywords of a set; a value that is not a `Set` has none. */
  function Items(k: KeywordSet): seq<string> {
    if k.Keys? then k.items else []
  }

  datatype Section = Section(level: nat, title: string, content: seq<string>, lineStart: nat, keywords: KeywordSet)

  /** A trimmed line that starts with `#` opens a section. */
  predicate IsHeading(line: string) { |line| > 0 && line[0] == '#' }

  /** `line.match(/^#+/)[0].length`. */
  function HeadingLevel(line: string): (n: nat)
    requires IsHeading(line)
    ensures 1 <= n <= |line|
    ensures forall k :: 0 <= k < n ==> line[k] == '#'
    ensures n < |line| ==> line[n] != '#'
  {
    RunEnd(line, 0, {'#'})
  }

  /** `line.replace(/^#+\s*\/, '')`: the heading without its marks and the blanks after them. */
  function HeadingTitle(line: string): (t: string)
    requires IsHeading(line)
    ensures |t| < |line| && t == line[|line| - |t|..]
  {
    line[RunEnd(line, HeadingLevel(line), Whitespace)..]
  }

  /** The state of `processDocument`'s loop: closed sections, the open one, the document's keywords. */
  datatype Scan = Scan(sections: seq<Section>, current: Option<Section>, keywords: seq<string>)

  const Start := Scan([], None, [])

  /** The sections so far, the open one included (what the loop's end pushes). */
  function AllSections(st: Scan): seq<Section> {
    if st.current.Some? then st.sections + [st.current.value] else st.sections
  }

  /** A heading line closes the open section and opens one keyed by its title's keywords. */
  function OpenSection(st: Scan, line: string, i: nat, kw: string -> seq<string>): Scan
    requires IsHeading(line)
  {
    var title := HeadingTitle(line);
    var ks := Dedupe(kw(title));
    Scan(AllSections(st), Some(Section(HeadingLevel(line), title, [], i, Keys(ks))), AddAll(st.keywords, ks))
  }

  /** Any other line joins the open section, its keywords joining the section's and the document's sets. */
  function AddLine(st: Scan, line: string, kw: string -> seq<string>): Scan
    requires st.current.Some?
  {
    var c := st.current.value;
    var lk := kw(line);
    Scan(st.sections, Some(c.(content := c.content + [line], keywords := Keys(AddAll(Items(c.keywords), lk)))),
         AddAll(st.keywords, lk))
  }

  /**
   * One trimmed line of `processDocument`, with `kw` the keyword
   * extractor: a blank line is skipped, and so is a line before the first
   * heading.
   */
  function Step(st: Scan, line: string, i: nat, kw: string -> seq<string>): Scan {
    if line == "" then st
    else if IsHeading(line) then OpenSection(st, line, i, kw)
    else if st.current.Some? then AddLine(st, line, kw)
    else st
  }

  /** `lines[i].trim()` for every line. */
  function TrimAll(lines: seq<string>): (r: seq<string>)
    ensures |r| == |lines|
    ensures forall i :: 0 <= i < |lines| ==> r[i] == Trim(lines[i])
  {
    seq(|lines|, i requires 0 <= i < |lines| => Trim(lines[i]))
  }

  /** The loop state after the first `n` of the trimmed lines. */
  function ScanLines(lines: seq<string>, n: nat, kw: string -> seq<string>): Scan
    requires n <= |lines|
  {
    if n == 0 then Start else Step(ScanLines(lines, n - 1, kw), lines[n - 1], n - 1, kw)
  }

  /** Line `i` opens a section. */
  predicate HeadingAt(lines: seq<string>, i: nat)
    requires i < |lines|
  {
    lines[i] != "" && IsHeading(lines[i])
  }

  /** The indexes of the heading lines among the first `n`, in order. */
  function HeadingLines(lines: seq<string>, n: nat): (r: seq<nat>)
    requires n <= |lines|
    ensures forall k :: 0 <= k < |r| ==> r[k] < n && HeadingAt(lines, r[k])
    ensures forall k, j :: 0 <= k < j < |r| ==> r[k] < r[j]
    ensures forall i :: 0 <= i < n && HeadingAt(lines, i) ==> i in r
  {
    if n == 0 then []
    else
      var prev := HeadingLines(lines, n - 1);
      if HeadingAt(lines, n - 1) then
        assert forall k :: 0 <= k < |prev| ==> prev[k] < n - 1;
        prev + [n - 1]
      else prev
  }

  /** The section was opened by heading line `h`: its position, title and level. */
  predicate OpenedBy(s: Section, lines: seq<string>, h: nat)
    requires h < |lines| && HeadingAt(lines, h)
  {
    s.lineStart == h && s.title == HeadingTitle(lines[h]) && s.level == HeadingLevel(lines[h])
  }

  /** One section per heading line, in order, each carrying its heading's position, title and level. */
  predicate SectionsFollowHeadings(lines: seq<string>, n: nat, st: Scan)
    requires n <= |lines|
  {
    var hs := HeadingLines(lines, n);
    && |AllSections(st)| == |hs|
    && (st.current.None? <==> hs == [])
    && forall k :: 0 <= k < |hs| ==> OpenedBy(AllSections(st)[k], lines, hs[k])
  }

  lemma {:induction false} StepFollowsHeadings(lines: seq<string>, n: nat, kw: string -> seq<string>)
    requires n < |lines|
    requires SectionsFollowHeadings(lines, n, ScanLines(lines, n, kw))
    ensures SectionsFollowHeadings(lines, n + 1, ScanLines(lines, n + 1, kw))
  {
    var st := ScanLines(lines, n, kw);
    var nx := ScanLines(lines, n + 1, kw);
    assert nx == Step(st, lines[n], n, kw);
    var hs := HeadingLines(lines, n);
    if HeadingAt(lines, n) {
      assert HeadingLines(lines, n + 1) == hs + [n];
      assert AllSections(nx) == AllSections(st) + [nx.current.value];
    } else {
      assert HeadingLines(lines, n + 1) == hs;
      assert |AllSections(nx)| == |AllSections(st)|;
      forall k | 0 <= k < |hs| ensures OpenedBy(AllSections(nx)[k], lines, hs[k]) {
        assert AllSections(nx)[k].lineStart == AllSections(st)[k].lineStart;
        assert AllSections(nx)[k].title == AllSections(st)[k].title;
        assert AllSections(nx)[k].level == AllSections(st)[k].level;
      }
    }
  }

  /** `processDocument` makes exactly one section per heading line, in order, with its title and level. */
  lemma {:induction false} SectionsAreHeadings(lines: seq<string>, n: nat, kw: string -> seq<string>)
    requires n <= |lines|
    ensures SectionsFollowHeadings(lines, n, ScanLines(lines, n, kw))
  {
    if n > 0 {
      SectionsAreHeadings(lines, n - 1, kw);
      StepFollowsHeadings(lines, n - 1, kw);
    }
  }

  /** Lines before the first heading change nothing: neither a section nor a keyword comes of them. */
  lemma {:induction false} PreambleIgnored(lines: seq<string>, n: nat, kw: string -> seq<string>)
    requires n <= |lines|
    requires HeadingLines(lines, n) == []
    ensures ScanLines(lines, n, kw) == Start
  {
    if n > 0 {
      assert !HeadingAt(lines, n - 1);
      PreambleIgnored(lines, n - 1, kw);
    }
  }

  /**
   * A section's keyword set holds, once each, the keywords of its title
   * and of each of its lines, and nothing else.
   */
  ghost predicate KeyedBy(s: Section, kw: string -> seq<string>) {
    && s.keywords.Keys?
    && Distinct(s.keywords.items)
    && (forall w :: w in kw(s.title) ==> w in s.keywords.items)
    && (forall j, w :: 0 <= j < |s.content| && w in kw(s.content[j]) ==> w in s.keywords.items)
    && (forall w :: w in s.keywords.items ==>
          w in kw(s.title) || exists j :: 0 <= j < |s.content| && w in kw(s.content[j]))
  }

  /** The sections' keywords, section after section. */
  function SectionKeys(secs: seq<Section>): seq<string> {
    if secs == [] then [] else SectionKeys(secs[..|secs| - 1]) + Items(secs[|secs| - 1].keywords)
  }

  /** The document's keyword set is the union of its sections' sets, each keyword once. */
  ghost predicate ScanKeyed(st: Scan, kw: string -> seq<string>) {
    && Distinct(st.keywords)
    && (forall k :: 0 <= k < |AllSections(st)| ==> KeyedBy(AllSections(st)[k], kw))
    && (forall w :: w in st.keywords <==> w in SectionKeys(AllSections(st)))
  }

  lemma SectionKeysAppend(secs: seq<Section>, s: Section)
    ensures SectionKeys(secs + [s]) == SectionKeys(secs) + Items(s.keywords)
  {
    assert (secs + [s])[..|secs|] == secs;
  }

  /** A line joins the open section: its keywords join the section's set. */
  lemma LineKeyed(c: Section, line: string, kw: string -> seq<string>)
    requires KeyedBy(c, kw)
    ensures KeyedBy(c.(content := c.content + [line], keywords := Keys(AddAll(Items(c.keywords), kw(line)))), kw)
  {
    var d := c.(content := c.content + [line], keywords := Keys(AddAll(Items(c.keywords), kw(line))));
    forall j, w | 0 <= j < |d.content| && w in kw(d.content[j]) ensures w in d.keywords.items {
      if j < |c.content| {
        assert d.content[j] == c.content[j];
      }
    }
    forall w | w in d.keywords.items
      ensures w in kw(d.title) || exists j :: 0 <= j < |d.content| && w in kw(d.content[j])
    {
      if w in c.keywords.items {
        if w !in kw(c.title) {
          var j :| 0 <= j < |c.content| && w in kw(c.content[j]);
          assert d.content[j] == c.content[j];
        }
      } else {
        assert w in kw(d.content[|c.content|]);
      }
    }
  }

  lemma OpenKeyed(st: Scan, line: string, i: nat, kw: string -> seq<string>)
    requires IsHeading(line) && ScanKeyed(st, kw)
    ensures ScanKeyed(OpenSection(st, line, i, kw), kw)
  {
    var nx := OpenSection(st, line, i, kw);
    assert AllSections(nx) == AllSections(st) + [nx.current.value];
    SectionKeysAppend(AllSections(st), nx.current.value);
  }

  lemma AddAllMembers<T>(acc: seq<T>, xs: seq<T>)
    ensures forall x :: x in AddAll(acc, xs) <==> x in acc || x in xs
  {
    var r := AddAll(acc, xs);
    forall x | x in acc || x in xs ensures x in r {
      if x in acc {
        var i :| 0 <= i < |acc| && acc[i] == x;
        assert r[i] == x;
      } else {
        var i :| 0 <= i < |xs| && xs[i] == x;
      }
    }
  }

  /** Replacing the last section by one keyed as well keeps every section keyed. */
  lemma LastReplacedKeyed(secs: seq<Section>, c: Section, d: Section, kw: string -> seq<string>)
    requires forall k :: 0 <= k < |secs + [c]| ==> KeyedBy((secs + [c])[k], kw)
    requires KeyedBy(d, kw)
    ensures forall k :: 0 <= k < |secs + [d]| ==> KeyedBy((secs + [d])[k], kw)
  {
    forall k | 0 <= k < |secs + [d]| ensures KeyedBy((secs + [d])[k], kw) {
      if k < |secs| {
        assert (secs + [d])[k] == (secs + [c])[k];
      }
    }
  }

  lemma AddLineKeyed(st: Scan, line: string, kw: string -> seq<string>)
    requires st.current.Some? && ScanKeyed(st, kw)
    ensures ScanKeyed(AddLine(st, line, kw), kw)
  {
    var nx := AddLine(st, line, kw);
    var c := st.current.value;
    var d := nx.current.value;
    assert AllSections(st) == st.sections + [c];
    assert AllSections(st)[|st.sections|] == c;
    LineKeyed(c, line, kw);
    assert AllSections(nx) == st.sections + [d];
    LastReplacedKeyed(st.sections, c, d, kw);
    SectionKeysAppend(st.sections, c);
    SectionKeysAppend(st.sections, d);
    AddAllMembers(Items(c.keywords), kw(line));
    AddAllMembers(st.keywords, kw(line));
  }

  /**
   * Every section's keyword set holds the keywords of its title and lines
   * and no others, and the document's set is the union of the sections'.
   */
  lemma {:induction false} ScanLinesKeyed(lines: seq<string>, n: nat, kw: string -> seq<string>)
    requires n <= |lines|
    ensures ScanKeyed(ScanLines(lines, n, kw), kw)
  {
    if n > 0 {
      ScanLinesKeyed(lines, n - 1, kw);
      NextKeyed(lines, n, kw);
    }
  }

  lemma NextKeyed(lines: seq<string>, n: nat, kw: string -> seq<string>)
    requires 0 < n <= |lines|
    requires ScanKeyed(ScanLines(lines, n - 1, kw), kw)
    ensures ScanKeyed(ScanLines(lines, n, kw), kw)
  {
    var st := ScanLines(lines, n - 1, kw);
    assert ScanLines(lines, n, kw) == Step(st, lines[n - 1], n - 1, kw);
    StepKeyed(st, lines[n - 1], n - 1, kw);
  }

  /** One line keeps every keyword set as it should be. */
  lemma StepKeyed(st: Scan, line: string, i: nat, kw: string -> seq<string>)
    requires ScanKeyed(st, kw)
    ensures ScanKeyed(Step(st, line, i, kw), kw)
  {
    if line != "" && IsHeading(line) {
      OpenKeyed(st, line, i, kw);
    } else if line != "" && st.current.Some? {
      AddLineKeyed(st, line, kw);
    }
  }
  // ---------------------------------------------------------------------
  // Steps
  // ---------------------------------------------------------------------

  /** `[一二三四五六七八九十]`. */
  const Numerals: set<char> := {'一', '二', '三', '四', '五', '六', '七', '八', '九', '十'}

  const ActionWords: seq<string> := ["点击", "输入", "选择", "填写"]

  /**
   * The trimmed `(.+)` of `\s*(.+)` matched from `b`: the first character
   * after the blanks up to the next line terminator.  When only blanks
   * follow, the engine hands `.+` one of them back and the step trims to
   * ""; when those blanks are all line terminators there is no match.
   */
  function StepText(line: string, b: nat): (r: Option<string>)
    requires b <= |line|
    ensures r.None? <==> forall p :: b <= p < |line| ==> line[p] in LineTerminators
  {
    var e := RunEnd(line, b, Whitespace);
    if e < |line| then
      assert line[e] !in LineTerminators;
      Some(Trim(line[e..e + FirstIn(line[e..], LineTerminators)]))
    else if exists p :: b <= p < |line| && line[p] !in LineTerminators then Some("")
    else None
  }

  /** `/^\s*(\d+)[\.\、]\s*(.+)/`: the trimmed text after a number and its mark. */
  function NumberedStep(line: string): Option<string> {
    var a := RunEnd(line, 0, Whitespace);
    var d := DigitEnd(line, a);
    if a < d < |line| && (line[d] == '.' || line[d] == '、') then StepText(line, d + 1) else None
  }

  /** `/^\s*(第[一…十]+步|[一…十]+[\.\、])\s*(.+)/`: the trimmed text after a Chinese step number. */
  function ChineseStep(line: string): Option<string> {
    var a := RunEnd(line, 0, Whitespace);
    if a < |line| && line[a] == '第' then
      var n := RunEnd(line, a + 1, Numerals);
      if a + 1 < n < |line| && line[n] == '步' then StepText(line, n + 1) else None
    else
      var n := RunEnd(line, a, Numerals);
      if a < n < |line| && (line[n] == '.' || line[n] == '、') then StepText(line, n + 1) else None
  }

  /** The step a line gives: a numbered one, a Chinese-numbered one, or a line naming an action. */
  function StepOf(line: string): (r: Option<string>)
    ensures ContainsAny(line, ActionWords) ==> r.Some?
  {
    var n := NumberedStep(line);
    if n.Some? then n
    else
      var c := ChineseStep(line);
      if c.Some? then c
      else if ContainsAny(line, ActionWords) then Some(Trim(line))
      else None
  }

  /** The steps of the lines, at most one per line, in order. */
  function StepsOf(lines: seq<string>): (r: seq<string>)
    ensures |r| <= |lines|
  {
    if lines == [] then []
    else
      var last := StepOf(lines[|lines| - 1]);
      StepsOf(lines[..|lines| - 1]) + (if last.Some? then [last.value] else [])
  }

  /** `extractSteps`. */
  function ExtractSteps(content: string): seq<string> {
    StepsOf(SplitOn(content, {'\n'}))
  }

  /** `steps.map((step, i) => `${i + 1}. ${step}`)`, numbering from `k`. */
  function Numbered(steps: seq<string>, k: nat): (r: seq<string>)
    ensures |r| == |steps|
    ensures forall i :: 0 <= i < |steps| ==> r[i] == NatToString(k + i) + ". " + steps[i]
  {
    if steps == [] then [] else [NatToString(k) + ". " + steps[0]] + Numbered(steps[1..], k + 1)
  }

  /** A text without a line break is one line, so it gives at most one step. */
  lemma OneLineOneStep(content: string)
    requires '\n' !in content
    ensures |ExtractSteps(content)| <= 1
  {
    FirstInNone(content, {'\n'});
    assert SplitOn(content, {'\n'}) == [content];
  }
  // ---------------------------------------------------------------------
  // Questions and answers
  // ---------------------------------------------------------------------

  /** The first word not among `excluded`, as `words.find(w => !excluded.includes(w))`. */
  function FirstNotIn(words: seq<string>, excluded: seq<string>): (r: Option<string>)
    ensures r.Some? ==> exists i :: (0 <= i < |words| && words[i] == r.value && r.value !in excluded
      && forall j :: 0 <= j < i ==> words[j] in excluded)
    ensures r.None? ==> forall i :: 0 <= i < |words| ==> words[i] in excluded
  {
    if words == [] then None
    else if words[0] !in excluded then Some(words[0])
    else
      var r := FirstNotIn(words[1..], excluded);
      assert forall i :: 0 <= i < |words[1..]| ==> words[1..][i] == words[i + 1];
      r
  }

  const GenericTopics: seq<string> := ["功能", "模块", "系统", "平台", "工具"]

  predicate AtLeastTwo(w: string) { |w| >= 2 }

  /** `extractMainTopic`: the first run of two or more CJK characters that is not a generic word. */
  function MainTopic(title: string): Option<string> {
    FirstNotIn(Filter(Runs(title, IsCjk), AtLeastTwo), GenericTopics)
  }

  /** The main topic is a CJK run of the title, at least two long, and not a generic word. */
  lemma MainTopicSpec(title: string)
    requires MainTopic(title).Some?
    ensures MainTopic(title).value in Runs(title, IsCjk)
    ensures |MainTopic(title).value| >= 2 && AllChars(MainTopic(title).value, IsCjk)
    ensures MainTopic(title).value !in GenericTopics
  {
    FilterMembers(Runs(title, IsCjk), AtLeastTwo);
  }

  predicate AsksCreate(title: string) { Contains(title, "创建") || Contains(title, "新建") }
  predicate AsksFeature(title: string) { Contains(title, "功能") || Contains(title, "模块") }
  predicate HasProcedure(content: string) { Contains(content, "步骤") || Contains(content, "流程") }

  /** `generateQuestions`: questions about creating, about a feature, and about a procedure's topic. */
  function GenerateQuestions(title: string, content: string): seq<string> {
    (if AsksCreate(title) then ["怎么" + title, "如何" + title, title + "的方法"] else [])
    + (if AsksFeature(title) then [title + "是什么", title + "怎么用"] else [])
    + (if HasProcedure(content) && MainTopic(title).Some? then
         var t := MainTopic(title).value; [t + "的步骤", "如何" + t, "怎么" + t]
       else [])
  }

  lemma ContainsConcat(a: string, b: string)
    ensures Contains(a + b, a) && Contains(a + b, b)
  {
    assert OccursAt(a + b, a, 0);
    assert OccursAt(a + b, b, |a|);
  }

  /**
   * Every generated question names the title or its main topic, and there
   * are none exactly when the title neither creates nor names a feature
   * and no procedure with a topic is described.
   */
  lemma QuestionsSpec(title: string, content: string)
    ensures GenerateQuestions(title, content) == [] <==>
      !AsksCreate(title) && !AsksFeature(title) && !(HasProcedure(content) && MainTopic(title).Some?)
    ensures forall q :: q in GenerateQuestions(title, content) ==>
      Contains(q, title) || (MainTopic(title).Some? && Contains(q, MainTopic(title).value))
  {
    ContainsConcat("怎么", title);
    ContainsConcat("如何", title);
    ContainsConcat(title, "的方法");
    ContainsConcat(title, "是什么");
    ContainsConcat(title, "怎么用");
    if MainTopic(title).Some? {
      var t := MainTopic(title).value;
      ContainsConcat(t, "的步骤");
      ContainsConcat("如何", t);
      ContainsConcat("怎么", t);
    }
  }

  /** `s.trim().length > 5`. */
  predicate Substantial(s: string) { TrimmedLongerThan(s, 5) }

  /** The sentences of more than five characters once trimmed. */
  function LongSentences(content: string): seq<string> {
    Filter(SplitOn(content, SentenceEnds), Substantial)
  }

  predicate AsksHow(question: string) { Contains(question, "怎么") || Contains(question, "如何") }

  /**
   * `generateAnswer`: a how-question over a text with steps is answered
   * by the numbered steps; anything else by the first three substantial
   * sentences.
   */
  function GenerateAnswer(title: string, content: string, question: string): (r: string)
    ensures AsksHow(question) && ExtractSteps(content) != [] ==>
      StartsWith(r, title + "的具体步骤：\n")
    ensures !(AsksHow(question) && ExtractSteps(content) != []) ==> EndsWith(r, "。")
  {
    var steps := ExtractSteps(content);
    if AsksHow(question) && steps != [] then
      var r := title + "的具体步骤：\n" + Join(Numbered(steps, 1), "\n");
      assert r[..|title + "的具体步骤：\n"|] == title + "的具体步骤：\n";
      r
    else
      Join(Take(LongSentences(content), 3), "。") + "。"
  }

  /** The text a section's questions are answered from: its lines joined by spaces. */
  function SectionText(s: Section): string {
    Join(s.content, " ")
  }

  datatype QA = QA(answer: string, section: string, confidence: real)

  /** The entry a section's question puts in the map, keyed by the lower-cased question. */
  function Entry(s: Section, q: string): (string, QA) {
    (ToLower(q), QA(GenerateAnswer(s.title, SectionText(s), q), s.title, 0.8))
  }

  /** The position of `key` in a map's entries, or -1. */
  function KeyIndex(m: seq<(string, QA)>, key: string): (r: int)
    ensures -1 <= r < |m|
    ensures r >= 0 ==> m[r].0 == key
    ensures r < 0 ==> forall i :: 0 <= i < |m| ==> m[i].0 != key
  {
    if m == [] then -1
    else if m[|m| - 1].0 == key then |m| - 1
    else KeyIndex(m[..|m| - 1], key)
  }

  predicate KeysDistinct(m: seq<(string, QA)>) {
    forall i, j :: 0 <= i < j < |m| ==> m[i].0 != m[j].0
  }

  /** `map.set(key, value)` on a Map kept as its entries in insertion order: a present key keeps its place. */
  function Put(m: seq<(string, QA)>, e: (string, QA)): (r: seq<(string, QA)>)
    ensures KeysDistinct(m) ==> KeysDistinct(r)
    ensures e in r
    ensures forall i :: 0 <= i < |r| ==> r[i] == e || r[i] in m
    ensures forall i :: 0 <= i < |m| && m[i].0 != e.0 ==> m[i] in r
    ensures forall key :: KeyIndex(m, key) >= 0 ==> KeyIndex(r, key) >= 0
  {
    var i := KeyIndex(m, e.0);
    if i >= 0 then
      var r := m[i := e];
      assert forall j :: 0 <= j < |m| && j != i ==> r[j] == m[j];
      assert forall key :: KeyIndex(m, key) >= 0 ==> r[KeyIndex(m, key)].0 == key;
      r
    else
      var r := m + [e];
      assert forall key :: KeyIndex(m, key) >= 0 ==> r[KeyIndex(m, key)].0 == key;
      r
  }

  /** The questions a section is asked. */
  function Questions(s: Section): seq<string> {
    GenerateQuestions(s.title, SectionText(s))
  }

  /** The entries `entry` makes of a section's questions. */
  function Entries(s: Section, qs: seq<string>, entry: (Section, string) -> (string, QA)): (r: seq<(string, QA)>)
    ensures |r| == |qs|
    ensures forall i :: 0 <= i < |qs| ==> r[i] == entry(s, qs[i])
  {
    seq(|qs|, i requires 0 <= i < |qs| => entry(s, qs[i]))
  }

  /** The entries put one after the other. */
  function PutAll(m: seq<(string, QA)>, es: seq<(string, QA)>): seq<(string, QA)> {
    if es == [] then m else Put(PutAll(m, es[..|es| - 1]), es[|es| - 1])
  }

  /** Every section's questions put section by section; a later entry for a key wins. */
  function MappingOf(secs: seq<Section>, ask: Section -> seq<string>, entry: (Section, string) -> (string, QA)): seq<(string, QA)> {
    if secs == [] then []
    else
      var s := secs[|secs| - 1];
      PutAll(MappingOf(secs[..|secs| - 1], ask, entry), Entries(s, ask(s), entry))
  }

  /** `generateQAMapping`. */
  function QAMapping(secs: seq<Section>): seq<(string, QA)> {
    MappingOf(secs, Questions, Entry)
  }

  /** The entry is what `entry` makes of a question `ask` gives for one of the sections. */
  ghost predicate FromSections(e: (string, QA), secs: seq<Section>, ask: Section -> seq<string>,
                               entry: (Section, string) -> (string, QA)) {
    exists k, q :: 0 <= k < |secs| && q in ask(secs[k]) && e == entry(secs[k], q)
  }

  ghost predicate AllFromSections(m: seq<(string, QA)>, secs: seq<Section>, ask: Section -> seq<string>,
                                  entry: (Section, string) -> (string, QA)) {
    forall i :: 0 <= i < |m| ==> FromSections(m[i], secs, ask, entry)
  }

  /** Putting entries keeps keys distinct and present, adds the entries' keys and nothing but the entries. */
  lemma {:induction false} PutAllSpec(m: seq<(string, QA)>, es: seq<(string, QA)>)
    requires KeysDistinct(m)
    ensures KeysDistinct(PutAll(m, es))
    ensures forall i :: 0 <= i < |PutAll(m, es)| ==> PutAll(m, es)[i] in m || PutAll(m, es)[i] in es
    ensures forall key :: KeyIndex(m, key) >= 0 ==> KeyIndex(PutAll(m, es), key) >= 0
    ensures forall j :: 0 <= j < |es| ==> KeyIndex(PutAll(m, es), es[j].0) >= 0
  {
    if es != [] {
      var init := es[..|es| - 1];
      PutAllSpec(m, init);
      var e := es[|es| - 1];
      var r := Put(PutAll(m, init), e);
      assert KeyIndex(r, e.0) >= 0 by {
        var i :| 0 <= i < |r| && r[i] == e;
        assert r[i].0 == e.0;
      }
      forall j | 0 <= j < |es| ensures KeyIndex(r, es[j].0) >= 0 {
        if j < |es| - 1 {
          assert init[j] == es[j];
        }
      }
      forall i | 0 <= i < |r| ensures r[i] in m || r[i] in es {
        if r[i] != e {
          assert r[i] in PutAll(m, init);
          assert forall x :: x in init ==> x in es;
        }
      }
    }
  }

  lemma FromPrefix(e: (string, QA), secs: seq<Section>, ask: Section -> seq<string>, entry: (Section, string) -> (string, QA))
    requires secs != [] && FromSections(e, secs[..|secs| - 1], ask, entry)
    ensures FromSections(e, secs, ask, entry)
  {
    var k, q :| 0 <= k < |secs| - 1 && q in ask(secs[..|secs| - 1][k]) && e == entry(secs[..|secs| - 1][k], q);
    assert secs[..|secs| - 1][k] == secs[k];
  }

  lemma {:induction false} MappingOfSpec(secs: seq<Section>, ask: Section -> seq<string>, entry: (Section, string) -> (string, QA))
    ensures KeysDistinct(MappingOf(secs, ask, entry))
    ensures AllFromSections(MappingOf(secs, ask, entry), secs, ask, entry)
    ensures forall k, q :: 0 <= k < |secs| && q in ask(secs[k]) ==> KeyIndex(MappingOf(secs, ask, entry), entry(secs[k], q).0) >= 0
  {
    if secs != [] {
      var init := secs[..|secs| - 1];
      var s := secs[|secs| - 1];
      var es := Entries(s, ask(s), entry);
      MappingOfSpec(init, ask, entry);
      var m := MappingOf(init, ask, entry);
      PutAllSpec(m, es);
      var r := PutAll(m, es);
      forall i | 0 <= i < |r| ensures FromSections(r[i], secs, ask, entry) {
        if r[i] in m {
          var a :| 0 <= a < |m| && m[a] == r[i];
          FromPrefix(m[a], secs, ask, entry);
        } else {
          var j :| 0 <= j < |es| && es[j] == r[i];
          assert ask(s)[j] in ask(secs[|secs| - 1]);
        }
      }
      forall k, q | 0 <= k < |secs| && q in ask(secs[k]) ensures KeyIndex(r, entry(secs[k], q).0) >= 0 {
        if k < |secs| - 1 {
          assert init[k] == secs[k];
        } else {
          var j :| 0 <= j < |ask(s)| && ask(s)[j] == q;
          assert es[j] == entry(secs[k], q);
        }
      }
    }
  }

  /**
   * The question map has one entry per key; each entry is a section's
   * question, lower-cased, with the answer generated for it, the section's
   * title and confidence 0.8; and every question any section asks is a key.
   */
  lemma QAMappingSpec(secs: seq<Section>)
    ensures KeysDistinct(QAMapping(secs))
    ensures AllFromSections(QAMapping(secs), secs, Questions, Entry)
    ensures forall k, q :: 0 <= k < |secs| && q in Questions(secs[k]) ==> KeyIndex(QAMapping(secs), ToLower(q)) >= 0
  {
    MappingOfSpec(secs, Questions, Entry);
    forall k, q | 0 <= k < |secs| && q in Questions(secs[k]) ensures KeyIndex(QAMapping(secs), ToLower(q)) >= 0 {
      assert Entry(secs[k], q).0 == ToLower(q);
    }
  }
  // ---------------------------------------------------------------------
  // Processing a document
  // ---------------------------------------------------------------------

  datatype Processed = Processed(sections: seq<Section>, qaMap: seq<(string, QA)>, keywords: seq<string>)

  /** The document's lines, trimmed. */
  function DocLines(content: string): seq<string> {
    TrimAll(SplitOn(content, {'\n'}))
  }

  /** `processDocument`: the sections, their question map and the document's keywords. */
  function ProcessDocument(content: string): Processed {
    var lines := DocLines(content);
    var st := ScanLines(lines, |lines|, ExtractKeywords);
    Processed(AllSections(st), QAMapping(AllSections(st)), st.keywords)
  }

  /** The body of `processDocument`'s loop for one trimmed line. */
  method ScanLine(sections: seq<Section>, current: Option<Section>, keywords: seq<string>, line: string, i: nat,
                  kw: string -> seq<string>)
    returns (sections': seq<Section>, current': Option<Section>, keywords': seq<string>)
    ensures Scan(sections', current', keywords') == Step(Scan(sections, current, keywords), line, i, kw)
  {
    sections', current', keywords' := sections, current, keywords;
    if line == "" {
      return;
    }
    if IsHeading(line) {
      if current.Some? {
        sections' := sections + [current.value];
      }
      var title := HeadingTitle(line);
      var ks := Dedupe(kw(title));
      current' := Some(Section(HeadingLevel(line), title, [], i, Keys(ks)));
      keywords' := AddAll(keywords, ks);
      return;
    }
    if current.Some? {
      var c := current.value;
      var lk := kw(line);
      current' := Some(c.(content := c.content + [line], keywords := Keys(AddAll(Items(c.keywords), lk))));
      keywords' := AddAll(keywords, lk);
    }
  }

  /**
   * The loop of `processDocument` over the document's trimmed lines, with
   * `kw` the keyword extractor.
   */
  method ScanDocument(lines: seq<string>, kw: string -> seq<string>) returns (st: Scan)
    ensures st == ScanLines(lines, |lines|, kw)
  {
    var sections: seq<Section> := [];
    var current: Option<Section> := None;
    var keywords: seq<string> := [];
    var i := 0;
    while i < |lines|
      invariant i <= |lines|
      invariant Scan(sections, current, keywords) == ScanLines(lines, i, kw)
    {
      sections, current, keywords := ScanLine(sections, current, keywords, lines[i], i, kw);
      i := i + 1;
    }
    st := Scan(sections, current, keywords);
  }

  /** `processDocument`: the line loop, the last section pushed, then the question map. */
  method ProcessLines(content: string) returns (p: Processed)
    ensures p == ProcessDocument(content)
  {
    var st := ScanDocument(TrimAll(SplitOn(content, {'\n'})), ExtractKeywords);
    var sections := st.sections;
    if st.current.Some? {
      sections := sections + [st.current.value];
    }
    p := Processed(sections, QAMapping(sections), st.keywords);
  }

  /** The section's lines are lines of the document. */
  ghost predicate ContentFrom(st: Scan, lines: seq<string>) {
    forall k, j :: 0 <= k < |AllSections(st)| && 0 <= j < |AllSections(st)[k].content| ==>
      AllSections(st)[k].content[j] in lines
  }

  lemma {:induction false} ScanContentFrom(lines: seq<string>, n: nat, kw: string -> seq<string>)
    requires n <= |lines|
    ensures ContentFrom(ScanLines(lines, n, kw), lines)
  {
    if n > 0 {
      ScanContentFrom(lines, n - 1, kw);
      var st := ScanLines(lines, n - 1, kw);
      var line := lines[n - 1];
      var nx := ScanLines(lines, n, kw);
      if line != "" && IsHeading(line) {
        assert AllSections(nx) == AllSections(st) + [nx.current.value];
      } else if line != "" && st.current.Some? {
        var c := st.current.value;
        assert AllSections(st) == st.sections + [c];
        assert AllSections(nx) == st.sections + [nx.current.value];
        forall k, j | 0 <= k < |AllSections(nx)| && 0 <= j < |AllSections(nx)[k].content|
          ensures AllSections(nx)[k].content[j] in lines
        {
          if k < |st.sections| {
            assert AllSections(nx)[k] == AllSections(st)[k];
          } else if j < |c.content| {
            assert AllSections(nx)[k].content[j] == AllSections(st)[k].content[j];
          }
        }
      }
    }
  }

  /** A trimmed text keeps only characters of the text. */
  lemma TrimChars(s: string)
    ensures forall i :: 0 <= i < |Trim(s)| ==> Trim(s)[i] in s
  {
    var t := TrimStart(s);
    assert forall i :: 0 <= i < |t| ==> t[i] in s;
  }

  /** No line of a document holds a line break. */
  lemma DocLinesOneLine(content: string)
    ensures forall i :: 0 <= i < |DocLines(content)| ==> '\n' !in DocLines(content)[i]
  {
    var raw := SplitOn(content, {'\n'});
    forall i | 0 <= i < |raw| ensures '\n' !in Trim(raw[i]) {
      TrimChars(raw[i]);
    }
  }

  /**
   * The processed document has one section per heading line, in order,
   * each with its heading's position, title and level; no section and no
   * keyword when there is no heading.
   */
  lemma ProcessedSections(content: string)
    ensures |ProcessDocument(content).sections| == |HeadingLines(DocLines(content), |DocLines(content)|)|
    ensures forall k :: 0 <= k < |ProcessDocument(content).sections| ==>
      OpenedBy(ProcessDocument(content).sections[k], DocLines(content), HeadingLines(DocLines(content), |DocLines(content)|)[k])
    ensures HeadingLines(DocLines(content), |DocLines(content)|) == [] ==>
      ProcessDocument(content).sections == [] && ProcessDocument(content).keywords == []
  {
    var lines := DocLines(content);
    SectionsAreHeadings(lines, |lines|, ExtractKeywords);
    if HeadingLines(lines, |lines|) == [] {
      PreambleIgnored(lines, |lines|, ExtractKeywords);
    }
  }

  /**
   * Each section's keyword set holds exactly the keywords of its title and
   * lines, and the document's keywords are the union of the sections'.
   */
  lemma ProcessedKeywords(content: string)
    ensures Distinct(ProcessDocument(content).keywords)
    ensures forall k :: 0 <= k < |ProcessDocument(content).sections| ==>
      KeyedBy(ProcessDocument(content).sections[k], ExtractKeywords)
    ensures forall w :: w in ProcessDocument(content).keywords <==> w in SectionKeys(ProcessDocument(content).sections)
  {
    var lines := DocLines(content);
    ScanLinesKeyed(lines, |lines|, ExtractKeywords);
  }

  /** A section none of whose lines holds a line break gives at most one step. */
  lemma SectionOneStep(s: Section)
    requires forall j :: 0 <= j < |s.content| ==> '\n' !in s.content[j]
    ensures |ExtractSteps(SectionText(s))| <= 1
  {
    forall j | 0 <= j < |s.content| ensures AllChars(s.content[j], c => c != '\n') {
    }
    JoinAllChars(s.content, " ", c => c != '\n');
    OneLineOneStep(SectionText(s));
  }

  /** Scanning lines without line breaks gives sections with at most one step each. */
  lemma ScanOneStep(lines: seq<string>, kw: string -> seq<string>)
    requires forall i :: 0 <= i < |lines| ==> '\n' !in lines[i]
    ensures forall k :: 0 <= k < |AllSections(ScanLines(lines, |lines|, kw))| ==>
      |ExtractSteps(SectionText(AllSections(ScanLines(lines, |lines|, kw))[k]))| <= 1
  {
    var secs := AllSections(ScanLines(lines, |lines|, kw));
    ScanContentFrom(lines, |lines|, kw);
    forall k | 0 <= k < |secs| ensures |ExtractSteps(SectionText(secs[k]))| <= 1 {
      forall j | 0 <= j < |secs[k].content| ensures '\n' !in secs[k].content[j] {
        var i :| 0 <= i < |lines| && lines[i] == secs[k].content[j];
      }
      SectionOneStep(secs[k]);
    }
  }

  /**
   * A how-question's answer lists at most one step: a section's text is
   * its lines joined by spaces, so `extractSteps` sees a single line.
   */
  lemma AnswerStepsAtMostOne(content: string)
    ensures forall k :: 0 <= k < |ProcessDocument(content).sections| ==>
      |ExtractSteps(SectionText(ProcessDocument(content).sections[k]))| <= 1
  {
    var lines := DocLines(content);
    DocLinesOneLine(content);
    ScanOneStep(lines, ExtractKeywords);
    assert ProcessDocument(content).sections == AllSections(ScanLines(lines, |lines|, ExtractKeywords));
  }
}
