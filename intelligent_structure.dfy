/**
 * The structure pass of the intelligent document processor: a Markdown
 * text read line by line into heading-led sections, tables, list items and
 * fenced code.  A section is pushed when its heading is read and its lines
 * are added to it afterwards, so the open section is always the last one.
 */
module IntelligentStructure {
  import opened Text
  import Local = LocalIntelligentSearch

  datatype Section = Section(level: nat, title: string, content: seq<string>, startLine: nat)

  datatype Table = Table(content: seq<string>, section: string)

  datatype ListKind = Ordered | Unordered

  datatype ListItem = ListItem(content: string, section: string, kind: ListKind)

  /** What `analyzeDocumentStructure` returns; its `codeBlocks` list is never filled. */
  datatype Structure = Structure(title: string, sections: seq<Section>, tables: seq<Table>, lists: seq<ListItem>)

  /** The loop state: the structure so far, code mode, and the table being read. */
  datatype Scan = Scan(doc: Structure, inCode: bool, inTable: bool, table: seq<string>)

  const Start := Scan(Structure("", [], [], []), false, false, [])


  /**
   * A trimmed line as the loop tells it apart: blank, a heading, a code
   * fence, or a body line, which may hold '|' and may be a list item.
   */
  datatype Line =
    | Blank
    | Heading(level: nat, title: string)
    | Fence
    | Body(text: string, bar: bool, listed: bool, kind: ListKind)

  // ---------------------------------------------------------------------
  // Classifying a trimmed line
  // ---------------------------------------------------------------------

  /** A line starting with three backticks opens or closes a code block. */
  predicate IsFence(line: string) { StartsWith(line, "```") }

  predicate IsBullet(c: char) { c == '-' || c == '*' || c == '+' }

  /** `/^\d+\./`: digits and then a dot. */
  predicate IsNumbered(line: string) {
    var d := DigitEnd(line, 0);
    0 < d < |line| && line[d] == '.'
  }

  /** `/^[\s]*[-*+]\s/` or `/^[\s]*\d+\.\s/` on a trimmed line, which has no leading blanks. */
  predicate IsListLine(line: string) {
    || (|line| >= 2 && IsBullet(line[0]) && IsWhitespace(line[1]))
    || (IsNumbered(line) && DigitEnd(line, 0) + 1 < |line| && IsWhitespace(line[DigitEnd(line, 0) + 1]))
  }

  function KindOf(line: string): ListKind {
    if IsNumbered(line) then Ordered else Unordered
  }

  /** Headings are recognised before fences, and fences before anything else. */
  function Classify(line: string): (c: Line)
    ensures c == Blank <==> line == ""
    ensures c.Heading? <==> line != "" && Local.IsHeading(line)
    ensures c.Heading? ==> c.level == Local.HeadingLevel(line) && c.title == Local.HeadingTitle(line)
    ensures c.Fence? <==> line != "" && !Local.IsHeading(line) && IsFence(line)
    ensures c.Body? ==> c.text == line && (c.bar <==> '|' in line) && (c.listed <==> IsListLine(line)) && c.kind == KindOf(line)
  {
    if line == "" then Blank
    else if Local.IsHeading(line) then Heading(Local.HeadingLevel(line), Local.HeadingTitle(line))
    else if IsFence(line) then Fence
    else Body(line, '|' in line, IsListLine(line), KindOf(line))
  }

  function Classified(lines: seq<string>): (cs: seq<Line>)
    ensures |cs| == |lines|
    ensures forall i :: 0 <= i < |lines| ==> cs[i] == Classify(lines[i])
  {
    seq(|lines|, i requires 0 <= i < |lines| => Classify(lines[i]))
  }

  // ---------------------------------------------------------------------
  // One line of `analyzeDocumentStructure`
  // ---------------------------------------------------------------------

  /** `currentSection?.title || 'unknown'`. */
  function SectionName(secs: seq<Section>): string {
    if secs == [] || secs[|secs| - 1].title == "" then "unknown" else secs[|secs| - 1].title
  }

  /** A heading pushes a new section; the first level-1 heading with a title names the document. */
  function OpenSection(st: Scan, level: nat, title: string, i: nat): Scan {
    st.(doc := st.doc.(
      title := if level == 1 && st.doc.title == "" then title else st.doc.title,
      sections := st.doc.sections + [Section(level, title, [], i)]))
  }

  /** A table line starts a table or joins the open one. */
  function AddTableLine(st: Scan, line: string): Scan {
    if st.inTable then st.(table := st.table + [line]) else st.(inTable := true, table := [line])
  }

  /** The open table is recorded under the current section's name. */
  function CloseTable(st: Scan): Scan {
    st.(doc := st.doc.(tables := st.doc.tables + [Table(st.table, SectionName(st.doc.sections))]),
        inTable := false, table := [])
  }

  function AddListItem(st: Scan, line: string, kind: ListKind): Scan {
    st.(doc := st.doc.(lists := st.doc.lists + [ListItem(line, SectionName(st.doc.sections), kind)]))
  }

  /** The line joins the open section, which is the last one pushed. */
  function AddContent(st: Scan, line: string): Scan
    requires st.doc.sections != []
  {
    var secs := st.doc.sections;
    var c := secs[|secs| - 1];
    st.(doc := st.doc.(sections := secs[..|secs| - 1] + [c.(content := c.content + [line])]))
  }

  /**
   * A line that is not a table line: it closes an open table, may be a list
   * item (inside code too), and joins the open section unless it is inside code.
   */
  function BodyLine(st: Scan, text: string, listed: bool, kind: ListKind): Scan {
    var closed := if st.inTable then CloseTable(st) else st;
    var items := if listed then AddListItem(closed, text, kind) else closed;
    if items.doc.sections != [] && !items.inCode then AddContent(items, text) else items
  }

  /** One line: a line holding '|' outside code is a table line. */
  function Step(st: Scan, c: Line, i: nat): Scan {
    match c
    case Blank => st
    case Heading(level, title) => OpenSection(st, level, title, i)
    case Fence => st.(inCode := !st.inCode)
    case Body(text, bar, listed, kind) =>
      if bar && !st.inCode then AddTableLine(st, text) else BodyLine(st, text, listed, kind)
  }

  /** The loop state after the first `n` lines. */
  function ScanLines(cs: seq<Line>, n: nat): Scan
    requires n <= |cs|
  {
    if n == 0 then Start else Step(ScanLines(cs, n - 1), cs[n - 1], n - 1)
  }

  /** The document's lines, trimmed and classified. */
  function DocLines(content: string): seq<Line> {
    Classified(Local.DocLines(content))
  }

  /** `analyzeDocumentStructure` as written: a table still open at the end is never recorded. */
  function Analyze(content: string): Structure {
    var cs := DocLines(content);
    ScanLines(cs, |cs|).doc
  }

  /** The intended end of the loop: a table still open is recorded as well. */
  function Finish(st: Scan): Structure {
    if st.inTable then CloseTable(st).doc else st.doc
  }

  /** `analyzeDocumentStructure` with the open table recorded at the end of the input. */
  function AnalyzeFixed(content: string): Structure {
    var cs := DocLines(content);
    Finish(ScanLines(cs, |cs|))
  }

  // ---------------------------------------------------------------------
  // The loop
  // ---------------------------------------------------------------------

  /** The body of the loop for one classified line. */
  method ScanLine(st: Scan, c: Line, i: nat) returns (next: Scan)
    ensures next == Step(st, c, i)
  {
    next := st;
    match c
    case Blank =>
    case Heading(level, title) =>
      var docTitle := st.doc.title;
      if level == 1 && docTitle == "" {
        docTitle := title;
      }
      next := st.(doc := st.doc.(title := docTitle, sections := st.doc.sections + [Section(level, title, [], i)]));
    case Fence =>
      next := st.(inCode := !st.inCode);
    case Body(text, bar, listed, kind) =>
      if bar && !st.inCode {
        if !st.inTable {
          next := next.(inTable := true, table := []);
        }
        next := next.(table := next.table + [text]);
        return;
      } else if st.inTable {
        next := CloseTable(next);
      }
      if listed {
        next := AddListItem(next, text, kind);
      }
      if next.doc.sections != [] && !next.inCode {
        next := AddContent(next, text);
      }
  }

  /** The loop of `analyzeDocumentStructure`: every trimmed line classified and read in turn. */
  method ScanAll(lines: seq<string>) returns (st: Scan)
    ensures st == ScanLines(Classified(lines), |lines|)
  {
    ghost var cs := Classified(lines);
    st := Start;
    for i := 0 to |lines|
      invariant st == ScanLines(cs, i)
    {
      st := ScanLine(st, Classify(lines[i]), i);
    }
  }

  /** `analyzeDocumentStructure`: the text split into trimmed lines and scanned. */
  method AnalyzeStructure(content: string) returns (structure: Structure)
    ensures structure == Analyze(content)
  {
    var st := ScanAll(Local.DocLines(content));
    structure := st.doc;
  }

  /** `analyzeDocumentStructure` with a table still open at the end recorded as well. */
  method AnalyzeStructureFixed(content: string) returns (structure: Structure)
    ensures structure == AnalyzeFixed(content)
  {
    var st := ScanAll(Local.DocLines(content));
    if st.inTable {
      st := CloseTable(st);
    }
    structure := st.doc;
  }

  // ---------------------------------------------------------------------
  // Code mode
  // ---------------------------------------------------------------------

  /** Code mode after the first `n` lines: every fence toggles it. */
  function InCode(cs: seq<Line>, n: nat): bool
    requires n <= |cs|
  {
    if n == 0 then false
    else if cs[n - 1].Fence? then !InCode(cs, n - 1)
    else InCode(cs, n - 1)
  }

  lemma {:induction false} CodeMode(cs: seq<Line>, n: nat)
    requires n <= |cs|
    ensures ScanLines(cs, n).inCode == InCode(cs, n)
  {
    if n > 0 {
      CodeMode(cs, n - 1);
    }
  }

  // ---------------------------------------------------------------------
  // Sections
  // ---------------------------------------------------------------------

  /** The positions of the headings among the first `n` lines, in order. */
  function Heads(cs: seq<Line>, n: nat): (r: seq<nat>)
    requires n <= |cs|
    ensures forall k :: 0 <= k < |r| ==> r[k] < n && cs[r[k]].Heading?
    ensures forall k, j :: 0 <= k < j < |r| ==> r[k] < r[j]
    ensures forall i :: 0 <= i < n && cs[i].Heading? ==> i in r
  {
    if n == 0 then []
    else
      var prev := Heads(cs, n - 1);
      if cs[n - 1].Heading? then prev + [n - 1] else prev
  }

  /** The section was pushed for the heading at `h`: its position, title and level. */
  predicate OpenedBy(s: Section, cs: seq<Line>, h: nat)
    requires h < |cs| && cs[h].Heading?
  {
    s.startLine == h && s.title == cs[h].title && s.level == cs[h].level
  }

  /** One section per heading, in order, each carrying its heading's position, title and level. */
  predicate SectionsFollow(cs: seq<Line>, n: nat, secs: seq<Section>)
    requires n <= |cs|
  {
    var hs := Heads(cs, n);
    && |secs| == |hs|
    && forall k :: 0 <= k < |hs| ==> OpenedBy(secs[k], cs, hs[k])
  }

  /** Two section lists agree on every section's heading. */
  predicate SameHeads(a: seq<Section>, b: seq<Section>) {
    && |a| == |b|
    && forall k :: 0 <= k < |a| ==> a[k].level == b[k].level && a[k].title == b[k].title && a[k].startLine == b[k].startLine
  }

  /** A line that is not a heading changes no section's heading. */
  lemma StepKeepsHeads(st: Scan, c: Line, i: nat)
    requires !c.Heading?
    ensures SameHeads(st.doc.sections, Step(st, c, i).doc.sections)
  {
    var secs := st.doc.sections;
    var nx := Step(st, c, i).doc.sections;
    if c.Body? && !(c.bar && !st.inCode) && secs != [] && !st.inCode {
      forall k | 0 <= k < |secs|
        ensures nx[k].level == secs[k].level && nx[k].title == secs[k].title && nx[k].startLine == secs[k].startLine
      {
        if k < |secs| - 1 {
          assert nx[k] == secs[k];
        }
      }
    }
  }

  lemma {:induction false} SectionsAreHeadings(cs: seq<Line>, n: nat)
    requires n <= |cs|
    ensures SectionsFollow(cs, n, ScanLines(cs, n).doc.sections)
  {
    if n > 0 {
      SectionsAreHeadings(cs, n - 1);
      var st := ScanLines(cs, n - 1);
      if cs[n - 1].Heading? {
        assert Heads(cs, n) == Heads(cs, n - 1) + [n - 1];
      } else {
        StepKeepsHeads(st, cs[n - 1], n - 1);
      }
    }
  }

  // ---------------------------------------------------------------------
  // The document's title
  // ---------------------------------------------------------------------

  predicate Level1At(cs: seq<Line>, i: nat)
    requires i < |cs|
  {
    cs[i].Heading? && cs[i].level == 1
  }

  /** No level-1 heading before `h` has a title. */
  predicate NoTitleBefore(cs: seq<Line>, h: nat)
    requires h <= |cs|
  {
    forall i :: 0 <= i < h && Level1At(cs, i) ==> cs[i].title == ""
  }

  /** The heading at `h` is the first level-1 heading with a title, and that title is `t`. */
  predicate FirstTitled(cs: seq<Line>, h: nat, t: string)
    requires h < |cs|
  {
    Level1At(cs, h) && cs[h].title == t && NoTitleBefore(cs, h)
  }

  /** The title is that of the first level-1 heading with a title, or empty when there is none. */
  ghost predicate TitleFollows(cs: seq<Line>, n: nat, t: string)
    requires n <= |cs|
  {
    && (t == "" ==> NoTitleBefore(cs, n))
    && (t != "" ==> exists h :: 0 <= h < n && FirstTitled(cs, h, t))
  }

  lemma {:induction false} TitleIsFirst(cs: seq<Line>, n: nat)
    requires n <= |cs|
    ensures TitleFollows(cs, n, ScanLines(cs, n).doc.title)
  {
    if n > 0 {
      TitleIsFirst(cs, n - 1);
      var t := ScanLines(cs, n - 1).doc.title;
      var t' := ScanLines(cs, n).doc.title;
      if t != "" {
        assert t' == t;
        var h :| 0 <= h < n - 1 && FirstTitled(cs, h, t);
        assert 0 <= h < n;
      } else if t' != "" {
        assert FirstTitled(cs, n - 1, t');
      }
    }
  }

  // ---------------------------------------------------------------------
  // Tables
  // ---------------------------------------------------------------------

  /** Line `i` is read into a table: a body line holding '|', outside code. */
  predicate TableAt(cs: seq<Line>, i: nat)
    requires i < |cs|
  {
    cs[i].Body? && cs[i].bar && !InCode(cs, i)
  }

  /** The table lines among the first `n`, in order. */
  function TableLines(cs: seq<Line>, n: nat): seq<string>
    requires n <= |cs|
  {
    if n == 0 then []
    else TableLines(cs, n - 1) + (if TableAt(cs, n - 1) then [cs[n - 1].text] else [])
  }

  /** The rows of the tables, table after table. */
  function Rows(tables: seq<Table>): seq<string> {
    if tables == [] then [] else Rows(tables[..|tables| - 1]) + tables[|tables| - 1].content
  }

  /** The recorded tables and the open one hold every table line once, in order. */
  predicate TablesFollow(cs: seq<Line>, n: nat, st: Scan)
    requires n <= |cs|
  {
    && (st.inTable <==> st.table != [])
    && Rows(st.doc.tables) + st.table == TableLines(cs, n)
  }

  lemma CloseTableRows(st: Scan)
    ensures Rows(CloseTable(st).doc.tables) == Rows(st.doc.tables) + st.table
  {
    var ts := CloseTable(st).doc.tables;
    assert ts[..|ts| - 1] == st.doc.tables;
  }

  /** One line adds itself to the table rows exactly when it is a table line. */
  lemma StepTables(st: Scan, c: Line, i: nat)
    requires st.inTable <==> st.table != []
    ensures var nx := Step(st, c, i);
      && (nx.inTable <==> nx.table != [])
      && Rows(nx.doc.tables) + nx.table == Rows(st.doc.tables) + st.table + (if c.Body? && c.bar && !st.inCode then [c.text] else [])
  {
    if st.inTable && c.Body? && !(c.bar && !st.inCode) {
      CloseTableRows(st);
    }
  }

  lemma {:induction false} TablesHoldTableLines(cs: seq<Line>, n: nat)
    requires n <= |cs|
    ensures TablesFollow(cs, n, ScanLines(cs, n))
  {
    if n > 0 {
      TablesHoldTableLines(cs, n - 1);
      CodeMode(cs, n - 1);
      StepTables(ScanLines(cs, n - 1), cs[n - 1], n - 1);
    }
  }

  /** Blank lines change nothing. */
  lemma {:induction false} BlankTail(cs: seq<Line>, k: nat, n: nat)
    requires k <= n <= |cs|
    requires forall j :: k <= j < n ==> cs[j] == Blank
    ensures ScanLines(cs, n) == ScanLines(cs, k)
  {
    if n > k {
      BlankTail(cs, k, n - 1);
    }
  }

  // ---------------------------------------------------------------------
  // Section content
  // ---------------------------------------------------------------------

  /** Line `i` joins a section: a body line without '|', outside code, after some heading. */
  predicate BodyAt(cs: seq<Line>, i: nat)
    requires i < |cs|
  {
    cs[i].Body? && !cs[i].bar && !InCode(cs, i) && Heads(cs, i) != []
  }

  function BodyLines(cs: seq<Line>, n: nat): seq<string>
    requires n <= |cs|
  {
    if n == 0 then []
    else BodyLines(cs, n - 1) + (if BodyAt(cs, n - 1) then [cs[n - 1].text] else [])
  }

  /** The sections' lines, section after section. */
  function AllContent(secs: seq<Section>): seq<string> {
    if secs == [] then [] else AllContent(secs[..|secs| - 1]) + secs[|secs| - 1].content
  }

  lemma AddContentAppends(st: Scan, line: string)
    requires st.doc.sections != []
    ensures AllContent(AddContent(st, line).doc.sections) == AllContent(st.doc.sections) + [line]
  {
    var secs := st.doc.sections;
    var nx := AddContent(st, line).doc.sections;
    assert nx[..|nx| - 1] == secs[..|secs| - 1];
  }

  lemma OpenSectionContent(st: Scan, level: nat, title: string, i: nat)
    ensures AllContent(OpenSection(st, level, title, i).doc.sections) == AllContent(st.doc.sections)
  {
    var nx := OpenSection(st, level, title, i).doc.sections;
    assert nx[..|nx| - 1] == st.doc.sections;
  }

  /** One line joins the sections' lines exactly when it is a body line without '|', outside code, after a heading. */
  lemma StepContent(st: Scan, c: Line, i: nat)
    ensures AllContent(Step(st, c, i).doc.sections) ==
      AllContent(st.doc.sections) + (if c.Body? && !c.bar && !st.inCode && st.doc.sections != [] then [c.text] else [])
  {
    match c
    case Blank =>
    case Fence =>
    case Heading(level, title) =>
      OpenSectionContent(st, level, title, i);
    case Body(text, bar, listed, kind) =>
      if !(bar && !st.inCode) {
        var closed := if st.inTable then CloseTable(st) else st;
        var items := if listed then AddListItem(closed, text, kind) else closed;
        if items.doc.sections != [] && !items.inCode {
          AddContentAppends(items, text);
        }
      }
  }

  lemma {:induction false} ContentIsBody(cs: seq<Line>, n: nat)
    requires n <= |cs|
    ensures AllContent(ScanLines(cs, n).doc.sections) == BodyLines(cs, n)
  {
    if n > 0 {
      ContentIsBody(cs, n - 1);
      CodeMode(cs, n - 1);
      SectionsAreHeadings(cs, n - 1);
      var st := ScanLines(cs, n - 1);
      assert (st.doc.sections != []) == (Heads(cs, n - 1) != []);
      ContentStep(cs, n);
    }
  }

  /** The step of `ContentIsBody`, given what the scan of the first `n - 1` lines holds. */
  lemma ContentStep(cs: seq<Line>, n: nat)
    requires 0 < n <= |cs|
    requires AllContent(ScanLines(cs, n - 1).doc.sections) == BodyLines(cs, n - 1)
    requires ScanLines(cs, n - 1).inCode == InCode(cs, n - 1)
    requires (ScanLines(cs, n - 1).doc.sections != []) == (Heads(cs, n - 1) != [])
    ensures AllContent(ScanLines(cs, n).doc.sections) == BodyLines(cs, n)
  {
    StepContent(ScanLines(cs, n - 1), cs[n - 1], n - 1);
  }

  // ---------------------------------------------------------------------
  // List items
  // ---------------------------------------------------------------------

  /** Line `i` is a list item: a list line that is not a table line; inside code counts. */
  predicate ListAt(cs: seq<Line>, i: nat)
    requires i < |cs|
  {
    cs[i].Body? && cs[i].listed && !(cs[i].bar && !InCode(cs, i))
  }

  /** The list lines among the first `n` with their kinds, in order. */
  function ListLines(cs: seq<Line>, n: nat): seq<(string, ListKind)>
    requires n <= |cs|
  {
    if n == 0 then []
    else ListLines(cs, n - 1) + (if ListAt(cs, n - 1) then [(cs[n - 1].text, cs[n - 1].kind)] else [])
  }

  /** Each item's text and kind. */
  function Entries(items: seq<ListItem>): seq<(string, ListKind)> {
    if items == [] then [] else Entries(items[..|items| - 1]) + [(items[|items| - 1].content, items[|items| - 1].kind)]
  }

  /** One line becomes a list item exactly when it is a list line that is not a table line. */
  lemma StepLists(st: Scan, c: Line, i: nat)
    ensures Entries(Step(st, c, i).doc.lists) ==
      Entries(st.doc.lists) + (if c.Body? && c.listed && !(c.bar && !st.inCode) then [(c.text, c.kind)] else [])
  {
    if c.Body? && c.listed && !(c.bar && !st.inCode) {
      var closed := if st.inTable then CloseTable(st) else st;
      var items := AddListItem(closed, c.text, c.kind).doc.lists;
      assert items[..|items| - 1] == st.doc.lists;
    }
  }

  lemma {:induction false} ListsAreListLines(cs: seq<Line>, n: nat)
    requires n <= |cs|
    ensures Entries(ScanLines(cs, n).doc.lists) == ListLines(cs, n)
  {
    if n > 0 {
      ListsAreListLines(cs, n - 1);
      CodeMode(cs, n - 1);
      StepLists(ScanLines(cs, n - 1), cs[n - 1], n - 1);
    }
  }

  // ---------------------------------------------------------------------
  // The whole document
  // ---------------------------------------------------------------------

  /**
   * One section per heading with its position, title and level; the
   * sections' lines are exactly the body lines outside code without '|'
   * from the first heading on; the list items are the list lines, inside
   * code too; the title is that of the first level-1 heading with a title.
   */
  lemma StructureSpec(content: string)
    ensures var cs := DocLines(content);
      && SectionsFollow(cs, |cs|, Analyze(content).sections)
      && AllContent(Analyze(content).sections) == BodyLines(cs, |cs|)
      && Entries(Analyze(content).lists) == ListLines(cs, |cs|)
      && TitleFollows(cs, |cs|, Analyze(content).title)
  {
    var cs := DocLines(content);
    SectionsAreHeadings(cs, |cs|);
    ContentIsBody(cs, |cs|);
    ListsAreListLines(cs, |cs|);
    TitleIsFirst(cs, |cs|);
  }

  /** As written, the recorded tables hold the table lines up to the open table, which is lost. */
  lemma TablesAsWritten(content: string)
    ensures var cs := DocLines(content);
      Rows(Analyze(content).tables) + ScanLines(cs, |cs|).table == TableLines(cs, |cs|)
  {
    var cs := DocLines(content);
    TablesHoldTableLines(cs, |cs|);
  }

  /**
   * As written, a document whose last non-blank line is a table line loses
   * that table: fewer rows are recorded than there are table lines.
   */
  lemma TrailingTableLost(content: string, k: nat)
    requires var cs := DocLines(content);
      k < |cs| && TableAt(cs, k) && forall j :: k < j < |cs| ==> cs[j] == Blank
    ensures var cs := DocLines(content);
      |Rows(Analyze(content).tables)| < |TableLines(cs, |cs|)|
  {
    TrailingTableOpen(DocLines(content), k);
  }

  /** A table line followed only by blank lines leaves its table open at the end. */
  lemma TrailingTableOpen(cs: seq<Line>, k: nat)
    requires k < |cs| && TableAt(cs, k) && forall j :: k < j < |cs| ==> cs[j] == Blank
    ensures |Rows(ScanLines(cs, |cs|).doc.tables)| < |TableLines(cs, |cs|)|
  {
    CodeMode(cs, k);
    assert ScanLines(cs, k + 1).table != [];
    BlankTail(cs, k + 1, |cs|);
    TablesHoldTableLines(cs, |cs|);
  }

  /** With the open table recorded at the end, the tables hold every table line once, in order. */
  lemma TablesFixed(content: string)
    ensures var cs := DocLines(content);
      Rows(AnalyzeFixed(content).tables) == TableLines(cs, |cs|)
  {
    var cs := DocLines(content);
    TablesHoldTableLines(cs, |cs|);
    CloseTableRows(ScanLines(cs, |cs|));
  }

  /** Recording the open table changes nothing but the tables, which it only extends. */
  lemma FixedKeepsTheRest(content: string)
    ensures AnalyzeFixed(content).title == Analyze(content).title
    ensures AnalyzeFixed(content).sections == Analyze(content).sections
    ensures AnalyzeFixed(content).lists == Analyze(content).lists
    ensures Analyze(content).tables <= AnalyzeFixed(content).tables
  {
  }
}
