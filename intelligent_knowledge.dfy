/**
 * Knowledge extraction of the intelligent document processor: definition,
 * procedure and feature points from each section's text, one point per
 * table data row and per list item, the question-and-answer pairs built
 * from the points, and the text cut into chunks of sentences.
 */
module IntelligentKnowledge {
  import opened Text
  import opened Seqs
  import S = IntelligentStructure
  import Local = LocalIntelligentSearch

  /**
   * The global regular expressions the extractors run over a section's
   * text.  The model does not interpret them: their matches are given.
   */
  datatype Pattern =
    | TermIs          // term, 是, definition, full stop
    | TermColon       // term, full-width colon, definition, full stop
    | TermMeans       // term, 指, definition, full stop
    | TermDefinedAs   // term, 定义为, definition, full stop
    | DigitSteps      // a number and a dot or 、, then the step up to the next number
    | OrdinalSteps    // 第…步, then the step up to the next 第…步
    | Supports        // 支持 … 功能
    | Provides        // 提供 … 能力
    | Possesses       // 具备 … 特性
    | Includes        // 包含 … 模块

  const DefinitionPatterns := [TermIs, TermColon, TermMeans, TermDefinedAs]
  const FeaturePatterns := [Supports, Provides, Possesses, Includes]

  /** A match's two capture groups; a pattern with one group leaves `second` empty. */
  datatype Captures = Captures(first: string, second: string)

  /** The successive matches of a pattern over a text, left to right. */
  type Matches = (Pattern, string) -> seq<Captures>

  datatype StepItem = StepItem(step: string, content: string)

  datatype Point =
    | Definition(term: string, definition: string, section: string)
    | Procedure(title: string, steps: seq<StepItem>, section: string)
    | Feature(feature: string, section: string)
    | TableRow(data: map<string, string>, section: string)
    | ListPoint(content: string, section: string, kind: S.ListKind)

  function Confidence(p: Point): real {
    match p
    case Definition(_, _, _) => 0.8
    case Procedure(_, _, _) => 0.9
    case Feature(_, _) => 0.7
    case TableRow(_, _) => 0.8
    case ListPoint(_, _, _) => 0.6
  }

  // ---------------------------------------------------------------------
  // Keeping and shaping matches
  // ---------------------------------------------------------------------

  /** The points made from the items `keep` accepts, in order. */
  function Extract<T>(xs: seq<T>, keep: T -> bool, make: T -> Point): (r: seq<Point>)
    ensures |r| <= |xs|
  {
    if xs == [] then []
    else (if keep(xs[0]) then [make(xs[0])] else []) + Extract(xs[1..], keep, make)
  }

  /** Exactly the accepted items give points. */
  lemma {:induction false} ExtractSpec<T>(xs: seq<T>, keep: T -> bool, make: T -> Point)
    ensures forall p :: p in Extract(xs, keep, make) <==> exists i :: 0 <= i < |xs| && keep(xs[i]) && p == make(xs[i])
  {
    if xs != [] {
      ExtractSpec(xs[1..], keep, make);
      assert forall i :: 1 <= i < |xs| ==> xs[i] == xs[1..][i - 1];
      forall p | exists i :: 0 <= i < |xs| && keep(xs[i]) && p == make(xs[i])
        ensures p in Extract(xs, keep, make)
      {
        var i :| 0 <= i < |xs| && keep(xs[i]) && p == make(xs[i]);
        if i > 0 {
          assert keep(xs[1..][i - 1]) && p == make(xs[1..][i - 1]);
        }
      }
    }
  }

  /** One more item moved from the unread rest into the accumulated points. */
  lemma ExtractStep<T>(acc: seq<Point>, xs: seq<T>, i: nat, keep: T -> bool, make: T -> Point)
    requires i < |xs|
    ensures acc + Extract(xs[i..], keep, make) == (acc + (if keep(xs[i]) then [make(xs[i])] else [])) + Extract(xs[i + 1..], keep, make)
  {
    assert xs[i..][1..] == xs[i + 1..];
  }

  /** The same, by membership: exactly the accepted items give points. */
  lemma ExtractMembers<T>(xs: seq<T>, keep: T -> bool, make: T -> Point)
    ensures forall p :: p in Extract(xs, keep, make) <==> exists x :: x in xs && keep(x) && p == make(x)
  {
    ExtractSpec(xs, keep, make);
    forall p | exists x :: x in xs && keep(x) && p == make(x)
      ensures p in Extract(xs, keep, make)
    {
      var x :| x in xs && keep(x) && p == make(x);
      var i :| 0 <= i < |xs| && xs[i] == x;
    }
  }

  /** The matches of several patterns, pattern after pattern. */
  function AllMatches(pats: seq<Pattern>, text: string, rx: Matches): seq<Captures> {
    if pats == [] then [] else rx(pats[0], text) + AllMatches(pats[1..], text, rx)
  }

  // ---------------------------------------------------------------------
  // extractDefinitions, extractProcedures, extractFeatures
  // ---------------------------------------------------------------------

  /** A definition needs a term shorter than 20 and a definition longer than 5, before trimming. */
  predicate DefinitionKept(c: Captures) { |c.first| < 20 && |c.second| > 5 }

  function DefinitionOf(section: string): Captures -> Point {
    (c: Captures) => Definition(Trim(c.first), Trim(c.second), section)
  }

  function Definitions(text: string, section: string, rx: Matches): seq<Point> {
    Extract(AllMatches(DefinitionPatterns, text, rx), DefinitionKept, DefinitionOf(section))
  }

  /**
   * The definition points are exactly the trimmed kept matches of the four
   * definition patterns; each has a term shorter than 20 and the section's title.
   */
  lemma DefinitionsSpec(text: string, section: string, rx: Matches)
    ensures forall p :: p in Definitions(text, section, rx) <==>
      exists c :: c in AllMatches(DefinitionPatterns, text, rx) && DefinitionKept(c) && p == Definition(Trim(c.first), Trim(c.second), section)
    ensures forall p :: p in Definitions(text, section, rx) ==> p.Definition? && |p.term| < 20 && p.section == section
  {
    var ms := AllMatches(DefinitionPatterns, text, rx);
    var make := DefinitionOf(section);
    ExtractMembers(ms, DefinitionKept, make);
    assert forall c :: make(c) == Definition(Trim(c.first), Trim(c.second), section);
  }

  /** The steps of one step pattern, each with its number and its trimmed text. */
  function StepsOf(ms: seq<Captures>): (r: seq<StepItem>)
    ensures |r| == |ms|
    ensures forall i :: 0 <= i < |ms| ==> r[i] == StepItem(ms[i].first, Trim(ms[i].second))
  {
    seq(|ms|, i requires 0 <= i < |ms| => StepItem(ms[i].first, Trim(ms[i].second)))
  }

  const StepsSuffix := "的操作步骤"

  /** One step pattern gives a procedure when it matches at least twice. */
  function ProcedureOf(ms: seq<Captures>, section: string): seq<Point> {
    if |ms| >= 2 then [Procedure(section + StepsSuffix, StepsOf(ms), section)] else []
  }

  function Procedures(text: string, section: string, rx: Matches): seq<Point> {
    ProcedureOf(rx(DigitSteps, text), section) + ProcedureOf(rx(OrdinalSteps, text), section)
  }

  /**
   * One procedure per step pattern matching at least twice, in pattern
   * order, titled after the section and holding every match as a step.
   */
  lemma ProceduresSpec(text: string, section: string, rx: Matches)
    ensures var digits := rx(DigitSteps, text); var ordinals := rx(OrdinalSteps, text);
      |Procedures(text, section, rx)| == (if |digits| >= 2 then 1 else 0) + (if |ordinals| >= 2 then 1 else 0)
    ensures forall p :: p in Procedures(text, section, rx) ==>
      && p.Procedure? && |p.steps| >= 2 && p.title == section + StepsSuffix && p.section == section
      && (p.steps == StepsOf(rx(DigitSteps, text)) || p.steps == StepsOf(rx(OrdinalSteps, text)))
  {
  }

  /** A feature needs fewer than 50 characters before trimming. */
  predicate FeatureKept(c: Captures) { |c.first| < 50 }

  function FeatureOf(section: string): Captures -> Point {
    (c: Captures) => Feature(Trim(c.first), section)
  }

  function Features(text: string, section: string, rx: Matches): seq<Point> {
    Extract(AllMatches(FeaturePatterns, text, rx), FeatureKept, FeatureOf(section))
  }

  /** The feature points are exactly the trimmed kept matches of the four feature patterns. */
  lemma FeaturesSpec(text: string, section: string, rx: Matches)
    ensures forall p :: p in Features(text, section, rx) <==>
      exists c :: c in AllMatches(FeaturePatterns, text, rx) && FeatureKept(c) && p == Feature(Trim(c.first), section)
    ensures forall p :: p in Features(text, section, rx) ==> p.Feature? && |p.feature| < 50 && p.section == section
  {
    var ms := AllMatches(FeaturePatterns, text, rx);
    var make := FeatureOf(section);
    ExtractMembers(ms, FeatureKept, make);
    assert forall c :: make(c) == Feature(Trim(c.first), section);
  }

  /** A section's lines joined with spaces give its definitions, then its procedures, then its features. */
  function SectionPoints(s: S.Section, rx: Matches): seq<Point> {
    var text := Join(s.content, " ");
    Definitions(text, s.title, rx) + Procedures(text, s.title, rx) + Features(text, s.title, rx)
  }

  // ---------------------------------------------------------------------
  // extractTableKnowledge
  // ---------------------------------------------------------------------

  predicate HasBar(row: string) { '|' in row }

  /** A row's cells: split at every '|', trimmed, empty cells dropped. */
  function Cells(row: string): (r: seq<string>)
    ensures forall k :: 0 <= k < |r| ==> r[k] != ""
  {
    TrimmedCells(SplitOn(row, {'|'}))
  }

  /** Each piece trimmed, the pieces left empty dropped. */
  function TrimmedCells(pieces: seq<string>): (r: seq<string>)
    ensures |r| <= |pieces|
    ensures forall k :: 0 <= k < |r| ==> r[k] != ""
  {
    if pieces == [] then []
    else
      var c := Trim(pieces[0]);
      (if c != "" then [c] else []) + TrimmedCells(pieces[1..])
  }

  /** `data[headers[j]] = cells[j]` for every `j < n`, a later header overwriting an earlier one. */
  function RowData(headers: seq<string>, cells: seq<string>, n: nat): (m: map<string, string>)
    requires n <= |headers| && n <= |cells|
    ensures m.Keys == set j | 0 <= j < n :: headers[j]
  {
    if n == 0 then map[] else RowData(headers, cells, n - 1)[headers[n - 1] := cells[n - 1]]
  }

  /** A header's value is the cell under its last occurrence. */
  lemma {:induction false} RowDataLast(headers: seq<string>, cells: seq<string>, n: nat, j: nat)
    requires j < n <= |headers| && n <= |cells|
    requires forall k :: j < k < n ==> headers[k] != headers[j]
    ensures RowData(headers, cells, n)[headers[j]] == cells[j]
  {
    if j < n - 1 {
      RowDataLast(headers, cells, n - 1, j);
    }
  }

  function Min(a: nat, b: nat): nat { if a < b then a else b }

  /** Every row's cells. */
  function CellRows(rows: seq<string>): (r: seq<seq<string>>)
    ensures |r| == |rows|
  {
    if rows == [] then [] else [Cells(rows[0])] + CellRows(rows[1..])
  }

  lemma {:induction false} CellRowsAt(rows: seq<string>, i: nat)
    requires i < |rows|
    ensures CellRows(rows)[i] == Cells(rows[i])
  {
    if i > 0 {
      CellRowsAt(rows[1..], i - 1);
    }
  }

  /** The point a data row gives under the given headers. */
  function RowPoint(headers: seq<string>, section: string): seq<string> -> Point {
    (cells: seq<string>) => TableRow(RowData(headers, cells, Min(|headers|, |cells|)), section)
  }

  predicate TwoCells(cells: seq<string>) { |cells| >= 2 }

  /**
   * `extractTableKnowledge`: nothing for fewer than two rows; otherwise the
   * first row names the columns, the second is skipped, and each later row
   * with at least two cells gives a point.
   */
  function TableKnowledge(t: S.Table): seq<Point> {
    var rows := Filter(t.content, HasBar);
    if |rows| < 2 then [] else
      var cells := CellRows(rows);
      Extract(cells[2..], TwoCells, RowPoint(cells[0], t.section))
  }

  /**
   * The table points are exactly the points of the rows from the third on
   * that have two cells or more, each a row of the table's section mapping
   * header `j` to cell `j` for the columns both have.
   */
  lemma TableKnowledgeSpec(t: S.Table)
    ensures var rows := Filter(t.content, HasBar);
      && (|rows| < 2 ==> TableKnowledge(t) == [])
      && (|rows| >= 2 ==> forall p :: p in TableKnowledge(t) <==>
            exists i :: 2 <= i < |rows| && |Cells(rows[i])| >= 2 && p == RowPoint(Cells(rows[0]), t.section)(Cells(rows[i])))
    ensures forall p :: p in TableKnowledge(t) ==> p.TableRow? && p.section == t.section
  {
    var rows := Filter(t.content, HasBar);
    if |rows| >= 2 {
      var cells := CellRows(rows);
      var make := RowPoint(cells[0], t.section);
      ExtractFrom(cells, 2, TwoCells, make);
      forall i | 0 <= i < |rows| ensures cells[i] == Cells(rows[i]) {
        CellRowsAt(rows, i);
      }
      ExtractShape(cells[2..], TwoCells, make, t.section);
    }
  }

  lemma {:induction false} ExtractShape<T>(xs: seq<T>, keep: T -> bool, make: T -> Point, section: string)
    requires forall x :: make(x).TableRow? && make(x).section == section
    ensures forall p :: p in Extract(xs, keep, make) ==> p.TableRow? && p.section == section
  {
    if xs != [] {
      ExtractShape(xs[1..], keep, make, section);
    }
  }

  lemma ExtractFrom<T>(xs: seq<T>, k: nat, keep: T -> bool, make: T -> Point)
    requires k <= |xs|
    ensures forall p :: p in Extract(xs[k..], keep, make) <==> exists i :: k <= i < |xs| && keep(xs[i]) && p == make(xs[i])
  {
    ExtractSpec(xs[k..], keep, make);
    assert forall i :: k <= i < |xs| ==> xs[i] == xs[k..][i - k];
  }

  /** `rowKnowledge.data[headers[j]] = cells[j]` for `j < min(|headers|, |cells|)`. */
  method FillRow(headers: seq<string>, cells: seq<string>) returns (data: map<string, string>)
    ensures data == RowData(headers, cells, Min(|headers|, |cells|))
  {
    data := map[];
    for j := 0 to Min(|headers|, |cells|)
      invariant data == RowData(headers, cells, j)
    {
      data := data[headers[j] := cells[j]];
    }
  }

  /** The point one data row gives, if it has two cells or more. */
  method RowKnowledge(headers: seq<string>, cells: seq<string>, section: string) returns (found: seq<Point>)
    ensures found == if TwoCells(cells) then [RowPoint(headers, section)(cells)] else []
  {
    found := [];
    if |cells| >= 2 {
      var data := FillRow(headers, cells);
      found := [TableRow(data, section)];
    }
  }

  /** The loop of `extractTableKnowledge` over the rows from the third on. */
  method ExtractRows(rows: seq<string>, headers: seq<string>, section: string) returns (knowledge: seq<Point>)
    requires |rows| >= 2
    ensures knowledge == Extract(CellRows(rows)[2..], TwoCells, RowPoint(headers, section))
  {
    ghost var all := CellRows(rows);
    ghost var make := RowPoint(headers, section);
    knowledge := [];
    var i := 2;
    while i < |rows|
      invariant 2 <= i <= |rows|
      invariant knowledge + Extract(all[i..], TwoCells, make) == Extract(all[2..], TwoCells, make)
    {
      ExtractStep(knowledge, all, i, TwoCells, make);
      var cells := Cells(rows[i]);
      CellRowsAt(rows, i);
      var found := RowKnowledge(headers, cells, section);
      knowledge := knowledge + found;
      i := i + 1;
    }
  }

  /** `extractTableKnowledge`: the first row names the columns, the second is skipped. */
  method ExtractTableKnowledge(t: S.Table) returns (knowledge: seq<Point>)
    ensures knowledge == TableKnowledge(t)
  {
    var rows := Filter(t.content, HasBar);
    if |rows| < 2 {
      return [];
    }
    var headers := Cells(rows[0]);
    CellRowsAt(rows, 0);
    knowledge := ExtractRows(rows, headers, t.section);
  }

  // ---------------------------------------------------------------------
  // extractListKnowledge
  // ---------------------------------------------------------------------

  /** `[-*+\d\.]`: one character of a list marker. */
  const MarkerChars := {'-', '*', '+', '.', '0', '1', '2', '3', '4', '5', '6', '7', '8', '9'}

  /**
   * The marker removal as written: leading blanks, ONE marker character and
   * the blanks after it, so that "1. step" keeps ". step".
   */
  function StripMarkerAsWritten(s: string): string {
    var a := RunEnd(s, 0, Whitespace);
    if a < |s| && s[a] in MarkerChars then s[RunEnd(s, a + 1, Whitespace)..] else s
  }

  /** The marker removal intended: leading blanks, a bullet or a number with its dot, and the blanks after. */
  function StripMarker(s: string): string {
    var a := RunEnd(s, 0, Whitespace);
    var d := DigitEnd(s, a);
    if a < |s| && S.IsBullet(s[a]) then s[RunEnd(s, a + 1, Whitespace)..]
    else if a < d < |s| && s[d] == '.' then s[RunEnd(s, d + 1, Whitespace)..]
    else s
  }

  /** `extractListKnowledge`: one point per list item, with its marker removed. */
  function ListKnowledge(item: S.ListItem): seq<Point> {
    [ListPoint(StripMarker(item.content), item.section, item.kind)]
  }

  /** As written, an ordered item keeps all of its marker but the first digit. */
  lemma OrderedMarkerKept(s: string)
    requires S.IsListLine(s) && S.IsNumbered(s)
    ensures StripMarkerAsWritten(s) == s[1..]
    ensures StripMarkerAsWritten(s) != [] && (IsDigit(StripMarkerAsWritten(s)[0]) || StripMarkerAsWritten(s)[0] == '.')
  {
    WhitespaceSet(s[0]);
    assert RunEnd(s, 0, Whitespace) == 0;
    assert s[0] in MarkerChars;
    WhitespaceSet(s[1]);
    assert RunEnd(s, 1, Whitespace) == 1;
  }

  /** The item "1. 打开设置" keeps ". 打开设置" as written. */
  lemma OrderedItemAsWritten()
    ensures StripMarkerAsWritten("1. 打开设置") == ". 打开设置"
  {
    OrderedMarkerKept("1. 打开设置");
  }

  /**
   * Corrected, an ordered item loses its number, its dot and the blanks
   * after them, and a bullet item loses its bullet and the blanks after it:
   * the text left starts with no blank.
   */
  lemma StripMarkerSpec(s: string)
    requires S.IsListLine(s)
    ensures var d := DigitEnd(s, 0);
      S.IsNumbered(s) ==> StripMarker(s) == s[RunEnd(s, d + 1, Whitespace)..]
    ensures !S.IsNumbered(s) ==> StripMarker(s) == s[RunEnd(s, 1, Whitespace)..] && StripMarker(s) == StripMarkerAsWritten(s)
    ensures StripMarker(s) == [] || !IsWhitespace(StripMarker(s)[0])
  {
    WhitespaceSet(s[0]);
    assert RunEnd(s, 0, Whitespace) == 0;
    var r := StripMarker(s);
    if r != [] {
      WhitespaceSet(r[0]);
    }
  }

  // ---------------------------------------------------------------------
  // extractKnowledgePoints
  // ---------------------------------------------------------------------

  function SectionsPoints(secs: seq<S.Section>, rx: Matches): seq<Point> {
    if secs == [] then [] else SectionPoints(secs[0], rx) + SectionsPoints(secs[1..], rx)
  }

  function TablesPoints(tables: seq<S.Table>): seq<Point> {
    if tables == [] then [] else TableKnowledge(tables[0]) + TablesPoints(tables[1..])
  }

  function ListsPoints(items: seq<S.ListItem>): (r: seq<Point>)
    ensures |r| == |items|
  {
    if items == [] then [] else ListKnowledge(items[0]) + ListsPoints(items[1..])
  }

  /** The sections' points, then the tables', then the list items'. */
  function KnowledgePoints(st: S.Structure, rx: Matches): seq<Point> {
    SectionsPoints(st.sections, rx) + TablesPoints(st.tables) + ListsPoints(st.lists)
  }

  /** Each list item gives the point at its own position among the list points. */
  lemma {:induction false} ListsPointsSpec(items: seq<S.ListItem>)
    ensures forall i :: 0 <= i < |items| ==>
      ListsPoints(items)[i] == ListPoint(StripMarker(items[i].content), items[i].section, items[i].kind)
  {
    if items != [] {
      ListsPointsSpec(items[1..]);
      assert forall i :: 1 <= i < |items| ==> items[i] == items[1..][i - 1];
    }
  }

  /** Only sections give definitions, procedures and features, and each names its section. */
  lemma {:induction false} SectionsPointsSpec(secs: seq<S.Section>, rx: Matches)
    ensures forall p :: p in SectionsPoints(secs, rx) ==>
      (p.Definition? || p.Procedure? || p.Feature?) && exists k :: 0 <= k < |secs| && p.section == secs[k].title
  {
    if secs != [] {
      SectionsPointsSpec(secs[1..], rx);
      var text := Join(secs[0].content, " ");
      DefinitionsSpec(text, secs[0].title, rx);
      ProceduresSpec(text, secs[0].title, rx);
      FeaturesSpec(text, secs[0].title, rx);
      forall p | p in SectionsPoints(secs, rx)
        ensures (p.Definition? || p.Procedure? || p.Feature?) && exists k :: 0 <= k < |secs| && p.section == secs[k].title
      {
        if p in SectionPoints(secs[0], rx) {
          assert p.section == secs[0].title;
        } else {
          var k :| 0 <= k < |secs[1..]| && p.section == secs[1..][k].title;
          assert p.section == secs[k + 1].title;
        }
      }
    }
  }

  /** Only tables give table rows. */
  lemma {:induction false} TablesPointsSpec(tables: seq<S.Table>)
    ensures forall p :: p in TablesPoints(tables) ==> p.TableRow?
  {
    if tables != [] {
      TablesPointsSpec(tables[1..]);
      TableKnowledgeSpec(tables[0]);
    }
  }

  lemma SectionsPointsStep(acc: seq<Point>, secs: seq<S.Section>, i: nat, rx: Matches)
    requires i < |secs|
    ensures acc + SectionsPoints(secs[i..], rx) == (acc + SectionPoints(secs[i], rx)) + SectionsPoints(secs[i + 1..], rx)
  {
    SectionsPointsUnfold(secs[i..], rx);
    assert secs[i..][0] == secs[i] && secs[i..][1..] == secs[i + 1..];
    PointsAssoc(acc, SectionPoints(secs[i], rx), SectionsPoints(secs[i + 1..], rx));
  }

  lemma SectionsPointsUnfold(secs: seq<S.Section>, rx: Matches)
    requires secs != []
    ensures SectionsPoints(secs, rx) == SectionPoints(secs[0], rx) + SectionsPoints(secs[1..], rx)
  {
  }

  lemma PointsAssoc(a: seq<Point>, b: seq<Point>, c: seq<Point>)
    ensures a + (b + c) == (a + b) + c
  {
  }

  lemma TablesPointsStep(acc: seq<Point>, tables: seq<S.Table>, i: nat)
    requires i < |tables|
    ensures acc + TablesPoints(tables[i..]) == (acc + TableKnowledge(tables[i])) + TablesPoints(tables[i + 1..])
  {
    assert tables[i..][1..] == tables[i + 1..];
    var head, rest := TableKnowledge(tables[i]), TablesPoints(tables[i + 1..]);
    assert TablesPoints(tables[i..]) == head + rest;
    assert acc + (head + rest) == (acc + head) + rest;
  }

  lemma ListsPointsStep(acc: seq<Point>, items: seq<S.ListItem>, i: nat)
    requires i < |items|
    ensures acc + ListsPoints(items[i..]) == (acc + ListKnowledge(items[i])) + ListsPoints(items[i + 1..])
  {
    assert items[i..][1..] == items[i + 1..];
    var head, rest := ListKnowledge(items[i]), ListsPoints(items[i + 1..]);
    assert ListsPoints(items[i..]) == head + rest;
    assert acc + (head + rest) == (acc + head) + rest;
  }

  /** The first loop of `extractKnowledgePoints`: each section's definitions, procedures and features. */
  method CollectSectionPoints(secs: seq<S.Section>, rx: Matches) returns (points: seq<Point>)
    ensures points == SectionsPoints(secs, rx)
  {
    points := [];
    for i := 0 to |secs|
      invariant points + SectionsPoints(secs[i..], rx) == SectionsPoints(secs, rx)
    {
      SectionsPointsStep(points, secs, i, rx);
      var text := Join(secs[i].content, " ");
      var found := Definitions(text, secs[i].title, rx) + Procedures(text, secs[i].title, rx) + Features(text, secs[i].title, rx);
      points := points + found;
    }
    assert secs[|secs|..] == [];
  }

  /** The second loop: each table's rows. */
  method CollectTablePoints(tables: seq<S.Table>) returns (points: seq<Point>)
    ensures points == TablesPoints(tables)
  {
    points := [];
    for i := 0 to |tables|
      invariant points + TablesPoints(tables[i..]) == TablesPoints(tables)
    {
      TablesPointsStep(points, tables, i);
      var rows := ExtractTableKnowledge(tables[i]);
      points := points + rows;
    }
    assert tables[|tables|..] == [];
  }

  /** The third loop: one point per list item. */
  method CollectListPoints(items: seq<S.ListItem>) returns (points: seq<Point>)
    ensures points == ListsPoints(items)
  {
    points := [];
    for i := 0 to |items|
      invariant points + ListsPoints(items[i..]) == ListsPoints(items)
    {
      ListsPointsStep(points, items, i);
      points := points + ListKnowledge(items[i]);
    }
    assert items[|items|..] == [];
  }

  /** `extractKnowledgePoints`: the sections' points, then the tables', then the list items'. */
  method ExtractKnowledgePoints(st: S.Structure, rx: Matches) returns (points: seq<Point>)
    ensures points == KnowledgePoints(st, rx)
  {
    var fromSections := CollectSectionPoints(st.sections, rx);
    var fromTables := CollectTablePoints(st.tables);
    var fromLists := CollectListPoints(st.lists);
    points := fromSections + fromTables + fromLists;
  }

  // ---------------------------------------------------------------------
  // generateQAPairs
  // ---------------------------------------------------------------------

  datatype QAPair = QAPair(question: string, answer: string, confidence: real, source: string)

  /** Definitions, procedures and features give a pair; table rows and list items do not. */
  predicate Askable(p: Point) { p.Definition? || p.Procedure? || p.Feature? }

  function StepTexts(steps: seq<StepItem>): (r: seq<string>)
    ensures |r| == |steps|
    ensures forall i :: 0 <= i < |steps| ==> r[i] == steps[i].content
  {
    seq(|steps|, i requires 0 <= i < |steps| => steps[i].content)
  }

  /** The steps numbered from 1, one per line. */
  function StepsAnswer(steps: seq<StepItem>): string {
    Join(Local.Numbered(StepTexts(steps), 1), "\n")
  }

  function PairOf(p: Point): QAPair
    requires Askable(p)
  {
    match p
    case Definition(term, definition, section) =>
      QAPair("什么是" + term + "？", term + "是" + definition, 0.8, section)
    case Procedure(title, steps, section) =>
      QAPair("如何" + ReplaceFirst(title, StepsSuffix, "") + "？", StepsAnswer(steps), 0.9, section)
    case Feature(feature, section) =>
      QAPair("有什么" + feature + "功能？", "系统" + feature + "功能，详见" + section + "部分。", 0.7, section)
  }

  function QAPairs(points: seq<Point>): seq<QAPair> {
    if points == [] then []
    else (if Askable(points[0]) then [PairOf(points[0])] else []) + QAPairs(points[1..])
  }

  /**
   * One pair per definition, procedure or feature point, in order, none for
   * the others; each pair keeps its point's confidence and section.
   */
  lemma {:induction false} QAPairsSpec(points: seq<Point>)
    ensures var asked := Filter(points, Askable);
      && |QAPairs(points)| == |asked|
      && forall k :: 0 <= k < |asked| ==> QAPairs(points)[k] == PairOf(asked[k])
  {
    if points != [] {
      QAPairsSpec(points[1..]);
      var asked := Filter(points, Askable);
      var rest := Filter(points[1..], Askable);
      if Askable(points[0]) {
        assert asked == [points[0]] + rest;
        assert QAPairs(points) == [PairOf(points[0])] + QAPairs(points[1..]);
      } else {
        assert asked == rest;
        assert QAPairs(points) == QAPairs(points[1..]);
      }
    }
  }

  /** A pair answers with its point's confidence and names its point's section. */
  lemma PairKeepsPoint(p: Point)
    requires Askable(p)
    ensures PairOf(p).confidence == Confidence(p) && PairOf(p).source == p.section
    ensures PairOf(p).confidence in {0.7, 0.8, 0.9}
  {
  }

  /** The question of a procedure names its section again, when the title has no "的操作步骤" of its own. */
  lemma ProcedureQuestion(section: string, steps: seq<StepItem>)
    requires !Contains(section, StepsSuffix)
    ensures PairOf(Procedure(section + StepsSuffix, steps, section)).question == "如何" + section + "？"
  {
    var t := section + StepsSuffix;
    var n := |section|;
    assert OccursAt(t, StepsSuffix, n) by {
      assert t[n..n + 5] == StepsSuffix;
    }
    forall i | 0 <= i < n ensures !OccursAt(t, StepsSuffix, i) {
      if i + 5 <= n {
        assert section[i..i + 5] == t[i..i + 5];
        assert !OccursAt(section, StepsSuffix, i);
      } else {
        // the first character of the suffix would have to reappear inside it
        assert t[i..i + 5][n - i] == t[n] == StepsSuffix[0];
        assert StepsSuffix[n - i] != StepsSuffix[0];
      }
    }
    assert IndexOf(t, StepsSuffix) == n;
    assert t[..n] == section;
    assert t[n + 5..] == [];
  }

  /** `generateQAPairs`: one pass over the points. */
  method GenerateQAPairs(points: seq<Point>) returns (pairs: seq<QAPair>)
    ensures pairs == QAPairs(points)
  {
    pairs := [];
    for i := 0 to |points|
      invariant pairs + QAPairs(points[i..]) == QAPairs(points)
    {
      assert points[i..][1..] == points[i + 1..];
      if Askable(points[i]) {
        pairs := pairs + [PairOf(points[i])];
      }
    }
  }

  // ---------------------------------------------------------------------
  // splitIntoChunks
  // ---------------------------------------------------------------------

  /** The chunks closed so far and the one being filled. */
  datatype Chunking = Chunking(chunks: seq<string>, current: string)

  /**
   * A sentence closes the current chunk when the chunk is not empty and
   * would grow past `size`; otherwise it joins the chunk with a full stop.
   */
  function ChunkStep(acc: Chunking, sentence: string, size: nat): Chunking {
    if |acc.current| + |sentence| > size && acc.current != "" then Chunking(acc.chunks + [Trim(acc.current)], sentence)
    else Chunking(acc.chunks, acc.current + sentence + "。")
  }

  function ChunkScan(sentences: seq<string>, size: nat, n: nat): Chunking
    requires n <= |sentences|
  {
    if n == 0 then Chunking([], "") else ChunkStep(ChunkScan(sentences, size, n - 1), sentences[n - 1], size)
  }

  function Sentences(text: string): seq<string> { SplitOn(text, SentenceEnds) }

  /** The last chunk is kept when it is not blank. */
  function ChunksOf(sentences: seq<string>, size: nat): seq<string> {
    var acc := ChunkScan(sentences, size, |sentences|);
    if Trim(acc.current) != "" then acc.chunks + [Trim(acc.current)] else acc.chunks
  }

  function Chunks(text: string, size: nat): seq<string> {
    ChunksOf(Sentences(text), size)
  }

  /** `splitIntoChunks`. */
  method SplitIntoChunks(text: string, size: nat) returns (chunks: seq<string>)
    ensures chunks == Chunks(text, size)
  {
    var sentences := SplitOn(text, SentenceEnds);
    chunks := [];
    var current := "";
    for i := 0 to |sentences|
      invariant Chunking(chunks, current) == ChunkScan(sentences, size, i)
    {
      var sentence := sentences[i];
      if |current| + |sentence| > size && current != "" {
        chunks := chunks + [Trim(current)];
        current := sentence;
      } else {
        current := current + sentence + "。";
      }
    }
    var last := Trim(current);
    if last != "" {
      chunks := chunks + [last];
    }
  }

  predicate Trimmed(c: string) { c == [] || (!IsWhitespace(c[0]) && !IsWhitespace(c[|c| - 1])) }

  /** The scan's invariant: trimmed chunks no longer than `bound` + 1, fewer than the sentences read. */
  predicate ChunkingBounded(acc: Chunking, n: nat, bound: nat) {
    && (n == 0 ==> acc == Chunking([], ""))
    && (n > 0 ==> |acc.chunks| <= n - 1)
    && |acc.current| <= bound + 1
    && forall k :: 0 <= k < |acc.chunks| ==> Trimmed(acc.chunks[k]) && |acc.chunks[k]| <= bound + 1
  }

  lemma {:induction false} ChunkScanBounded(sentences: seq<string>, size: nat, n: nat, bound: nat)
    requires n <= |sentences| && size <= bound
    requires forall i :: 0 <= i < |sentences| ==> |sentences[i]| <= bound
    ensures ChunkingBounded(ChunkScan(sentences, size, n), n, bound)
  {
    if n > 0 {
      ChunkScanBounded(sentences, size, n - 1, bound);
    }
  }

  /**
   * Every chunk is trimmed; there are no more chunks than sentences; and
   * no chunk is longer than the chunk size or the longest sentence, plus
   * one for the full stop.
   */
  lemma ChunksSpec(sentences: seq<string>, size: nat, bound: nat)
    requires size <= bound
    requires forall i :: 0 <= i < |sentences| ==> |sentences[i]| <= bound
    ensures |ChunksOf(sentences, size)| <= |sentences|
    ensures forall k :: 0 <= k < |ChunksOf(sentences, size)| ==>
      Trimmed(ChunksOf(sentences, size)[k]) && |ChunksOf(sentences, size)[k]| <= bound + 1
  {
    ChunkScanBounded(sentences, size, |sentences|, bound);
    LastChunkBounded(ChunkScan(sentences, size, |sentences|), |sentences|, bound);
  }

  /** Keeping the last chunk when it is not blank keeps the scan's bounds. */
  lemma LastChunkBounded(acc: Chunking, n: nat, bound: nat)
    requires ChunkingBounded(acc, n, bound)
    ensures var last := Trim(acc.current);
      var r := if last != "" then acc.chunks + [last] else acc.chunks;
      && |r| <= n
      && forall k :: 0 <= k < |r| ==> Trimmed(r[k]) && |r[k]| <= bound + 1
  {
    var last := Trim(acc.current);
    assert Trimmed(last) && |last| <= bound + 1;
    if last != "" {
      assert n > 0;
      var r := acc.chunks + [last];
      forall k | 0 <= k < |r| ensures Trimmed(r[k]) && |r[k]| <= bound + 1 {
        if k < |acc.chunks| {
          assert r[k] == acc.chunks[k];
        }
      }
    }
  }
}
