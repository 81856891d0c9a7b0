/**
 * The BM25 keyword index: a tokenizer for mixed Chinese and English text,
 * an inverted index from terms to per-document postings with field-weighted
 * term frequencies, document frequencies, the average weighted document
 * length, and BM25 ranking with filters and field boosts.
 */
module Bm25 {
  import opened Common
  import opened Text
  import opened Seqs

  const K1: real := 1.5
  const B: real := 0.75
  const DayMs: real := 86400000.0

  const StopWords: set<string> := {
    "的", "了", "在", "是", "我", "有", "和", "就", "不", "人", "都", "一", "个", "上",
    "也", "很", "到", "说", "要", "去", "你", "会", "着", "没有", "看", "好", "自己", "这样"}

  // ---------------------------------------------------------------------
  // Tokenizer
  // ---------------------------------------------------------------------

  /** Characters the tokenizer keeps: `[一-龥a-zA-Z0-9\s]`. */
  predicate KeptChar(c: char) {
    IsCjk(c) || IsAsciiLetter(c) || IsDigit(c) || IsWhitespace(c)
  }

  /** Every other character becomes a space. */
  function Sanitize(s: string): (r: string)
    ensures |r| == |s|
    ensures forall i :: 0 <= i < |s| ==> r[i] == if KeptChar(s[i]) then s[i] else ' '
  {
    seq(|s|, i requires 0 <= i < |s| => if KeptChar(s[i]) then s[i] else ' ')
  }

  /** `/^\d+$/`. */
  predicate AllDigits(t: string) {
    |t| >= 1 && AllChars(t, IsDigit)
  }

  /** The filter applied to every piece of the split text. */
  predicate KeepToken(t: string) {
    |t| > 1 && t !in StopWords && !AllDigits(t)
  }

  predicate TokenChar(c: char) {
    IsCjk(c) || IsAsciiLower(c) || IsDigit(c)
  }

  /** What a token is: long enough, not a stop word, not a number, lower-case letters, digits and Chinese only. */
  predicate IsToken(t: string) {
    KeepToken(t) && AllChars(t, TokenChar)
  }

  function Tokenize(text: string): (r: seq<string>)
    ensures forall i :: 0 <= i < |r| ==> IsToken(r[i])
  {
    if text == "" then []
    else
      var clean := Sanitize(ToLower(text));
      var pieces := Words(clean);
      assert forall k, j :: 0 <= k < |pieces| && 0 <= j < |pieces[k]| ==> TokenChar(pieces[k][j]) by {
        forall k, j | 0 <= k < |pieces| && 0 <= j < |pieces[k]| ensures TokenChar(pieces[k][j]) {
          var c := pieces[k][j];
          assert c in clean;
          WhitespaceSet(c);
        }
      }
      Filter(pieces, KeepToken)
  }

  /** Re-tokenizing the tokens joined by spaces gives the same tokens. */
  lemma TokenizeRoundTrip(text: string)
    ensures Tokenize(Join(Tokenize(text), " ")) == Tokenize(text)
  {
    RetokenizeTokens(Tokenize(text));
  }

  /** Tokens joined by spaces tokenize back to themselves. */
  lemma RetokenizeTokens(toks: seq<string>)
    requires forall i :: 0 <= i < |toks| ==> IsToken(toks[i])
    ensures Tokenize(Join(toks, " ")) == toks
  {
    if toks != [] {
      var s := Join(toks, [' ']);
      assert " " == [' '];
      TokensOfJoinChars(toks);
      JoinAllChars(toks, [' '], JoinedTokenChar);
      TokenTextIsClean(s);
      TokensWithoutSpaces(toks);
      JoinStartsOutside(toks, ' ', Whitespace);
      JoinSplitRuns(toks, ' ', Whitespace);
      FilterAll(toks);
      assert Tokenize(s) == Filter(Words(s), KeepToken);
    }
  }

  /** The characters of tokens joined by spaces. */
  predicate JoinedTokenChar(c: char) {
    TokenChar(c) || c == ' '
  }

  lemma TokensOfJoinChars(toks: seq<string>)
    requires forall i :: 0 <= i < |toks| ==> IsToken(toks[i])
    ensures AllChars([' '], JoinedTokenChar)
    ensures forall k :: 0 <= k < |toks| ==> AllChars(toks[k], JoinedTokenChar)
  {
    forall k | 0 <= k < |toks| ensures AllChars(toks[k], JoinedTokenChar) {
      assert AllChars(toks[k], TokenChar);
    }
  }

  /** Lower-case letters, digits, Chinese and spaces pass lower-casing and sanitizing unchanged. */
  lemma TokenTextIsClean(s: string)
    requires AllChars(s, JoinedTokenChar)
    ensures ToLower(s) == s && Sanitize(s) == s
  {
    assert forall i :: 0 <= i < |s| ==> JoinedTokenChar(s[i]);
    ToLowerNoUpper(s);
  }

  lemma TokensWithoutSpaces(toks: seq<string>)
    requires forall i :: 0 <= i < |toks| ==> IsToken(toks[i])
    ensures forall k :: 0 <= k < |toks| ==> toks[k] != [] && NoneIn(toks[k], Whitespace)
  {
    forall k | 0 <= k < |toks| ensures toks[k] != [] && NoneIn(toks[k], Whitespace) {
      forall j | 0 <= j < |toks[k]| ensures toks[k][j] !in Whitespace {
        WhitespaceSet(toks[k][j]);
      }
    }
  }

  lemma {:induction false} FilterAll(toks: seq<string>)
    requires forall i :: 0 <= i < |toks| ==> KeepToken(toks[i])
    ensures Filter(toks, KeepToken) == toks
  {
    if toks != [] {
      FilterAll(toks[1..]);
    }
  }

  // ---------------------------------------------------------------------
  // Documents
  // ---------------------------------------------------------------------

  /** `uploadedAt` as milliseconds since the epoch (absent: 0); an empty category reads as 'general'. */
  datatype Metadata = Metadata(uploadedAt: Option<int>, category: string, tags: seq<string>)

  datatype DocumentInput = DocumentInput(
    id: string, title: string, content: string, tags: Option<seq<string>>,
    filename: string, metadata: Metadata)

  datatype ProcessedDoc = ProcessedDoc(
    id: string, title: seq<string>, content: seq<string>, tags: seq<string>,
    filename: seq<string>, metadata: Metadata, length: real)

  datatype Field = Title | Content | Tags | Filename

  function Weight(f: Field): real {
    match f
    case Title => 3.0
    case Content => 1.0
    case Tags => 2.0
    case Filename => 1.5
  }

  function FieldTokens(p: ProcessedDoc, f: Field): seq<string> {
    match f
    case Title => p.title
    case Content => p.content
    case Tags => p.tags
    case Filename => p.filename
  }

  /** `tags.flatMap(tag => tokenize(tag))`. */
  function TokenizeAll(tags: seq<string>): (r: seq<string>)
    ensures forall i :: 0 <= i < |r| ==> IsToken(r[i])
  {
    if tags == [] then [] else Tokenize(tags[0]) + TokenizeAll(tags[1..])
  }

  /** The weighted length: every token counts with the weight of its field. */
  predicate WellFormed(p: ProcessedDoc) {
    p.length == WeightedLength(p.title, p.content, p.tags, p.filename)
  }

  function WeightedLength(title: seq<string>, content: seq<string>, tags: seq<string>, filename: seq<string>): real {
    Weight(Title) * |title| as real + Weight(Content) * |content| as real
      + Weight(Tags) * |tags| as real + Weight(Filename) * |filename| as real
  }

  function Preprocess(d: DocumentInput): (p: ProcessedDoc)
    ensures WellFormed(p)
  {
    var title := Tokenize(d.title);
    var content := Tokenize(d.content);
    var tags := match d.tags case Some(ts) => TokenizeAll(ts) case None => [];
    var filename := Tokenize(d.filename);
    ProcessedDoc(d.id, title, content, tags, filename, d.metadata, WeightedLength(title, content, tags, filename))
  }

  function AllTokens(p: ProcessedDoc): seq<string> {
    p.title + p.content + p.tags + p.filename
  }

  function Terms(p: ProcessedDoc): set<string> {
    set t | t in AllTokens(p)
  }

  // ---------------------------------------------------------------------
  // Term statistics of one document
  // ---------------------------------------------------------------------

  datatype FieldCounts = FieldCounts(title: nat, content: nat, tags: nat, filename: nat)

  datatype TermStat = TermStat(total: real, fields: FieldCounts)

  /** What the index stores for a term in a document. */
  datatype Posting = Posting(tf: real, fields: FieldCounts, docLength: real)

  const NoStat := TermStat(0.0, FieldCounts(0, 0, 0, 0))

  /** One more occurrence of a term in field `f`. */
  function Bump(st: TermStat, f: Field): TermStat {
    var c := st.fields;
    TermStat(st.total + Weight(f),
      match f
      case Title => c.(title := c.title + 1)
      case Content => c.(content := c.content + 1)
      case Tags => c.(tags := c.tags + 1)
      case Filename => c.(filename := c.filename + 1))
  }

  function StatOf(m: map<string, TermStat>, t: string): TermStat {
    if t in m then m[t] else NoStat
  }

  /** The counting loop over one field's tokens, as a fold. */
  ghost function CountTokens(acc: map<string, TermStat>, tokens: seq<string>, f: Field): map<string, TermStat>
    decreases |tokens|
  {
    if tokens == [] then acc
    else
      var prev := CountTokens(acc, tokens[..|tokens| - 1], f);
      var t := tokens[|tokens| - 1];
      prev[t := Bump(StatOf(prev, t), f)]
  }

  const FieldOrder: seq<Field> := [Title, Content, Tags, Filename]

  /** The counting loops over the first `k` fields. */
  ghost function CountFields(p: ProcessedDoc, k: nat): map<string, TermStat>
    requires k <= 4
  {
    if k == 0 then map[] else CountTokens(CountFields(p, k - 1), FieldTokens(p, FieldOrder[k - 1]), FieldOrder[k - 1])
  }

  function Occurrences(p: ProcessedDoc, f: Field, t: string): nat {
    multiset(FieldTokens(p, f))[t]
  }

  /** The statistics of a term: occurrences per field and their weighted sum. */
  function ClosedStat(p: ProcessedDoc, t: string): TermStat {
    var c := FieldCounts(Occurrences(p, Title, t), Occurrences(p, Content, t),
      Occurrences(p, Tags, t), Occurrences(p, Filename, t));
    TermStat(Weight(Title) * c.title as real + Weight(Content) * c.content as real
      + Weight(Tags) * c.tags as real + Weight(Filename) * c.filename as real, c)
  }

  function PostingFor(p: ProcessedDoc, t: string): Posting {
    var st := ClosedStat(p, t);
    Posting(st.total, st.fields, p.length)
  }

  function AddCount(c: FieldCounts, f: Field, n: nat): FieldCounts {
    match f
    case Title => c.(title := c.title + n)
    case Content => c.(content := c.content + n)
    case Tags => c.(tags := c.tags + n)
    case Filename => c.(filename := c.filename + n)
  }

  lemma {:induction false} CountTokensSpec(acc: map<string, TermStat>, tokens: seq<string>, f: Field, t: string)
    ensures t in CountTokens(acc, tokens, f) <==> t in acc || t in tokens
    ensures StatOf(CountTokens(acc, tokens, f), t).total == StatOf(acc, t).total + Weight(f) * multiset(tokens)[t] as real
    ensures StatOf(CountTokens(acc, tokens, f), t).fields == AddCount(StatOf(acc, t).fields, f, multiset(tokens)[t])
    decreases |tokens|
  {
    if tokens != [] {
      var init := tokens[..|tokens| - 1];
      var last := tokens[|tokens| - 1];
      CountTokensSpec(acc, init, f, t);
      MultisetOfLast(tokens, t);
      var prev := CountTokens(acc, init, f);
      assert CountTokens(acc, tokens, f) == prev[last := Bump(StatOf(prev, last), f)];
    }
  }

  lemma MultisetOfLast(tokens: seq<string>, t: string)
    requires tokens != []
    ensures multiset(tokens)[t] == multiset(tokens[..|tokens| - 1])[t] + if tokens[|tokens| - 1] == t then 1 else 0
  {
    assert tokens == tokens[..|tokens| - 1] + [tokens[|tokens| - 1]];
  }

  lemma CountFieldsUnfold(p: ProcessedDoc)
    ensures CountFields(p, 1) == CountTokens(map[], p.title, Title)
    ensures CountFields(p, 2) == CountTokens(CountFields(p, 1), p.content, Content)
    ensures CountFields(p, 3) == CountTokens(CountFields(p, 2), p.tags, Tags)
    ensures CountFields(p, 4) == CountTokens(CountFields(p, 3), p.filename, Filename)
  {
    assert FieldOrder[0] == Title && FieldOrder[1] == Content && FieldOrder[2] == Tags && FieldOrder[3] == Filename;
  }

  /** After all four fields, a term has statistics exactly when it occurs, and they are its counts. */
  lemma TermStatsClosed(p: ProcessedDoc, t: string)
    ensures t in CountFields(p, 4) <==> t in Terms(p)
    ensures t in CountFields(p, 4) ==> CountFields(p, 4)[t] == ClosedStat(p, t)
  {
    CountFieldsUnfold(p);
    TermStatKeys(p, t);
    TermStatValue(p, t, CountFields(p, 1), CountFields(p, 2), CountFields(p, 3), CountFields(p, 4));
  }

  lemma TermStatKeys(p: ProcessedDoc, t: string)
    requires CountFields(p, 1) == CountTokens(map[], p.title, Title)
    requires CountFields(p, 2) == CountTokens(CountFields(p, 1), p.content, Content)
    requires CountFields(p, 3) == CountTokens(CountFields(p, 2), p.tags, Tags)
    requires CountFields(p, 4) == CountTokens(CountFields(p, 3), p.filename, Filename)
    ensures t in CountFields(p, 4) <==> t in Terms(p)
  {
    CountTokensSpec(map[], p.title, Title, t);
    CountTokensSpec(CountFields(p, 1), p.content, Content, t);
    CountTokensSpec(CountFields(p, 2), p.tags, Tags, t);
    CountTokensSpec(CountFields(p, 3), p.filename, Filename, t);
    assert t in Terms(p) <==> t in AllTokens(p);
    assert t in AllTokens(p) <==> t in p.title || t in p.content || t in p.tags || t in p.filename;
  }

  lemma TermStatValue(p: ProcessedDoc, t: string, m1: map<string, TermStat>, m2: map<string, TermStat>,
                       m3: map<string, TermStat>, m4: map<string, TermStat>)
    requires m1 == CountTokens(map[], p.title, Title)
    requires m2 == CountTokens(m1, p.content, Content)
    requires m3 == CountTokens(m2, p.tags, Tags)
    requires m4 == CountTokens(m3, p.filename, Filename)
    ensures StatOf(m4, t) == ClosedStat(p, t)
  {
    var a, b, c, d := multiset(p.title)[t], multiset(p.content)[t], multiset(p.tags)[t], multiset(p.filename)[t];
    CountTokensSpec(map[], p.title, Title, t);
    CountTokensSpec(m1, p.content, Content, t);
    CountTokensSpec(m2, p.tags, Tags, t);
    CountTokensSpec(m3, p.filename, Filename, t);
    assert StatOf(m4, t).fields == FieldCounts(a, b, c, d);
    assert StatOf(m4, t).total == 3.0 * a as real + 1.0 * b as real + 2.0 * c as real + 1.5 * d as real;
  }

  /** The term-frequency loops of `updateInvertedIndex`. */
  method TermFrequencies(p: ProcessedDoc) returns (tf: map<string, TermStat>)
    ensures tf.Keys == Terms(p)
    ensures forall t | t in tf :: tf[t] == ClosedStat(p, t)
  {
    tf := map[];
    CountFieldsUnfold(p);
    for k := 0 to 4
      invariant tf == CountFields(p, k)
    {
      var f := FieldOrder[k];
      var tokens := FieldTokens(p, f);
      for i := 0 to |tokens|
        invariant tf == CountTokens(CountFields(p, k), tokens[..i], f)
      {
        var token := tokens[i];
        var st := if token in tf then tf[token] else NoStat;
        tf := tf[token := Bump(st, f)];
        assert tokens[..i + 1][..i] == tokens[..i];
      }
      assert tokens[..|tokens|] == tokens;
    }
    forall t ensures t in tf <==> t in Terms(p) {
      TermStatsClosed(p, t);
    }
    forall t | t in tf ensures tf[t] == ClosedStat(p, t) {
      TermStatsClosed(p, t);
    }
  }

  // ---------------------------------------------------------------------
  // The index
  // ---------------------------------------------------------------------

  datatype IndexState = IndexState(
    documents: map<string, ProcessedDoc>,
    invertedIndex: map<string, map<string, Posting>>,
    documentFreq: map<string, int>,
    avgDocLength: real,
    totalDocs: int)

  const EmptyIndex := IndexState(map[], map[], map[], 0.0, 0)

  /** The sum of the weighted lengths of all documents. */
  ghost function SumLengths(m: map<string, ProcessedDoc>): real
    decreases |m|
  {
    if m == map[] then 0.0
    else
      var k := PickKey(m);
      m[k].length + SumLengths(m - {k})
  }

  ghost function PickKey(m: map<string, ProcessedDoc>): (k: string)
    requires m != map[]
    ensures k in m
  {
    assert exists k :: k in m.Keys;
    var k :| k in m; k
  }

  lemma {:induction false} SumLengthsRemove(m: map<string, ProcessedDoc>, k: string)
    requires k in m
    ensures SumLengths(m) == m[k].length + SumLengths(m - {k})
    decreases |m|
  {
    var j := PickKey(m);
    if j != k {
      SumLengthsRemove(m - {j}, k);
      SumLengthsRemove(m - {k}, j);
      assert m - {j} - {k} == m - {k} - {j};
    }
  }

  lemma {:induction false} SumLengthsNonNegative(m: map<string, ProcessedDoc>)
    requires forall k | k in m :: m[k].length >= 0.0
    ensures SumLengths(m) >= 0.0
    decreases |m|
  {
    if m != map[] {
      SumLengthsNonNegative(m - {PickKey(m)});
    }
  }

  /** The statistics `updateStats` keeps. */
  ghost predicate StatsConsistent(s: IndexState) {
    && s.totalDocs == |s.documents|
    && (s.documents != map[] ==> s.avgDocLength == SumLengths(s.documents) / (|s.documents| as real))
  }

  /**
   * The inverted index agrees with the documents: every posting belongs to a
   * stored document containing the term and holds that term's statistics,
   * every term of every document is indexed, and the document frequency of a
   * term is the number of its postings.
   */
  ghost predicate IndexConsistent(docs: map<string, ProcessedDoc>, ii: map<string, map<string, Posting>>, df: map<string, int>) {
    && ii.Keys == df.Keys
    && DocsWellFormed(docs)
    && FreqsCount(ii, df)
    && PostingsSound(docs, ii)
    && TermsIndexed(docs, ii)
  }

  ghost predicate DocsWellFormed(docs: map<string, ProcessedDoc>) {
    forall d | d in docs :: WellFormed(docs[d])
  }

  /** Every indexed term has postings, and its document frequency is their number. */
  ghost predicate FreqsCount(ii: map<string, map<string, Posting>>, df: map<string, int>) {
    forall t | t in ii :: ii[t] != map[] && t in df && df[t] == |ii[t]|
  }

  /** Every posting belongs to a stored document containing the term and holds the term's statistics. */
  ghost predicate PostingsSound(docs: map<string, ProcessedDoc>, ii: map<string, map<string, Posting>>) {
    forall t, d | t in ii && d in ii[t] :: d in docs && t in Terms(docs[d]) && ii[t][d] == PostingFor(docs[d], t)
  }

  /** Every term of every stored document has a posting for it. */
  ghost predicate TermsIndexed(docs: map<string, ProcessedDoc>, ii: map<string, map<string, Posting>>) {
    forall d, t | d in docs && t in Terms(docs[d]) :: t in ii && d in ii[t]
  }

  ghost predicate Consistent(s: IndexState) {
    IndexConsistent(s.documents, s.invertedIndex, s.documentFreq) && StatsConsistent(s)
  }

  /** Every quantity the BM25 formula divides by is positive. */
  ghost predicate ScoringSafe(s: IndexState) {
    forall t, d | t in s.invertedIndex && d in s.invertedIndex[t] ::
      s.invertedIndex[t][d].tf > 0.0 && s.invertedIndex[t][d].docLength >= 0.0 && s.avgDocLength > 0.0
  }

  lemma ConsistentIsSafe(s: IndexState)
    requires Consistent(s)
    ensures ScoringSafe(s)
  {
    forall t, d | t in s.invertedIndex && d in s.invertedIndex[t]
      ensures s.invertedIndex[t][d].tf > 0.0 && s.invertedIndex[t][d].docLength >= 0.0 && s.avgDocLength > 0.0
    {
      PostingSafe(s, t, d);
    }
  }

  lemma PostingSafe(s: IndexState, t: string, d: string)
    requires DocsWellFormed(s.documents) && PostingsSound(s.documents, s.invertedIndex) && StatsConsistent(s)
    requires t in s.invertedIndex && d in s.invertedIndex[t]
    ensures s.invertedIndex[t][d].tf > 0.0 && s.invertedIndex[t][d].docLength >= 0.0 && s.avgDocLength > 0.0
  {
    var p := s.documents[d];
    assert s.invertedIndex[t][d] == PostingFor(p, t);
    PostingPositive(p, t);
    AveragePositive(s.documents, d);
  }

  /** A term of a document has a positive frequency, and the document a positive length. */
  lemma PostingPositive(p: ProcessedDoc, t: string)
    requires WellFormed(p) && t in Terms(p)
    ensures PostingFor(p, t).tf > 0.0 && p.length >= 1.0
  {
    assert t in AllTokens(p);
    if t in p.title {
      assert multiset(p.title)[t] >= 1;
    } else if t in p.content {
      assert multiset(p.content)[t] >= 1;
    } else if t in p.tags {
      assert multiset(p.tags)[t] >= 1;
    } else {
      assert multiset(p.filename)[t] >= 1;
    }
  }

  lemma AveragePositive(docs: map<string, ProcessedDoc>, d: string)
    requires forall k | k in docs :: WellFormed(docs[k])
    requires d in docs && docs[d].length >= 1.0
    ensures SumLengths(docs) / (|docs| as real) > 0.0
  {
    SumLengthsRemove(docs, d);
    SumLengthsNonNegative(docs - {d});
    PositiveQuotient(SumLengths(docs), |docs| as real);
  }

  lemma PositiveQuotient(a: real, b: real)
    requires a > 0.0 && b > 0.0
    ensures a / b > 0.0
  {
  }

  /** The postings of a document, one for each of its terms. */
  ghost function DocPostings(p: ProcessedDoc): map<string, Posting> {
    map t | t in Terms(p) :: PostingFor(p, t)
  }

  lemma AllPostings(p: ProcessedDoc, postings: map<string, Posting>)
    requires forall t :: t in postings <==> t in Terms(p)
    requires forall t | t in postings :: postings[t] == PostingFor(p, t)
    ensures postings == DocPostings(p)
  {
  }

  /** The index with document `id` given the postings in `postings`. */
  ghost function Indexed(ii: map<string, map<string, Posting>>, id: string, postings: map<string, Posting>): map<string, map<string, Posting>> {
    map t | t in ii.Keys + postings.Keys ::
      if t in postings then (if t in ii then ii[t] else map[])[id := postings[t]] else ii[t]
  }

  /** Every term of the new document counts one more document. */
  ghost function DfAdded(df: map<string, int>, done: set<string>): map<string, int> {
    map t | t in df.Keys + done :: if t in done then (if t in df then df[t] else 0) + 1 else df[t]
  }

  /** The postings of document `id` removed; a term left without postings is dropped. */
  ghost function Removed(ii: map<string, map<string, Posting>>, id: string, done: set<string>): map<string, map<string, Posting>> {
    map t | t in ii && !(t in done && ii[t].Keys <= {id}) :: if t in done then ii[t] - {id} else ii[t]
  }

  /** The document frequency of each term left is reset to its number of postings. */
  ghost function DfRemoved(ii: map<string, map<string, Posting>>, df: map<string, int>, id: string, done: set<string>): map<string, int> {
    map t | t in df.Keys + (done * ii.Keys) && !(t in done && t in ii && ii[t].Keys <= {id}) ::
      if t in done && t in ii then |ii[t]| - (if id in ii[t] then 1 else 0) else df[t]
  }

  /** One iteration of the postings loop of `updateInvertedIndex`. */
  lemma IndexedStep(ii0: map<string, map<string, Posting>>, id: string, added: map<string, Posting>, t: string, v: Posting)
    requires t !in added
    ensures Indexed(ii0, id, added[t := v]) ==
      var ii := Indexed(ii0, id, added);
      ii[t := (if t in ii then ii[t] else map[])[id := v]]
  {
  }

  /** One iteration of the document-frequency loop of `updateInvertedIndex`. */
  lemma DfAddedStep(df0: map<string, int>, df: map<string, int>, done: set<string>, t: string)
    requires df == DfAdded(df0, done) && t !in done
    ensures DfAdded(df0, done + {t}) == df[t := (if t in df then df[t] else 0) + 1]
  {
  }

  /** One iteration of the loop of `removeDocument`, on the postings. */
  lemma RemovedStep(ii0: map<string, map<string, Posting>>, id: string, done: set<string>, t: string)
    requires t !in done
    ensures var ii := Removed(ii0, id, done);
      && (t in ii <==> t in ii0)
      && (t in ii ==> ii[t] == ii0[t])
    ensures t in ii0 && |ii0[t] - {id}| == 0 ==>
      Removed(ii0, id, done + {t}) == Removed(ii0, id, done) - {t}
    ensures t in ii0 && |ii0[t] - {id}| != 0 ==>
      Removed(ii0, id, done + {t}) == Removed(ii0, id, done)[t := ii0[t] - {id}]
    ensures t !in ii0 ==> Removed(ii0, id, done + {t}) == Removed(ii0, id, done)
  {
    if t in ii0 {
      OnlyPosting(ii0[t], id);
    }
    if t in ii0 && |ii0[t] - {id}| == 0 {
      RemovedEmptied(ii0, id, done, t);
    } else if t in ii0 {
      RemovedShrunk(ii0, id, done, t);
    } else {
      RemovedUnindexed(ii0, id, done, t);
    }
  }

  /** Deleting `id` leaves a posting map empty exactly when `id` was its only key. */
  lemma OnlyPosting(m: map<string, Posting>, id: string)
    ensures |m - {id}| == |m| - (if id in m then 1 else 0)
    ensures |m - {id}| == 0 <==> m.Keys <= {id}
  {
    if id in m {
      assert m == (m - {id})[id := m[id]];
    } else {
      assert m - {id} == m;
    }
    if m.Keys <= {id} {
      assert m - {id} == map[];
    } else {
      var d :| d in m && d != id;
      assert d in m - {id};
    }
  }

  lemma RemovedEmptied(ii0: map<string, map<string, Posting>>, id: string, done: set<string>, t: string)
    requires t !in done && t in ii0 && ii0[t].Keys <= {id}
    ensures Removed(ii0, id, done + {t}) == Removed(ii0, id, done) - {t}
  {
    var before, after := Removed(ii0, id, done), Removed(ii0, id, done + {t});
    assert after.Keys == before.Keys - {t};
  }

  lemma RemovedShrunk(ii0: map<string, map<string, Posting>>, id: string, done: set<string>, t: string)
    requires t !in done && t in ii0 && !(ii0[t].Keys <= {id})
    ensures Removed(ii0, id, done + {t}) == Removed(ii0, id, done)[t := ii0[t] - {id}]
  {
    var before, after := Removed(ii0, id, done), Removed(ii0, id, done + {t});
    assert after.Keys == before[t := ii0[t] - {id}].Keys;
  }

  lemma RemovedUnindexed(ii0: map<string, map<string, Posting>>, id: string, done: set<string>, t: string)
    requires t !in done && t !in ii0
    ensures Removed(ii0, id, done + {t}) == Removed(ii0, id, done)
  {
    var before, after := Removed(ii0, id, done), Removed(ii0, id, done + {t});
    assert after.Keys == before.Keys;
  }

  /** One iteration of the loop of `removeDocument`, on the document frequencies. */
  lemma DfRemovedStep(ii0: map<string, map<string, Posting>>, df0: map<string, int>, id: string, done: set<string>, t: string)
    requires t !in done
    ensures t in ii0 && |ii0[t] - {id}| == 0 ==>
      DfRemoved(ii0, df0, id, done + {t}) == DfRemoved(ii0, df0, id, done) - {t}
    ensures t in ii0 && |ii0[t] - {id}| != 0 ==>
      DfRemoved(ii0, df0, id, done + {t}) == DfRemoved(ii0, df0, id, done)[t := |ii0[t] - {id}|]
    ensures t !in ii0 ==> DfRemoved(ii0, df0, id, done + {t}) == DfRemoved(ii0, df0, id, done)
  {
    if t in ii0 {
      OnlyPosting(ii0[t], id);
    }
    if t in ii0 && |ii0[t] - {id}| == 0 {
      DfRemovedEmptied(ii0, df0, id, done, t);
    } else if t in ii0 {
      DfRemovedRecounted(ii0, df0, id, done, t);
    } else {
      DfRemovedUnindexed(ii0, df0, id, done, t);
    }
  }

  lemma DfRemovedEmptied(ii0: map<string, map<string, Posting>>, df0: map<string, int>, id: string, done: set<string>, t: string)
    requires t !in done && t in ii0 && ii0[t].Keys <= {id}
    ensures DfRemoved(ii0, df0, id, done + {t}) == DfRemoved(ii0, df0, id, done) - {t}
  {
    var before, after := DfRemoved(ii0, df0, id, done), DfRemoved(ii0, df0, id, done + {t});
    assert after.Keys == before.Keys - {t};
  }

  lemma DfRemovedRecounted(ii0: map<string, map<string, Posting>>, df0: map<string, int>, id: string, done: set<string>, t: string)
    requires t !in done && t in ii0 && !(ii0[t].Keys <= {id})
    ensures DfRemoved(ii0, df0, id, done + {t}) == DfRemoved(ii0, df0, id, done)[t := |ii0[t]| - (if id in ii0[t] then 1 else 0)]
  {
    var before, after := DfRemoved(ii0, df0, id, done), DfRemoved(ii0, df0, id, done + {t});
    assert after.Keys == before[t := 0].Keys;
  }

  lemma DfRemovedUnindexed(ii0: map<string, map<string, Posting>>, df0: map<string, int>, id: string, done: set<string>, t: string)
    requires t !in done && t !in ii0
    ensures DfRemoved(ii0, df0, id, done + {t}) == DfRemoved(ii0, df0, id, done)
  {
    var before, after := DfRemoved(ii0, df0, id, done), DfRemoved(ii0, df0, id, done + {t});
    assert after.Keys == before.Keys;
  }

  lemma AddKeepsIndex(docs: map<string, ProcessedDoc>, ii: map<string, map<string, Posting>>, df: map<string, int>, id: string, p: ProcessedDoc)
    requires IndexConsistent(docs, ii, df) && id !in docs && WellFormed(p)
    ensures IndexConsistent(docs[id := p], Indexed(ii, id, DocPostings(p)), DfAdded(df, Terms(p)))
  {
    assert forall t | t in ii :: id !in ii[t];
    AddKeepsFreqs(docs, ii, df, id, p);
    AddKeepsSound(docs, ii, id, p);
    AddKeepsIndexed(docs, ii, id, p);
  }

  lemma AddKeepsFreqs(docs: map<string, ProcessedDoc>, ii: map<string, map<string, Posting>>, df: map<string, int>, id: string, p: ProcessedDoc)
    requires ii.Keys == df.Keys && FreqsCount(ii, df) && forall t | t in ii :: id !in ii[t]
    ensures FreqsCount(Indexed(ii, id, DocPostings(p)), DfAdded(df, Terms(p)))
  {
    var ts := Terms(p);
    var ii', df' := Indexed(ii, id, DocPostings(p)), DfAdded(df, ts);
    forall t | t in ii' ensures ii'[t] != map[] && t in df' && df'[t] == |ii'[t]| {
      if t in ts {
        var before := if t in ii then ii[t] else map[];
        OneMorePosting(before, id, PostingFor(p, t));
      }
    }
  }

  lemma OneMorePosting(m: map<string, Posting>, id: string, v: Posting)
    requires id !in m
    ensures |m[id := v]| == |m| + 1 && m[id := v] != map[]
  {
    assert m[id := v].Keys == m.Keys + {id};
  }

  lemma AddKeepsSound(docs: map<string, ProcessedDoc>, ii: map<string, map<string, Posting>>, id: string, p: ProcessedDoc)
    requires PostingsSound(docs, ii) && id !in docs
    ensures PostingsSound(docs[id := p], Indexed(ii, id, DocPostings(p)))
  {
  }

  lemma AddKeepsIndexed(docs: map<string, ProcessedDoc>, ii: map<string, map<string, Posting>>, id: string, p: ProcessedDoc)
    requires TermsIndexed(docs, ii)
    ensures TermsIndexed(docs[id := p], Indexed(ii, id, DocPostings(p)))
  {
  }

  lemma RemoveKeepsIndex(docs: map<string, ProcessedDoc>, ii: map<string, map<string, Posting>>, df: map<string, int>, id: string)
    requires IndexConsistent(docs, ii, df) && id in docs
    ensures IndexConsistent(docs - {id}, Removed(ii, id, Terms(docs[id])), DfRemoved(ii, df, id, Terms(docs[id])))
  {
    var ts := Terms(docs[id]);
    RemoveKeepsKeys(ii, df, id, ts);
    RemoveKeepsFreqs(ii, df, id, ts);
    RemoveKeepsSound(docs, ii, id);
    RemoveKeepsIndexed(docs, ii, id);
  }

  lemma RemoveKeepsKeys(ii: map<string, map<string, Posting>>, df: map<string, int>, id: string, ts: set<string>)
    requires ii.Keys == df.Keys
    ensures Removed(ii, id, ts).Keys == DfRemoved(ii, df, id, ts).Keys
  {
  }

  lemma RemoveKeepsFreqs(ii: map<string, map<string, Posting>>, df: map<string, int>, id: string, ts: set<string>)
    requires ii.Keys == df.Keys && FreqsCount(ii, df)
    ensures FreqsCount(Removed(ii, id, ts), DfRemoved(ii, df, id, ts))
  {
  }

  lemma RemoveKeepsSound(docs: map<string, ProcessedDoc>, ii: map<string, map<string, Posting>>, id: string)
    requires PostingsSound(docs, ii) && id in docs
    ensures PostingsSound(docs - {id}, Removed(ii, id, Terms(docs[id])))
  {
    var ts := Terms(docs[id]);
    var docs', ii' := docs - {id}, Removed(ii, id, ts);
    forall t, d | t in ii' && d in ii'[t]
      ensures d in docs' && t in Terms(docs'[d]) && ii'[t][d] == PostingFor(docs'[d], t)
    {
      assert d in ii[t];
    }
  }

  lemma RemoveKeepsIndexed(docs: map<string, ProcessedDoc>, ii: map<string, map<string, Posting>>, id: string)
    requires TermsIndexed(docs, ii) && id in docs
    ensures TermsIndexed(docs - {id}, Removed(ii, id, Terms(docs[id])))
  {
    var ts := Terms(docs[id]);
    var docs', ii' := docs - {id}, Removed(ii, id, ts);
    forall d, t | d in docs' && t in Terms(docs'[d]) ensures t in ii' && d in ii'[t] {
      assert d in ii[t];
      if t in ts {
        assert d in ii[t] - {id};
      }
    }
  }

  /**
   * Adding a document under an id that is already indexed counts its common
   * terms twice: the document frequency no longer equals the number of postings.
   */
  lemma ReAddMiscounts(s: IndexState, id: string, p: ProcessedDoc, t: string)
    requires Consistent(s) && id in s.documents && t in Terms(s.documents[id]) && t in Terms(p)
    ensures DfAdded(s.documentFreq, Terms(p))[t] == |Indexed(s.invertedIndex, id, DocPostings(p))[t]| + 1
  {
    assert TermsIndexed(s.documents, s.invertedIndex) && FreqsCount(s.invertedIndex, s.documentFreq);
    var m := s.invertedIndex[t];
    assert id in m && s.documentFreq[t] == |m|;
    var postings := DocPostings(p);
    assert t in postings && postings[t] == PostingFor(p, t);
    assert Indexed(s.invertedIndex, id, postings)[t] == m[id := PostingFor(p, t)];
    assert m[id := PostingFor(p, t)].Keys == m.Keys;
    assert DfAdded(s.documentFreq, Terms(p))[t] == s.documentFreq[t] + 1;
  }

  // ---------------------------------------------------------------------
  // Search
  // ---------------------------------------------------------------------

  /** Extra weight per field in `options.boost`; 0 means absent. */
  datatype Boost = Boost(title: real, content: real, tags: real, filename: real)

  datatype SearchOptions = SearchOptions(topK: nat, filters: Filters, boost: Boost, minScore: real)

  const DefaultOptions := SearchOptions(10, NoFilters, Boost(0.0, 0.0, 0.0, 0.0), 0.1)

  datatype MatchedTerm = MatchedTerm(term: string, frequency: real, fields: seq<Field>)

  datatype SearchHit = SearchHit(id: string, score: real, document: ProcessedDoc, matchedTerms: seq<MatchedTerm>)

  /** The time-range filter, with `now` in milliseconds. */
  predicate PassesTime(doc: ProcessedDoc, timeRange: Option<string>, now: int) {
    if timeRange.Some? && timeRange.value != "" && timeRange.value != "all" then
      var uploaded := match doc.metadata.uploadedAt case Some(u) => u case None => 0;
      var diffDays := (now - uploaded) as real / DayMs;
      var range := timeRange.value;
      if range == "recent" || range == "week" then diffDays <= 7.0
      else if range == "month" then diffDays <= 30.0
      else true
    else true
  }

  function Category(doc: ProcessedDoc): string {
    if doc.metadata.category == "" then "general" else doc.metadata.category
  }

  predicate PassesDocTypes(doc: ProcessedDoc, docTypes: Option<seq<string>>) {
    docTypes.Some? && |docTypes.value| > 0 ==> Category(doc) in docTypes.value
  }

  /** Some filter tag occurs, ignoring case, inside some tag of the document. */
  predicate PassesTags(doc: ProcessedDoc, tags: Option<seq<string>>) {
    tags.Some? && |tags.value| > 0 ==>
      exists i, j :: 0 <= i < |tags.value| && 0 <= j < |doc.metadata.tags| &&
        Contains(ToLower(doc.metadata.tags[j]), ToLower(tags.value[i]))
  }

  predicate PassesFilters(doc: ProcessedDoc, filters: Filters, now: int) {
    PassesTime(doc, filters.timeRange, now) && PassesDocTypes(doc, filters.docTypes) && PassesTags(doc, filters.tags)
  }

  /** Without filters every document passes. */
  lemma NoFiltersPassAll(doc: ProcessedDoc, now: int)
    ensures PassesFilters(doc, NoFilters, now)
  {
  }

  /** 'recent' and 'week' are the same seven-day window, and it lies inside the 'month' window. */
  lemma TimeWindowsNest(doc: ProcessedDoc, now: int)
    ensures PassesTime(doc, Some("recent"), now) <==> PassesTime(doc, Some("week"), now)
    ensures PassesTime(doc, Some("week"), now) ==> PassesTime(doc, Some("month"), now)
    ensures PassesTime(doc, Some("all"), now) && PassesTime(doc, Some(""), now)
  {
  }

  /** `Math.log((N - df + 0.5) / (df + 0.5))`, with the logarithm as a parameter. */
  function Idf(totalDocs: int, df: int, ln: real -> real): real {
    ln(((totalDocs - df) as real + 0.5) / (df as real + 0.5))
  }

  /** The saturating term-frequency part of BM25. */
  function NormalizedTf(tf: real, docLength: real, avgDocLength: real): (r: real)
    requires tf > 0.0 && docLength >= 0.0 && avgDocLength > 0.0
    ensures 0.0 < r < K1 + 1.0
  {
    var ratio := docLength / avgDocLength;
    NonNegativeQuotient(docLength, avgDocLength);
    var denominator := tf + K1 * (1.0 - B + B * ratio);
    assert denominator > tf;
    SaturationBound(tf, denominator);
    (tf * (K1 + 1.0)) / denominator
  }

  lemma NonNegativeQuotient(a: real, b: real)
    requires a >= 0.0 && b > 0.0
    ensures a / b >= 0.0
  {
  }

  lemma SaturationBound(tf: real, d: real)
    requires 0.0 < tf < d
    ensures 0.0 < (tf * (K1 + 1.0)) / d < K1 + 1.0
  {
    var q := tf / d;
    assert q * d == tf;
    if q >= 1.0 {
      ProductMonotone(q, 1.0, d);
      assert false;
    }
    if q <= 0.0 {
      ProductMonotone(0.0, q, d);
      assert false;
    }
    assert (tf * 2.5) / d == 2.5 * q;
  }

  lemma ProductMonotone(x: real, y: real, d: real)
    requires x >= y && d > 0.0
    ensures x * d >= y * d
  {
  }

  function BoostTerm(score: real, weight: real, count: nat): real {
    if weight != 0.0 && count > 0 then score * weight * count as real else 0.0
  }

  /** The score one posting contributes, boosted once per occurrence in a boosted field. */
  function ScorePosting(idf: real, posting: Posting, avgDocLength: real, boost: Boost): real
    requires posting.tf > 0.0 && posting.docLength >= 0.0 && avgDocLength > 0.0
  {
    var score := idf * NormalizedTf(posting.tf, posting.docLength, avgDocLength);
    var c := posting.fields;
    score + BoostTerm(score, boost.title, c.title) + BoostTerm(score, boost.content, c.content)
      + BoostTerm(score, boost.tags, c.tags) + BoostTerm(score, boost.filename, c.filename)
  }

  function DfOf(s: IndexState, t: string): int {
    if t in s.documentFreq then s.documentFreq[t] else 0
  }

  /** Document `d` is scored for term `t`: it has a posting, is stored and passes the filters. */
  predicate Eligible(s: IndexState, t: string, d: string, filters: Filters, now: int) {
    t in s.invertedIndex && d in s.invertedIndex[t] && d in s.documents && PassesFilters(s.documents[d], filters, now)
  }

  ghost function Contribution(s: IndexState, t: string, d: string, boost: Boost, ln: real -> real): real
    requires ScoringSafe(s) && t in s.invertedIndex && d in s.invertedIndex[t]
  {
    ScorePosting(Idf(s.totalDocs, DfOf(s, t), ln), s.invertedIndex[t][d], s.avgDocLength, boost)
  }

  /** The summed BM25 score of document `d`; a repeated query term counts again. */
  ghost function RawScore(s: IndexState, terms: seq<string>, d: string, o: SearchOptions, now: int, ln: real -> real): real
    requires ScoringSafe(s)
    decreases |terms|
  {
    if terms == [] then 0.0
    else
      var t := terms[|terms| - 1];
      RawScore(s, terms[..|terms| - 1], d, o, now, ln)
        + (if Eligible(s, t, d, o.filters, now) then Contribution(s, t, d, o.boost, ln) else 0.0)
  }

  /** The documents that receive a score. */
  ghost function Candidates(s: IndexState, terms: seq<string>, filters: Filters, now: int): set<string> {
    set d | d in s.documents && exists i :: 0 <= i < |terms| && Eligible(s, terms[i], d, filters, now)
  }

  /** The scores `search` accumulates: one summed BM25 score per candidate document. */
  ghost function ScoreMap(s: IndexState, terms: seq<string>, o: SearchOptions, now: int, ln: real -> real): map<string, real>
    requires ScoringSafe(s)
  {
    map d | d in Candidates(s, terms, o.filters, now) :: RawScore(s, terms, d, o, now, ln)
  }

  lemma ScoreMapDocuments(s: IndexState, terms: seq<string>, o: SearchOptions, now: int, ln: real -> real)
    requires ScoringSafe(s)
    ensures forall d | d in ScoreMap(s, terms, o, now, ln) :: d in s.documents
  {
  }

  /**
   * `hits` ranks the documents of `scores` that reach `minScore`: each at
   * most once, best first, and a document left out is outranked by `topK`
   * hits.
   */
  ghost predicate RankedHits(hits: seq<SearchHit>, scores: map<string, real>, minScore: real, topK: nat) {
    && |hits| <= topK
    && (forall i :: 0 <= i < |hits| ==> hits[i].id in scores && scores[hits[i].id] >= minScore)
    && (forall i, j :: 0 <= i < j < |hits| ==> hits[i].id != hits[j].id && scores[hits[i].id] >= scores[hits[j].id])
    && (forall d | d in scores && scores[d] >= minScore && (forall i :: 0 <= i < |hits| ==> hits[i].id != d) ::
          |hits| == topK && forall i :: 0 <= i < |hits| ==> scores[hits[i].id] >= scores[d])
  }

  lemma {:induction false} RawScoreOutside(s: IndexState, terms: seq<string>, d: string, o: SearchOptions, now: int, ln: real -> real)
    requires ScoringSafe(s) && d !in Candidates(s, terms, o.filters, now)
    ensures RawScore(s, terms, d, o, now, ln) == 0.0
    decreases |terms|
  {
    if terms != [] {
      var init := terms[..|terms| - 1];
      CandidatesStep(s, terms, |terms| - 1, o.filters, now);
      assert terms[..|terms|] == terms;
      RawScoreOutside(s, init, d, o, now, ln);
      assert !Eligible(s, terms[|terms| - 1], d, o.filters, now);
    }
  }

  lemma CandidatesStep(s: IndexState, terms: seq<string>, i: nat, filters: Filters, now: int)
    requires i < |terms|
    ensures Candidates(s, terms[..i + 1], filters, now) ==
      Candidates(s, terms[..i], filters, now) + (set d | d in s.documents && Eligible(s, terms[i], d, filters, now))
  {
    var pre, pre' := terms[..i], terms[..i + 1];
    forall d | d in Candidates(s, pre', filters, now)
      ensures d in Candidates(s, pre, filters, now) || Eligible(s, terms[i], d, filters, now)
    {
      var j :| 0 <= j < |pre'| && Eligible(s, pre'[j], d, filters, now);
      if j < i {
        assert pre[j] == pre'[j];
      }
    }
    forall d | d in Candidates(s, pre, filters, now) ensures d in Candidates(s, pre', filters, now) {
      var j :| 0 <= j < |pre| && Eligible(s, pre[j], d, filters, now);
      assert pre'[j] == pre[j];
    }
    forall d | d in s.documents && Eligible(s, terms[i], d, filters, now) ensures d in Candidates(s, pre', filters, now) {
      assert pre'[i] == terms[i];
    }
  }

  /** The scores after the postings of `term` for the documents in `visited` have been added to `before`. */
  ghost predicate Accumulated(s: IndexState, t: string, o: SearchOptions, now: int, ln: real -> real,
                              before: map<string, real>, visited: set<string>, scores: map<string, real>)
    requires ScoringSafe(s)
  {
    && (forall d :: d in scores <==> d in before || (d in visited && Eligible(s, t, d, o.filters, now)))
    && (forall d | d in scores ::
          scores[d] == (if d in before then before[d] else 0.0)
            + (if d in visited && Eligible(s, t, d, o.filters, now) then Contribution(s, t, d, o.boost, ln) else 0.0))
  }

  /** A posting of the inner score loop whose document is scored. */
  lemma AccumulateEligible(s: IndexState, t: string, o: SearchOptions, now: int, ln: real -> real,
                           before: map<string, real>, visited: set<string>, scores: map<string, real>, d: string, v: real)
    requires ScoringSafe(s) && d !in visited && Eligible(s, t, d, o.filters, now)
    requires v == Contribution(s, t, d, o.boost, ln)
    requires Accumulated(s, t, o, now, ln, before, visited, scores)
    ensures Accumulated(s, t, o, now, ln, before, visited + {d}, scores[d := (if d in scores then scores[d] else 0.0) + v])
  {
  }

  /** A posting of the inner score loop whose document is skipped. */
  lemma AccumulateSkipped(s: IndexState, t: string, o: SearchOptions, now: int, ln: real -> real,
                          before: map<string, real>, visited: set<string>, scores: map<string, real>, d: string)
    requires ScoringSafe(s) && d !in visited && !Eligible(s, t, d, o.filters, now)
    requires Accumulated(s, t, o, now, ln, before, visited, scores)
    ensures Accumulated(s, t, o, now, ln, before, visited + {d}, scores)
  {
  }

  lemma AccumulatedAll(s: IndexState, t: string, o: SearchOptions, now: int, ln: real -> real,
                       before: map<string, real>, visited: set<string>, scores: map<string, real>)
    requires ScoringSafe(s) && t in s.invertedIndex && Accumulated(s, t, o, now, ln, before, visited, scores)
    requires forall d :: d in visited <==> d in s.invertedIndex[t]
    ensures forall d :: d in scores <==> d in before || Eligible(s, t, d, o.filters, now)
    ensures forall d | d in scores ::
      scores[d] == (if d in before then before[d] else 0.0)
        + (if Eligible(s, t, d, o.filters, now) then Contribution(s, t, d, o.boost, ln) else 0.0)
  {
  }

  /** One iteration of the score loop takes the scores of a prefix of the query to those of the next prefix. */
  lemma ScoreStep(s: IndexState, terms: seq<string>, i: nat, o: SearchOptions, now: int, ln: real -> real,
                  before: map<string, real>, after: map<string, real>)
    requires ScoringSafe(s) && i < |terms|
    requires forall d :: d in before <==> d in Candidates(s, terms[..i], o.filters, now)
    requires forall d | d in before :: before[d] == RawScore(s, terms[..i], d, o, now, ln)
    requires forall d :: d in after <==> d in before || Eligible(s, terms[i], d, o.filters, now)
    requires forall d | d in after ::
      after[d] == (if d in before then before[d] else 0.0)
        + (if Eligible(s, terms[i], d, o.filters, now) then Contribution(s, terms[i], d, o.boost, ln) else 0.0)
    ensures forall d :: d in after <==> d in Candidates(s, terms[..i + 1], o.filters, now)
    ensures forall d | d in after :: after[d] == RawScore(s, terms[..i + 1], d, o, now, ln)
  {
    CandidatesStep(s, terms, i, o.filters, now);
    assert terms[..i + 1][..i] == terms[..i];
    forall d | d in after ensures after[d] == RawScore(s, terms[..i + 1], d, o, now, ln) {
      if d !in before {
        RawScoreOutside(s, terms[..i], d, o, now, ln);
      }
    }
  }

  /** The terms of the query that document `id` contains, with their statistics. */
  function MatchedTerms(s: IndexState, id: string, terms: seq<string>): seq<MatchedTerm>
    decreases |terms|
  {
    if terms == [] then []
    else
      var t := terms[|terms| - 1];
      MatchedTerms(s, id, terms[..|terms| - 1]) +
        (if t in s.invertedIndex && id in s.invertedIndex[t]
         then [MatchedTerm(t, s.invertedIndex[t][id].tf, FieldsOf(s.invertedIndex[t][id].fields))]
         else [])
  }

  /** `Object.keys(fields)`: the fields the term occurs in, in counting order. */
  function FieldsOf(c: FieldCounts): seq<Field> {
    (if c.title > 0 then [Title] else []) + (if c.content > 0 then [Content] else [])
      + (if c.tags > 0 then [Tags] else []) + (if c.filename > 0 then [Filename] else [])
  }

  /** A matched term is a query term the document contains, reported with its weighted count. */
  ghost predicate SoundMatch(s: IndexState, id: string, terms: seq<string>, m: MatchedTerm) {
    m.term in terms && id in s.documents && m.term in Terms(s.documents[id])
      && m.frequency == ClosedStat(s.documents[id], m.term).total
  }

  lemma {:induction false} MatchedTermsSound(s: IndexState, id: string, terms: seq<string>)
    requires Consistent(s)
    ensures forall k :: 0 <= k < |MatchedTerms(s, id, terms)| ==> SoundMatch(s, id, terms, MatchedTerms(s, id, terms)[k])
    decreases |terms|
  {
    if terms != [] {
      var init := terms[..|terms| - 1];
      var t := terms[|terms| - 1];
      MatchedTermsSound(s, id, init);
      var r, ri := MatchedTerms(s, id, terms), MatchedTerms(s, id, init);
      if t in s.invertedIndex && id in s.invertedIndex[t] {
        var m := MatchedTerm(t, s.invertedIndex[t][id].tf, FieldsOf(s.invertedIndex[t][id].fields));
        assert r == ri + [m];
        assert PostingsSound(s.documents, s.invertedIndex);
        PostingMatch(s.documents, s.invertedIndex, id, t);
        assert SoundMatch(s, id, terms, m);
      } else {
        assert r == ri;
      }
      forall k | 0 <= k < |ri| ensures SoundMatch(s, id, terms, ri[k]) {
        assert ri[k].term in init;
      }
    }
  }

  /** The posting of an indexed term is the term's statistics in a stored document containing it. */
  lemma PostingMatch(docs: map<string, ProcessedDoc>, ii: map<string, map<string, Posting>>, id: string, t: string)
    requires PostingsSound(docs, ii)
    requires t in ii && id in ii[t]
    ensures id in docs && t in Terms(docs[id])
    ensures ii[t][id].tf == ClosedStat(docs[id], t).total
  {
    assert ii[t][id] == PostingFor(docs[id], t);
  }

  function ScoreOf(e: (string, real)): real { e.1 }

  function Min(a: real, b: real): real { if a <= b then a else b }

  /** `.filter(([, score]) => score >= minScore)` on the score entries. */
  function Kept(entries: seq<(string, real)>, minScore: real): (r: seq<(string, real)>)
    ensures forall i :: 0 <= i < |r| ==> r[i] in entries && r[i].1 >= minScore
    ensures forall i :: 0 <= i < |entries| && entries[i].1 >= minScore ==> entries[i] in r
    ensures Distinct(entries) ==> Distinct(r)
  {
    if entries == [] then []
    else
      var rest := Kept(entries[1..], minScore);
      assert Distinct(entries) ==> entries[0] !in entries[1..];
      (if entries[0].1 >= minScore then [entries[0]] else []) + rest
  }

  /** `.sort(([, a], [, b]) => b - a).slice(0, topK)` after the threshold. */
  function SelectTop(entries: seq<(string, real)>, minScore: real, topK: nat): seq<(string, real)> {
    Take(SortDesc(Kept(entries, minScore), ScoreOf), topK)
  }

  /**
   * The selected entries are scored documents above the threshold, each at
   * most once, best first; a document left out is outranked by `topK` others.
   */
  lemma SelectTopSpec(scores: map<string, real>, entries: seq<(string, real)>, minScore: real, topK: nat)
    requires ListsEntries(entries, scores)
    ensures var top := SelectTop(entries, minScore, topK);
      && |top| <= topK
      && (forall i :: 0 <= i < |top| ==> top[i].0 in scores && scores[top[i].0] == top[i].1 && top[i].1 >= minScore)
      && (forall i, j :: 0 <= i < j < |top| ==> top[i].0 != top[j].0 && top[i].1 >= top[j].1)
      && (forall d | d in scores && scores[d] >= minScore && (forall i :: 0 <= i < |top| ==> top[i].0 != d) ::
            |top| == topK && forall i :: 0 <= i < |top| ==> top[i].1 >= scores[d])
  {
    SelectTopMembers(scores, entries, minScore, topK);
    SelectTopComplete(scores, entries, minScore, topK);
  }

  lemma SelectTopMembers(scores: map<string, real>, entries: seq<(string, real)>, minScore: real, topK: nat)
    requires ListsEntries(entries, scores)
    ensures var top := SelectTop(entries, minScore, topK);
      && (forall i :: 0 <= i < |top| ==> top[i] in entries && top[i].1 >= minScore)
      && (forall i, j :: 0 <= i < j < |top| ==> top[i].0 != top[j].0 && top[i].1 >= top[j].1)
  {
    var kept := Kept(entries, minScore);
    assert Distinct(entries);
    RankedSelection(kept, ScoreOf, topK);
    SelectedEntries(entries, kept, SelectTop(entries, minScore, topK));
  }

  lemma SelectTopComplete(scores: map<string, real>, entries: seq<(string, real)>, minScore: real, topK: nat)
    requires ListsEntries(entries, scores)
    ensures var top := SelectTop(entries, minScore, topK);
      forall d | d in scores && scores[d] >= minScore && (forall i :: 0 <= i < |top| ==> top[i].0 != d) ::
        |top| == topK && forall i :: 0 <= i < |top| ==> top[i].1 >= scores[d]
  {
    var kept := Kept(entries, minScore);
    var top := SelectTop(entries, minScore, topK);
    SortDescMembers(kept, ScoreOf);
    forall d | d in scores && scores[d] >= minScore && (forall i :: 0 <= i < |top| ==> top[i].0 != d)
      ensures |top| == topK && forall i :: 0 <= i < |top| ==> top[i].1 >= scores[d]
    {
      var a :| 0 <= a < |entries| && entries[a].0 == d;
      assert entries[a] in kept;
      assert entries[a] !in top;
      TopKComplete(SortDesc(kept, ScoreOf), ScoreOf, topK, entries[a]);
    }
  }

  /** Hits that carry the ids of the selected entries, in order, are ranked hits. */
  lemma SelectedAreRanked(scores: map<string, real>, entries: seq<(string, real)>, minScore: real, topK: nat, hits: seq<SearchHit>)
    requires ListsEntries(entries, scores)
    requires |hits| == |SelectTop(entries, minScore, topK)|
    requires forall i :: 0 <= i < |hits| ==> hits[i].id == SelectTop(entries, minScore, topK)[i].0
    ensures RankedHits(hits, scores, minScore, topK)
  {
    SelectTopSpec(scores, entries, minScore, topK);
  }

  /** Distinct elements drawn from entries with distinct keys have distinct keys. */
  lemma SelectedEntries(entries: seq<(string, real)>, kept: seq<(string, real)>, top: seq<(string, real)>)
    requires forall i, j :: 0 <= i < j < |entries| ==> entries[i].0 != entries[j].0
    requires forall i :: 0 <= i < |kept| ==> kept[i] in entries
    requires forall i :: 0 <= i < |top| ==> top[i] in kept
    requires Distinct(top)
    ensures forall i, j :: 0 <= i < j < |top| ==> top[i].0 != top[j].0
  {
    forall i, j | 0 <= i < j < |top| ensures top[i].0 != top[j].0 {
      assert top[i] in entries && top[j] in entries;
      var a :| 0 <= a < |entries| && entries[a] == top[i];
      var b :| 0 <= b < |entries| && entries[b] == top[j];
      assert a != b;
    }
  }

  // ---------------------------------------------------------------------
  // Ranked term lists
  // ---------------------------------------------------------------------

  datatype TermFrequency = TermFrequency(term: string, frequency: int)

  function FrequencyOf(e: TermFrequency): real { e.frequency as real }

  /** `.map(s => s.term)`. */
  function TermsOf(xs: seq<TermFrequency>): (r: seq<string>)
    ensures |r| == |xs| && forall i :: 0 <= i < |xs| ==> r[i] == xs[i].term
  {
    seq(|xs|, i requires 0 <= i < |xs| => xs[i].term)
  }

  /** The indexed terms that extend `last` without being `last`, with their document frequencies. */
  ghost function SuggestionFreqs(s: IndexState, last: string): map<string, int> {
    map t | t in s.invertedIndex && StartsWith(t, last) && t != last :: DfOf(s, t)
  }

  /**
   * `terms` are keys of `freq`, each once, by decreasing frequency; a key
   * left out is outranked by every term kept, and then `limit` were kept.
   */
  ghost predicate RankedTerms(terms: seq<string>, freq: map<string, int>, limit: nat) {
    && |terms| <= limit
    && (forall i :: 0 <= i < |terms| ==> terms[i] in freq)
    && (forall i, j :: 0 <= i < j < |terms| ==> terms[i] != terms[j] && freq[terms[i]] >= freq[terms[j]])
    && (forall t | t in freq && t !in terms ::
          |terms| == limit && forall i :: 0 <= i < |terms| ==> freq[terms[i]] >= freq[t])
  }

  /** `popular` ranks the terms of `freq` and reports the frequency of each. */
  ghost predicate RankedPopular(popular: seq<TermFrequency>, freq: map<string, int>, limit: nat) {
    && RankedTerms(TermsOf(popular), freq, limit)
    && (forall i :: 0 <= i < |popular| ==> popular[i].term in freq && freq[popular[i].term] == popular[i].frequency)
  }

  function TermOf(e: TermFrequency): string { e.term }

  /** Sorting the (term, frequency) pairs of `freq` by frequency and cutting at `limit` ranks its terms. */
  lemma PopularRanked(freq: map<string, int>, all: seq<TermFrequency>, limit: nat)
    requires forall j :: 0 <= j < |all| ==> all[j].term in freq && freq[all[j].term] == all[j].frequency
    requires forall i, j :: 0 <= i < j < |all| ==> all[i].term != all[j].term
    requires forall t | t in freq :: TermFrequency(t, freq[t]) in all
    ensures RankedPopular(Take(SortDesc(all, FrequencyOf), limit), freq, limit)
  {
    var popular := Take(SortDesc(all, FrequencyOf), limit);
    PopularRecords(freq, all, limit);
    TermsRanked(popular, freq, limit);
  }

  /** The ranking facts about the records themselves. */
  ghost predicate RankedRecords(popular: seq<TermFrequency>, freq: map<string, int>, limit: nat) {
    && |popular| <= limit
    && (forall i :: 0 <= i < |popular| ==> popular[i].term in freq && freq[popular[i].term] == popular[i].frequency)
    && (forall i, j :: 0 <= i < j < |popular| ==> popular[i].term != popular[j].term && popular[i].frequency >= popular[j].frequency)
    && (forall t | t in freq && (forall i :: 0 <= i < |popular| ==> popular[i].term != t) ::
          |popular| == limit && forall i :: 0 <= i < |popular| ==> popular[i].frequency >= freq[t])
  }

  lemma PopularRecords(freq: map<string, int>, all: seq<TermFrequency>, limit: nat)
    requires forall j :: 0 <= j < |all| ==> all[j].term in freq && freq[all[j].term] == all[j].frequency
    requires forall i, j :: 0 <= i < j < |all| ==> all[i].term != all[j].term
    requires forall t | t in freq :: TermFrequency(t, freq[t]) in all
    ensures RankedRecords(Take(SortDesc(all, FrequencyOf), limit), freq, limit)
  {
    assert forall i, j :: 0 <= i < j < |all| ==> TermOf(all[i]) != TermOf(all[j]);
    RankedNames(all, FrequencyOf, TermOf, limit);
    RecordsOf(freq, all, Take(SortDesc(all, FrequencyOf), limit), limit);
  }

  lemma RecordsOf(freq: map<string, int>, all: seq<TermFrequency>, popular: seq<TermFrequency>, limit: nat)
    requires forall j :: 0 <= j < |all| ==> all[j].term in freq && freq[all[j].term] == all[j].frequency
    requires forall t | t in freq :: TermFrequency(t, freq[t]) in all
    requires |popular| <= limit
    requires SortedDesc(popular, FrequencyOf)
    requires forall i :: 0 <= i < |popular| ==> popular[i] in all
    requires forall i, j :: 0 <= i < j < |popular| ==> TermOf(popular[i]) != TermOf(popular[j])
    requires forall x | x in all && x !in popular ::
      |popular| == limit && forall i :: 0 <= i < |popular| ==> FrequencyOf(popular[i]) >= FrequencyOf(x)
    ensures RankedRecords(popular, freq, limit)
  {
    forall i | 0 <= i < |popular| ensures popular[i].term in freq && freq[popular[i].term] == popular[i].frequency {
      var j :| 0 <= j < |all| && all[j] == popular[i];
    }
    PopularComplete(freq, all, popular, limit);
  }

  lemma PopularComplete(freq: map<string, int>, all: seq<TermFrequency>, popular: seq<TermFrequency>, limit: nat)
    requires forall t | t in freq :: TermFrequency(t, freq[t]) in all
    requires forall x | x in all && x !in popular :: |popular| == limit && forall i :: 0 <= i < |popular| ==> FrequencyOf(popular[i]) >= FrequencyOf(x)
    ensures forall t | t in freq && (forall i :: 0 <= i < |popular| ==> popular[i].term != t) ::
      |popular| == limit && forall i :: 0 <= i < |popular| ==> popular[i].frequency >= freq[t]
  {
    forall t | t in freq && (forall i :: 0 <= i < |popular| ==> popular[i].term != t)
      ensures |popular| == limit && forall i :: 0 <= i < |popular| ==> popular[i].frequency >= freq[t]
    {
      var x := TermFrequency(t, freq[t]);
      assert x in all && x !in popular;
      assert forall i :: 0 <= i < |popular| ==> FrequencyOf(popular[i]) >= FrequencyOf(x);
    }
  }

  /** Facts about the ranked records are facts about their terms. */
  lemma TermsRanked(popular: seq<TermFrequency>, freq: map<string, int>, limit: nat)
    requires RankedRecords(popular, freq, limit)
    ensures RankedTerms(TermsOf(popular), freq, limit)
  {
    var terms := TermsOf(popular);
    assert forall i :: 0 <= i < |terms| ==> terms[i] == popular[i].term;
    forall t | t in freq && t !in terms
      ensures |terms| == limit && forall i :: 0 <= i < |terms| ==> freq[terms[i]] >= freq[t]
    {
      forall i | 0 <= i < |popular| ensures popular[i].term != t {
        assert terms[i] == popular[i].term;
      }
    }
  }

  // ---------------------------------------------------------------------
  // Export and import
  // ---------------------------------------------------------------------

  datatype Snapshot = Snapshot(
    documents: seq<(string, ProcessedDoc)>,
    invertedIndex: seq<(string, seq<(string, Posting)>)>,
    documentFreq: seq<(string, int)>,
    avgDocLength: real,
    totalDocs: int)

  /** `snap` lists every entry of the index exactly once. */
  ghost predicate ExportOf(snap: Snapshot, s: IndexState) {
    && ListsEntries(snap.documents, s.documents)
    && ListsEntries(InnerMaps(snap.invertedIndex), s.invertedIndex)
    && (forall i :: 0 <= i < |snap.invertedIndex| ==>
          ListsEntries(snap.invertedIndex[i].1, s.invertedIndex[snap.invertedIndex[i].0]))
    && ListsEntries(snap.documentFreq, s.documentFreq)
    && snap.avgDocLength == s.avgDocLength && snap.totalDocs == s.totalDocs
  }

  /** Every term's posting array rebuilt as a Map. */
  function InnerMaps(entries: seq<(string, seq<(string, Posting)>)>): (r: seq<(string, map<string, Posting>)>)
    ensures |r| == |entries|
    ensures forall i :: 0 <= i < |r| ==> r[i] == (entries[i].0, MapOf(entries[i].1))
  {
    seq(|entries|, i requires 0 <= i < |entries| => (entries[i].0, MapOf(entries[i].1)))
  }

  /** What `importIndex` builds from a snapshot. */
  function Restore(snap: Snapshot): IndexState {
    IndexState(MapOf(snap.documents), MapOf(InnerMaps(snap.invertedIndex)), MapOf(snap.documentFreq),
      snap.avgDocLength, snap.totalDocs)
  }

  /** Importing an export gives back the same index. */
  lemma RestoreExport(snap: Snapshot, s: IndexState)
    requires ExportOf(snap, s)
    ensures Restore(snap) == s
  {
    MapOfListed(snap.documents, s.documents);
    MapOfListed(snap.documentFreq, s.documentFreq);
    var inner := InnerMaps(snap.invertedIndex);
    assert ListsEntries(inner, s.invertedIndex) by {
      forall i | 0 <= i < |inner| ensures s.invertedIndex[inner[i].0] == inner[i].1 {
        MapOfListed(snap.invertedIndex[i].1, s.invertedIndex[snap.invertedIndex[i].0]);
      }
    }
    MapOfListed(inner, s.invertedIndex);
  }

  // ---------------------------------------------------------------------
  // The engine
  // ---------------------------------------------------------------------

  class Bm25SearchEngine {
    var documents: map<string, ProcessedDoc>
    var invertedIndex: map<string, map<string, Posting>>
    var documentFreq: map<string, int>
    var avgDocLength: real
    var totalDocs: int

    function State(): IndexState
      reads this
    {
      IndexState(documents, invertedIndex, documentFreq, avgDocLength, totalDocs)
    }

    ghost predicate Valid()
      reads this
    {
      Consistent(State()) && ScoringSafe(State())
    }

    constructor()
      ensures State() == EmptyIndex && Valid()
    {
      documents := map[];
      invertedIndex := map[];
      documentFreq := map[];
      avgDocLength := 0.0;
      totalDocs := 0;
    }

    /** `addDocument`: store the tokenized document, index its terms, refresh the statistics. */
    method AddDocument(docId: string, document: DocumentInput)
      modifies this
      ensures documents == old(documents)[docId := Preprocess(document)]
      ensures invertedIndex == Indexed(old(invertedIndex), docId, DocPostings(Preprocess(document)))
      ensures documentFreq == DfAdded(old(documentFreq), Terms(Preprocess(document)))
      ensures StatsConsistent(State())
      ensures old(Valid()) && docId !in old(documents) ==> Valid()
    {
      ghost var s0 := State();
      var processed := Preprocess(document);
      documents := documents[docId := processed];
      UpdateInvertedIndex(docId, processed);
      UpdateStats();
      if Consistent(s0) && docId !in s0.documents {
        AddKeepsIndex(s0.documents, s0.invertedIndex, s0.documentFreq, docId, processed);
        ConsistentIsSafe(State());
      }
    }

    /** `preprocessDocument`'s postings and document frequencies for a new document. */
    method UpdateInvertedIndex(docId: string, processed: ProcessedDoc)
      modifies this`invertedIndex, this`documentFreq
      ensures invertedIndex == Indexed(old(invertedIndex), docId, DocPostings(processed))
      ensures documentFreq == DfAdded(old(documentFreq), Terms(processed))
    {
      var tf := TermFrequencies(processed);
      AddPostings(docId, processed, tf);
      CountDocument(tf.Keys);
    }

    /** The first loop over the term frequencies: one posting per term. */
    method AddPostings(docId: string, processed: ProcessedDoc, tf: map<string, TermStat>)
      requires tf.Keys == Terms(processed)
      requires forall t | t in tf :: tf[t] == ClosedStat(processed, t)
      modifies this`invertedIndex
      ensures invertedIndex == Indexed(old(invertedIndex), docId, DocPostings(processed))
    {
      ghost var ii0 := invertedIndex;
      ghost var added: map<string, Posting> := map[];
      var pending := tf.Keys;
      while pending != {}
        invariant pending <= tf.Keys
        invariant forall t :: t in added <==> t in tf && t !in pending
        invariant forall t | t in added :: added[t] == PostingFor(processed, t)
        invariant invertedIndex == Indexed(ii0, docId, added)
        decreases |pending|
      {
        var term :| term in pending;
        var posting := Posting(tf[term].total, tf[term].fields, processed.length);
        IndexedStep(ii0, docId, added, term, posting);
        var termIndex := if term in invertedIndex then invertedIndex[term] else map[];
        invertedIndex := invertedIndex[term := termIndex[docId := posting]];
        added := added[term := posting];
        pending := pending - {term};
      }
      AllPostings(processed, added);
    }

    /** The second loop over the term frequencies: each term counts one more document. */
    method CountDocument(terms: set<string>)
      modifies this`documentFreq
      ensures documentFreq == DfAdded(old(documentFreq), terms)
    {
      ghost var df0 := documentFreq;
      ghost var counted: set<string> := {};
      var pending := terms;
      while pending != {}
        invariant pending <= terms
        invariant forall t :: t in counted <==> t in terms && t !in pending
        invariant documentFreq == DfAdded(df0, counted)
        decreases |pending|
      {
        var term :| term in pending;
        DfAddedStep(df0, documentFreq, counted, term);
        documentFreq := documentFreq[term := (if term in documentFreq then documentFreq[term] else 0) + 1];
        counted := counted + {term};
        pending := pending - {term};
      }
      assert counted == terms;
    }

    /** `updateStats`: the number of documents and, when there are any, their average length. */
    method UpdateStats()
      modifies this`totalDocs, this`avgDocLength
      ensures StatsConsistent(State())
      ensures documents == map[] ==> avgDocLength == old(avgDocLength)
    {
      totalDocs := |documents|;
      if totalDocs > 0 {
        var total := 0.0;
        var rest := documents;
        while rest != map[]
          invariant totalDocs == |documents|
          invariant total + SumLengths(rest) == SumLengths(documents)
          decreases |rest|
        {
          var docId :| docId in rest;
          SumLengthsRemove(rest, docId);
          total := total + rest[docId].length;
          rest := rest - {docId};
        }
        avgDocLength := total / (totalDocs as real);
      }
    }

    /** `removeDocument`: drop the document's postings, then the document, then refresh the statistics. */
    method RemoveDocument(docId: string)
      modifies this
      ensures documents == old(documents) - {docId}
      ensures docId !in old(documents) ==> State() == old(State())
      ensures docId in old(documents) ==>
        && invertedIndex == Removed(old(invertedIndex), docId, Terms(old(documents)[docId]))
        && documentFreq == DfRemoved(old(invertedIndex), old(documentFreq), docId, Terms(old(documents)[docId]))
        && StatsConsistent(State())
      ensures old(Valid()) ==> Valid()
    {
      if docId !in documents {
        assert documents - {docId} == documents;
        return;
      }
      ghost var s0 := State();
      RemovePostings(docId, Terms(documents[docId]));
      documents := documents - {docId};
      UpdateStats();
      if Consistent(s0) {
        RemoveKeepsIndex(s0.documents, s0.invertedIndex, s0.documentFreq, docId);
        ConsistentIsSafe(State());
      }
    }

    /** The loop of `removeDocument` over the distinct terms of the document. */
    method RemovePostings(docId: string, terms: set<string>)
      modifies this`invertedIndex, this`documentFreq
      ensures invertedIndex == Removed(old(invertedIndex), docId, terms)
      ensures documentFreq == DfRemoved(old(invertedIndex), old(documentFreq), docId, terms)
    {
      ghost var ii0, df0 := invertedIndex, documentFreq;
      ghost var done: set<string> := {};
      var pending := terms;
      while pending != {}
        invariant pending <= terms
        invariant forall t :: t in done <==> t in terms && t !in pending
        invariant invertedIndex == Removed(ii0, docId, done)
        invariant documentFreq == DfRemoved(ii0, df0, docId, done)
        decreases |pending|
      {
        var term :| term in pending;
        RemovedStep(ii0, docId, done, term);
        DfRemovedStep(ii0, df0, docId, done, term);
        if term in invertedIndex {
          var termIndex := invertedIndex[term] - {docId};
          if |termIndex| == 0 {
            invertedIndex := invertedIndex - {term};
            documentFreq := documentFreq - {term};
          } else {
            invertedIndex := invertedIndex[term := termIndex];
            documentFreq := documentFreq[term := |termIndex|];
          }
        }
        done := done + {term};
        pending := pending - {term};
      }
      assert done == terms;
    }

    /** `updateDocument`: remove, then add under the same id. */
    method UpdateDocument(docId: string, document: DocumentInput)
      modifies this
      ensures documents == old(documents)[docId := Preprocess(document)]
      ensures old(Valid()) ==> Valid()
    {
      ghost var docs0 := documents;
      ghost var valid0 := Valid();
      RemoveDocument(docId);
      ghost var valid1 := Valid();
      AddDocument(docId, document);
      MapReplace(docs0, docId, Preprocess(document));
    }

    method Clear()
      modifies this
      ensures State() == EmptyIndex && Valid()
    {
      documents := map[];
      invertedIndex := map[];
      documentFreq := map[];
      avgDocLength := 0.0;
      totalDocs := 0;
    }

    /** `getMatchedTerms`. */
    method GetMatchedTerms(docId: string, queryTerms: seq<string>) returns (matched: seq<MatchedTerm>)
      ensures matched == MatchedTerms(State(), docId, queryTerms)
    {
      matched := [];
      for i := 0 to |queryTerms|
        invariant matched == MatchedTerms(State(), docId, queryTerms[..i])
      {
        var term := queryTerms[i];
        if term in invertedIndex && docId in invertedIndex[term] {
          var termData := invertedIndex[term][docId];
          matched := matched + [MatchedTerm(term, termData.tf, FieldsOf(termData.fields))];
        }
        assert queryTerms[..i + 1][..i] == queryTerms[..i];
      }
      assert queryTerms[..|queryTerms|] == queryTerms;
    }

    /** The score loop of `search`: every eligible posting of every query term adds its contribution. */
    method ScoreQuery(queryTerms: seq<string>, options: SearchOptions, now: int, ln: real -> real)
      returns (scores: map<string, real>)
      requires Valid()
      ensures scores == ScoreMap(State(), queryTerms, options, now, ln)
    {
      ghost var s := State();
      scores := map[];
      for i := 0 to |queryTerms|
        invariant forall d :: d in scores <==> d in Candidates(s, queryTerms[..i], options.filters, now)
        invariant forall d | d in scores :: scores[d] == RawScore(s, queryTerms[..i], d, options, now, ln)
      {
        ghost var before := scores;
        scores := AddTermScores(queryTerms[i], options, now, ln, scores);
        ScoreStep(s, queryTerms, i, options, now, ln, before, scores);
      }
      assert queryTerms[..|queryTerms|] == queryTerms;
      assert scores.Keys == ScoreMap(s, queryTerms, options, now, ln).Keys;
    }

    /** One query term of the score loop: each eligible document with a posting gains its contribution. */
    method AddTermScores(term: string, options: SearchOptions, now: int, ln: real -> real, before: map<string, real>)
      returns (scores: map<string, real>)
      requires Valid()
      ensures forall d :: d in scores <==> d in before || Eligible(State(), term, d, options.filters, now)
      ensures forall d | d in scores ::
        scores[d] == (if d in before then before[d] else 0.0)
          + (if Eligible(State(), term, d, options.filters, now) then Contribution(State(), term, d, options.boost, ln) else 0.0)
    {
      scores := before;
      if term !in invertedIndex {
        return;
      }
      ghost var s := State();
      var termIndex := invertedIndex[term];
      var df := if term in documentFreq then documentFreq[term] else 0;
      var idf := Idf(totalDocs, df, ln);
      assert idf == Idf(s.totalDocs, DfOf(s, term), ln);
      assert termIndex == s.invertedIndex[term] && avgDocLength == s.avgDocLength;
      var pending := termIndex.Keys;
      ghost var visited: set<string> := {};
      while pending != {}
        invariant pending <= termIndex.Keys
        invariant forall d :: d in visited <==> d in termIndex && d !in pending
        invariant Accumulated(s, term, options, now, ln, before, visited, scores)
        decreases |pending|
      {
        var docId :| docId in pending;
        if docId in documents && PassesFilters(documents[docId], options.filters, now) {
          var boosted := ScorePosting(idf, termIndex[docId], avgDocLength, options.boost);
          AccumulateEligible(s, term, options, now, ln, before, visited, scores, docId, boosted);
          scores := scores[docId := (if docId in scores then scores[docId] else 0.0) + boosted];
        } else {
          AccumulateSkipped(s, term, options, now, ln, before, visited, scores, docId);
        }
        visited := visited + {docId};
        pending := pending - {docId};
      }
      AccumulatedAll(s, term, options, now, ln, before, visited, scores);
    }

    /**
     * `search`: the documents with a summed score of at least `minScore`,
     * best first, at most `topK` of them, each scored relative to the number
     * of query terms and capped at 1.
     */
    method Search(query: string, options: SearchOptions, now: int, ln: real -> real) returns (results: seq<SearchHit>)
      requires Valid()
      ensures Tokenize(query) == [] ==> results == []
      ensures RankedHits(results, ScoreMap(State(), Tokenize(query), options, now, ln), options.minScore, options.topK)
      ensures forall i | 0 <= i < |results| ::
        && results[i].id in ScoreMap(State(), Tokenize(query), options, now, ln)
        && results[i].score == Min(ScoreMap(State(), Tokenize(query), options, now, ln)[results[i].id] / |Tokenize(query)| as real, 1.0)
        && results[i].document == documents[results[i].id]
        && results[i].matchedTerms == MatchedTerms(State(), results[i].id, Tokenize(query))
    {
      var queryTerms := Tokenize(query);
      if queryTerms == [] {
        return [];
      }
      var scores := ScoreQuery(queryTerms, options, now, ln);
      var entries := MapEntries(scores);
      var top := SelectTop(entries, options.minScore, options.topK);
      SelectTopSpec(scores, entries, options.minScore, options.topK);
      ScoreMapDocuments(State(), queryTerms, options, now, ln);
      results := Hits(top, queryTerms);
      SelectedAreRanked(scores, entries, options.minScore, options.topK, results);
    }

    /** The `.map` of `search`: one hit per selected entry, its score relative to the number of query terms. */
    method Hits(top: seq<(string, real)>, queryTerms: seq<string>) returns (results: seq<SearchHit>)
      requires queryTerms != []
      requires forall j :: 0 <= j < |top| ==> top[j].0 in documents
      ensures |results| == |top|
      ensures forall j :: 0 <= j < |top| ==>
        && results[j].id == top[j].0
        && results[j].score == Min(top[j].1 / |queryTerms| as real, 1.0)
        && results[j].document == documents[top[j].0]
        && results[j].matchedTerms == MatchedTerms(State(), top[j].0, queryTerms)
    {
      results := [];
      for i := 0 to |top|
        invariant |results| == i
        invariant forall j :: 0 <= j < i ==>
          && results[j].id == top[j].0
          && results[j].score == Min(top[j].1 / |queryTerms| as real, 1.0)
          && results[j].document == documents[top[j].0]
          && results[j].matchedTerms == MatchedTerms(State(), top[j].0, queryTerms)
      {
        var (docId, score) := top[i];
        var matched := GetMatchedTerms(docId, queryTerms);
        results := results + [SearchHit(docId, Min(score / |queryTerms| as real, 1.0), documents[docId], matched)];
      }
    }

    /** `getSuggestions`: indexed terms extending the last token of the input, most frequent first. */
    method GetSuggestions(partialQuery: string, limit: nat) returns (terms: seq<string>)
      ensures Tokenize(partialQuery) == [] ==> terms == []
      ensures Tokenize(partialQuery) != [] ==>
        RankedTerms(terms, SuggestionFreqs(State(), Tokenize(partialQuery)[|Tokenize(partialQuery)| - 1]), limit)
    {
      var tokens := Tokenize(partialQuery);
      if tokens == [] {
        return [];
      }
      var lastToken := tokens[|tokens| - 1];
      var suggestions := CollectSuggestions(lastToken);
      PopularRanked(SuggestionFreqs(State(), lastToken), suggestions, limit);
      terms := TermsOf(Take(SortDesc(suggestions, FrequencyOf), limit));
    }

    /** The loop of `getSuggestions` over the indexed terms. */
    method CollectSuggestions(lastToken: string) returns (suggestions: seq<TermFrequency>)
      ensures forall j :: 0 <= j < |suggestions| ==>
        suggestions[j].term in SuggestionFreqs(State(), lastToken)
        && SuggestionFreqs(State(), lastToken)[suggestions[j].term] == suggestions[j].frequency
      ensures forall i, j :: 0 <= i < j < |suggestions| ==> suggestions[i].term != suggestions[j].term
      ensures forall t | t in SuggestionFreqs(State(), lastToken) ::
        TermFrequency(t, SuggestionFreqs(State(), lastToken)[t]) in suggestions
    {
      ghost var freq := SuggestionFreqs(State(), lastToken);
      suggestions := [];
      var pending := invertedIndex.Keys;
      ghost var visited: set<string> := {};
      while pending != {}
        invariant pending <= invertedIndex.Keys
        invariant forall t :: t in visited <==> t in invertedIndex && t !in pending
        invariant forall j :: 0 <= j < |suggestions| ==>
          suggestions[j].term in visited && suggestions[j].term in freq && freq[suggestions[j].term] == suggestions[j].frequency
        invariant forall j, j' :: 0 <= j < j' < |suggestions| ==> suggestions[j].term != suggestions[j'].term
        invariant forall t | t in visited && t in freq :: TermFrequency(t, freq[t]) in suggestions
        decreases |pending|
      {
        var term :| term in pending;
        if StartsWith(term, lastToken) && term != lastToken {
          var df := if term in documentFreq then documentFreq[term] else 0;
          suggestions := suggestions + [TermFrequency(term, df)];
        }
        visited := visited + {term};
        pending := pending - {term};
      }
    }

    /** `getPopularTerms`: terms by decreasing document frequency. */
    method GetPopularTerms(limit: nat) returns (popular: seq<TermFrequency>)
      ensures RankedPopular(popular, documentFreq, limit)
    {
      var entries := MapEntries(documentFreq);
      var all := seq(|entries|, i requires 0 <= i < |entries| => TermFrequency(entries[i].0, entries[i].1));
      forall t | t in documentFreq ensures TermFrequency(t, documentFreq[t]) in all {
        var k :| 0 <= k < |entries| && entries[k].0 == t;
        assert all[k] == TermFrequency(t, documentFreq[t]);
      }
      PopularRanked(documentFreq, all, limit);
      popular := Take(SortDesc(all, FrequencyOf), limit);
    }

    /** `exportIndex`: the entries of every Map as arrays. */
    method ExportIndex() returns (snap: Snapshot)
      ensures ExportOf(snap, State())
    {
      var docs := MapEntries(documents);
      var terms := MapEntries(invertedIndex);
      var index: seq<(string, seq<(string, Posting)>)> := [];
      for i := 0 to |terms|
        invariant |index| == i
        invariant forall j :: 0 <= j < i ==> index[j].0 == terms[j].0 && ListsEntries(index[j].1, terms[j].1)
      {
        var postings := MapEntries(terms[i].1);
        index := index + [(terms[i].0, postings)];
      }
      var freqs := MapEntries(documentFreq);
      snap := Snapshot(docs, index, freqs, avgDocLength, totalDocs);
      forall j | 0 <= j < |index| ensures MapOf(index[j].1) == terms[j].1 {
        MapOfListed(index[j].1, terms[j].1);
      }
      assert InnerMaps(index) == terms;
    }

    /** `importIndex`: every Map rebuilt from its array of entries. */
    method ImportIndex(snap: Snapshot)
      modifies this
      ensures State() == Restore(snap)
      ensures ExportOf(snap, old(State())) ==> State() == old(State())
    {
      ghost var s0 := State();
      documents := MapOf(snap.documents);
      invertedIndex := MapOf(InnerMaps(snap.invertedIndex));
      documentFreq := MapOf(snap.documentFreq);
      avgDocLength := snap.avgDocLength;
      totalDocs := snap.totalDocs;
      if ExportOf(snap, s0) {
        RestoreExport(snap, s0);
      }
    }
  }
}
