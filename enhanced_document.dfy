/**
 * The enhanced document service: overlapping text chunks for embedding,
 * the choice of text extracted from an upload, a search that merges
 * semantic and keyword results by document, statistics, and the export of
 * a user's documents as JSON or CSV.  The embedding model, the storage
 * manager and the file reads are parameters.
 */
module EnhancedDocument {
  import opened Common
  import opened Text
  import opened Seqs
  import StorageAdapter

  /** A stored document record; `uploadedAt` is its ISO time text. */
  datatype EDoc = EDoc(id: string, userId: string, filename: string, title: string, size: nat, category: string,
                       tags: seq<string>, uploadedAt: string, contentType: string, processed: bool)

  // ---------------------------------------------------------------------
  // Content extraction
  // ---------------------------------------------------------------------

  /** An uploaded file: its name, size and MIME type. */
  datatype UploadedFile = UploadedFile(name: string, size: nat, kind: string)

  datatype Extraction = AsText | AsJson | Described

  /** Which way `extractContent` reads the file. */
  function ExtractionOf(file: UploadedFile): (e: Extraction)
    ensures e == Described <==>
      !StartsWith(file.kind, "text/") && !EndsWith(ToLower(file.name), ".md") && !EndsWith(ToLower(file.name), ".txt")
      && !EndsWith(ToLower(file.name), ".json") && !EndsWith(ToLower(file.name), ".csv")
  {
    var name := ToLower(file.name);
    if StartsWith(file.kind, "text/") || EndsWith(name, ".md") || EndsWith(name, ".txt") then AsText
    else if EndsWith(name, ".json") then AsJson
    else if EndsWith(name, ".csv") then AsText
    else Described
  }

  /**
   * `extractContent`: `text` is the outcome of reading the file and
   * `pretty` the JSON text re-printed with two-space indentation when it
   * parses.  A JSON file that does not parse is returned as read; a file
   * of another kind is described by its name, size and type.
   */
  function ExtractContent(file: UploadedFile, text: Result<string>, pretty: Option<string>): (r: Result<string>)
    ensures ExtractionOf(file) == Described ==>
      r == Ok("文件名: " + file.name + "\n大小: " + NatToString(file.size) + " 字节\n类型: " + file.kind)
    ensures ExtractionOf(file) == AsText ==> r == text
    ensures ExtractionOf(file) == AsJson ==>
      (text.Err? ==> r == text) && (text.Ok? && pretty.None? ==> r == text)
      && (text.Ok? && pretty.Some? ==> r == Ok(pretty.value))
  {
    match ExtractionOf(file)
    case AsText => text
    case AsJson => if text.Err? then text else if pretty.Some? then Ok(pretty.value) else text
    case Described => Ok("文件名: " + file.name + "\n大小: " + NatToString(file.size) + " 字节\n类型: " + file.kind)
  }

  // ---------------------------------------------------------------------
  // Chunking
  // ---------------------------------------------------------------------

  /**
   * `text.split(/[.!?。！？]\s+/)`: cut wherever a sentence end is followed
   * by white space, dropping the end and the whole run of white space.
   */
  function Sentences(s: string): (r: seq<string>)
    ensures |r| >= 1
    decreases |s|
  {
    if s == [] then [""]
    else if |s| >= 2 && s[0] in SentenceEnds && s[1] in Whitespace then
      [""] + Sentences(s[RunEnd(s, 1, Whitespace)..])
    else
      var rest := Sentences(s[1..]);
      [[s[0]] + rest[0]] + rest[1..]
  }

  /** `words.slice(-n)`: the last `n` words, and all of them when `n` is 0. */
  function LastWords(words: seq<string>, n: nat): (r: seq<string>)
    ensures n > 0 ==> |r| <= n
    ensures |r| <= |words| && r == words[|words| - |r|..]
  {
    if n == 0 || n >= |words| then words else words[|words| - n..]
  }

  /** The words of the closed chunk that the next one starts with. */
  function Carry(chunk: string, overlap: nat): string {
    Join(LastWords(SplitOn(chunk, {' '}), overlap), " ")
  }

  /** The chunks closed so far and the one being built. */
  datatype ChunkState = ChunkState(chunks: seq<string>, current: string)

  /** One sentence of the loop: close the chunk when the sentence would overflow it. */
  function ChunkStep(st: ChunkState, sentence: string, chunkSize: nat, overlap: nat): (next: ChunkState)
    ensures next.chunks == st.chunks || (st.current != "" && next.chunks == st.chunks + [Trim(st.current)])
  {
    if |st.current| + |sentence| > chunkSize && |st.current| > 0 then
      ChunkState(st.chunks + [Trim(st.current)], Carry(st.current, overlap) + " " + sentence)
    else
      ChunkState(st.chunks, st.current + (if st.current != "" then " " else "") + sentence)
  }

  function ChunkFold(sentences: seq<string>, chunkSize: nat, overlap: nat): ChunkState
    decreases |sentences|
  {
    if sentences == [] then ChunkState([], "")
    else ChunkStep(ChunkFold(sentences[..|sentences| - 1], chunkSize, overlap), sentences[|sentences| - 1],
                   chunkSize, overlap)
  }

  /** `splitIntoChunks`. */
  function Chunks(text: string, chunkSize: nat, overlap: nat): (r: seq<string>)
    ensures |r| >= 1
  {
    var st := ChunkFold(Sentences(text), chunkSize, overlap);
    var all := if Trim(st.current) != "" then st.chunks + [Trim(st.current)] else st.chunks;
    if all != [] then all else [text]
  }

  /** Joining the words from `k` on gives a tail of joining them all. */
  lemma {:induction false} JoinTail(ws: seq<string>, k: nat, sep: string)
    requires k < |ws|
    ensures EndsWith(Join(ws, sep), Join(ws[k..], sep))
    decreases k
  {
    if k > 0 {
      JoinTail(ws[1..], k - 1, sep);
      assert ws[1..][k - 1..] == ws[k..];
      var whole := Join(ws, sep);
      var rest := Join(ws[1..], sep);
      assert whole == ws[0] + sep + rest;
      var tail := Join(ws[k..], sep);
      assert whole[|whole| - |tail|..] == rest[|rest| - |tail|..];
    }
  }

  /** The carried words end the closed chunk, so each new chunk starts with the tail of the one before it. */
  lemma CarryIsTail(chunk: string, overlap: nat)
    ensures EndsWith(chunk, Carry(chunk, overlap))
  {
    var words := SplitOn(chunk, {' '});
    var last := LastWords(words, overlap);
    SplitOnJoin(chunk, ' ');
    assert [' '] == " ";
    assert Join(words, " ") == chunk;
    if |last| < |words| {
      JoinTail(words, |words| - |last|, " ");
    } else {
      assert last == words;
    }
  }

  /** A chunk without spaces is carried whole. */
  lemma CarryWhole(chunk: string, overlap: nat)
    requires ' ' !in chunk
    ensures Carry(chunk, overlap) == chunk
  {
    assert FirstIn(chunk, {' '}) == |chunk|;
    assert SplitOn(chunk, {' '}) == [chunk];
  }

  /** A chunk is closed only when it is non-empty, and the next one starts with its carried tail. */
  lemma ChunkStepSpec(st: ChunkState, sentence: string, chunkSize: nat, overlap: nat)
    ensures var next := ChunkStep(st, sentence, chunkSize, overlap);
      (|next.chunks| == |st.chunks| + 1 ==>
         st.current != "" && next.chunks[|st.chunks|] == Trim(st.current)
         && EndsWith(st.current, Carry(st.current, overlap)) && StartsWith(next.current, Carry(st.current, overlap)))
      && (|next.chunks| == |st.chunks| ==> EndsWith(next.current, sentence))
      && next.chunks[..|st.chunks|] == st.chunks
  {
    CarryIsTail(st.current, overlap);
  }

  /** Every text of `cs` is left as it is by `f`. */
  predicate AllFixed(cs: seq<string>, f: string -> string) {
    forall k :: 0 <= k < |cs| ==> f(cs[k]) == cs[k]
  }

  predicate AllTrimmed(cs: seq<string>) {
    AllFixed(cs, Trim)
  }

  lemma AllFixedAppend(cs: seq<string>, f: string -> string, t: string)
    requires AllFixed(cs, f) && f(t) == t
    ensures AllFixed(cs + [t], f)
  {
    var r := cs + [t];
    forall k | 0 <= k < |r| ensures f(r[k]) == r[k] {
      if k < |cs| {
        assert r[k] == cs[k];
      }
    }
  }

  /** Every closed chunk is trimmed. */
  lemma {:induction false} ChunkFoldTrimmed(sentences: seq<string>, chunkSize: nat, overlap: nat)
    ensures AllTrimmed(ChunkFold(sentences, chunkSize, overlap).chunks)
    decreases |sentences|
  {
    if sentences != [] {
      var init := sentences[..|sentences| - 1];
      var prev := ChunkFold(init, chunkSize, overlap);
      ChunkFoldTrimmed(init, chunkSize, overlap);
      var next := ChunkStep(prev, sentences[|sentences| - 1], chunkSize, overlap);
      if next.chunks != prev.chunks {
        TrimIdempotent(prev.current);
        AllFixedAppend(prev.chunks, Trim, Trim(prev.current));
      }
    }
  }

  /** Never an empty list; unless the text itself is returned, every chunk is trimmed. */
  lemma ChunksSpec(text: string, chunkSize: nat, overlap: nat)
    ensures var r := Chunks(text, chunkSize, overlap);
      |r| >= 1 && (r == [text] || AllTrimmed(r))
  {
    var st := ChunkFold(Sentences(text), chunkSize, overlap);
    ChunkFoldTrimmed(Sentences(text), chunkSize, overlap);
    if Trim(st.current) != "" {
      TrimIdempotent(st.current);
      AllFixedAppend(st.chunks, Trim, Trim(st.current));
    }
  }

  /** The chunking loop. */
  method SplitIntoChunks(text: string, chunkSize: nat, overlap: nat) returns (chunks: seq<string>)
    ensures chunks == Chunks(text, chunkSize, overlap)
  {
    var sentences := Sentences(text);
    chunks := [];
    var current := "";
    var i := 0;
    while i < |sentences|
      invariant 0 <= i <= |sentences|
      invariant ChunkState(chunks, current) == ChunkFold(sentences[..i], chunkSize, overlap)
    {
      var sentence := sentences[i];
      assert sentences[..i + 1][..i] == sentences[..i];
      if |current| + |sentence| > chunkSize && |current| > 0 {
        chunks := chunks + [Trim(current)];
        var words := SplitOn(current, {' '});
        current := Join(LastWords(words, overlap), " ") + " " + sentence;
      } else {
        current := current + (if current != "" then " " else "") + sentence;
      }
      i := i + 1;
    }
    assert sentences[..i] == sentences;
    if Trim(current) != "" {
      chunks := chunks + [Trim(current)];
    }
    if chunks == [] {
      chunks := [text];
    }
  }

  // ---------------------------------------------------------------------
  // Semantic search
  // ---------------------------------------------------------------------

  datatype HitKind = Semantic | Keyword

  /** A search result with the kind of search that found it. */
  /**
   * When a hit's document was uploaded: the ISO text of this service's own
   * records, or the instant the storage manager's records carry.
   */
  datatype Uploaded = IsoText(text: string) | Instant(ms: int)

  datatype EHit = EHit(id: string, content: string, source: string, title: string, category: string,
                       tags: seq<string>, uploadedAt: Uploaded, score: real, kind: HitKind)

  /** The chunk most similar to the query, with its similarity: the first of the best, and (0, "") when none is above 0. */
  function BestChunk(pairs: seq<(string, real)>): (real, string)
    decreases |pairs|
  {
    if pairs == [] then (0.0, "")
    else
      var b := BestChunk(pairs[..|pairs| - 1]);
      var last := pairs[|pairs| - 1];
      if last.1 > b.0 then (last.1, last.0) else b
  }

  lemma {:induction false} BestChunkSpec(pairs: seq<(string, real)>)
    ensures var b := BestChunk(pairs);
      b.0 >= 0.0 && (forall k :: 0 <= k < |pairs| ==> pairs[k].1 <= b.0)
      && (b.0 > 0.0 ==> exists k :: 0 <= k < |pairs| && pairs[k] == (b.1, b.0)
                          && forall j :: 0 <= j < k ==> pairs[j].1 < b.0)
    decreases |pairs|
  {
    if pairs != [] {
      var init := pairs[..|pairs| - 1];
      BestChunkSpec(init);
      assert forall k :: 0 <= k < |init| ==> init[k] == pairs[k];
      var b := BestChunk(init);
      if pairs[|pairs| - 1].1 <= b.0 && b.0 > 0.0 {
        var k :| 0 <= k < |init| && init[k] == (b.1, b.0) && forall j :: 0 <= j < k ==> init[j].1 < b.0;
        assert pairs[k] == (b.1, b.0);
      }
    }
  }

  /** The loop over a document's chunks. */
  method FindBestChunk(pairs: seq<(string, real)>) returns (bestScore: real, bestChunk: string)
    ensures (bestScore, bestChunk) == BestChunk(pairs)
  {
    bestScore, bestChunk := 0.0, "";
    var i := 0;
    while i < |pairs|
      invariant 0 <= i <= |pairs|
      invariant (bestScore, bestChunk) == BestChunk(pairs[..i])
    {
      assert pairs[..i + 1][..i] == pairs[..i];
      if pairs[i].1 > bestScore {
        bestScore, bestChunk := pairs[i].1, pairs[i].0;
      }
      i := i + 1;
    }
    assert pairs[..i] == pairs;
  }

  /** A document's semantic hit: its best chunk when the similarity is above 0.3. */
  function SemanticHit(d: EDoc, stored: Option<seq<(string, real)>>): Option<EHit> {
    if stored.None? then None
    else
      var b := BestChunk(stored.value);
      if b.0 > 0.3 then Some(EHit(d.id, b.1, d.filename, d.title, d.category, d.tags, IsoText(d.uploadedAt), b.0, Semantic))
      else None
  }

  /**
   * `semanticSearch`: `stored` gives, for a document id, its stored chunks
   * each with its similarity to the query, or none when nothing is stored.
   */
  function SemanticHits(docs: seq<EDoc>, stored: string -> Option<seq<(string, real)>>): (r: seq<EHit>)
    ensures |r| <= |docs|
    decreases |docs|
  {
    if docs == [] then []
    else
      var d := docs[|docs| - 1];
      var h := SemanticHit(d, stored(d.id));
      SemanticHits(docs[..|docs| - 1], stored) + (if h.Some? then [h.value] else [])
  }

  /** Every semantic hit is a document's best chunk scoring above 0.3. */
  lemma {:induction false} SemanticHitsSound(docs: seq<EDoc>, stored: string -> Option<seq<(string, real)>>)
    ensures forall h :: h in SemanticHits(docs, stored) ==>
      (h.score > 0.3 && h.kind == Semantic
       && (exists k :: 0 <= k < |docs| && docs[k].id == h.id) && stored(h.id).Some?
       && forall j :: 0 <= j < |stored(h.id).value| ==> stored(h.id).value[j].1 <= h.score)
    decreases |docs|
  {
    if docs != [] {
      var init := docs[..|docs| - 1];
      var d := docs[|docs| - 1];
      SemanticHitsSound(init, stored);
      assert forall k :: 0 <= k < |init| ==> init[k] == docs[k];
      if stored(d.id).Some? {
        BestChunkSpec(stored(d.id).value);
      }
    }
  }

  method SemanticSearch(docs: seq<EDoc>, stored: string -> Option<seq<(string, real)>>) returns (results: seq<EHit>)
    ensures results == SemanticHits(docs, stored)
  {
    results := [];
    var i := 0;
    while i < |docs|
      invariant 0 <= i <= |docs|
      invariant results == SemanticHits(docs[..i], stored)
    {
      var d := docs[i];
      assert docs[..i + 1][..i] == docs[..i];
      var data := stored(d.id);
      if data.Some? {
        var bestScore, bestChunk := FindBestChunk(data.value);
        if bestScore > 0.3 {
          results := results + [EHit(d.id, bestChunk, d.filename, d.title, d.category, d.tags, IsoText(d.uploadedAt),
                                     bestScore, Semantic)];
        }
      }
      i := i + 1;
    }
    assert docs[..i] == docs;
  }

  // ---------------------------------------------------------------------
  // Merging and the combined search
  // ---------------------------------------------------------------------

  /** A merged entry: the hit and the highest raw score seen for its id. */
  datatype MergedHit = MergedHit(hit: EHit, originalScore: real)

  function MergedScore(m: MergedHit): real { m.hit.score }

  function MergedId(m: MergedHit): string { m.hit.id }

  /** The weight of a later duplicate's score: 0.7 for a semantic and for a keyword result alike. */
  const DuplicateWeight: real := 0.7

  function IdIndex(m: seq<MergedHit>, id: string): (r: int)
    ensures -1 <= r < |m|
    ensures r >= 0 ==> m[r].hit.id == id
    ensures r == -1 ==> forall i :: 0 <= i < |m| ==> m[i].hit.id != id
  {
    if m == [] then -1
    else if m[|m| - 1].hit.id == id then |m| - 1
    else IdIndex(m[..|m| - 1], id)
  }

  function Max(a: real, b: real): (r: real)
    ensures r >= a && r >= b && (r == a || r == b)
  {
    if a >= b then a else b
  }

  /**
   * A later result for an id already merged: the score can only rise (to
   * 0.7 of the new score at least), and the content and raw score follow
   * the result with the highest raw score.
   */
  function Absorb(e: MergedHit, x: EHit): (a: MergedHit)
    ensures a.hit.id == e.hit.id
    ensures a.hit.score >= e.hit.score && a.hit.score >= DuplicateWeight * x.score
    ensures a.originalScore >= e.originalScore && a.originalScore >= x.score
    ensures a.hit.score == e.hit.score || a.hit.score == DuplicateWeight * x.score
    ensures x.score > e.originalScore ==> a.hit.content == x.content && a.originalScore == x.score
    ensures x.score <= e.originalScore ==> a.hit.content == e.hit.content && a.originalScore == e.originalScore
    ensures a.hit.(score := e.hit.score, content := e.hit.content) == e.hit
  {
    var score := Max(e.hit.score, x.score * DuplicateWeight);
    if x.score > e.originalScore then MergedHit(e.hit.(score := score, content := x.content), x.score)
    else MergedHit(e.hit.(score := score), e.originalScore)
  }

  /** Merge one result: absorbed into the entry for its id, or a new entry at the end. */
  function MergeOne(m: seq<MergedHit>, x: EHit): (r: seq<MergedHit>)
    ensures |r| == |m| || |r| == |m| + 1
    ensures forall i :: 0 <= i < |m| ==> r[i] == m[i] || (m[i].hit.id == x.id && r[i] == Absorb(m[i], x))
    ensures |r| == |m| + 1 <==> forall i :: 0 <= i < |m| ==> m[i].hit.id != x.id
    ensures |r| == |m| + 1 ==> r[|m|] == MergedHit(x, x.score)
    ensures |r| == |m| ==> exists i :: 0 <= i < |m| && m[i].hit.id == x.id && r[i] == Absorb(m[i], x)
  {
    var i := IdIndex(m, x.id);
    if i >= 0 then m[i := Absorb(m[i], x)] else m + [MergedHit(x, x.score)]
  }

  /** `mergeSearchResults`: one entry per id, in the order ids first appear. */
  function MergeAll(rs: seq<EHit>): seq<MergedHit>
    decreases |rs|
  {
    if rs == [] then [] else MergeOne(MergeAll(rs[..|rs| - 1]), rs[|rs| - 1])
  }

  predicate FirstOfId(rs: seq<EHit>, k: nat)
    requires k < |rs|
  {
    forall j :: 0 <= j < k ==> rs[j].id != rs[k].id
  }

  /** The least score the entry for `rs[k]`'s id keeps: the full score for the first of its id, 0.7 of it after. */
  function Floor(rs: seq<EHit>, k: nat): real
    requires k < |rs|
  {
    if FirstOfId(rs, k) then rs[k].score else DuplicateWeight * rs[k].score
  }

  predicate IdsDistinct(m: seq<MergedHit>) {
    forall i, j :: 0 <= i < j < |m| ==> m[i].hit.id != m[j].hit.id
  }

  /** Every result's id has an entry keeping at least its raw score and its floor. */
  predicate Covered(rs: seq<EHit>, m: seq<MergedHit>) {
    forall k {:trigger Floor(rs, k)} :: 0 <= k < |rs| ==>
      (exists i :: 0 <= i < |m| && m[i].hit.id == rs[k].id
         && m[i].originalScore >= rs[k].score && m[i].hit.score >= Floor(rs, k))
  }

  /** Every entry's content and raw score are those of a result with its id. */
  predicate Sourced(rs: seq<EHit>, m: seq<MergedHit>) {
    forall i {:trigger m[i].hit.content} :: 0 <= i < |m| ==>
      (exists k :: 0 <= k < |rs| && rs[k].id == m[i].hit.id
         && rs[k].content == m[i].hit.content && rs[k].score == m[i].originalScore)
  }

  lemma MergeOneDistinct(m: seq<MergedHit>, x: EHit)
    requires IdsDistinct(m)
    ensures IdsDistinct(MergeOne(m, x))
  {
    var r := MergeOne(m, x);
    assert forall i :: 0 <= i < |m| ==> r[i].hit.id == m[i].hit.id;
  }

  lemma MergeOneSourced(rs: seq<EHit>, m: seq<MergedHit>, x: EHit)
    requires Sourced(rs, m)
    ensures Sourced(rs + [x], MergeOne(m, x))
  {
    var rs' := rs + [x];
    var r := MergeOne(m, x);
    forall i | 0 <= i < |r|
      ensures exists k :: 0 <= k < |rs'| && rs'[k].id == r[i].hit.id
                && rs'[k].content == r[i].hit.content && rs'[k].score == r[i].originalScore
    {
      if i == |m| || (r[i].hit.content == x.content && r[i].originalScore == x.score && r[i].hit.id == x.id) {
        assert rs'[|rs|] == x;
      } else {
        var k :| 0 <= k < |rs| && rs[k].id == m[i].hit.id && rs[k].content == m[i].hit.content
                 && rs[k].score == m[i].originalScore;
        assert rs'[k] == rs[k];
      }
    }
  }

  lemma FloorPrefix(rs: seq<EHit>, x: EHit, k: nat)
    requires k < |rs|
    ensures Floor(rs + [x], k) == Floor(rs, k)
  {
    assert forall j :: 0 <= j <= k ==> (rs + [x])[j] == rs[j];
  }

  /** An entry the earlier results had is still there, with no lower scores. */
  lemma MergeOneCoversOld(rs: seq<EHit>, m: seq<MergedHit>, x: EHit, k: nat)
    requires Covered(rs, m) && k < |rs|
    ensures exists i :: 0 <= i < |MergeOne(m, x)| && MergeOne(m, x)[i].hit.id == rs[k].id
              && MergeOne(m, x)[i].originalScore >= rs[k].score && MergeOne(m, x)[i].hit.score >= Floor(rs, k)
  {
    var r := MergeOne(m, x);
    var floor := Floor(rs, k);
    var i :| 0 <= i < |m| && m[i].hit.id == rs[k].id && m[i].originalScore >= rs[k].score
             && m[i].hit.score >= floor;
    assert r[i].hit.id == rs[k].id;
  }

  /** The new result's id has an entry keeping its raw score and its floor. */
  lemma MergeOneCoversNew(rs: seq<EHit>, m: seq<MergedHit>, x: EHit)
    requires Covered(rs, m) && Sourced(rs, m)
    ensures exists i :: 0 <= i < |MergeOne(m, x)| && MergeOne(m, x)[i].hit.id == x.id
              && MergeOne(m, x)[i].originalScore >= x.score && MergeOne(m, x)[i].hit.score >= Floor(rs + [x], |rs|)
  {
    var rs' := rs + [x];
    var r := MergeOne(m, x);
    var n := |rs|;
    if |r| == |m| {
      var i :| 0 <= i < |m| && m[i].hit.id == x.id && r[i] == Absorb(m[i], x);
      var k0 :| 0 <= k0 < |rs| && rs[k0].id == m[i].hit.id && rs[k0].content == m[i].hit.content
                && rs[k0].score == m[i].originalScore;
      assert rs'[k0].id == rs'[n].id;
      assert !FirstOfId(rs', n);
    } else {
      assert r[|m|] == MergedHit(x, x.score);
      assert Floor(rs', n) == x.score by {
        forall j | 0 <= j < n ensures rs'[j].id != rs'[n].id {
          var i :| 0 <= i < |m| && m[i].hit.id == rs[j].id && m[i].originalScore >= rs[j].score
                   && m[i].hit.score >= Floor(rs, j);
          assert rs'[j] == rs[j];
        }
      }
    }
  }

  lemma MergeOneCovered(rs: seq<EHit>, m: seq<MergedHit>, x: EHit)
    requires Covered(rs, m) && Sourced(rs, m)
    ensures Covered(rs + [x], MergeOne(m, x))
  {
    var rs' := rs + [x];
    var r := MergeOne(m, x);
    forall k | 0 <= k < |rs'|
      ensures exists i :: 0 <= i < |r| && r[i].hit.id == rs'[k].id
                && r[i].originalScore >= rs'[k].score && r[i].hit.score >= Floor(rs', k)
    {
      if k < |rs| {
        FloorPrefix(rs, x, k);
        MergeOneCoversOld(rs, m, x, k);
        assert rs'[k] == rs[k];
      } else {
        MergeOneCoversNew(rs, m, x);
      }
    }
  }

  /**
   * One entry per id; every result's id has an entry whose raw score is at
   * least the result's and whose score is at least the result's (the
   * first of its id) or 0.7 of it (a later one); every entry's content and
   * raw score are those of a result with its id.
   */
  lemma {:induction false} MergeSpec(rs: seq<EHit>)
    ensures IdsDistinct(MergeAll(rs)) && Covered(rs, MergeAll(rs)) && Sourced(rs, MergeAll(rs))
    decreases |rs|
  {
    if rs != [] {
      var init := rs[..|rs| - 1];
      var x := rs[|rs| - 1];
      assert init + [x] == rs;
      assert MergeAll(rs) == MergeOne(MergeAll(init), x);
      MergeSpec(init);
      MergeOneDistinct(MergeAll(init), x);
      MergeOneSourced(init, MergeAll(init), x);
      MergeOneCovered(init, MergeAll(init), x);
    }
  }

  /** The merging loop over the results. */
  method MergeSearchResults(rs: seq<EHit>) returns (merged: seq<MergedHit>)
    ensures merged == MergeAll(rs)
  {
    merged := [];
    var i := 0;
    while i < |rs|
      invariant 0 <= i <= |rs|
      invariant merged == MergeAll(rs[..i])
    {
      assert rs[..i + 1][..i] == rs[..i];
      var x := rs[i];
      var at := IdIndex(merged, x.id);
      if at >= 0 {
        merged := merged[at := Absorb(merged[at], x)];
      } else {
        merged := merged + [MergedHit(x, x.score)];
      }
      i := i + 1;
    }
    assert rs[..i] == rs;
  }

  /**
   * The keyword results of the storage manager, marked as keyword results:
   * one per result, in order, every field of the result kept.
   */
  function FromKeyword(hs: seq<StorageAdapter.SHit>): (r: seq<EHit>)
    ensures |r| == |hs|
    ensures forall k :: 0 <= k < |hs| ==>
      && r[k].id == hs[k].id && r[k].content == hs[k].content && r[k].source == hs[k].source
      && r[k].title == hs[k].title && r[k].category == hs[k].category && r[k].tags == hs[k].tags
      && r[k].uploadedAt == Instant(hs[k].uploadedAt) && r[k].score == hs[k].score && r[k].kind == Keyword
  {
    if hs == [] then []
    else
      var h := hs[0];
      [EHit(h.id, h.content, h.source, h.title, h.category, h.tags, Instant(h.uploadedAt), h.score, Keyword)] + FromKeyword(hs[1..])
  }

  /** The search options; a missing one takes its default. */
  datatype SearchOptions = SearchOptions(useSemanticSearch: Option<bool>, useKeywordSearch: Option<bool>,
                                         maxResults: Option<nat>, minScore: Option<real>)

  function BoolOr(o: Option<bool>, d: bool): bool { if o.Some? then o.value else d }

  function MaxResults(opts: SearchOptions): nat {
    if opts.maxResults.Some? then opts.maxResults.value else 10
  }

  function MinScore(opts: SearchOptions): real {
    if opts.minScore.Some? then opts.minScore.value else 0.1
  }

  function ScoreAbove(minScore: real): MergedHit -> bool {
    (m: MergedHit) => m.hit.score >= minScore
  }

  /** The results gathered from the searches asked for; a search that failed adds nothing. */
  function Gathered(semantic: Result<seq<EHit>>, keyword: Result<seq<StorageAdapter.SHit>>, opts: SearchOptions): seq<EHit> {
    (if BoolOr(opts.useSemanticSearch, true) && semantic.Ok? then semantic.value else [])
    + (if BoolOr(opts.useKeywordSearch, true) && keyword.Ok? then FromKeyword(keyword.value) else [])
  }

  /**
   * `searchDocuments`: `semantic` and `keyword` are the outcomes of the two
   * searches; the merged results scoring at least `minScore` (0.1), best
   * first, at most `maxResults` (10).
   */
  function Search(semantic: Result<seq<EHit>>, keyword: Result<seq<StorageAdapter.SHit>>, opts: SearchOptions): seq<MergedHit> {
    Ranked(MergeAll(Gathered(semantic, keyword, opts)), MinScore(opts), MaxResults(opts))
  }

  /** The entries scoring at least `minScore`, best first, at most `maxResults`. */
  function Ranked(m: seq<MergedHit>, minScore: real, maxResults: nat): seq<MergedHit> {
    Take(SortDesc(Filter(m, ScoreAbove(minScore)), MergedScore), maxResults)
  }

  /**
   * Ranking merged entries: at most `maxResults`, best first, one per id,
   * each scoring at least `minScore` and taken from the entries.
   */
  lemma RankedSpec(m: seq<MergedHit>, minScore: real, maxResults: nat)
    requires IdsDistinct(m)
    ensures |Ranked(m, minScore, maxResults)| <= maxResults
    ensures SortedDesc(Ranked(m, minScore, maxResults), MergedScore)
    ensures IdsDistinct(Ranked(m, minScore, maxResults))
    ensures forall i :: 0 <= i < |Ranked(m, minScore, maxResults)| ==>
      Ranked(m, minScore, maxResults)[i].hit.score >= minScore && Ranked(m, minScore, maxResults)[i] in m
  {
    var p := ScoreAbove(minScore);
    assert forall i, j :: 0 <= i < j < |m| ==> MergedId(m[i]) != MergedId(m[j]);
    var kept := Filter(m, p);
    FilterNames(m, p, MergedId);
    RankedNames(kept, MergedScore, MergedId, maxResults);
    var r := Take(SortDesc(kept, MergedScore), maxResults);
    forall i | 0 <= i < |r| ensures r[i].hit.score >= minScore && r[i] in m {
      var a :| 0 <= a < |kept| && kept[a] == r[i];
      assert p(kept[a]);
    }
  }

  /** An entry scoring enough that ranking leaves out is outranked by all `maxResults` kept. */
  lemma RankedComplete(m: seq<MergedHit>, minScore: real, maxResults: nat, x: MergedHit)
    requires x in m && x.hit.score >= minScore && x !in Ranked(m, minScore, maxResults)
    ensures |Ranked(m, minScore, maxResults)| == maxResults
    ensures forall i :: 0 <= i < |Ranked(m, minScore, maxResults)| ==>
      Ranked(m, minScore, maxResults)[i].hit.score >= x.hit.score
  {
    var kept := Filter(m, ScoreAbove(minScore));
    var b :| 0 <= b < |m| && m[b] == x;
    assert ScoreAbove(minScore)(m[b]);
    var sorted := SortDesc(kept, MergedScore);
    SortDescMembers(kept, MergedScore);
    TopKComplete(sorted, MergedScore, maxResults, x);
    var r := Take(sorted, maxResults);
    assert forall i :: 0 <= i < |r| ==> r[i] in r;
  }

  /**
   * At most `maxResults` results, best first, one per id, each scoring at
   * least `minScore`, each for an id some search found; a search that
   * failed or was switched off contributes nothing.
   */
  lemma SearchSpec(semantic: Result<seq<EHit>>, keyword: Result<seq<StorageAdapter.SHit>>, opts: SearchOptions)
    ensures |Search(semantic, keyword, opts)| <= MaxResults(opts)
    ensures SortedDesc(Search(semantic, keyword, opts), MergedScore)
    ensures IdsDistinct(Search(semantic, keyword, opts))
    ensures forall i :: 0 <= i < |Search(semantic, keyword, opts)| ==>
      Search(semantic, keyword, opts)[i].hit.score >= MinScore(opts)
    ensures forall i :: 0 <= i < |Search(semantic, keyword, opts)| ==>
      exists k :: 0 <= k < |Gathered(semantic, keyword, opts)|
        && Gathered(semantic, keyword, opts)[k].id == Search(semantic, keyword, opts)[i].hit.id
  {
    var rs := Gathered(semantic, keyword, opts);
    var m := MergeAll(rs);
    var r := Ranked(m, MinScore(opts), MaxResults(opts));
    MergeSpec(rs);
    RankedSpec(m, MinScore(opts), MaxResults(opts));
    forall i | 0 <= i < |r| ensures exists k :: 0 <= k < |rs| && rs[k].id == r[i].hit.id {
      var b :| 0 <= b < |m| && m[b] == r[i];
      var content := m[b].hit.content;
    }
  }

  /** With both searches failed or switched off there are no results. */
  lemma SearchNothing(semantic: Result<seq<EHit>>, keyword: Result<seq<StorageAdapter.SHit>>, opts: SearchOptions)
    requires !(BoolOr(opts.useSemanticSearch, true) && semantic.Ok?)
    requires !(BoolOr(opts.useKeywordSearch, true) && keyword.Ok?)
    ensures Search(semantic, keyword, opts) == []
  {
    assert Gathered(semantic, keyword, opts) == [];
  }

  /** The combined search, step by step. */
  method SearchDocuments(semantic: Result<seq<EHit>>, keyword: Result<seq<StorageAdapter.SHit>>, opts: SearchOptions)
    returns (r: seq<MergedHit>)
    ensures r == Search(semantic, keyword, opts)
  {
    var results: seq<EHit> := [];
    if BoolOr(opts.useSemanticSearch, true) && semantic.Ok? {
      results := semantic.value;
    }
    if BoolOr(opts.useKeywordSearch, true) && keyword.Ok? {
      results := results + FromKeyword(keyword.value);
    }
    assert results == Gathered(semantic, keyword, opts);
    var merged := MergeSearchResults(results);
    r := Ranked(merged, MinScore(opts), MaxResults(opts));
  }

  // ---------------------------------------------------------------------
  // Statistics and export
  // ---------------------------------------------------------------------

  function Categories(docs: seq<EDoc>): (cs: seq<string>)
    ensures |cs| == |docs|
    ensures forall k :: 0 <= k < |docs| ==> cs[k] == docs[k].category
  {
    if docs == [] then [] else [docs[0].category] + Categories(docs[1..])
  }

  function TotalSize(docs: seq<EDoc>): nat {
    if docs == [] then 0 else docs[0].size + TotalSize(docs[1..])
  }

  function ProcessedCount(docs: seq<EDoc>): (n: nat)
    ensures n <= |docs|
  {
    if docs == [] then 0 else (if docs[0].processed then 1 else 0) + ProcessedCount(docs[1..])
  }

  datatype DocStats = DocStats(totalDocuments: nat, totalSize: nat, categories: seq<(string, nat)>,
                               processedDocuments: nat, processingProgress: real, recentUploads: seq<EDoc>)

  /** The share of processed documents: in [0, 1], and 0 without documents. */
  function Progress(docs: seq<EDoc>): (r: real)
    ensures 0.0 <= r <= 1.0
    ensures docs == [] ==> r == 0.0
    ensures r == 1.0 <==> docs != [] && ProcessedCount(docs) == |docs|
  {
    if |docs| > 0 then
      var p := ProcessedCount(docs) as real;
      var n := |docs| as real;
      assert p / n * n == p;
      p / n
    else 0.0
  }

  /** The five newest documents, newest first. */
  function Recent(docs: seq<EDoc>, time: EDoc -> real): seq<EDoc> {
    Take(SortDesc(docs, time), 5)
  }

  /** At most five, newest first, all of them the user's; a document left out is no newer than any kept. */
  lemma RecentSpec(docs: seq<EDoc>, time: EDoc -> real)
    ensures var r := Recent(docs, time);
      && |r| == (if |docs| < 5 then |docs| else 5) && SortedDesc(r, time)
      && (forall i :: 0 <= i < |r| ==> r[i] in docs)
      && forall d | d in docs && d !in r :: forall i :: 0 <= i < |r| ==> time(r[i]) >= time(d)
  {
    var sorted := SortDesc(docs, time);
    SortDescMembers(docs, time);
    var r := Take(sorted, 5);
    assert forall i :: 0 <= i < |r| ==> r[i] == sorted[i];
    forall d | d in docs && d !in r ensures forall i :: 0 <= i < |r| ==> time(r[i]) >= time(d) {
      TopKComplete(sorted, time, 5, d);
      assert forall i :: 0 <= i < |r| ==> r[i] in r;
    }
  }

  /** `getDocumentStats`; `time` reads an upload time text as `new Date` does. */
  function DocumentStats(docs: seq<EDoc>, time: EDoc -> real): DocStats {
    DocStats(|docs|, TotalSize(docs), Tally(Categories(docs)), ProcessedCount(docs), Progress(docs), Recent(docs, time))
  }

  /** The category counts add up to the number of documents and count each category's documents. */
  lemma DocumentStatsSpec(docs: seq<EDoc>, time: EDoc -> real)
    ensures var s := DocumentStats(docs, time);
      && s.totalDocuments == |docs| == TallySum(s.categories)
      && forall c :: CountOf(s.categories, c) == multiset(Categories(docs))[c]
  {
    TallySpec(Categories(docs), "");
    forall c ensures CountOf(Tally(Categories(docs)), c) == multiset(Categories(docs))[c] {
      TallySpec(Categories(docs), c);
    }
  }

  /** What an exported document holds: every field but the owner. */
  function ExportedDoc(d: EDoc): (j: Json)
    ensures j.JObj? && "userId" !in j.fields
  {
    JObj(map["id" := JStr(d.id), "filename" := JStr(d.filename), "title" := JStr(d.title),
             "size" := JNum(d.size as real), "category" := JStr(d.category),
             "tags" := JArr(StrList(d.tags)), "uploadedAt" := JStr(d.uploadedAt),
             "contentType" := JStr(d.contentType), "processed" := JBool(d.processed)])
  }

  function StrList(ss: seq<string>): (r: seq<Json>)
    ensures |r| == |ss|
  {
    if ss == [] then [] else [JStr(ss[0])] + StrList(ss[1..])
  }

  function ExportedDocs(docs: seq<EDoc>): (r: seq<Json>)
    ensures |r| == |docs|
    ensures forall k :: 0 <= k < |docs| ==> r[k] == ExportedDoc(docs[k])
  {
    if docs == [] then [] else [ExportedDoc(docs[0])] + ExportedDocs(docs[1..])
  }

  datatype Export = JsonExport(data: Json) | CsvExport(text: string)

  /** `exportUserData`: JSON (as the value it prints), CSV, or the unsupported-format error. */
  function ExportUserData(docs: seq<EDoc>, userId: string, now: string, format: string): (r: Result<Export>)
  {
    if format == "json" then
      Ok(JsonExport(JObj(map["exportedAt" := JStr(now), "userId" := JStr(userId),
                             "documents" := JArr(ExportedDocs(docs))])))
    else if format == "csv" then Ok(CsvExport(Csv(docs)))
    else Err("Unsupported export format: " + format)
  }

  /**
   * JSON lists every document, in order, without its owner; CSV is the
   * documents' table; any other format is refused.
   */
  lemma ExportSpec(docs: seq<EDoc>, userId: string, now: string, format: string)
    ensures var r := ExportUserData(docs, userId, now, format);
      (r.Ok? <==> format == "json" || format == "csv")
      && (r.Err? ==> r.error == "Unsupported export format: " + format)
      && (format == "csv" ==> r == Ok(CsvExport(Csv(docs))))
      && (format == "json" ==>
            (r.value.JsonExport? && r.value.data.JObj? && "documents" in r.value.data.fields
             && r.value.data.fields["documents"].JArr?
             && |r.value.data.fields["documents"].items| == |docs|
             && forall k :: 0 <= k < |docs| ==>
                  r.value.data.fields["documents"].items[k].JObj?
                  && "userId" !in r.value.data.fields["documents"].items[k].fields
                  && r.value.data.fields["documents"].items[k].fields["id"] == JStr(docs[k].id)))
  {
  }

  // ---------------------------------------------------------------------
  // CSV
  // ---------------------------------------------------------------------

  const CsvHeader := "id,filename,title,size,category,tags,uploadedAt,contentType"

  /** A text field: wrapped in quotes with every quote doubled. */
  function Quote(s: string): string {
    "\"" + ReplaceAllChar(s, '"', "\"\"") + "\""
  }

  /** Reading a quoted field's inside back: a doubled quote is one quote, a lone quote is malformed. */
  function Unescape(s: string): Option<string>
    decreases |s|
  {
    if s == [] then Some([])
    else if s[0] == '"' then
      if |s| >= 2 && s[1] == '"' then
        var rest := Unescape(s[2..]);
        if rest.Some? then Some(['"'] + rest.value) else None
      else None
    else
      var rest := Unescape(s[1..]);
      if rest.Some? then Some([s[0]] + rest.value) else None
  }

  /** The inside of a quoted field reads back as the text (section 2, rule 7 of RFC 4180). */
  lemma {:induction false} EscapeRoundTrip(s: string)
    ensures Unescape(ReplaceAllChar(s, '"', "\"\"")) == Some(s)
    decreases |s|
  {
    if s != [] {
      EscapeRoundTrip(s[1..]);
      var rest := ReplaceAllChar(s[1..], '"', "\"\"");
      if s[0] == '"' {
        assert ReplaceAllChar(s, '"', "\"\"") == "\"\"" + rest;
        assert ("\"\"" + rest)[2..] == rest;
      } else {
        assert ReplaceAllChar(s, '"', "\"\"") == [s[0]] + rest;
        assert ([s[0]] + rest)[1..] == rest;
      }
      assert s == [s[0]] + s[1..];
    }
  }

  /** `value || ''` for the size: 0 prints as an empty field. */
  function SizeField(n: nat): string {
    if n == 0 then "" else NatToString(n)
  }

  /** One document's row, in the header's order. */
  function CsvRow(d: EDoc): string {
    Join([Quote(d.id), Quote(d.filename), Quote(d.title), SizeField(d.size), Quote(d.category),
          Quote(Join(d.tags, ";")), Quote(d.uploadedAt), Quote(d.contentType)], ",")
  }

  function CsvRows(docs: seq<EDoc>): (r: seq<string>)
    ensures |r| == |docs|
  {
    if docs == [] then [] else CsvRows(docs[..|docs| - 1]) + [CsvRow(docs[|docs| - 1])]
  }

  /** `convertToCSV`: empty without documents, else the header and one row per document, joined by line feeds. */
  function Csv(docs: seq<EDoc>): string {
    if docs == [] then "" else Join([CsvHeader] + CsvRows(docs), "\n")
  }

  /** Without documents the text is empty; otherwise it starts with the header line. */
  lemma CsvSpec(docs: seq<EDoc>)
    ensures docs == [] <==> Csv(docs) == ""
    ensures docs != [] ==> StartsWith(Csv(docs), CsvHeader)
  {
    if docs != [] {
      var lines := [CsvHeader] + CsvRows(docs);
      assert lines[0] == CsvHeader;
      if |lines| > 1 {
        assert Csv(docs) == CsvHeader + "\n" + Join(lines[1..], "\n");
      }
    }
  }

  /** The row loop. */
  method ConvertToCsv(docs: seq<EDoc>) returns (text: string)
    ensures text == Csv(docs)
  {
    if docs == [] {
      return "";
    }
    var rows: seq<string> := [];
    var i := 0;
    while i < |docs|
      invariant 0 <= i <= |docs|
      invariant rows == CsvRows(docs[..i])
    {
      assert docs[..i + 1][..i] == docs[..i];
      var row := CsvRow(docs[i]);
      rows := rows + [row];
      i := i + 1;
    }
    assert docs[..i] == docs;
    text := Join([CsvHeader] + rows, "\n");
  }
}
