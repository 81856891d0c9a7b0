/**
 * The embedding provider: the two tokenizers that feed the encoder, the
 * 32-bit string hash and the linear-congruential seed sequence of the
 * model-free fallback vector, the dimension check and accumulators of cosine
 * similarity, batch embedding, ranking by similarity and the shape of the
 * k-means clustering.  The encoder itself, square roots and normalisation
 * are parameters.
 */
module Embedding {
  import opened Common
  import opened Text
  import opened Seqs

  type Vector = seq<real>

  const ClsId: int := 101
  const SepId: int := 102
  const UnkId: int := 100
  const PadId: int := 0

  /** The default sequence length of `tokenize` and the dimension of the fallback vector. */
  const MaxTokens: nat := 512
  const Dimensions: nat := 384

  // ---------------------------------------------------------------------------
  // Character-level tokenizer
  // ---------------------------------------------------------------------------

  /** `text.toLowerCase().split('').map(c => c.charCodeAt(0))`. */
  function Codes(text: string): (r: seq<int>)
    ensures |r| == |text|
    ensures forall i :: 0 <= i < |text| ==> r[i] == LowerChar(text[i]) as int
  {
    seq(|text|, i requires 0 <= i < |text| => LowerChar(text[i]) as int)
  }

  /** `Array(n).fill(0)`. */
  function Zeros(n: nat): (r: seq<int>)
    ensures |r| == n
    ensures forall i :: 0 <= i < n ==> r[i] == PadId
  {
    seq(n, i => PadId)
  }

  /** `simpleTokenize`: [CLS], the codes of the first maxLength - 2 characters, [SEP], padding. */
  function SimpleTokenize(text: string, maxLength: nat): (r: seq<int>)
    requires maxLength >= 2
  {
    var codes := Take(Codes(text), maxLength - 2);
    [ClsId] + codes + [SepId] + Zeros(maxLength - |codes| - 2)
  }

  /** Drop the trailing padding. */
  function StripPadding(ids: seq<int>): (r: seq<int>)
    ensures |r| <= |ids| && r == ids[..|r|]
    ensures r == [] || r[|r| - 1] != PadId
    ensures forall i :: |r| <= i < |ids| ==> ids[i] == PadId
  {
    if ids == [] || ids[|ids| - 1] != PadId then ids else StripPadding(ids[..|ids| - 1])
  }

  /** Read the character codes back: strip the padding, then the [CLS] and the [SEP] around them. */
  function SimpleDetokenize(ids: seq<int>): seq<int> {
    var core := StripPadding(ids);
    if |core| >= 2 then core[1..|core| - 1] else []
  }

  lemma StripPaddingOf(core: seq<int>, n: nat)
    requires core != [] && core[|core| - 1] != PadId
    ensures StripPadding(core + Zeros(n)) == core
    decreases n
  {
    if n > 0 {
      assert (core + Zeros(n))[..|core| + n - 1] == core + Zeros(n - 1);
      StripPaddingOf(core, n - 1);
    } else {
      assert core + Zeros(0) == core;
    }
  }

  /**
   * `simpleTokenize` always yields exactly maxLength ids: [CLS], the codes of
   * the first maxLength - 2 characters, [SEP] and padding.  The codes can be
   * read back: the ids lose nothing but the characters beyond the limit.
   */
  lemma SimpleTokenizeSpec(text: string, maxLength: nat)
    requires maxLength >= 2
    ensures var r := SimpleTokenize(text, maxLength);
      var n := if |text| < maxLength - 2 then |text| else maxLength - 2;
      && |r| == maxLength
      && r[0] == ClsId && r[n + 1] == SepId
      && (forall i :: 0 <= i < n ==> r[i + 1] == LowerChar(text[i]) as int)
      && (forall i :: n + 2 <= i < maxLength ==> r[i] == PadId)
      && SimpleDetokenize(r) == Codes(text)[..n]
  {
    var codes := Take(Codes(text), maxLength - 2);
    var core := [ClsId] + codes + [SepId];
    var r := SimpleTokenize(text, maxLength);
    assert r == core + Zeros(maxLength - |codes| - 2);
    StripPaddingOf(core, maxLength - |codes| - 2);
    assert core[1..|core| - 1] == codes;
  }

  // ---------------------------------------------------------------------------
  // Vocabulary tokenizer
  // ---------------------------------------------------------------------------

  /** `vocab[word] || vocab['[UNK]'] || 100`: an id of 0 is falsy and falls through. */
  function TokenId(vocab: map<string, int>, word: string): (r: int)
    ensures r != PadId
    ensures word in vocab && vocab[word] != 0 ==> r == vocab[word]
  {
    if word in vocab && vocab[word] != 0 then vocab[word]
    else if "[UNK]" in vocab && vocab["[UNK]"] != 0 then vocab["[UNK]"]
    else UnkId
  }

  /** The ids of a list of words. */
  function WordIds(vocab: map<string, int>, words: seq<string>): (r: seq<int>)
    ensures |r| == |words|
    ensures forall i :: 0 <= i < |words| ==> r[i] == TokenId(vocab, words[i])
  {
    seq(|words|, i requires 0 <= i < |words| => TokenId(vocab, words[i]))
  }

  /** How many words fit between [CLS] and [SEP]. */
  function WordsKept(words: seq<string>, maxLength: nat): (n: nat)
    ensures n <= |words|
  {
    if maxLength < 2 then 0 else if |words| < maxLength - 2 then |words| else maxLength - 2
  }

  /** `advancedTokenize` as a value: [CLS], the kept word ids, [SEP], padding, cut to maxLength. */
  function AdvancedTokens(vocab: map<string, int>, text: string, maxLength: nat): seq<int> {
    var words := Words(ToLower(text));
    var kept := WordsKept(words, maxLength);
    var tokens := [ClsId] + WordIds(vocab, words[..kept]) + [SepId];
    Take(tokens + Zeros(if |tokens| < maxLength then maxLength - |tokens| else 0), maxLength)
  }

  /**
   * `advancedTokenize`: push [CLS], one id per word while fewer than
   * maxLength - 1 ids are held, [SEP], then padding, and cut to maxLength.
   */
  method AdvancedTokenize(vocab: map<string, int>, text: string, maxLength: nat) returns (r: seq<int>)
    ensures r == AdvancedTokens(vocab, text, maxLength)
  {
    var words := Words(ToLower(text));
    var tokens := [ClsId];
    var i := 0;
    while i < |words|
      invariant 0 <= i <= |words|
      invariant i <= WordsKept(words, maxLength)
      invariant tokens == [ClsId] + WordIds(vocab, words[..i])
    {
      if |tokens| >= maxLength - 1 {
        break;
      }
      assert words[..i + 1] == words[..i] + [words[i]];
      tokens := tokens + [TokenId(vocab, words[i])];
      i := i + 1;
    }
    assert i == WordsKept(words, maxLength);
    tokens := tokens + [SepId];
    ghost var core := tokens;
    while |tokens| < maxLength
      invariant |core| <= |tokens|
      invariant tokens == core + Zeros(|tokens| - |core|)
      decreases maxLength - |tokens|
    {
      tokens := tokens + [PadId];
    }
    r := Take(tokens, maxLength);
  }

  /**
   * The vocabulary tokenizer yields exactly maxLength ids; for maxLength >= 2
   * they are [CLS], the ids of the first maxLength - 2 words (none of them 0),
   * [SEP] and padding.
   */
  lemma AdvancedTokensSpec(vocab: map<string, int>, text: string, maxLength: nat)
    ensures |AdvancedTokens(vocab, text, maxLength)| == maxLength
    ensures maxLength >= 2 ==>
      var r := AdvancedTokens(vocab, text, maxLength);
      var words := Words(ToLower(text));
      var n := WordsKept(words, maxLength);
      && n == (if |words| < maxLength - 2 then |words| else maxLength - 2)
      && r[0] == ClsId && r[n + 1] == SepId
      && (forall i :: 0 <= i < n ==> r[i + 1] == TokenId(vocab, words[i]) && r[i + 1] != PadId)
      && (forall i :: n + 2 <= i < maxLength ==> r[i] == PadId)
  {
  }

  /** `tokenize`: the vocabulary tokenizer once a tokenizer is loaded, the character one otherwise. */
  function TokenizeWith(tokenizer: Option<map<string, int>>, text: string, maxLength: nat): (r: seq<int>)
    requires maxLength >= 2
    ensures |r| == maxLength && r[0] == ClsId
  {
    AdvancedTokensSpec(if tokenizer.Some? then tokenizer.value else map[], text, maxLength);
    SimpleTokenizeSpec(text, maxLength);
    match tokenizer
    case Some(vocab) => AdvancedTokens(vocab, text, maxLength)
    case None => SimpleTokenize(text, maxLength)
  }

  // ---------------------------------------------------------------------------
  // 32-bit string hash
  // ---------------------------------------------------------------------------

  const TwoTo32: int := 0x1_0000_0000
  const TwoTo31: int := 0x8000_0000

  /** JavaScript ToInt32: the value modulo 2^32, read as a signed 32-bit integer. */
  function Int32(x: int): (r: int)
    ensures -TwoTo31 <= r < TwoTo31
    ensures (r - x) % TwoTo32 == 0
  {
    (x + TwoTo31) % TwoTo32 - TwoTo31
  }

  function Abs(x: int): nat {
    if x < 0 then -x else x
  }

  /** The polynomial hash without wrap-around: h(s + [c]) = 31 h(s) + c. */
  function Poly(codes: seq<int>): int
    decreases |codes|
  {
    if codes == [] then 0 else 31 * Poly(codes[..|codes| - 1]) + codes[|codes| - 1]
  }

  /** The UTF-16 code units of the text, unchanged (`charCodeAt`). */
  function Units(s: string): (r: seq<int>)
    ensures |r| == |s|
  {
    seq(|s|, i requires 0 <= i < |s| => s[i] as int)
  }

  /** Values equal modulo 2^32 have the same ToInt32. */
  lemma Int32Congruent(x: int, y: int)
    requires (x - y) % TwoTo32 == 0
    ensures Int32(x) == Int32(y)
  {
    var k := (x - y) / TwoTo32;
    assert x - y == k * TwoTo32;
    assert x + TwoTo31 == (y + TwoTo31) + k * TwoTo32;
    ModAddMultiple(y + TwoTo31, k);
  }

  lemma ModAddMultiple(a: int, k: int)
    ensures (a + k * TwoTo32) % TwoTo32 == a % TwoTo32
  {
  }

  /** One wrapped step computes what one exact step computes, modulo 2^32. */
  lemma StepCongruent(h: int, exact: int, c: int)
    requires (h - exact) % TwoTo32 == 0
    ensures (Int32(Int32(h * 32) - h + c) - (31 * exact + c)) % TwoTo32 == 0
  {
    var a := Int32(h * 32);
    var x := a - h + c;
    var r := Int32(x);
    var k := Quotient(h - exact);
    var j := Quotient(a - h * 32);
    var m := Quotient(r - x);
    Multiple(m + 31 * k + j, r - (31 * exact + c));
  }

  /** A multiple of 2^32 is its quotient times 2^32. */
  lemma Quotient(x: int) returns (q: int)
    requires x % TwoTo32 == 0
    ensures x == q * 0x1_0000_0000
  {
    q := x / TwoTo32;
  }

  lemma Multiple(q: int, x: int)
    requires x == q * 0x1_0000_0000
    ensures x % TwoTo32 == 0
  {
  }

  /**
   * `simpleHash`: h <- ToInt32(ToInt32(h << 5) - h + code) for every code
   * unit, then |h|.  The result is the absolute value of the exact
   * polynomial hash read as a signed 32-bit integer.
   */
  method SimpleHash(str: string) returns (hash: nat)
    ensures hash == Abs(Int32(Poly(Units(str))))
    ensures hash <= TwoTo31
  {
    var units := Units(str);
    var h := 0;
    var i := 0;
    while i < |str|
      invariant 0 <= i <= |str|
      invariant -TwoTo31 <= h < TwoTo31
      invariant (h - Poly(units[..i])) % TwoTo32 == 0
    {
      var c := str[i] as int;
      assert units[..i + 1][..i] == units[..i];
      StepCongruent(h, Poly(units[..i]), c);
      h := Int32(Int32(h * 32) - h + c);
      i := i + 1;
    }
    assert units[..i] == units;
    Int32Congruent(h, Poly(units));
    hash := Abs(h);
  }

  /** The hash as a value, for the functions that use it. */
  function HashOf(str: string): (r: nat)
    ensures r <= TwoTo31
  {
    Abs(Int32(Poly(Units(str))))
  }

  // ---------------------------------------------------------------------------
  // The model-free fallback vector
  // ---------------------------------------------------------------------------

  const Multiplier: int := 9301
  const Increment: int := 49297
  const Modulus: int := 233280

  function NextSeed(seed: int): int {
    (seed * Multiplier + Increment) % Modulus
  }

  /** The seed after `i` steps from the hash. */
  function SeedAt(hash: int, i: nat): int {
    if i == 0 then hash else NextSeed(SeedAt(hash, i - 1))
  }

  /** One component: the seed scaled into [-1, 1). */
  function Component(seed: int): real {
    (seed as real / Modulus as real) * 2.0 - 1.0
  }

  /** Every seed after the first lies in [0, 233280), so every component lies in [-1, 1). */
  lemma SeedsInRange(hash: int, i: nat)
    requires i >= 1
    ensures 0 <= SeedAt(hash, i) < Modulus
    ensures -1.0 <= Component(SeedAt(hash, i)) < 1.0
  {
  }

  /**
   * `generateHashVector` before normalisation: the loop steps the seed once
   * per dimension and scales it; the result depends on nothing but the text.
   */
  method HashComponents(text: string, dimensions: nat) returns (vector: Vector)
    ensures |vector| == dimensions
    ensures forall i :: 0 <= i < dimensions ==>
      vector[i] == Component(SeedAt(HashOf(text), i + 1)) && -1.0 <= vector[i] < 1.0
  {
    var hash := SimpleHash(text);
    var seed := hash;
    vector := [];
    var i := 0;
    while i < dimensions
      invariant 0 <= i <= dimensions && |vector| == i
      invariant seed == SeedAt(hash, i)
      invariant forall j :: 0 <= j < i ==> vector[j] == Component(SeedAt(hash, j + 1)) && -1.0 <= vector[j] < 1.0
    {
      seed := NextSeed(seed);
      SeedsInRange(hash, i + 1);
      vector := vector + [Component(seed)];
      i := i + 1;
    }
  }

  /** The components as a value. */
  function HashVectorOf(text: string, dimensions: nat): (v: Vector)
    ensures |v| == dimensions
  {
    seq(dimensions, i requires 0 <= i < dimensions => Component(SeedAt(HashOf(text), i + 1)))
  }

  // ---------------------------------------------------------------------------
  // Cosine similarity
  // ---------------------------------------------------------------------------

  function Dot(a: Vector, b: Vector): real
    requires |a| == |b|
    decreases |a|
  {
    if a == [] then 0.0 else Dot(a[..|a| - 1], b[..|b| - 1]) + a[|a| - 1] * b[|b| - 1]
  }

  lemma {:induction false} DotSymmetric(a: Vector, b: Vector)
    requires |a| == |b|
    ensures Dot(a, b) == Dot(b, a)
    decreases |a|
  {
    if a != [] {
      DotSymmetric(a[..|a| - 1], b[..|b| - 1]);
    }
  }

  lemma {:induction false} DotSelfNonNegative(a: Vector)
    ensures Dot(a, a) >= 0.0
    decreases |a|
  {
    if a != [] {
      DotSelfNonNegative(a[..|a| - 1]);
    }
  }

  /**
   * `dot / (sqrt(normA) * sqrt(normB))` with `root` the square root.  A zero
   * denominator gives NaN in JavaScript, which no comparison accepts; it is
   * modelled as 0.
   */
  function Cosine(a: Vector, b: Vector, root: real -> real): real
    requires |a| == |b|
  {
    var d := root(Dot(a, a)) * root(Dot(b, b));
    if d == 0.0 then 0.0 else Dot(a, b) / d
  }

  /** `cosineSimilarity`: throws when the lengths differ. */
  function CosineSimilarity(a: Vector, b: Vector, root: real -> real): (r: Result<real>)
    ensures r.Err? <==> |a| != |b|
  {
    if |a| != |b| then Err("Vectors must have the same length") else Ok(Cosine(a, b, root))
  }

  /** The similarity is symmetric. */
  lemma CosineSymmetric(a: Vector, b: Vector, root: real -> real)
    ensures CosineSimilarity(a, b, root) == CosineSimilarity(b, a, root)
  {
    if |a| == |b| {
      DotSymmetric(a, b);
    }
  }

  /** A non-zero vector is similar to itself with similarity 1, for a square root. */
  lemma CosineSelf(a: Vector, root: real -> real)
    requires forall x :: x >= 0.0 ==> root(x) >= 0.0 && root(x) * root(x) == x
    requires Dot(a, a) != 0.0
    ensures CosineSimilarity(a, a, root) == Ok(1.0)
  {
    DotSelfNonNegative(a);
    var n := Dot(a, a);
    assert root(n) * root(n) == n;
    var d := root(Dot(a, a)) * root(Dot(a, a));
    assert d == n;
    assert Cosine(a, a, root) == n / n;
    DivSelf(n);
  }

  lemma DivSelf(n: real)
    requires n != 0.0
    ensures n / n == 1.0
  {
  }

  /** The accumulator loop of `cosineSimilarity`. */
  method CosineLoop(a: Vector, b: Vector, root: real -> real) returns (r: Result<real>)
    ensures r == CosineSimilarity(a, b, root)
  {
    if |a| != |b| {
      return Err("Vectors must have the same length");
    }
    var dot, normA, normB := 0.0, 0.0, 0.0;
    var i := 0;
    while i < |a|
      invariant 0 <= i <= |a|
      invariant dot == Dot(a[..i], b[..i])
      invariant normA == Dot(a[..i], a[..i]) && normB == Dot(b[..i], b[..i])
    {
      assert a[..i + 1][..i] == a[..i] && b[..i + 1][..i] == b[..i];
      dot := dot + a[i] * b[i];
      normA := normA + a[i] * a[i];
      normB := normB + b[i] * b[i];
      i := i + 1;
    }
    assert a[..i] == a && b[..i] == b;
    assert dot == Dot(a, b) && normA == Dot(a, a) && normB == Dot(b, b);
    var d := root(normA) * root(normB);
    assert d == root(Dot(a, a)) * root(Dot(b, b));
    var value := if d == 0.0 then 0.0 else dot / d;
    assert value == Cosine(a, b, root) by {
      assert dot == Dot(a, b);
    }
    r := Ok(value);
  }

  // ---------------------------------------------------------------------------
  // The service: model loading and `embed`
  // ---------------------------------------------------------------------------

  /** `generateHashVector`: the scaled seeds, normalised by `normalize`. */
  function HashVector(text: string, normalize: Vector -> Vector): Vector {
    normalize(HashVectorOf(text, Dimensions))
  }

  class EmbeddingService {
    /** Whether an inference session was created. */
    var session: bool
    /** The tokenizer's vocabulary once a tokenizer is loaded (`vocab || {}`). */
    var tokenizer: Option<map<string, int>>
    var modelLoaded: bool

    constructor()
      ensures !session && tokenizer == None && !modelLoaded
    {
      session := false;
      tokenizer := None;
      modelLoaded := false;
    }

    /**
     * `init`: a no-op once loaded.  Loading the model and the tokenizer each
     * catch their own failure, so `init` always ends loaded, with a session
     * only when the model could be created.
     */
    method Init(modelAvailable: bool, vocab: Option<map<string, int>>)
      modifies this
      ensures old(modelLoaded) ==> session == old(session) && tokenizer == old(tokenizer)
      ensures !old(modelLoaded) ==> session == modelAvailable && tokenizer == vocab
      ensures modelLoaded
    {
      if modelLoaded {
        return;
      }
      session := modelAvailable;
      tokenizer := vocab;
      modelLoaded := true;
    }

    /**
     * `embed`: the encoder's vector when a session exists and inference on
     * the tokens succeeds (`infer` returns None when it throws), and the
     * fallback hash vector otherwise.
     */
    method Embed(text: string, modelAvailable: bool, vocab: Option<map<string, int>>,
                 infer: seq<int> -> Option<Vector>, normalize: Vector -> Vector) returns (v: Vector)
      modifies this
      ensures modelLoaded
      ensures old(modelLoaded) ==> session == old(session) && tokenizer == old(tokenizer)
      ensures !session ==> v == HashVector(text, normalize)
      ensures session ==> v == match infer(TokenizeWith(tokenizer, text, MaxTokens))
                               case Some(e) => e
                               case None => HashVector(text, normalize)
    {
      if !modelLoaded {
        Init(modelAvailable, vocab);
      }
      if !session {
        return HashVector(text, normalize);
      }
      var tokens := TokenizeWith(tokenizer, text, MaxTokens);
      match infer(tokens) {
        case Some(e) => v := e;
        case None => v := HashVector(text, normalize);
      }
    }
  }

  // ---------------------------------------------------------------------------
  // Batches, ranking and clustering
  // ---------------------------------------------------------------------------

  /**
   * `embedBatch`: embed the texts in slices of `batchSize` and append each
   * slice's embeddings.  The result holds one embedding per text, in order.
   * (A batch size of 0 never advances the loop.)
   */
  method EmbedBatch(texts: seq<string>, batchSize: nat, embed: string -> Vector) returns (embeddings: seq<Vector>)
    requires batchSize > 0
    ensures |embeddings| == |texts|
    ensures forall i :: 0 <= i < |texts| ==> embeddings[i] == embed(texts[i])
  {
    embeddings := [];
    var i := 0;
    while i < |texts|
      invariant 0 <= i && |embeddings| == (if i < |texts| then i else |texts|)
      invariant forall j :: 0 <= j < |embeddings| ==> embeddings[j] == embed(texts[j])
    {
      var end := if i + batchSize < |texts| then i + batchSize else |texts|;
      var batch := texts[i..end];
      var batchEmbeddings := seq(|batch|, k requires 0 <= k < |batch| => embed(batch[k]));
      embeddings := embeddings + batchEmbeddings;
      i := i + batchSize;
    }
  }

  datatype EmbeddedDoc = EmbeddedDoc(id: string, title: string, content: string, embedding: Option<Vector>)

  datatype ScoredDoc = ScoredDoc(doc: EmbeddedDoc, score: real)

  function ScoreOfDoc(s: ScoredDoc): real { s.score }

  /** The embedding a document is compared by: its own, or one made from `content || title`. */
  function EmbeddingFor(d: EmbeddedDoc, embed: string -> Vector): Vector {
    match d.embedding
    case Some(e) => e
    case None => embed(if d.content != "" then d.content else d.title)
  }

  /** `{...doc, score}` for a document whose embedding has the query's dimension. */
  predicate ScoredFrom(q: Vector, d: EmbeddedDoc, embed: string -> Vector, root: real -> real, s: ScoredDoc) {
    var e := EmbeddingFor(d, embed);
    |e| == |q| && s == ScoredDoc(d.(embedding := Some(e)), Cosine(q, e, root))
  }

  /** Each document with its embedding filled in and its similarity; the first mismatch throws. */
  function ScoreAll(q: Vector, docs: seq<EmbeddedDoc>, embed: string -> Vector, root: real -> real): (r: Result<seq<ScoredDoc>>)
    ensures r.Ok? ==> |r.value| == |docs|
    ensures r.Ok? ==> forall i :: 0 <= i < |docs| ==> ScoredFrom(q, docs[i], embed, root, r.value[i])
    ensures r.Err? <==> exists i :: 0 <= i < |docs| && |EmbeddingFor(docs[i], embed)| != |q|
    decreases |docs|
  {
    if docs == [] then Ok([])
    else
      var init := ScoreAll(q, docs[..|docs| - 1], embed, root);
      var d := docs[|docs| - 1];
      var e := EmbeddingFor(d, embed);
      match init
      case Err(m) =>
        var i :| 0 <= i < |docs| - 1 && |EmbeddingFor(docs[..|docs| - 1][i], embed)| != |q|;
        assert docs[..|docs| - 1][i] == docs[i];
        Err(m)
      case Ok(scored) =>
        match CosineSimilarity(q, e, root)
        case Err(m) => Err(m)
        case Ok(s) => Ok(scored + [ScoredDoc(d.(embedding := Some(e)), s)])
  }

  /** `semanticSearch`: every document scored against the query, best first, at most topK. */
  function SemanticSearch(q: Vector, docs: seq<EmbeddedDoc>, topK: nat, embed: string -> Vector, root: real -> real): Result<seq<ScoredDoc>> {
    match ScoreAll(q, docs, embed, root)
    case Err(m) => Err(m)
    case Ok(scored) => Ok(Take(SortDesc(scored, ScoreOfDoc), topK))
  }

  /**
   * The search throws exactly when some document's embedding has another
   * dimension than the query's; otherwise it returns min(topK, |docs|)
   * documents sorted by decreasing similarity, each one of the input
   * documents scored by its cosine similarity to the query.
   */
  lemma SemanticSearchSpec(q: Vector, docs: seq<EmbeddedDoc>, topK: nat, embed: string -> Vector, root: real -> real)
    ensures var r := SemanticSearch(q, docs, topK, embed, root);
      && (r.Err? <==> exists i :: 0 <= i < |docs| && |EmbeddingFor(docs[i], embed)| != |q|)
      && (r.Ok? ==>
        && |r.value| == (if topK < |docs| then topK else |docs|)
        && SortedDesc(r.value, ScoreOfDoc)
        && forall k :: 0 <= k < |r.value| ==>
             exists i :: 0 <= i < |docs| && ScoredFrom(q, docs[i], embed, root, r.value[k]))
  {
    var s := ScoreAll(q, docs, embed, root);
    if s.Ok? {
      var sorted := SortDesc(s.value, ScoreOfDoc);
      SortDescMembers(s.value, ScoreOfDoc);
      var r := Take(sorted, topK);
      forall k | 0 <= k < |r| ensures exists i :: 0 <= i < |docs| && ScoredFrom(q, docs[i], embed, root, r[k]) {
        assert r[k] == sorted[k];
        assert r[k] in s.value;
        var i :| 0 <= i < |s.value| && s.value[i] == r[k];
      }
    }
  }

  /** The documents assigned to cluster `c`, in input order. */
  function Bucket<T>(docs: seq<T>, assign: seq<nat>, c: nat): (r: seq<T>)
    requires |assign| == |docs|
    decreases |docs|
  {
    InRange(docs, assign, c, c + 1)
  }

  /** The documents whose cluster lies in [lo, hi), in input order. */
  function InRange<T>(docs: seq<T>, assign: seq<nat>, lo: nat, hi: nat): (r: seq<T>)
    requires |assign| == |docs|
    decreases |docs|
  {
    if docs == [] then []
    else
      var last := if lo <= assign[|assign| - 1] < hi then [docs[|docs| - 1]] else [];
      InRange(docs[..|docs| - 1], assign[..|assign| - 1], lo, hi) + last
  }

  /** The non-empty buckets among clusters c, c + 1, ..., k - 1. */
  function NonEmptyBuckets<T>(docs: seq<T>, assign: seq<nat>, c: nat, k: nat): seq<seq<T>>
    requires |assign| == |docs|
    decreases k - c
  {
    if c >= k then []
    else
      var b := Bucket(docs, assign, c);
      (if b != [] then [b] else []) + NonEmptyBuckets(docs, assign, c + 1, k)
  }

  /**
   * `kMeansClustering`, shape only: `assign[i]` is the cluster the last
   * iteration put document i in (the centroid arithmetic is not modelled).
   * Fewer documents than clusters gives one cluster of all documents; k = 0
   * throws (there is no cluster 0 to push into, or no first document).
   */
  function KMeansShape<T>(docs: seq<T>, k: nat, assign: seq<nat>): Result<seq<seq<T>>>
    requires |assign| == |docs| && forall i :: 0 <= i < |assign| ==> assign[i] < k
  {
    if |docs| < k then Ok([docs])
    else if k == 0 then Err("TypeError")
    else Ok(NonEmptyBuckets(docs, assign, 0, k))
  }

  function Flatten<T>(groups: seq<seq<T>>): seq<T> {
    if groups == [] then [] else groups[0] + Flatten(groups[1..])
  }

  /** Splitting off the lowest cluster of a range. */
  lemma {:induction false} InRangeSplit<T>(docs: seq<T>, assign: seq<nat>, lo: nat, hi: nat)
    requires |assign| == |docs| && lo < hi
    ensures multiset(InRange(docs, assign, lo, hi))
      == multiset(Bucket(docs, assign, lo)) + multiset(InRange(docs, assign, lo + 1, hi))
    decreases |docs|
  {
    if docs != [] {
      InRangeSplit(docs[..|docs| - 1], assign[..|assign| - 1], lo, hi);
    }
  }

  /** A range that covers every assignment keeps every document. */
  lemma {:induction false} InRangeAll<T>(docs: seq<T>, assign: seq<nat>, k: nat)
    requires |assign| == |docs| && forall i :: 0 <= i < |assign| ==> assign[i] < k
    ensures InRange(docs, assign, 0, k) == docs
    decreases |docs|
  {
    if docs != [] {
      InRangeAll(docs[..|docs| - 1], assign[..|assign| - 1], k);
    }
  }

  lemma {:induction false} NonEmptyBucketsContents<T>(docs: seq<T>, assign: seq<nat>, c: nat, k: nat)
    requires |assign| == |docs| && c <= k
    ensures multiset(Flatten(NonEmptyBuckets(docs, assign, c, k))) == multiset(InRange(docs, assign, c, k))
    ensures forall g :: g in NonEmptyBuckets(docs, assign, c, k) ==> g != []
    ensures |NonEmptyBuckets(docs, assign, c, k)| <= k - c
    decreases k - c
  {
    if c == k {
      EmptyRange(docs, assign, c);
    } else {
      NonEmptyBucketsContents(docs, assign, c + 1, k);
      InRangeSplit(docs, assign, c, k);
      BucketsStep(Bucket(docs, assign, c), NonEmptyBuckets(docs, assign, c + 1, k));
    }
  }

  /** Putting a bucket in front of the others, unless it is empty. */
  lemma BucketsStep<T>(b: seq<T>, rest: seq<seq<T>>)
    ensures var r := (if b != [] then [b] else []) + rest;
      && multiset(Flatten(r)) == multiset(b) + multiset(Flatten(rest))
      && |r| <= |rest| + 1
      && (forall g :: g in r ==> g in rest || g == b)
  {
    if b != [] {
      assert ([b] + rest)[0] == b && ([b] + rest)[1..] == rest;
    } else {
      assert [] + rest == rest;
    }
  }

  lemma {:induction false} EmptyRange<T>(docs: seq<T>, assign: seq<nat>, c: nat)
    requires |assign| == |docs|
    ensures InRange(docs, assign, c, c) == []
    decreases |docs|
  {
    if docs != [] {
      EmptyRange(docs[..|docs| - 1], assign[..|assign| - 1], c);
    }
  }

  /**
   * With at least k >= 1 documents, the clusters are non-empty, at most k,
   * and together hold every document exactly as often as the input does.
   */
  lemma KMeansShapeSpec<T>(docs: seq<T>, k: nat, assign: seq<nat>)
    requires |assign| == |docs| && forall i :: 0 <= i < |assign| ==> assign[i] < k
    ensures |docs| < k ==> KMeansShape(docs, k, assign) == Ok([docs])
    ensures k == 0 ==> KMeansShape(docs, k, assign).Err?
    ensures 1 <= k <= |docs| ==>
      var r := KMeansShape(docs, k, assign);
      && r.Ok? && |r.value| <= k
      && (forall g :: g in r.value ==> g != [])
      && multiset(Flatten(r.value)) == multiset(docs)
  {
    if 1 <= k <= |docs| {
      NonEmptyBucketsContents(docs, assign, 0, k);
      InRangeAll(docs, assign, k);
    }
  }
}
