/**
 * The storage abstraction: a back end chosen by name (the browser
 * database, a WebDAV share or the Cloudflare API), a manager that picks a
 * primary back end with the browser database as fallback and runs each
 * operation on the first back end that succeeds, and the back ends'
 * shared content search with its relevance score and snippet.  What a
 * back end does on the wire, and the content encryption, are parameters:
 * each operation's outcome and each document's decrypted text.
 */
module StorageAdapter {
  import opened Common
  import opened Text
  import opened Seqs
  import LocalDocument

  // ---------------------------------------------------------------------
  // Back ends
  // ---------------------------------------------------------------------

  datatype StorageType = IndexedDb | WebDav | Cloudflare

  /** The name a back end is asked for by. */
  function TypeName(t: StorageType): string {
    match t
    case IndexedDb => "indexeddb"
    case WebDav => "webdav"
    case Cloudflare => "cloudflare"
  }

  /** `StorageAdapter.init`: the back end of that name, or the unsupported-type error. */
  function InitAdapter(name: string): (r: Result<StorageType>)
    ensures r.Err? ==> r.error == "Unsupported storage type: " + name
  {
    if name == "indexeddb" then Ok(IndexedDb)
    else if name == "webdav" then Ok(WebDav)
    else if name == "cloudflare" then Ok(Cloudflare)
    else Err("Unsupported storage type: " + name)
  }

  /** Every back end is found by its name, and only the three names are accepted. */
  lemma InitAdapterSpec(name: string, t: StorageType)
    ensures InitAdapter(TypeName(t)) == Ok(t)
    ensures InitAdapter(name).Ok? <==> name in {"indexeddb", "webdav", "cloudflare"}
    ensures InitAdapter(name).Ok? ==> TypeName(InitAdapter(name).value) == name
  {
  }

  /**
   * `detectAvailableAdapters`: the browser database always, WebDAV when its
   * address is set, Cloudflare when the API address is set and its health
   * check answered OK (`healthy`, false when the request failed).
   */
  function Available(webdavUrl: string, apiUrl: string, healthy: bool): (r: seq<StorageType>)
    ensures |r| >= 1 && r[0] == IndexedDb
    ensures WebDav in r <==> webdavUrl != ""
    ensures Cloudflare in r <==> apiUrl != "" && healthy
  {
    [IndexedDb] + (if webdavUrl != "" then [WebDav] else []) + (if apiUrl != "" && healthy then [Cloudflare] else [])
  }

  /** The primary back end `StorageManager.init` picks among those available. */
  function Primary(available: seq<StorageType>, webdavUrl: string, apiUrl: string): StorageType {
    if Cloudflare in available && apiUrl != "" then Cloudflare
    else if WebDav in available && webdavUrl != "" then WebDav
    else IndexedDb
  }

  /**
   * Cloudflare when its API is set and healthy; otherwise WebDAV when its
   * address is set; otherwise the browser database.
   */
  lemma PrimaryChoice(webdavUrl: string, apiUrl: string, healthy: bool)
    ensures var p := Primary(Available(webdavUrl, apiUrl, healthy), webdavUrl, apiUrl);
      (p == Cloudflare <==> apiUrl != "" && healthy)
      && (p == WebDav <==> !(apiUrl != "" && healthy) && webdavUrl != "")
      && (p == IndexedDb <==> !(apiUrl != "" && healthy) && webdavUrl == "")
  {
  }

  /** The first successful outcome of the fallbacks, in order, or the all-failed error. */
  function FirstSuccess<T>(outcomes: seq<Result<T>>, operation: string): (r: Result<T>)
  {
    if outcomes == [] then Err("All adapters failed for operation: " + operation)
    else if outcomes[0].Ok? then outcomes[0]
    else FirstSuccess(outcomes[1..], operation)
  }

  /** `executeWithFallback`: the primary's outcome when it succeeds, else the first successful fallback's. */
  function WithFallback<T>(primary: Result<T>, fallbacks: seq<Result<T>>, operation: string): Result<T> {
    if primary.Ok? then primary else FirstSuccess(fallbacks, operation)
  }

  /**
   * The operation succeeds exactly when some back end does, with the value
   * of the first that does, the primary first; it fails with the
   * all-failed error exactly when every back end fails.
   */
  lemma {:induction false} FirstSuccessSpec<T>(outcomes: seq<Result<T>>, operation: string)
    ensures var r := FirstSuccess(outcomes, operation);
      (r.Ok? <==> exists k :: 0 <= k < |outcomes| && outcomes[k].Ok?)
      && (r.Ok? ==> exists k :: 0 <= k < |outcomes| && r == outcomes[k]
                     && forall j :: 0 <= j < k ==> outcomes[j].Err?)
      && (r.Err? ==> r.error == "All adapters failed for operation: " + operation)
    decreases |outcomes|
  {
    if outcomes != [] && outcomes[0].Err? {
      var rest := outcomes[1..];
      FirstSuccessSpec(rest, operation);
      assert forall k :: 0 <= k < |rest| ==> rest[k] == outcomes[k + 1];
      if FirstSuccess(rest, operation).Ok? {
        var k :| 0 <= k < |rest| && FirstSuccess(rest, operation) == rest[k]
                 && forall j :: 0 <= j < k ==> rest[j].Err?;
        assert forall j :: 0 <= j < k + 1 ==> outcomes[j].Err?;
      } else {
        assert forall k :: 0 <= k < |outcomes| ==> outcomes[k].Err?;
      }
    }
  }

  lemma WithFallbackSpec<T>(primary: Result<T>, fallbacks: seq<Result<T>>, operation: string)
    ensures var r := WithFallback(primary, fallbacks, operation);
      (primary.Ok? ==> r == primary)
      && (r.Ok? <==> primary.Ok? || exists k :: 0 <= k < |fallbacks| && fallbacks[k].Ok?)
      && (r.Err? ==> r.error == "All adapters failed for operation: " + operation)
  {
    FirstSuccessSpec(fallbacks, operation);
  }

  /** The outcome of each back end in turn. */
  function Outcomes<T>(adapters: seq<StorageType>, run: StorageType -> Result<T>): (r: seq<Result<T>>)
    ensures |r| == |adapters|
    ensures forall k :: 0 <= k < |r| ==> r[k] == run(adapters[k])
  {
    if adapters == [] then [] else [run(adapters[0])] + Outcomes(adapters[1..], run)
  }

  /** The manager: its primary back end, none before `init`, and its fallbacks. */
  class StorageManager {
    var primary: Option<StorageType>
    var fallbacks: seq<StorageType>

    constructor()
      ensures primary == None && fallbacks == []
    {
      primary := None;
      fallbacks := [];
    }

    /**
     * `init`: the primary back end is chosen, and a primary other than the
     * browser database gets the browser database as a further fallback.
     */
    method Init(webdavUrl: string, apiUrl: string, healthy: bool)
      modifies this
      ensures primary == Some(Primary(Available(webdavUrl, apiUrl, healthy), webdavUrl, apiUrl))
      ensures fallbacks == old(fallbacks) + (if primary.value == IndexedDb then [] else [IndexedDb])
    {
      var available := Available(webdavUrl, apiUrl, healthy);
      if Cloudflare in available && apiUrl != "" {
        primary := Some(Cloudflare);
        fallbacks := fallbacks + [IndexedDb];
      } else if WebDav in available && webdavUrl != "" {
        primary := Some(WebDav);
        fallbacks := fallbacks + [IndexedDb];
      } else {
        primary := Some(IndexedDb);
      }
    }

    /**
     * `executeWithFallback`: `run` gives each back end's outcome for the
     * operation.  Without a primary the call on it throws and the fallbacks
     * are tried.
     */
    method ExecuteWithFallback<T>(operation: string, run: StorageType -> Result<T>) returns (r: Result<T>)
      ensures r == WithFallback(if primary.Some? then run(primary.value) else Err("no primary adapter"),
                                Outcomes(fallbacks, run), operation)
    {
      if primary.Some? {
        r := run(primary.value);
        if r.Ok? {
          return;
        }
      }
      ghost var outcomes := Outcomes(fallbacks, run);
      var i := 0;
      while i < |fallbacks|
        invariant 0 <= i <= |fallbacks|
        invariant FirstSuccess(outcomes[i..], operation) == FirstSuccess(outcomes, operation)
      {
        assert outcomes[i..][1..] == outcomes[i + 1..];
        var attempt := run(fallbacks[i]);
        if attempt.Ok? {
          return attempt;
        }
        i := i + 1;
      }
      r := Err("All adapters failed for operation: " + operation);
    }
  }

  // ---------------------------------------------------------------------
  // Content search
  // ---------------------------------------------------------------------

  /** A document record as the back ends list it. */
  datatype SDoc = SDoc(id: string, userId: string, filename: string, title: string, category: string,
                       tags: seq<string>, uploadedAt: int)

  /** The term lies in the title, the lower-cased content, a tag or the file name. */
  predicate TermHits(d: SDoc, lower: string, t: string) {
    Contains(ToLower(d.title), t) || Contains(lower, t) || LocalDocument.TagHit(d.tags, t)
    || Contains(ToLower(d.filename), t)
  }

  /** One term's points: 0.5 for the title, 0.1 per content occurrence, 0.3 for a tag, 0.2 for the file name. */
  function TermScore(d: SDoc, lower: string, t: string): (p: real)
    ensures p >= 0.0
    ensures p > 0.0 <==> TermHits(d, lower, t)
  {
    MatchCountPositive(lower, t);
    (if Contains(ToLower(d.title), t) then 0.5 else 0.0)
    + 0.1 * MatchCount(lower, t) as real
    + (if LocalDocument.TagHit(d.tags, t) then 0.3 else 0.0)
    + (if Contains(ToLower(d.filename), t) then 0.2 else 0.0)
  }

  function RawRelevance(d: SDoc, lower: string, terms: seq<string>): (s: real)
    ensures s >= 0.0
    decreases |terms|
  {
    if terms == [] then 0.0
    else RawRelevance(d, lower, terms[..|terms| - 1]) + TermScore(d, lower, terms[|terms| - 1])
  }

  /** The sum is positive exactly when some term hits. */
  lemma {:induction false} RawRelevancePositive(d: SDoc, lower: string, terms: seq<string>)
    ensures RawRelevance(d, lower, terms) > 0.0 <==> exists k :: 0 <= k < |terms| && TermHits(d, lower, terms[k])
    decreases |terms|
  {
    if terms != [] {
      var init := terms[..|terms| - 1];
      RawRelevancePositive(d, lower, init);
      assert forall k :: 0 <= k < |init| ==> init[k] == terms[k];
      if exists k :: 0 <= k < |terms| && TermHits(d, lower, terms[k]) {
        var k :| 0 <= k < |terms| && TermHits(d, lower, terms[k]);
        if k < |init| {
          assert TermHits(d, lower, init[k]);
        }
      }
    }
  }

  /** `calculateRelevanceScore`: the terms' points summed and capped at 1. */
  function Relevance(query: string, d: SDoc, content: string): real {
    var s := RawRelevance(d, ToLower(content), LocalDocument.Terms(query));
    if s < 1.0 then s else 1.0
  }

  /**
   * The score lies in [0, 1], is 0 for a query without terms, and is
   * positive exactly when some term lies in the title, the content, a tag
   * or the file name.
   */
  lemma RelevanceSpec(query: string, d: SDoc, content: string)
    ensures 0.0 <= Relevance(query, d, content) <= 1.0
    ensures LocalDocument.Terms(query) == [] ==> Relevance(query, d, content) == 0.0
    ensures var terms := LocalDocument.Terms(query);
      Relevance(query, d, content) > 0.0 <==> exists k :: 0 <= k < |terms| && TermHits(d, ToLower(content), terms[k])
  {
    RawRelevancePositive(d, ToLower(content), LocalDocument.Terms(query));
  }

  /** The `forEach` over the terms that accumulates the score. */
  method CalculateRelevanceScore(query: string, d: SDoc, content: string) returns (score: real)
    ensures score == Relevance(query, d, content)
  {
    var terms := LocalDocument.Terms(query);
    var lower := ToLower(content);
    var sum := 0.0;
    var k := 0;
    while k < |terms|
      invariant 0 <= k <= |terms|
      invariant sum == RawRelevance(d, lower, terms[..k])
    {
      assert terms[..k + 1][..k] == terms[..k];
      sum := sum + TermScore(d, lower, terms[k]);
      k := k + 1;
    }
    assert terms[..k] == terms;
    score := if sum < 1.0 then sum else 1.0;
  }

  /** The position of the first term, in query order, that occurs at all. */
  function FirstOccurrence(lower: string, terms: seq<string>): Option<nat> {
    if terms == [] then None
    else if IndexOf(lower, terms[0]) != -1 then Some(IndexOf(lower, terms[0]) as nat)
    else FirstOccurrence(lower, terms[1..])
  }

  lemma {:induction false} FirstOccurrenceSpec(lower: string, terms: seq<string>)
    ensures FirstOccurrence(lower, terms).None? <==> forall k :: 0 <= k < |terms| ==> IndexOf(lower, terms[k]) == -1
    ensures FirstOccurrence(lower, terms).Some? ==>
      exists k :: 0 <= k < |terms| && IndexOf(lower, terms[k]) == FirstOccurrence(lower, terms).value
        && forall j :: 0 <= j < k ==> IndexOf(lower, terms[j]) == -1
    decreases |terms|
  {
    if terms != [] && IndexOf(lower, terms[0]) == -1 {
      var rest := terms[1..];
      FirstOccurrenceSpec(lower, rest);
      assert forall k :: 0 <= k < |rest| ==> rest[k] == terms[k + 1];
      if FirstOccurrence(lower, rest).Some? {
        var k :| 0 <= k < |rest| && IndexOf(lower, rest[k]) == FirstOccurrence(lower, rest).value
                 && forall j :: 0 <= j < k ==> IndexOf(lower, rest[j]) == -1;
        assert forall j :: 0 <= j < k + 1 ==> IndexOf(lower, terms[j]) == -1;
      } else {
        assert forall k :: 0 <= k < |terms| ==> IndexOf(lower, terms[k]) == -1;
      }
    } else if terms != [] {
      assert IndexOf(lower, terms[0]) == FirstOccurrence(lower, terms).value;
    }
  }

  /** Where the snippet starts: 50 characters before the first occurring term, or 0. */
  function StartAt(lower: string, terms: seq<string>): nat {
    match FirstOccurrence(lower, terms)
    case None => 0
    case Some(pos) => if pos >= 50 then pos - 50 else 0
  }

  function SnippetStart(content: string, query: string): nat {
    StartAt(ToLower(content), SplitOn(ToLower(query), {' '}))
  }

  /**
   * The window starts at 0 when no term occurs; otherwise at most 50
   * characters before the first occurrence of the first term, in query
   * order, that occurs, and never after it.
   */
  lemma StartAtSpec(lower: string, terms: seq<string>)
    ensures var b := StartAt(lower, terms);
      ((forall k :: 0 <= k < |terms| ==> IndexOf(lower, terms[k]) == -1) ==> b == 0)
      && forall k :: 0 <= k < |terms| && IndexOf(lower, terms[k]) != -1
           && (forall j :: 0 <= j < k ==> IndexOf(lower, terms[j]) == -1)
           ==> b <= IndexOf(lower, terms[k]) <= b + 50
  {
    FirstOccurrenceSpec(lower, terms);
    if forall k :: 0 <= k < |terms| ==> IndexOf(lower, terms[k]) == -1 {
      assert FirstOccurrence(lower, terms).None?;
    }
    forall k | 0 <= k < |terms| && IndexOf(lower, terms[k]) != -1 && (forall j :: 0 <= j < k ==> IndexOf(lower, terms[j]) == -1)
      ensures FirstOccurrence(lower, terms) == Some(IndexOf(lower, terms[k]) as nat)
    {
      var i :| 0 <= i < |terms| && IndexOf(lower, terms[i]) == FirstOccurrence(lower, terms).value
               && forall j :: 0 <= j < i ==> IndexOf(lower, terms[j]) == -1;
      assert i == k;
    }
  }

  /** `extractSnippet`: the window at the start, trimmed as the local document service trims it. */
  function AdapterSnippet(content: string, query: string, maxLength: nat): (r: string)
    ensures r != "" && |r| <= maxLength + 3
  {
    var w := LocalDocument.CutWindow(content, SnippetStart(content, query), maxLength);
    if w != "" then w else Prefix(content, maxLength) + "..."
  }

  /** The loop of `extractSnippet` that stops at the first occurring term. */
  method FindStart(lower: string, terms: seq<string>) returns (best: nat)
    ensures best == StartAt(lower, terms)
  {
    best := 0;
    var i := 0;
    while i < |terms|
      invariant 0 <= i <= |terms|
      invariant FirstOccurrence(lower, terms[i..]) == FirstOccurrence(lower, terms)
    {
      assert terms[i..][1..] == terms[i + 1..];
      var pos := IndexOf(lower, terms[i]);
      if pos != -1 {
        best := if pos >= 50 then pos - 50 else 0;
        return;
      }
      i := i + 1;
    }
  }

  method ExtractSnippet(content: string, query: string, maxLength: nat) returns (r: string)
    ensures r == AdapterSnippet(content, query, maxLength)
  {
    var best := FindStart(ToLower(content), SplitOn(ToLower(query), {' '}));
    var snippet := LocalDocument.CutSnippet(content, best, maxLength);
    r := if snippet != "" then snippet else Prefix(content, maxLength) + "...";
  }

  /** A search result: id, snippet, the record's metadata and the score. */
  datatype SHit = SHit(id: string, content: string, source: string, title: string, category: string,
                       tags: seq<string>, uploadedAt: int, score: real)

  function SHitScore(h: SHit): real { h.score }

  /**
   * The hit for a document whose text could be read and decrypted
   * (`read` gives the outcome by id) and scores above 0.
   */
  function HitFor(query: string, read: string -> Result<string>, d: SDoc): Option<SHit> {
    if read(d.id).Err? then None
    else
      var content := read(d.id).value;
      var score := Relevance(query, d, content);
      if score > 0.0 then
        Some(SHit(d.id, AdapterSnippet(content, query, 200), d.filename, d.title, d.category, d.tags,
                  d.uploadedAt, score))
      else None
  }

  lemma HitForSpec(query: string, read: string -> Result<string>, d: SDoc)
    ensures var h := HitFor(query, read, d);
      (h.Some? <==> read(d.id).Ok? && Relevance(query, d, read(d.id).value) > 0.0)
      && (h.Some? ==> h.value.id == d.id && 0.0 < h.value.score <= 1.0)
  {
    if read(d.id).Ok? {
      RelevanceSpec(query, d, read(d.id).value);
    }
  }

  function HitFn(query: string, read: string -> Result<string>): (f: SDoc -> Option<SHit>)
    ensures forall d :: f(d) == HitFor(query, read, d)
  {
    (d: SDoc) => HitFor(query, read, d)
  }

  /** The hits of the documents, in order. */
  function Hits(docs: seq<SDoc>, hit: SDoc -> Option<SHit>): (r: seq<SHit>)
    ensures |r| <= |docs|
    decreases |docs|
  {
    if docs == [] then []
    else
      var d := docs[|docs| - 1];
      Hits(docs[..|docs| - 1], hit) + (if hit(d).Some? then [hit(d).value] else [])
  }

  /** Exactly the documents' hits are collected. */
  lemma {:induction false} HitsMembers(docs: seq<SDoc>, hit: SDoc -> Option<SHit>)
    ensures forall h :: h in Hits(docs, hit) <==> exists k :: 0 <= k < |docs| && hit(docs[k]) == Some(h)
    decreases |docs|
  {
    if docs != [] {
      var init := docs[..|docs| - 1];
      HitsMembers(init, hit);
      assert forall k :: 0 <= k < |init| ==> init[k] == docs[k];
      forall h | exists k :: 0 <= k < |docs| && hit(docs[k]) == Some(h)
        ensures h in Hits(docs, hit)
      {
        var k :| 0 <= k < |docs| && hit(docs[k]) == Some(h);
        if k < |init| {
          assert hit(init[k]) == Some(h);
        }
      }
    }
  }

  /** `searchDocuments` over the documents the back end lists. */
  function SearchResult(query: string, docs: seq<SDoc>, read: string -> Result<string>): seq<SHit> {
    Take(SortDesc(Hits(docs, HitFn(query, read)), SHitScore), 10)
  }

  /**
   * At most ten results, best first, each for a listed document whose text
   * was read and which scores in (0, 1]; a document that was read and
   * scores is among them unless ten results are already there.
   */
  lemma SearchSpec(query: string, docs: seq<SDoc>, read: string -> Result<string>)
    ensures var r := SearchResult(query, docs, read);
      |r| <= 10 && SortedDesc(r, SHitScore)
      && (forall i :: 0 <= i < |r| ==>
            0.0 < r[i].score <= 1.0 && exists k :: 0 <= k < |docs| && docs[k].id == r[i].id && read(docs[k].id).Ok?)
      && forall k :: 0 <= k < |docs| && read(docs[k].id).Ok? && Relevance(query, docs[k], read(docs[k].id).value) > 0.0
           ==> |r| == 10 || HitFor(query, read, docs[k]).value in r
  {
    var hit := HitFn(query, read);
    var hits := Hits(docs, hit);
    var sorted := SortDesc(hits, SHitScore);
    var r := Take(sorted, 10);
    HitsMembers(docs, hit);
    SortDescMembers(hits, SHitScore);
    forall i | 0 <= i < |r|
      ensures 0.0 < r[i].score <= 1.0 && exists k :: 0 <= k < |docs| && docs[k].id == r[i].id && read(docs[k].id).Ok?
    {
      assert r[i] == sorted[i] && sorted[i] in hits;
      var k :| 0 <= k < |docs| && hit(docs[k]) == Some(r[i]);
      HitForSpec(query, read, docs[k]);
    }
    forall k | 0 <= k < |docs| && read(docs[k].id).Ok? && Relevance(query, docs[k], read(docs[k].id).value) > 0.0
      ensures |r| == 10 || HitFor(query, read, docs[k]).value in r
    {
      HitForSpec(query, read, docs[k]);
      assert hit(docs[k]).value in hits;
      if |r| != 10 {
        assert r == sorted;
      }
    }
  }

  /** The search loop: a document whose text cannot be read is skipped. */
  method SearchDocuments(query: string, docs: seq<SDoc>, read: string -> Result<string>) returns (r: seq<SHit>)
    ensures r == SearchResult(query, docs, read)
  {
    ghost var hit := HitFn(query, read);
    var results: seq<SHit> := [];
    var i := 0;
    while i < |docs|
      invariant 0 <= i <= |docs|
      invariant results == Hits(docs[..i], hit)
    {
      var d := docs[i];
      assert docs[..i + 1][..i] == docs[..i];
      var content := read(d.id);
      if content.Ok? {
        var score := CalculateRelevanceScore(query, d, content.value);
        if score > 0.0 {
          var snippet := ExtractSnippet(content.value, query, 200);
          results := results + [SHit(d.id, snippet, d.filename, d.title, d.category, d.tags, d.uploadedAt, score)];
        }
      }
      i := i + 1;
    }
    assert docs[..i] == docs;
    r := Take(SortDesc(results, SHitScore), 10);
  }
}
