/**
 * The language model service: picks a provider from the configured keys,
 * answers prompts through it with a five-minute response cache and a
 * per-minute rate limit, and falls back to a rule-based local model when
 * the provider fails.  The providers' HTTP calls are an outcome passed in;
 * the clock and the environment's keys are parameters.
 */
module Llm {
  import opened Common
  import opened Text
  import opened Seqs

  datatype Provider = Qwen | OpenAi | Local

  /** The provider's name as it appears in keys and messages. */
  function ProviderName(p: Provider): string {
    match p
    case Qwen => "qwen"
    case OpenAi => "openai"
    case Local => "local"
  }

  /**
   * `detectBestProvider`: Qwen when its key is set, else OpenAI when its key
   * is set, else the local model; an empty key counts as unset.
   */
  function DetectBestProvider(qwenKey: Option<string>, openAiKey: Option<string>): (p: Provider)
    ensures p == Qwen <==> qwenKey.Some? && qwenKey.value != ""
    ensures p == OpenAi <==> (qwenKey.None? || qwenKey.value == "") && openAiKey.Some? && openAiKey.value != ""
  {
    if qwenKey.Some? && qwenKey.value != "" then Qwen
    else if openAiKey.Some? && openAiKey.value != "" then OpenAi
    else Local
  }

  /** A model's limits: the largest token count and the price per thousand tokens in USD. */
  datatype ModelInfo = ModelInfo(maxTokens: nat, cost: real)

  /** The provider's model table. */
  function Models(p: Provider): map<string, ModelInfo> {
    match p
    case Qwen => map["qwen-turbo" := ModelInfo(8192, 0.008), "qwen-plus" := ModelInfo(32768, 0.02),
                     "qwen-max" := ModelInfo(8192, 0.12)]
    case OpenAi => map["gpt-3.5-turbo" := ModelInfo(4096, 0.002), "gpt-4-turbo" := ModelInfo(128000, 0.03)]
    case Local => map["fallback" := ModelInfo(2048, 0.0)]
  }

  /** `getDefaultModel`: each provider's default, which is always one of its models. */
  function DefaultModel(p: Provider): (m: string)
    ensures m in Models(p)
    ensures p == Qwen ==> m == "qwen-turbo"
    ensures p == OpenAi ==> m == "gpt-3.5-turbo"
    ensures p == Local ==> m == "fallback"
  {
    match p
    case Qwen => "qwen-turbo"
    case OpenAi => "gpt-3.5-turbo"
    case Local => "fallback"
  }

  datatype CostEstimate = CostEstimate(estimatedTokens: nat, estimatedCost: real, currency: string)

  /**
   * `estimateCost`: a quarter token per character, rounded up, priced with
   * the named model, or with the provider's default for an unknown model.
   */
  function EstimateCost(p: Provider, prompt: string, model: string): (e: CostEstimate)
    ensures 4 * e.estimatedTokens >= |prompt| > 4 * e.estimatedTokens - 4
    ensures var info := if model in Models(p) then Models(p)[model] else Models(p)[DefaultModel(p)];
      e.estimatedCost == e.estimatedTokens as real * info.cost / 1000.0
    ensures e.currency == "USD"
  {
    var info := if model in Models(p) then Models(p)[model] else Models(p)[DefaultModel(p)];
    var tokens := (|prompt| + 3) / 4;
    CostEstimate(tokens, tokens as real * info.cost / 1000.0, "USD")
  }

  /** The local model costs nothing, whatever the prompt and the model named. */
  lemma LocalIsFree(prompt: string, model: string)
    ensures EstimateCost(Local, prompt, model).estimatedCost == 0.0
  {
  }

  // ---------------------------------------------------------------------
  // The rate limiter
  // ---------------------------------------------------------------------

  const WindowMs: nat := 60000
  const MaxRequests: nat := 20

  /** The key `${provider}_${window}` of one provider's one-minute window. */
  datatype RateKey = RateKey(provider: Provider, window: nat)

  function KeyText(k: RateKey): string {
    ProviderName(k.provider) + "_" + NatToString(k.window)
  }

  function CountOf(m: map<RateKey, nat>, k: RateKey): nat {
    if k in m then m[k] else 0
  }

  /** The intended cleanup: forget the windows more than five before the current one. */
  function Prune(m: map<RateKey, nat>, window: nat): (r: map<RateKey, nat>)
    ensures forall k :: k in r <==> k in m && k.window + 5 >= window
    ensures forall k :: k in r ==> r[k] == m[k]
  {
    map k | k in m && k.window + 5 >= window :: m[k]
  }

  /**
   * `checkRateLimit` at the key of the current window: refused at 20
   * requests, otherwise counted and the old windows cleaned up.
   */
  function Admit(m: map<RateKey, nat>, key: RateKey): (r: (bool, map<RateKey, nat>))
    ensures r.0 <==> CountOf(m, key) < MaxRequests
    ensures !r.0 ==> r.1 == m
    ensures r.0 ==> key in r.1 && r.1[key] == CountOf(m, key) + 1
    ensures r.0 ==> forall k :: k in r.1 ==> k.window + 5 >= key.window
  {
    if CountOf(m, key) >= MaxRequests then (false, m)
    else (true, Prune(m[key := CountOf(m, key) + 1], key.window))
  }

  /** No window ever holds more than 20 counted requests. */
  predicate WithinLimit(m: map<RateKey, nat>) {
    forall k :: k in m ==> m[k] <= MaxRequests
  }

  lemma AdmitKeepsLimit(m: map<RateKey, nat>, key: RateKey)
    requires WithinLimit(m)
    ensures WithinLimit(Admit(m, key).1)
  {
  }

  /** The number of requests admitted when `n` arrive on the same key. */
  function AdmittedOf(m: map<RateKey, nat>, key: RateKey, n: nat): nat
    decreases n
  {
    if n == 0 then 0
    else var (ok, m') := Admit(m, key);
      (if ok then 1 else 0) + AdmittedOf(m', key, n - 1)
  }

  /**
   * However many requests arrive within one window, at most 20 are admitted
   * in it (fewer by those already counted); refused requests are not counted.
   */
  lemma {:induction false} AtMostTwentyPerWindow(m: map<RateKey, nat>, key: RateKey, n: nat)
    requires CountOf(m, key) <= MaxRequests
    ensures AdmittedOf(m, key, n) <= MaxRequests - CountOf(m, key)
    decreases n
  {
    if n > 0 {
      var (ok, m') := Admit(m, key);
      AtMostTwentyPerWindow(m', key, n - 1);
    }
  }

  /** With the clock moving forward, the cleaned-up limiter only holds the last six windows. */
  lemma PruneKeepsRecent(m: map<RateKey, nat>, key: RateKey)
    requires forall k :: k in m ==> k.window <= key.window
    requires Admit(m, key).0
    ensures forall k :: k in Admit(m, key).1 ==> key.window - 5 <= k.window <= key.window
  {
  }

  /** `Number(s)` for the texts the limiter compares: a decimal numeral, or NaN (None). */
  function JsNumber(s: string): Option<int> {
    if s != [] && AllChars(s, IsDigit) then Some(DigitsValue(s)) else None
  }

  function DigitsValue(s: string): nat
    requires AllChars(s, IsDigit)
    decreases |s|
  {
    if s == [] then 0 else DigitsValue(s[..|s| - 1]) * 10 + (s[|s| - 1] as int - '0' as int)
  }

  /** `k < key - 5` as JavaScript evaluates it: `key - 5` is a number, and any comparison with NaN is false. */
  predicate LessAsWritten(k: string, key: string) {
    var lhs, rhs := JsNumber(k), JsNumber(key);
    lhs.Some? && rhs.Some? && lhs.value < rhs.value - 5
  }

  /** The cleanup loop as written, over the limiter's text keys. */
  function CleanupAsWritten(m: map<string, nat>, key: string): map<string, nat> {
    map k | k in m && !LessAsWritten(k, key) :: m[k]
  }

  /**
   * As written, the current key starts with the provider's name, so
   * `key - 5` is NaN and the cleanup never deletes anything: one entry per
   * minute of use accumulates for the life of the page.
   */
  lemma CleanupAsWrittenKeepsAll(m: map<string, nat>, key: RateKey)
    ensures CleanupAsWritten(m, KeyText(key)) == m
  {
    var t := KeyText(key);
    assert !IsDigit(t[0]);
    assert JsNumber(t).None?;
  }

  // ---------------------------------------------------------------------
  // The local model
  // ---------------------------------------------------------------------

  /** `[一-龥a-zA-Z]`. */
  predicate EntityChar(c: char) {
    IsCjk(c) || IsAsciiLetter(c)
  }

  const StopWords: seq<string> := ["查询", "搜索", "类型", "判断", "用户", "请", "的", "是", "在", "有"]

  /** A run the entity extractor keeps. */
  predicate IsEntity(w: string) {
    |w| >= 2 && w !in StopWords
  }

  /**
   * `extractEntities`: the runs of two or more letters or Chinese
   * characters, stop words removed, the first five.
   */
  function ExtractEntities(prompt: string): (r: seq<string>)
    ensures |r| <= 5
    ensures forall k :: 0 <= k < |r| ==> IsEntity(r[k]) && AllChars(r[k], EntityChar)
    ensures forall k :: 0 <= k < |r| ==> r[k] in Runs(prompt, EntityChar)
  {
    Take(Filter(Runs(prompt, EntityChar), IsEntity), 5)
  }

  /** The JSON text of `{type: "semantic", entities, filters: {}}`; entities hold no character JSON escapes. */
  function EntitiesJson(entities: seq<string>): string {
    "{\"type\":\"semantic\",\"entities\":[" + Join(Quoted(entities), ",") + "],\"filters\":{}}"
  }

  function Quoted(ss: seq<string>): (r: seq<string>)
    ensures |r| == |ss|
    ensures forall k :: 0 <= k < |r| ==> r[k] == "\"" + ss[k] + "\""
  {
    if ss == [] then [] else ["\"" + ss[0] + "\""] + Quoted(ss[1..])
  }

  const ContextMarker := "知识库上下文："
  const TextMarker := "文本："
  const NoAnswer := "根据现有信息，暂时无法提供准确答案。"
  const NoSnippet := "无法提取相关片段。"
  const Apology := "抱歉，当前无法处理该请求。请检查网络连接或API配置。"

  /** What follows the first occurrence of `marker`, if any. */
  function After(s: string, marker: string): (r: Option<string>)
    ensures r.None? <==> !Contains(s, marker)
    ensures r.Some? ==> exists i :: OccursAt(s, marker, i) && r.value == s[i + |marker|..]
  {
    var i := IndexOf(s, marker);
    if i < 0 then None
    else
      assert OccursAt(s, marker, i);
      Some(s[i + |marker|..])
  }

  function LongerThanTen(s: string): bool { TrimmedLongerThan(s, 10) }

  /**
   * `generateSimpleAnswer`: after the context marker and any white space,
   * the first two sentences longer than ten characters once trimmed, joined
   * and closed with `。`.
   */
  function GenerateSimpleAnswer(prompt: string): (r: string)
    ensures After(prompt, ContextMarker).None? ==> r == NoAnswer
    ensures After(prompt, ContextMarker).Some? ==>
      var sentences := Filter(SplitOn(TrimStart(After(prompt, ContextMarker).value), SentenceEnds), LongerThanTen);
      r == Join(Take(sentences, 2), "。") + "。"
    ensures EndsWith(r, "。")
  {
    match After(prompt, ContextMarker)
    case None => NoAnswer
    case Some(rest) =>
      var sentences := Filter(SplitOn(TrimStart(rest), SentenceEnds), LongerThanTen);
      Join(Take(sentences, 2), "。") + "。"
  }

  /** `extractSimpleSnippet`: the text after the marker, cut to 200 characters with `...` exactly when it was longer. */
  function ExtractSimpleSnippet(prompt: string): (r: string)
    ensures After(prompt, TextMarker).None? ==> r == NoSnippet
    ensures After(prompt, TextMarker).Some? ==>
      var text := After(prompt, TextMarker).value;
      (|text| <= 200 ==> r == text) && (|text| > 200 ==> r == text[..200] + "...")
  {
    match After(prompt, TextMarker)
    case None => NoSnippet
    case Some(text) => Prefix(text, 200) + (if |text| > 200 then "..." else "")
  }

  /** The rules of the local model, in the order they are tried: `/a.*b.*c/i` patterns. */
  const Rules: seq<seq<string>> := [["查询", "类型", "判断"], ["基于", "知识库", "回答"], ["提取", "片段"]]

  function RuleResponse(j: nat, prompt: string): string
    requires j < |Rules|
  {
    if j == 0 then EntitiesJson(ExtractEntities(prompt))
    else if j == 1 then GenerateSimpleAnswer(prompt)
    else ExtractSimpleSnippet(prompt)
  }

  /** The first rule from `j` on whose pattern the prompt matches. */
  function FirstRule(prompt: string, j: nat): (r: Option<nat>)
    requires j <= |Rules|
    ensures r.Some? ==> (j <= r.value < |Rules| && PatternTest(prompt, Rules[r.value])
                         && forall i :: j <= i < r.value ==> !PatternTest(prompt, Rules[i]))
    ensures r.None? ==> forall i :: j <= i < |Rules| ==> !PatternTest(prompt, Rules[i])
    decreases |Rules| - j
  {
    if j == |Rules| then None
    else if PatternTest(prompt, Rules[j]) then Some(j)
    else FirstRule(prompt, j + 1)
  }

  /** `callLocalModel`: the response of the first matching rule; the apology when none matches. */
  function CallLocalModel(prompt: string): (r: string)
    ensures (forall i :: 0 <= i < |Rules| ==> !PatternTest(prompt, Rules[i])) ==> r == Apology
    ensures forall j :: (0 <= j < |Rules| && PatternTest(prompt, Rules[j])
                         && (forall i :: 0 <= i < j ==> !PatternTest(prompt, Rules[i]))) ==> r == RuleResponse(j, prompt)
  {
    match FirstRule(prompt, 0)
    case None => Apology
    case Some(j) => RuleResponse(j, prompt)
  }

  // ---------------------------------------------------------------------
  // The service
  // ---------------------------------------------------------------------

  datatype CachedReply = CachedReply(response: string, timestamp: int)

  const CacheTtlMs := 300000

  /**
   * The caller's options; a missing model means the provider's default.
   * The temperature is carried as its decimal text, the only form the
   * model uses it in.
   */
  datatype ChatOptions = ChatOptions(model: Option<string>, temperature: string, maxTokens: nat, useCache: bool)

  /** The key a prompt is cached under: the parts kept apart. */
  function ChatKey(prompt: string, model: string, temperature: string): string {
    ExactKey([prompt, model, temperature])
  }

  /** The key separates every (prompt, model, temperature). */
  lemma ChatKeySeparates(p1: string, m1: string, t1: string, p2: string, m2: string, t2: string)
    requires ChatKey(p1, m1, t1) == ChatKey(p2, m2, t2)
    ensures p1 == p2 && m1 == m2 && t1 == t2
  {
    ExactKeyInjective([p1, m1, t1], [p2, m2, t2]);
  }

  /**
   * As written the key is `btoa(prompt + model + temperature)` cut to 32
   * characters, computed before the try block: a prompt with a Chinese
   * character makes btoa throw, so the call fails before any provider or
   * the local model is asked.
   */
  lemma ChatKeyAsWrittenFails(prompt: string, i: nat, model: string, temperature: string)
    requires i < |prompt| && prompt[i] as int > 255
    ensures CacheKey(prompt + model + temperature) == None
  {
    CacheKeyRejectsCjk(prompt + model + temperature, i);
  }

  /** The reply of the call that was admitted: the provider's answer, or the local model's when it failed. */
  function ProviderReply(p: Provider, remote: Result<string>, prompt: string): string {
    if p == Local then CallLocalModel(prompt)
    else if remote.Ok? then remote.value
    else CallLocalModel(prompt)
  }

  const RateLimited := "请求过于频繁，请稍后再试"

  class LlmService {
    const currentProvider: Provider
    var requestCache: map<string, CachedReply>
    var rateLimiter: map<RateKey, nat>

    ghost predicate Valid()
      reads this
    {
      WithinLimit(rateLimiter)
    }

    constructor(qwenKey: Option<string>, openAiKey: Option<string>)
      ensures Valid()
      ensures currentProvider == DetectBestProvider(qwenKey, openAiKey)
      ensures requestCache == map[] && rateLimiter == map[]
    {
      currentProvider := DetectBestProvider(qwenKey, openAiKey);
      requestCache := map[];
      rateLimiter := map[];
    }

    /** `getDefaultModel`. */
    function GetDefaultModel(): (m: string)
      reads this
      ensures m in Models(currentProvider)
    {
      DefaultModel(currentProvider)
    }

    /** `checkRateLimit`: counts the request in the current window unless 20 are already there. */
    method CheckRateLimit(now: nat) returns (ok: bool)
      requires Valid()
      modifies this
      ensures Valid()
      ensures (ok, rateLimiter) == Admit(old(rateLimiter), RateKey(currentProvider, now / WindowMs))
      ensures requestCache == old(requestCache)
    {
      var key := RateKey(currentProvider, now / WindowMs);
      var count := if key in rateLimiter then rateLimiter[key] else 0;
      if count >= MaxRequests {
        return false;
      }
      rateLimiter := rateLimiter[key := count + 1];
      ghost var counted := rateLimiter;
      var pending := rateLimiter.Keys;
      while pending != {}
        invariant pending <= counted.Keys
        invariant forall k :: k in rateLimiter <==> k in counted && (k in pending || k.window + 5 >= key.window)
        invariant forall k :: k in rateLimiter ==> rateLimiter[k] == counted[k]
        invariant requestCache == old(requestCache)
        decreases |pending|
      {
        var k :| k in pending;
        if k.window + 5 < key.window {
          rateLimiter := rateLimiter - {k};
        }
        pending := pending - {k};
      }
      assert rateLimiter == Prune(counted, key.window);
      ok := true;
    }

    /**
     * `chatCompletion`: a fresh cached reply is returned as it is; otherwise
     * the request must pass the rate limit, then the provider answers
     * (`remote` is the outcome of its API call) and the reply is cached.  A
     * failing remote provider is replaced by the local model, whose reply is
     * not cached.  The only error is the rate limit.
     */
    method ChatCompletion(prompt: string, options: ChatOptions, now: nat, remote: Result<string>)
      returns (r: Result<string>)
      requires Valid()
      modifies this
      ensures Valid()
      ensures var model := if options.model.Some? then options.model.value else DefaultModel(currentProvider);
        var key := ChatKey(prompt, model, options.temperature);
        if options.useCache && key in old(requestCache) && now - old(requestCache)[key].timestamp < CacheTtlMs then
          r == Ok(old(requestCache)[key].response)
          && requestCache == old(requestCache) && rateLimiter == old(rateLimiter)
        else
          var (admitted, limiter) := Admit(old(rateLimiter), RateKey(currentProvider, now / WindowMs));
          rateLimiter == limiter
          && (!admitted ==> r == Err(RateLimited) && requestCache == old(requestCache))
          && (admitted ==> (r == Ok(ProviderReply(currentProvider, remote, prompt))
                            && requestCache == if options.useCache && (currentProvider == Local || remote.Ok?)
                                               then old(requestCache)[key := CachedReply(r.value, now)]
                                               else old(requestCache)))
    {
      var model := if options.model.Some? then options.model.value else DefaultModel(currentProvider);
      var key := ChatKey(prompt, model, options.temperature);
      if options.useCache && key in requestCache {
        var cached := requestCache[key];
        if now - cached.timestamp < CacheTtlMs {
          return Ok(cached.response);
        }
      }
      var ok := CheckRateLimit(now);
      if !ok {
        return Err(RateLimited);
      }
      var response: Result<string>;
      if currentProvider == Local {
        response := Ok(CallLocalModel(prompt));
      } else {
        response := remote;
      }
      if response.Ok? {
        if options.useCache {
          requestCache := requestCache[key := CachedReply(response.value, now)];
        }
        return response;
      }
      r := Ok(CallLocalModel(prompt));
    }

    /** `getModelInfo`: the provider, and its default which is one of its models. */
    function GetModelInfo(): (r: (Provider, set<string>, string))
      reads this
      ensures r.0 == currentProvider && r.1 == Models(currentProvider).Keys && r.2 in r.1
    {
      (currentProvider, Models(currentProvider).Keys, DefaultModel(currentProvider))
    }
  }
}
