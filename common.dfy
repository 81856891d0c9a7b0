/**
 * Values shared by the services: optional values and error returns, the
 * search filters every search path understands, and the cache keys the
 * services derive from their inputs.
 */
module Common {

  datatype Option<T> = None | Some(value: T)

  /** A JavaScript call that either returns a value or throws. */
  datatype Result<T> = Ok(value: T) | Err(error: string)

  /**
   * A browser-storage entry holding a JSON list: missing, holding a parsed
   * list, or holding text that does not parse.  The JSON encoding itself is
   * not modelled.
   */
  datatype Slot<T> = Missing | Parsed(items: seq<T>) | Corrupt

  /** `JSON.parse(getItem(key) || '[]')`, with a parse failure reading as []. */
  function ItemsOr<T>(slot: Slot<T>): (r: seq<T>)
    ensures slot.Parsed? ==> r == slot.items
    ensures !slot.Parsed? ==> r == []
  {
    if slot.Parsed? then slot.items else []
  }

  /** `a || b` for an optional text: a missing or empty text takes the default. */
  function OrElse(a: Option<string>, b: string): (r: string)
    ensures a.Some? && a.value != "" ==> r == a.value
    ensures a.None? || a.value == "" ==> r == b
  {
    if a.Some? && a.value != "" then a.value else b
  }

  /** The metadata that comes with an uploaded file; any field may be missing. */
  datatype UploadMeta = UploadMeta(title: Option<string>, category: Option<string>, tags: Option<seq<string>>)

  /** `tags || []`: a list, even an empty one, is kept. */
  function TagsOr(tags: Option<seq<string>>): (r: seq<string>)
    ensures tags.Some? ==> r == tags.value
    ensures tags.None? ==> r == []
  {
    if tags.Some? then tags.value else []
  }

  /**
   * The `filters` object of a search request.  Every key may be absent
   * (None); a present `timeRange` may still be an empty (falsy) string.
   */
  datatype Filters = Filters(
    timeRange: Option<string>,
    docTypes: Option<seq<string>>,
    tags: Option<seq<string>>,
    priority: Option<string>)

  const NoFilters := Filters(None, None, None, None)

  /** `{...base, ...over}`: every key present in `over` wins. */
  function OverrideFilters(base: Filters, over: Filters): (r: Filters)
    ensures over.timeRange.Some? ==> r.timeRange == over.timeRange
    ensures over.timeRange.None? ==> r.timeRange == base.timeRange
    ensures over.docTypes.Some? ==> r.docTypes == over.docTypes
    ensures over.docTypes.None? ==> r.docTypes == base.docTypes
    ensures over.tags.Some? ==> r.tags == over.tags
    ensures over.tags.None? ==> r.tags == base.tags
    ensures over.priority.Some? ==> r.priority == over.priority
    ensures over.priority.None? ==> r.priority == base.priority
  {
    Filters(
      if over.timeRange.Some? then over.timeRange else base.timeRange,
      if over.docTypes.Some? then over.docTypes else base.docTypes,
      if over.tags.Some? then over.tags else base.tags,
      if over.priority.Some? then over.priority else base.priority)
  }

  lemma OverrideWithNothing(base: Filters)
    ensures OverrideFilters(base, NoFilters) == base
  {
  }

  /** A value produced by `JSON.parse`. */
  datatype Json =
    | JNull
    | JBool(b: bool)
    | JNum(n: real)
    | JStr(s: string)
    | JArr(items: seq<Json>)
    | JObj(fields: map<string, Json>)

  /** JavaScript truthiness of a parsed value (JSON has no NaN). */
  predicate Truthy(j: Json) {
    match j
    case JNull => false
    case JBool(b) => b
    case JNum(n) => n != 0.0
    case JStr(s) => s != []
    case JArr(_) => true
    case JObj(_) => true
  }

  /** `obj[key]`; None is `undefined`. */
  function Field(m: map<string, Json>, key: string): (r: Option<Json>)
    ensures r.Some? <==> key in m
  {
    if key in m then Some(m[key]) else None
  }

  /** A present and truthy field. */
  predicate TruthyField(m: map<string, Json>, key: string) {
    key in m && Truthy(m[key])
  }

  // ---------------------------------------------------------------------
  // Cache keys as the services build them: btoa(text).substring(0, 32).
  // ---------------------------------------------------------------------

  /** btoa accepts only strings whose every code unit is at most 0xFF. */
  predicate IsLatin1(s: string) {
    forall i :: 0 <= i < |s| ==> s[i] as int < 256
  }

  /** The base64 alphabet: A-Z, a-z, 0-9, '+', '/'. */
  function Sextet(n: int): char
    requires 0 <= n < 64
  {
    if n < 26 then ('A' as int + n) as char
    else if n < 52 then ('a' as int + (n - 26)) as char
    else if n < 62 then ('0' as int + (n - 52)) as char
    else if n == 62 then '+'
    else '/'
  }

  /** Standard base64 with '=' padding of a Latin-1 string read as bytes. */
  function Base64(s: string): (r: string)
    requires IsLatin1(s)
    decreases |s|
  {
    if |s| == 0 then ""
    else if |s| == 1 then
      var a := s[0] as int;
      [Sextet(a / 4), Sextet((a % 4) * 16), '=', '=']
    else if |s| == 2 then
      var a, b := s[0] as int, s[1] as int;
      [Sextet(a / 4), Sextet((a % 4) * 16 + b / 16), Sextet((b % 16) * 4), '=']
    else Group(s[0] as int, s[1] as int, s[2] as int) + Base64(s[3..])
  }

  /** The four characters that encode three full input bytes. */
  function Group(a: int, b: int, c: int): (r: string)
    requires 0 <= a < 256 && 0 <= b < 256 && 0 <= c < 256
    ensures |r| == 4
  {
    [Sextet(a / 4), Sextet((a % 4) * 16 + b / 16), Sextet((b % 16) * 4 + c / 64), Sextet(c % 64)]
  }

  /** Four output characters for every started group of three input characters. */
  lemma {:induction false} Base64Length(s: string)
    requires IsLatin1(s)
    ensures |Base64(s)| == 4 * ((|s| + 2) / 3)
    decreases |s|
  {
    if |s| >= 3 {
      Base64Length(s[3..]);
      assert (|s| + 2) / 3 == (|s[3..]| + 2) / 3 + 1;
    }
  }

  /** `btoa(s)`: throws InvalidCharacterError outside Latin-1. */
  function Btoa(s: string): (r: Result<string>)
    ensures r.Ok? <==> IsLatin1(s)
  {
    if IsLatin1(s) then Ok(Base64(s)) else Err("InvalidCharacterError")
  }

  /**
   * The cache key every service computes as written:
   * `btoa(text).substring(0, 32)`; None when btoa throws.
   */
  function CacheKey(text: string): (r: Option<string>)
    ensures r.Some? <==> IsLatin1(text)
  {
    match Btoa(text)
    case Ok(b) => Some(if |b| <= 32 then b else b[..32])
    case Err(_) => None
  }

  lemma Base64Step(s: string)
    requires IsLatin1(s) && |s| >= 3
    ensures Base64(s) == Group(s[0] as int, s[1] as int, s[2] as int) + Base64(s[3..])
  {
  }

  lemma PrefixOfConcat(g: string, x: string, n: nat)
    requires |g| <= n <= |g| + |x|
    ensures (g + x)[..n] == g + x[..n - |g|]
  {
  }

  lemma {:induction false} Base64Blocks(s: string, k: nat)
    requires IsLatin1(s) && |s| >= 3 * k
    ensures IsLatin1(s[..3 * k]) && |Base64(s)| >= 4 * k
    ensures Base64(s)[..4 * k] == Base64(s[..3 * k])
  {
    Base64Length(s);
    if k > 0 {
      var t := s[..3 * k];
      var rest := s[3..];
      assert t[3..] == rest[..3 * (k - 1)];
      Base64Blocks(rest, k - 1);
      Base64Length(rest);
      Base64Step(s);
      Base64Step(t);
      var g := Group(s[0] as int, s[1] as int, s[2] as int);
      assert Base64(t) == g + Base64(rest[..3 * (k - 1)]);
      PrefixOfConcat(g, Base64(rest), 4 * k);
    }
  }

  /** The key depends on nothing after the first 24 characters. */
  lemma CacheKeyUsesOnly24(s: string)
    requires IsLatin1(s) && |s| >= 24
    ensures CacheKey(s) == CacheKey(s[..24])
  {
    Base64Blocks(s, 8);
    Base64Length(s[..24]);
    var b := Base64(s);
    var b24 := Base64(s[..24]);
    assert Btoa(s) == Ok(b);
    assert Btoa(s[..24]) == Ok(b24);
    assert |b24| == 32;
    assert b24[..32] == b24;
    assert CacheKey(s) == Some(b[..32]) by {
      if |b| == 32 { assert b == b[..32]; }
    }
  }

  /**
   * As written, two Latin-1 texts that agree on their first 24 characters
   * share a key: whatever follows (a user id, the options) is ignored.
   */
  lemma CacheKeyCollides(prefix: string, tail1: string, tail2: string)
    requires IsLatin1(prefix) && IsLatin1(tail1) && IsLatin1(tail2) && |prefix| >= 24
    ensures CacheKey(prefix + tail1) == CacheKey(prefix + tail2)
  {
    assert (prefix + tail1)[..24] == prefix[..24] == (prefix + tail2)[..24];
    CacheKeyUsesOnly24(prefix + tail1);
    CacheKeyUsesOnly24(prefix + tail2);
  }

  /** As written, any text holding a character above U+00FF has no key. */
  lemma CacheKeyRejectsCjk(text: string, i: nat)
    requires i < |text| && text[i] as int > 255
    ensures CacheKey(text) == None
  {
  }

  // ---------------------------------------------------------------------
  // The intended key: an injective encoding of the key's parts.
  // ---------------------------------------------------------------------

  function EscapeKeyPart(p: string): (r: string)
    ensures |r| >= |p|
  {
    if p == [] then []
    else (if p[0] == '\\' then "\\\\" else if p[0] == '|' then "\\|" else [p[0]]) + EscapeKeyPart(p[1..])
  }

  /** Every part escaped and terminated by an unescaped '|'. */
  function ExactKey(parts: seq<string>): string {
    if parts == [] then [] else EscapeKeyPart(parts[0]) + "|" + ExactKey(parts[1..])
  }

  function DecodeKey(s: string, cur: string): seq<string>
    decreases |s|
  {
    if s == [] then []
    else if s[0] == '\\' && |s| >= 2 then DecodeKey(s[2..], cur + [s[1]])
    else if s[0] == '|' then [cur] + DecodeKey(s[1..], [])
    else DecodeKey(s[1..], cur + [s[0]])
  }

  lemma {:induction false} DecodeEscaped(p: string, rest: string, cur: string)
    ensures DecodeKey(EscapeKeyPart(p) + rest, cur) == DecodeKey(rest, cur + p)
    decreases |p|
  {
    if p == [] {
      assert EscapeKeyPart(p) + rest == rest;
      assert cur + p == cur;
    } else {
      var tail := EscapeKeyPart(p[1..]) + rest;
      DecodeEscaped(p[1..], rest, cur + [p[0]]);
      assert cur + [p[0]] + p[1..] == cur + p;
      if p[0] == '\\' || p[0] == '|' {
        var s := ['\\', p[0]] + tail;
        assert EscapeKeyPart(p) + rest == s;
        assert s[0] == '\\' && s[1] == p[0] && s[2..] == tail;
      } else {
        var s := [p[0]] + tail;
        assert EscapeKeyPart(p) + rest == s;
        assert s[0] == p[0] && s[1..] == tail;
      }
    }
  }

  /** The intended key loses nothing: the parts are recovered from it. */
  lemma {:induction false} ExactKeyDecodes(parts: seq<string>)
    ensures DecodeKey(ExactKey(parts), []) == parts
  {
    if parts != [] {
      var rest := ExactKey(parts[1..]);
      assert ExactKey(parts) == EscapeKeyPart(parts[0]) + ("|" + rest);
      DecodeEscaped(parts[0], "|" + rest, []);
      assert [] + parts[0] == parts[0];
      assert ("|" + rest)[1..] == rest;
      ExactKeyDecodes(parts[1..]);
    }
  }

  lemma ExactKeyInjective(p: seq<string>, q: seq<string>)
    requires ExactKey(p) == ExactKey(q)
    ensures p == q
  {
    ExactKeyDecodes(p);
    ExactKeyDecodes(q);
  }
}
