/**
 * The JavaScript string operations the services rely on, stated on
 * `seq<char>`: character classes, `toLowerCase` (ASCII letters), `includes`,
 * `indexOf`, `startsWith`, `substring`, `split` on a character class or on
 * runs of one, `join`, `trim`, `replace`, the number of matches of a global
 * regular expression built from a literal term, and `/a.*b.*c/.test`.
 */
module Text {

  // ---------------------------------------------------------------------
  // Character classes
  // ---------------------------------------------------------------------

  /** JavaScript `\s` (WhiteSpace and LineTerminator); also what `trim` removes. */
  predicate IsWhitespace(c: char) {
    c == '\t' || c == '\n' || c == '\U{000B}' || c == '\U{000C}' || c == '\r' || c == ' '
    || c == '\U{00A0}' || c == '\U{1680}' || ('\U{2000}' <= c <= '\U{200A}')
    || c == '\U{2028}' || c == '\U{2029}' || c == '\U{202F}' || c == '\U{205F}'
    || c == '\U{3000}' || c == '\U{FEFF}'
  }

  /** The characters `.` in a regular expression does not match. */
  predicate IsLineTerminator(c: char) {
    c == '\n' || c == '\r' || c == '\U{2028}' || c == '\U{2029}'
  }

  predicate IsAsciiUpper(c: char) { 'A' <= c <= 'Z' }
  predicate IsAsciiLower(c: char) { 'a' <= c <= 'z' }
  predicate IsAsciiLetter(c: char) { IsAsciiUpper(c) || IsAsciiLower(c) }
  predicate IsDigit(c: char) { '0' <= c <= '9' }

  /** The range `[一-龥]` the services use for Chinese characters. */
  predicate IsCjk(c: char) { '\U{4E00}' <= c <= '\U{9FA5}' }

  predicate AllChars(s: string, p: char -> bool) {
    forall i :: 0 <= i < |s| ==> p(s[i])
  }

  predicate NoneIn(s: string, cs: set<char>) {
    forall i :: 0 <= i < |s| ==> s[i] !in cs
  }

  // ---------------------------------------------------------------------
  // Case
  // ---------------------------------------------------------------------

  function LowerChar(c: char): (r: char)
    ensures !IsAsciiUpper(r)
    ensures IsAsciiUpper(c) || r == c
  {
    if IsAsciiUpper(c) then (c as int + 32) as char else c
  }

  /** `toLowerCase`, restricted to the ASCII letters. */
  function ToLower(s: string): (r: string)
    ensures |r| == |s|
    ensures forall i :: 0 <= i < |s| ==> r[i] == LowerChar(s[i])
  {
    seq(|s|, i requires 0 <= i < |s| => LowerChar(s[i]))
  }

  lemma ToLowerIdempotent(s: string)
    ensures ToLower(ToLower(s)) == ToLower(s)
  {
  }

  /** A string without upper-case letters is its own lower-casing. */
  lemma ToLowerNoUpper(s: string)
    requires forall i :: 0 <= i < |s| ==> !IsAsciiUpper(s[i])
    ensures ToLower(s) == s
  {
  }

  lemma ToLowerConcat(a: string, b: string)
    ensures ToLower(a + b) == ToLower(a) + ToLower(b)
  {
  }

  predicate IsLowerCase(s: string) {
    forall i :: 0 <= i < |s| ==> !IsAsciiUpper(s[i])
  }

  // ---------------------------------------------------------------------
  // Searching
  // ---------------------------------------------------------------------

  predicate StartsWith(s: string, p: string) {
    |p| <= |s| && s[..|p|] == p
  }

  predicate EndsWith(s: string, p: string) {
    |p| <= |s| && s[|s| - |p|..] == p
  }

  predicate OccursAt(s: string, t: string, i: int) {
    0 <= i && i + |t| <= |s| && s[i..i + |t|] == t
  }

  /** `s.includes(t)`. */
  predicate Contains(s: string, t: string) {
    exists i :: 0 <= i <= |s| - |t| && OccursAt(s, t, i)
  }

  /** `alternatives.some(a => s.includes(a))`, the `test` of an alternation of literals. */
  predicate ContainsAny(s: string, alternatives: seq<string>) {
    exists k :: 0 <= k < |alternatives| && Contains(s, alternatives[k])
  }

  lemma ContainsAt(s: string, t: string, i: int)
    requires OccursAt(s, t, i)
    ensures Contains(s, t)
  {
  }

  /** `s.indexOf(t, from)` for `from <= |s|`: the first occurrence at or after `from`, or -1. */
  function IndexOfFrom(s: string, t: string, from: nat): (r: int)
    requires from <= |s|
    ensures r == -1 || (from <= r && OccursAt(s, t, r))
    decreases |s| - from
  {
    if from + |t| > |s| then -1
    else if s[from..from + |t|] == t then from
    else IndexOfFrom(s, t, from + 1)
  }

  /** What `indexOf` skips holds no occurrence: the result is the first one, and -1 means none. */
  lemma {:induction false} IndexOfFromFirst(s: string, t: string, from: nat)
    requires from <= |s|
    ensures IndexOfFrom(s, t, from) == -1 ==> forall i :: from <= i ==> !OccursAt(s, t, i)
    ensures IndexOfFrom(s, t, from) >= 0 ==> forall i :: from <= i < IndexOfFrom(s, t, from) ==> !OccursAt(s, t, i)
    decreases |s| - from
  {
    if from + |t| <= |s| && s[from..from + |t|] != t {
      IndexOfFromFirst(s, t, from + 1);
    }
  }

  /** `s.indexOf(t)`. */
  function IndexOf(s: string, t: string): (r: int)
    ensures r >= 0 <==> Contains(s, t)
    ensures r >= 0 ==> OccursAt(s, t, r) && forall i :: 0 <= i < r ==> !OccursAt(s, t, i)
    ensures r < 0 ==> r == -1
  {
    IndexOfFromFirst(s, t, 0);
    IndexOfFrom(s, t, 0)
  }

  /** Non-overlapping occurrences of a non-empty `t` at or after `from`, left to right. */
  function CountFrom(s: string, t: string, from: nat): nat
    requires t != [] && from <= |s|
    decreases |s| - from
  {
    var i := IndexOfFrom(s, t, from);
    if i < 0 then 0 else 1 + CountFrom(s, t, i + |t|)
  }

  /**
   * `(s.match(new RegExp(t, 'g')) || []).length` for a term without
   * metacharacters: non-overlapping occurrences, and |s| + 1 empty
   * matches for the empty term.
   */
  function MatchCount(s: string, t: string): nat {
    if t == [] then |s| + 1 else CountFrom(s, t, 0)
  }

  lemma MatchCountPositive(s: string, t: string)
    ensures MatchCount(s, t) > 0 <==> Contains(s, t)
  {
    if t == [] {
      assert OccursAt(s, t, 0);
    } else {
      IndexOfFromFirst(s, t, 0);
    }
  }

  /** Lower-casing keeps an occurrence an occurrence. */
  lemma ContainsToLower(s: string, t: string)
    requires Contains(s, t)
    ensures Contains(ToLower(s), ToLower(t))
  {
    var i :| 0 <= i <= |s| - |t| && OccursAt(s, t, i);
    assert ToLower(s)[i..i + |t|] == ToLower(t);
    assert OccursAt(ToLower(s), ToLower(t), i);
  }

  /** A piece of a lower-cased text is already lower-cased. */
  lemma SliceOfLower(s: string, i: nat, j: nat)
    requires i <= j <= |s|
    ensures ToLower(ToLower(s)[i..j]) == ToLower(s)[i..j]
  {
  }

  /** Number of characters of `s` that belong to `cs`: `(s.match(/[cs]/g) || []).length`. */
  function CountIn(s: string, cs: set<char>): (n: nat)
    ensures n <= |s|
    ensures n == 0 <==> NoneIn(s, cs)
  {
    if s == [] then 0 else (if s[0] in cs then 1 else 0) + CountIn(s[1..], cs)
  }

  // ---------------------------------------------------------------------
  // Global regular expressions made of alternatives
  // ---------------------------------------------------------------------

  /**
   * One alternative of a pattern such as `/a|b|(\d+)c/g`: a literal, or a
   * run of ASCII digits followed by a literal that does not start with a digit.
   */
  datatype Alt = Lit(t: string) | DigitsThen(t: string)

  /** End of the run of ASCII digits that starts at `i`. */
  function DigitEnd(s: string, i: nat): (j: nat)
    requires i <= |s|
    ensures i <= j <= |s|
    ensures forall k :: i <= k < j ==> IsDigit(s[k])
    ensures j < |s| ==> !IsDigit(s[j])
    decreases |s| - i
  {
    if i < |s| && IsDigit(s[i]) then DigitEnd(s, i + 1) else i
  }

  /** Length of the match of `a` at position `i`; 0 when `a` does not match there. */
  function AltLength(s: string, i: nat, a: Alt): (n: nat)
    requires i <= |s|
    ensures i + n <= |s|
    ensures n > 0 && a.Lit? ==> s[i..i + n] == a.t
  {
    match a
    case Lit(t) => if t != [] && OccursAt(s, t, i) then |t| else 0
    case DigitsThen(t) =>
      var j := DigitEnd(s, i);
      if j > i && OccursAt(s, t, j) then j - i + |t| else 0
  }

  /** The literal alternatives of a pattern. */
  function Literals(alts: seq<Alt>): set<string> {
    set k | 0 <= k < |alts| && alts[k].Lit? :: alts[k].t
  }

  predicate AllLiteral(alts: seq<Alt>) {
    forall k :: 0 <= k < |alts| ==> alts[k].Lit?
  }

  /** The length matched at `i` by the first alternative, in pattern order, that matches there. */
  function FirstAltLength(s: string, i: nat, alts: seq<Alt>): (n: nat)
    requires i <= |s|
    ensures i + n <= |s|
    ensures n > 0 && AllLiteral(alts) ==> s[i..i + n] in Literals(alts)
    decreases |alts|
  {
    if alts == [] then 0
    else
      var n := AltLength(s, i, alts[0]);
      if n > 0 then n
      else
        var m := FirstAltLength(s, i, alts[1..]);
        assert Literals(alts[1..]) <= Literals(alts) by {
          forall x | x in Literals(alts[1..]) ensures x in Literals(alts) {
            var k :| 0 <= k < |alts[1..]| && alts[1..][k].Lit? && alts[1..][k].t == x;
            assert alts[k + 1] == alts[1..][k];
          }
        }
        m
  }

  /** Leftmost matches from `i` on, each search resuming where the last match ended. */
  function MatchAllFrom(s: string, i: nat, alts: seq<Alt>): (r: seq<string>)
    requires i <= |s|
    ensures forall k :: 0 <= k < |r| ==> Contains(s, r[k])
    ensures AllLiteral(alts) ==> forall k :: 0 <= k < |r| ==> r[k] in Literals(alts)
    decreases |s| - i
  {
    if i == |s| then []
    else
      var n := FirstAltLength(s, i, alts);
      if n > 0 then
        assert OccursAt(s, s[i..i + n], i);
        [s[i..i + n]] + MatchAllFrom(s, i + n, alts)
      else MatchAllFrom(s, i + 1, alts)
  }

  /** `s.match(/a0|a1|.../g) || []`. */
  function MatchAll(s: string, alts: seq<Alt>): (r: seq<string>)
    ensures forall k :: 0 <= k < |r| ==> Contains(s, r[k])
    ensures AllLiteral(alts) ==> forall k :: 0 <= k < |r| ==> r[k] in Literals(alts)
  {
    MatchAllFrom(s, 0, alts)
  }

  /** A pattern of literals only. */
  function Lits(ts: seq<string>): (r: seq<Alt>)
    ensures |r| == |ts| && AllLiteral(r)
    ensures forall k :: 0 <= k < |ts| ==> r[k] == Lit(ts[k])
  {
    seq(|ts|, k requires 0 <= k < |ts| => Lit(ts[k]))
  }

  // ---------------------------------------------------------------------
  // Slicing and replacing
  // ---------------------------------------------------------------------

  function Clamp(n: int, hi: nat): (r: nat)
    ensures r <= hi
    ensures 0 <= n <= hi ==> r == n
  {
    if n < 0 then 0 else if n > hi then hi else n
  }

  /** `s.substring(start, end)`: both ends clamped into [0, |s|] and swapped when reversed. */
  function Substring(s: string, start: int, end: int): (r: string)
    ensures |r| <= |s|
    ensures 0 <= start <= end <= |s| ==> r == s[start..end]
  {
    var a, b := Clamp(start, |s|), Clamp(end, |s|);
    if a <= b then s[a..b] else s[b..a]
  }

  /** `s.substring(0, n)`. */
  function Prefix(s: string, n: int): (r: string)
    ensures |r| == if n < 0 then 0 else if n > |s| then |s| else n
    ensures r == s[..|r|]
  {
    Substring(s, 0, n)
  }

  /** `s.replace(pattern, replacement)` with a string pattern: the first occurrence only. */
  function ReplaceFirst(s: string, pattern: string, replacement: string): (r: string)
    ensures !Contains(s, pattern) ==> r == s
    ensures Contains(s, pattern) ==>
      var i := IndexOf(s, pattern); r == s[..i] + replacement + s[i + |pattern|..]
  {
    var i := IndexOf(s, pattern);
    if i < 0 then s else s[..i] + replacement + s[i + |pattern|..]
  }

  /** `s.replace(/c/g, replacement)` for a single character. */
  function ReplaceAllChar(s: string, c: char, replacement: string): (r: string)
    ensures c !in replacement ==> c !in r
    ensures c !in s ==> r == s
  {
    if s == [] then []
    else (if s[0] == c then replacement else [s[0]]) + ReplaceAllChar(s[1..], c, replacement)
  }

  // ---------------------------------------------------------------------
  // Splitting and joining
  // ---------------------------------------------------------------------

  /** Index of the first character in `cs`, or |s| when there is none. */
  function FirstIn(s: string, cs: set<char>): (i: nat)
    ensures i <= |s|
    ensures i < |s| ==> s[i] in cs
    ensures NoneIn(s[..i], cs)
  {
    if s == [] then 0
    else if s[0] in cs then 0
    else 1 + FirstIn(s[1..], cs)
  }

  /** Index of the first character at or after `i` that is not in `cs`. */
  function RunEnd(s: string, i: nat, cs: set<char>): (j: nat)
    requires i <= |s|
    ensures i <= j <= |s|
    ensures j < |s| ==> s[j] !in cs
    ensures forall k :: i <= k < j ==> s[k] in cs
    decreases |s| - i
  {
    if i < |s| && s[i] in cs then RunEnd(s, i + 1, cs) else i
  }

  /** `s.split(/[cs]/)`: cut at every character of `cs`. */
  function SplitOn(s: string, cs: set<char>): (r: seq<string>)
    ensures |r| >= 1
    ensures forall k :: 0 <= k < |r| ==> NoneIn(r[k], cs)
    decreases |s|
  {
    var i := FirstIn(s, cs);
    if i == |s| then [s] else [s[..i]] + SplitOn(s[i + 1..], cs)
  }

  /** `s.split(/[cs]+/)`: cut at every maximal run of characters of `cs`. */
  function SplitRuns(s: string, cs: set<char>): (r: seq<string>)
    ensures |r| >= 1
    ensures forall k :: 0 <= k < |r| ==> NoneIn(r[k], cs)
    ensures forall k, j :: 0 <= k < |r| && 0 <= j < |r[k]| ==> r[k][j] in s
    decreases |s|
  {
    var i := FirstIn(s, cs);
    if i == |s| then [s] else [s[..i]] + SplitRuns(s[RunEnd(s, i, cs)..], cs)
  }

  /** The characters of JavaScript `\s` that occur in the sources' texts. */
  const Whitespace: set<char> := {
    '\t', '\n', '\U{000B}', '\U{000C}', '\r', ' ', '\U{00A0}', '\U{1680}',
    '\U{2000}', '\U{2001}', '\U{2002}', '\U{2003}', '\U{2004}', '\U{2005}', '\U{2006}',
    '\U{2007}', '\U{2008}', '\U{2009}', '\U{200A}', '\U{2028}', '\U{2029}', '\U{202F}',
    '\U{205F}', '\U{3000}', '\U{FEFF}'}

  lemma WhitespaceSet(c: char)
    ensures c in Whitespace <==> IsWhitespace(c)
  {
  }

  /** `s.split(/\s+/)`. */
  function Words(s: string): (r: seq<string>)
    ensures |r| >= 1
  {
    SplitRuns(s, Whitespace)
  }

  const LineTerminators: set<char> := {'\n', '\r', '\U{2028}', '\U{2029}'}

  /** `[。！？.!?]`, the sentence ends the services split on. */
  const SentenceEnds: set<char> := {'。', '！', '？', '.', '!', '?'}

  /** `arr.join(sep)`. */
  function Join(parts: seq<string>, sep: string): string {
    if |parts| == 0 then ""
    else if |parts| == 1 then parts[0]
    else parts[0] + sep + Join(parts[1..], sep)
  }

  /** A joined text holds only characters of the parts and the separator. */
  lemma {:induction false} JoinAllChars(parts: seq<string>, sep: string, p: char -> bool)
    requires AllChars(sep, p)
    requires forall k :: 0 <= k < |parts| ==> AllChars(parts[k], p)
    ensures AllChars(Join(parts, sep), p)
    decreases |parts|
  {
    if |parts| > 1 {
      JoinAllChars(parts[1..], sep, p);
      var rest := Join(parts[1..], sep);
      assert Join(parts, sep) == parts[0] + sep + rest;
      forall i | 0 <= i < |Join(parts, sep)| ensures p(Join(parts, sep)[i]) {
        if i < |parts[0]| {
          assert Join(parts, sep)[i] == parts[0][i];
        } else if i < |parts[0]| + |sep| {
          assert Join(parts, sep)[i] == sep[i - |parts[0]|];
        } else {
          assert Join(parts, sep)[i] == rest[i - |parts[0]| - |sep|];
        }
      }
    }
  }

  /** Splitting on one character and joining with it gives the text back. */
  lemma {:induction false} SplitOnJoin(s: string, c: char)
    ensures Join(SplitOn(s, {c}), [c]) == s
    decreases |s|
  {
    var i := FirstIn(s, {c});
    if i < |s| {
      var rest := SplitOn(s[i + 1..], {c});
      SplitOnJoin(s[i + 1..], c);
      assert SplitOn(s, {c}) == [s[..i]] + rest;
      assert ([s[..i]] + rest)[1..] == rest;
      assert s == s[..i] + [c] + s[i + 1..];
    }
  }

  /** Joining words that hold no separator with one separator, then splitting on separator runs, gives the words back. */
  lemma {:induction false} JoinSplitRuns(ws: seq<string>, c: char, cs: set<char>)
    requires c in cs && |ws| >= 1
    requires forall k :: 0 <= k < |ws| ==> ws[k] != [] && NoneIn(ws[k], cs)
    ensures SplitRuns(Join(ws, [c]), cs) == ws
    decreases |ws|
  {
    if |ws| == 1 {
      FirstInNone(ws[0], cs);
    } else {
      var rest := Join(ws[1..], [c]);
      assert Join(ws, [c]) == ws[0] + [c] + rest;
      JoinStartsOutside(ws[1..], c, cs);
      SplitRunsStep(ws[0], c, rest, cs);
      JoinSplitRuns(ws[1..], c, cs);
      assert ws == [ws[0]] + ws[1..];
    }
  }

  /** A word, one separator, and a text that starts outside the separators. */
  lemma SplitRunsStep(w: string, c: char, rest: string, cs: set<char>)
    requires NoneIn(w, cs) && c in cs && rest != [] && rest[0] !in cs
    ensures SplitRuns(w + [c] + rest, cs) == [w] + SplitRuns(rest, cs)
  {
    var s := w + [c] + rest;
    assert s == w + ([c] + rest);
    FirstInPrefix(w, [c] + rest, cs);
    assert FirstIn(s, cs) == |w|;
    assert RunEnd(s, |w|, cs) == |w| + 1 by {
      assert s[|w|] == c;
      assert s[|w| + 1] == rest[0];
    }
    assert s[|w| + 1..] == rest;
    assert s[..|w|] == w;
  }

  lemma {:induction false} FirstInNone(s: string, cs: set<char>)
    requires NoneIn(s, cs)
    ensures FirstIn(s, cs) == |s|
    decreases |s|
  {
    if s != [] {
      FirstInNone(s[1..], cs);
    }
  }

  lemma {:induction false} FirstInPrefix(w: string, rest: string, cs: set<char>)
    requires NoneIn(w, cs) && rest != [] && rest[0] in cs
    ensures FirstIn(w + rest, cs) == |w|
    decreases |w|
  {
    if w != [] {
      assert (w + rest)[1..] == w[1..] + rest;
      FirstInPrefix(w[1..], rest, cs);
    }
  }

  lemma JoinStartsOutside(ws: seq<string>, c: char, cs: set<char>)
    requires |ws| >= 1
    requires forall k :: 0 <= k < |ws| ==> ws[k] != [] && NoneIn(ws[k], cs)
    ensures Join(ws, [c]) != [] && Join(ws, [c])[0] !in cs
  {
    var w := ws[0];
    assert w != [] && NoneIn(w, cs);
    assert w[0] !in cs;
    if |ws| > 1 {
      var j := w + ([c] + Join(ws[1..], [c]));
      assert Join(ws, [c]) == j;
      assert j[0] == w[0];
    }
  }

  // ---------------------------------------------------------------------
  // Runs of characters (`s.match(/[...]+/g)`)
  // ---------------------------------------------------------------------

  /** The length of the run of `p` characters at the start of `s`. */
  function RunLength(s: string, p: char -> bool): (n: nat)
    ensures n <= |s|
    ensures forall k :: 0 <= k < n ==> p(s[k])
    ensures n < |s| ==> !p(s[n])
  {
    if s != [] && p(s[0]) then 1 + RunLength(s[1..], p) else 0
  }

  /** The maximal runs of `p` characters, in order. */
  function Runs(s: string, p: char -> bool): (r: seq<string>)
    ensures forall k :: 0 <= k < |r| ==> r[k] != [] && AllChars(r[k], p)
    decreases |s|
  {
    if s == [] then []
    else if !p(s[0]) then Runs(s[1..], p)
    else var n := RunLength(s, p); [s[..n]] + Runs(s[n..], p)
  }

  function Concat(ss: seq<string>): string {
    if ss == [] then [] else ss[0] + Concat(ss[1..])
  }

  /** The characters of `s` satisfying `p`, in order. */
  function Kept(s: string, p: char -> bool): string {
    if s == [] then [] else (if p(s[0]) then [s[0]] else []) + Kept(s[1..], p)
  }

  lemma {:induction false} KeptAppend(a: string, b: string, p: char -> bool)
    ensures Kept(a + b, p) == Kept(a, p) + Kept(b, p)
  {
    if a != [] {
      assert (a + b)[0] == a[0] && (a + b)[1..] == a[1..] + b;
      KeptAppend(a[1..], b, p);
    } else {
      assert a + b == b;
    }
  }

  lemma {:induction false} KeptAll(a: string, p: char -> bool)
    requires AllChars(a, p)
    ensures Kept(a, p) == a
  {
    if a != [] {
      KeptAll(a[1..], p);
    }
  }

  /** The runs lose no matching character and add none: joined, they are the matching characters in order. */
  lemma {:induction false} RunsCover(s: string, p: char -> bool)
    ensures Concat(Runs(s, p)) == Kept(s, p)
    decreases |s|
  {
    if s != [] {
      if !p(s[0]) {
        RunsCover(s[1..], p);
      } else {
        var n := RunLength(s, p);
        assert s == s[..n] + s[n..];
        KeptAppend(s[..n], s[n..], p);
        KeptAll(s[..n], p);
        RunsCover(s[n..], p);
      }
    }
  }

  // ---------------------------------------------------------------------
  // Trimming
  // ---------------------------------------------------------------------

  function TrimStart(s: string): (r: string)
    ensures |r| <= |s| && r == s[|s| - |r|..]
    ensures r == [] || !IsWhitespace(r[0])
  {
    if s != [] && IsWhitespace(s[0]) then TrimStart(s[1..]) else s
  }

  function TrimEnd(s: string): (r: string)
    ensures |r| <= |s| && r == s[..|r|]
    ensures r == [] || !IsWhitespace(r[|r| - 1])
  {
    if s != [] && IsWhitespace(s[|s| - 1]) then TrimEnd(s[..|s| - 1]) else s
  }

  /** `s.trim()`. */
  function Trim(s: string): (r: string)
    ensures |r| <= |s|
    ensures r == [] || (!IsWhitespace(r[0]) && !IsWhitespace(r[|r| - 1]))
  {
    var t := TrimStart(s);
    var r := TrimEnd(t);
    assert r == [] || r[0] == t[0];
    r
  }

  lemma TrimStartNoop(s: string)
    requires s == [] || !IsWhitespace(s[0])
    ensures TrimStart(s) == s
  {
  }

  lemma TrimEndNoop(s: string)
    requires s == [] || !IsWhitespace(s[|s| - 1])
    ensures TrimEnd(s) == s
  {
  }

  lemma TrimIdempotent(s: string)
    ensures Trim(Trim(s)) == Trim(s)
  {
    var r := Trim(s);
    TrimStartNoop(r);
    TrimEndNoop(r);
  }

  /** `s.trim().length > n`. */
  predicate TrimmedLongerThan(s: string, n: int) {
    |Trim(s)| > n
  }

  // ---------------------------------------------------------------------
  // Numbers
  // ---------------------------------------------------------------------

  function DigitChar(d: int): (c: char)
    requires 0 <= d < 10
    ensures IsDigit(c)
  {
    ('0' as int + d) as char
  }

  /** The decimal text of a natural number, as a template literal prints it. */
  function NatToString(n: nat): (r: string)
    ensures |r| >= 1
    ensures AllChars(r, IsDigit)
  {
    if n < 10 then [DigitChar(n)] else NatToString(n / 10) + [DigitChar(n % 10)]
  }

  /** A number in [10^(k-1), 10^k) prints with exactly k digits. */
  lemma {:induction false} NatToStringLength(n: nat, k: nat)
    requires k >= 1 && Pow10(k - 1) <= n < Pow10(k)
    ensures |NatToString(n)| == k
  {
    assert Pow10(0) == 1 && Pow10(1) == 10;
    if k >= 2 {
      Pow10AtLeast(k - 1);
    }
    if n >= 10 {
      assert k >= 2;
      assert Pow10(k - 1) == 10 * Pow10(k - 2);
      NatToStringLength(n / 10, k - 1);
    }
  }

  function Pow10(k: nat): (r: nat)
    ensures r >= 1
  {
    if k == 0 then 1 else 10 * Pow10(k - 1)
  }

  lemma Pow10Step(k: nat)
    ensures Pow10(k + 1) == 10 * Pow10(k)
  {
  }

  lemma Pow10Positive(k: nat)
    ensures Pow10(k) >= 1
  {
  }

  lemma {:induction false} Pow10AtLeast(k: nat)
    requires k >= 1
    ensures Pow10(k) >= 10
  {
    if k > 1 {
      Pow10AtLeast(k - 1);
    }
  }

  // ---------------------------------------------------------------------
  // Patterns of the form /p0.*p1.*p2/
  // ---------------------------------------------------------------------

  /** The parts occur one after another, without overlapping, in `line` (leftmost choice of each). */
  function InOrder(line: string, parts: seq<string>): bool
    decreases |parts|
  {
    if parts == [] then true
    else
      var i := IndexOf(line, parts[0]);
      i >= 0 && InOrder(line[i + |parts[0]|..], parts[1..])
  }

  /** Some placement of the parts, one after another, exists. */
  ghost predicate OccursInOrder(line: string, parts: seq<string>)
    decreases |parts|
  {
    parts == [] ||
    exists i :: OccursAt(line, parts[0], i) && OccursInOrder(line[i + |parts[0]|..], parts[1..])
  }

  lemma {:induction false} OccursInOrderLonger(pre: string, line: string, parts: seq<string>)
    requires OccursInOrder(line, parts)
    ensures OccursInOrder(pre + line, parts)
    decreases |parts|
  {
    if parts != [] {
      var i :| OccursAt(line, parts[0], i) && OccursInOrder(line[i + |parts[0]|..], parts[1..]);
      var j := |pre| + i;
      assert (pre + line)[j..j + |parts[0]|] == line[i..i + |parts[0]|];
      assert (pre + line)[j + |parts[0]|..] == line[i + |parts[0]|..];
      assert OccursAt(pre + line, parts[0], j);
    }
  }

  lemma {:induction false} InOrderSound(line: string, parts: seq<string>)
    requires InOrder(line, parts)
    ensures OccursInOrder(line, parts)
    decreases |parts|
  {
    if parts != [] {
      var i := IndexOf(line, parts[0]);
      InOrderSound(line[i + |parts[0]|..], parts[1..]);
      assert OccursAt(line, parts[0], i);
    }
  }

  lemma InOrderStep(line: string, parts: seq<string>)
    requires parts != [] && IndexOf(line, parts[0]) >= 0
    requires InOrder(line[IndexOf(line, parts[0]) + |parts[0]|..], parts[1..])
    ensures InOrder(line, parts)
  {
  }

  /** Whatever follows some occurrence of `p` also follows its leftmost one. */
  lemma LeftmostKeepsRest(line: string, p: string, j: int, tail: seq<string>)
    requires OccursAt(line, p, j) && OccursInOrder(line[j + |p|..], tail)
    ensures IndexOf(line, p) >= 0
    ensures OccursInOrder(line[IndexOf(line, p) + |p|..], tail)
  {
    ContainsAt(line, p, j);
    var i := IndexOf(line, p);
    assert i <= j;
    var gap := line[i + |p|..j + |p|];
    assert line[i + |p|..] == gap + line[j + |p|..];
    OccursInOrderLonger(gap, line[j + |p|..], tail);
  }

  lemma {:induction false} InOrderComplete(line: string, parts: seq<string>)
    requires OccursInOrder(line, parts)
    ensures InOrder(line, parts)
    decreases |parts|
  {
    if parts != [] {
      var p := parts[0];
      var j :| OccursAt(line, p, j) && OccursInOrder(line[j + |p|..], parts[1..]);
      LeftmostKeepsRest(line, p, j, parts[1..]);
      InOrderComplete(line[IndexOf(line, p) + |p|..], parts[1..]);
      InOrderStep(line, parts);
    }
  }

  /** Taking the leftmost occurrence of each part loses no match. */
  lemma InOrderIsComplete(line: string, parts: seq<string>)
    ensures InOrder(line, parts) <==> OccursInOrder(line, parts)
  {
    if InOrder(line, parts) { InOrderSound(line, parts); }
    if OccursInOrder(line, parts) { InOrderComplete(line, parts); }
  }

  /**
   * `/p0.*p1.*p2/.test(s)` for literal parts free of line terminators:
   * `.` does not cross a line terminator, so the parts must follow each
   * other within one line.
   */
  predicate PatternTest(s: string, parts: seq<string>) {
    var lines := SplitOn(s, LineTerminators);
    exists k :: 0 <= k < |lines| && InOrder(lines[k], parts)
  }
}
