/**
 * Security helpers: three rate limiters kept in memory (login attempts,
 * registrations and SMS sends), HTML escaping of user input, the email and
 * password validators and the password strength report.  The clock and the
 * calendar day are parameters.
 */
module Security {
  import opened Common
  import opened Text

  // ---------------------------------------------------------------------
  // Login attempts
  // ---------------------------------------------------------------------

  /** The failures recorded for one identifier. */
  datatype Attempts = Attempts(count: nat, lastAttempt: int)

  const BlockDurationMs := 15 * 60 * 1000
  const MaxAttempts: nat := 5

  function LoginKey(identifier: string): string {
    "login_" + identifier
  }

  /** The record is still within the block window measured from its last failure. */
  predicate InWindow(rec: Attempts, now: int) {
    now - rec.lastAttempt < BlockDurationMs
  }

  /** A login is refused: five failures, the last one less than fifteen minutes ago. */
  predicate Blocked(rec: Attempts, now: int) {
    InWindow(rec, now) && rec.count >= MaxAttempts
  }

  /** The records after one more failure for `key`: the count grows by one and the clock restarts. */
  function FailureRecorded(m: map<string, Attempts>, key: string, now: int): (r: map<string, Attempts>)
    ensures key in r && r[key].lastAttempt == now
    ensures r[key].count == (if key in m then m[key].count else 0) + 1
    ensures forall k :: k != key ==> (k in r <==> k in m) && (k in m ==> r[k] == m[k])
  {
    m[key := Attempts((if key in m then m[key].count else 0) + 1, now)]
  }

  /** `getRemainingTime`: how long a blocked identifier still waits, 0 when it is not blocked. */
  function LoginRemaining(rec: Option<Attempts>, now: int): (t: nat)
    ensures t > 0 <==> rec.Some? && Blocked(rec.value, now)
    ensures t > 0 ==> t == BlockDurationMs - (now - rec.value.lastAttempt)
  {
    if rec.None? || rec.value.count < MaxAttempts then 0
    else var left := BlockDurationMs - (now - rec.value.lastAttempt);
      if left > 0 then left else 0
  }

  /** The records after `failures` failed logins of one identifier, in order. */
  function AfterFailures(m: map<string, Attempts>, key: string, failures: seq<int>): map<string, Attempts>
    decreases |failures|
  {
    if failures == [] then m
    else AfterFailures(FailureRecorded(m, key, failures[0]), key, failures[1..])
  }

  /**
   * Consecutive failures accumulate: after `k` of them the count has grown by
   * `k` and the block window runs from the last one.
   */
  lemma {:induction false} FailuresAccumulate(m: map<string, Attempts>, key: string, failures: seq<int>)
    requires failures != []
    ensures var r := AfterFailures(m, key, failures);
      key in r && r[key].lastAttempt == failures[|failures| - 1]
      && r[key].count == (if key in m then m[key].count else 0) + |failures|
    decreases |failures|
  {
    var m' := FailureRecorded(m, key, failures[0]);
    if |failures| > 1 {
      FailuresAccumulate(m', key, failures[1..]);
      assert failures[1..][|failures[1..]| - 1] == failures[|failures| - 1];
    }
  }

  /** Five consecutive failures block the identifier for fifteen minutes after the last one. */
  lemma FiveFailuresBlock(m: map<string, Attempts>, key: string, failures: seq<int>, now: int)
    requires |failures| >= MaxAttempts
    requires failures[|failures| - 1] <= now < failures[|failures| - 1] + BlockDurationMs
    ensures var r := AfterFailures(m, key, failures);
      key in r && Blocked(r[key], now) && LoginRemaining(Some(r[key]), now) > 0
  {
    FailuresAccumulate(m, key, failures);
  }

  class LoginAttemptLimiter {
    var attempts: map<string, Attempts>

    constructor()
      ensures attempts == map[]
    {
      attempts := map[];
    }

    /**
     * `canAttempt`: refused exactly when the identifier is blocked.  A record
     * whose window has passed is deleted, so the count starts again.
     */
    method CanAttempt(identifier: string, now: int) returns (ok: bool)
      modifies this
      ensures var key := LoginKey(identifier);
        (ok <==> !(key in old(attempts) && Blocked(old(attempts)[key], now)))
        && attempts == if key in old(attempts) && InWindow(old(attempts)[key], now)
                       then old(attempts) else old(attempts) - {key}
    {
      var key := LoginKey(identifier);
      if key !in attempts {
        return true;
      }
      var rec := attempts[key];
      if now - rec.lastAttempt < BlockDurationMs {
        return rec.count < MaxAttempts;
      }
      attempts := attempts - {key};
      ok := true;
    }

    /** `recordAttempt`: a success clears the record; a failure is counted and restarts the window. */
    method RecordAttempt(identifier: string, success: bool, now: int)
      modifies this
      ensures attempts == if success then old(attempts) - {LoginKey(identifier)}
                          else FailureRecorded(old(attempts), LoginKey(identifier), now)
    {
      var key := LoginKey(identifier);
      if success {
        attempts := attempts - {key};
        return;
      }
      var rec := if key in attempts then attempts[key] else Attempts(0, 0);
      attempts := attempts[key := Attempts(rec.count + 1, now)];
    }

    function GetRemainingTime(identifier: string, now: int): (t: nat)
      reads this
      ensures var key := LoginKey(identifier);
        t > 0 <==> key in attempts && Blocked(attempts[key], now)
    {
      var key := LoginKey(identifier);
      LoginRemaining(if key in attempts then Some(attempts[key]) else None, now)
    }
  }

  // ---------------------------------------------------------------------
  // Registrations
  // ---------------------------------------------------------------------

  const RegistrationCooldownMs := 60 * 1000

  /**
   * `canRegister` for the last registration time of an address: allowed
   * with none (a stored 0 is falsy and counts as none), otherwise only when
   * strictly more than a minute has passed.
   */
  function RegistrationOpen(last: Option<int>, now: int): (ok: bool)
    ensures last.None? || last.value == 0 ==> ok
    ensures last.Some? && last.value != 0 ==> (ok <==> now - last.value > RegistrationCooldownMs)
  {
    if last.None? || last.value == 0 then true
    else now - last.value > RegistrationCooldownMs
  }

  /** `getRemainingTime` of the registration limiter. */
  function RegistrationRemaining(last: Option<int>, now: int): (t: nat)
    ensures last.None? || last.value == 0 ==> t == 0
    ensures last.Some? && last.value != 0 ==> (t > 0 <==> now - last.value < RegistrationCooldownMs)
  {
    if last.None? || last.value == 0 then 0
    else var left := RegistrationCooldownMs - (now - last.value);
      if left > 0 then left else 0
  }

  /**
   * The two registration queries agree except at exactly one minute after a
   * registration, where no waiting time is left and yet registering is refused.
   */
  lemma RegistrationBoundary(last: Option<int>, now: int)
    ensures RegistrationOpen(last, now) ==> RegistrationRemaining(last, now) == 0
    ensures RegistrationRemaining(last, now) > 0 ==> !RegistrationOpen(last, now)
    ensures RegistrationRemaining(last, now) == 0 && !RegistrationOpen(last, now)
      <==> last.Some? && last.value != 0 && now - last.value == RegistrationCooldownMs
  {
  }

  class RegistrationLimiter {
    var registrations: map<string, int>

    constructor()
      ensures registrations == map[]
    {
      registrations := map[];
    }

    function CanRegister(ip: string, now: int): (ok: bool)
      reads this
      ensures ip !in registrations ==> ok
      ensures ip in registrations && registrations[ip] != 0 ==> (ok <==> now - registrations[ip] > RegistrationCooldownMs)
    {
      RegistrationOpen(if ip in registrations then Some(registrations[ip]) else None, now)
    }

    /** `recordRegistration`: the address registered now; refused for the next minute. */
    method RecordRegistration(ip: string, now: int)
      modifies this
      ensures registrations == old(registrations)[ip := now]
      ensures now != 0 ==> forall t :: t <= now + RegistrationCooldownMs ==> !CanRegister(ip, t)
    {
      registrations := registrations[ip := now];
    }

    function GetRemainingTime(ip: string, now: int): (t: nat)
      reads this
      ensures ip !in registrations ==> t == 0
      ensures t > 0 ==> !CanRegister(ip, now)
    {
      RegistrationBoundary(if ip in registrations then Some(registrations[ip]) else None, now);
      RegistrationRemaining(if ip in registrations then Some(registrations[ip]) else None, now)
    }
  }

  // ---------------------------------------------------------------------
  // SMS sends
  // ---------------------------------------------------------------------

  /** The sends to one phone on one day. */
  datatype SmsRecord = SmsRecord(count: nat, lastSent: int)

  const SmsCooldownMs := 60 * 1000
  const DailyLimit: nat := 5

  /** Records are kept per phone and calendar day (`toDateString` of the clock). */
  function SmsKey(phone: string, today: string): string {
    phone + "_" + today
  }

  /** The record of a key, `{count: 0, lastSent: 0}` when there is none. */
  function SmsRecordOf(m: map<string, SmsRecord>, key: string): SmsRecord {
    if key in m then m[key] else SmsRecord(0, 0)
  }

  /** `canSendSMS`: under the daily limit and at least a minute after the last send. */
  function SmsAllowed(m: map<string, SmsRecord>, key: string, now: int): (ok: bool)
    ensures ok <==> SmsRecordOf(m, key).count < DailyLimit && now - SmsRecordOf(m, key).lastSent >= SmsCooldownMs
  {
    var rec := SmsRecordOf(m, key);
    if rec.count >= DailyLimit then false
    else if now - rec.lastSent < SmsCooldownMs then false
    else true
  }

  /** The records after one send on `key`. */
  function SmsRecorded(m: map<string, SmsRecord>, key: string, now: int): (r: map<string, SmsRecord>)
    ensures key in r && r[key] == SmsRecord(SmsRecordOf(m, key).count + 1, now)
    ensures forall k :: k != key ==> (k in r <==> k in m) && (k in m ==> r[k] == m[k])
  {
    m[key := SmsRecord(SmsRecordOf(m, key).count + 1, now)]
  }

  /** `getRemainingTime` of the SMS limiter: 0 without a record. */
  function SmsRemaining(m: map<string, SmsRecord>, key: string, now: int): (t: nat)
    ensures key !in m ==> t == 0
    ensures key in m ==> (t > 0 <==> now - m[key].lastSent < SmsCooldownMs)
  {
    if key !in m then 0
    else var left := SmsCooldownMs - (now - m[key].lastSent);
      if left > 0 then left else 0
  }

  /** `getDailyRemaining`: the sends left today. */
  function DailyRemaining(m: map<string, SmsRecord>, key: string): (n: nat)
    ensures n + SmsRecordOf(m, key).count >= DailyLimit
    ensures n > 0 <==> SmsRecordOf(m, key).count < DailyLimit
  {
    if SmsRecordOf(m, key).count >= DailyLimit then 0 else DailyLimit - SmsRecordOf(m, key).count
  }

  /**
   * On any clock past the first minute of the epoch, a send is allowed
   * exactly when sends are left today and no cooldown remains.
   */
  lemma SmsAllowedIff(m: map<string, SmsRecord>, key: string, now: int)
    requires now >= SmsCooldownMs
    ensures SmsAllowed(m, key, now) <==> DailyRemaining(m, key) > 0 && SmsRemaining(m, key, now) == 0
  {
  }

  /** No phone exceeds the daily limit while every send is made only when `canSendSMS` allows it. */
  predicate WithinDailyLimit(m: map<string, SmsRecord>) {
    forall k :: k in m ==> m[k].count <= DailyLimit
  }

  function AfterSends(m: map<string, SmsRecord>, key: string, times: seq<int>): map<string, SmsRecord>
    decreases |times|
  {
    if times == [] then m
    else
      var m' := if SmsAllowed(m, key, times[0]) then SmsRecorded(m, key, times[0]) else m;
      AfterSends(m', key, times[1..])
  }

  /**
   * Guarded sends on one key, at any times, keep every record within the
   * daily limit, and the key's count never passes five.
   */
  lemma {:induction false} GuardedSendsWithinLimit(m: map<string, SmsRecord>, key: string, times: seq<int>)
    requires WithinDailyLimit(m)
    ensures WithinDailyLimit(AfterSends(m, key, times))
    decreases |times|
  {
    if times != [] {
      var m' := if SmsAllowed(m, key, times[0]) then SmsRecorded(m, key, times[0]) else m;
      assert WithinDailyLimit(m');
      GuardedSendsWithinLimit(m', key, times[1..]);
    }
  }

  /** After a send, the same key is refused for the next minute. */
  lemma CooldownAfterSend(m: map<string, SmsRecord>, key: string, now: int, later: int)
    requires later < now + SmsCooldownMs
    ensures !SmsAllowed(SmsRecorded(m, key, now), key, later)
  {
  }

  class SmsLimiter {
    var smsRecords: map<string, SmsRecord>

    constructor()
      ensures smsRecords == map[]
    {
      smsRecords := map[];
    }

    function CanSendSms(phone: string, today: string, now: int): (ok: bool)
      reads this
      ensures ok <==> (SmsRecordOf(smsRecords, SmsKey(phone, today)).count < DailyLimit
                       && now - SmsRecordOf(smsRecords, SmsKey(phone, today)).lastSent >= SmsCooldownMs)
    {
      SmsAllowed(smsRecords, SmsKey(phone, today), now)
    }

    /** `recordSMS`: one more send today, at `now`. */
    method RecordSms(phone: string, today: string, now: int)
      modifies this
      ensures smsRecords == SmsRecorded(old(smsRecords), SmsKey(phone, today), now)
    {
      var key := SmsKey(phone, today);
      var rec := if key in smsRecords then smsRecords[key] else SmsRecord(0, 0);
      smsRecords := smsRecords[key := SmsRecord(rec.count + 1, now)];
    }

    function GetRemainingTime(phone: string, today: string, now: int): (t: nat)
      reads this
      ensures SmsKey(phone, today) !in smsRecords ==> t == 0
      ensures t > 0 ==> !CanSendSms(phone, today, now)
    {
      SmsRemaining(smsRecords, SmsKey(phone, today), now)
    }

    function GetDailyRemaining(phone: string, today: string): (n: nat)
      reads this
      ensures n > 0 <==> SmsRecordOf(smsRecords, SmsKey(phone, today)).count < DailyLimit
      ensures n == 0 ==> forall t :: !CanSendSms(phone, today, t)
    {
      DailyRemaining(smsRecords, SmsKey(phone, today))
    }
  }

  // ---------------------------------------------------------------------
  // HTML escaping
  // ---------------------------------------------------------------------

  /** The characters `sanitizeInput` escapes. */
  const Escaped: set<char> := {'<', '>', '"', '\'', '/'}

  /** The entity each escaped character becomes; other characters stay. */
  function EscapeChar(c: char): (r: string)
    ensures c !in Escaped ==> r == [c]
    ensures NoneIn(r, Escaped)
  {
    match c
    case '<' => "&lt;"
    case '>' => "&gt;"
    case '"' => "&quot;"
    case '\'' => "&#x27;"
    case '/' => "&#x2F;"
    case _ => [c]
  }

  /** Each character escaped on its own: the reference for `sanitizeInput`. */
  function EscapeAll(s: string): (r: string)
    ensures NoneIn(r, Escaped)
  {
    if s == [] then [] else EscapeChar(s[0]) + EscapeAll(s[1..])
  }

  /** `sanitizeInput` on a string: the five global replacements, in the source's order. */
  function Sanitize(s: string): string {
    ReplaceAllChar(ReplaceAllChar(ReplaceAllChar(ReplaceAllChar(ReplaceAllChar(
      s, '<', "&lt;"), '>', "&gt;"), '"', "&quot;"), '\'', "&#x27;"), '/', "&#x2F;")
  }

  lemma {:induction false} ReplaceAllCharAppend(a: string, b: string, c: char, rep: string)
    ensures ReplaceAllChar(a + b, c, rep) == ReplaceAllChar(a, c, rep) + ReplaceAllChar(b, c, rep)
  {
    if a != [] {
      var head := if a[0] == c then rep else [a[0]];
      assert (a + b)[0] == a[0] && (a + b)[1..] == a[1..] + b;
      assert ReplaceAllChar(a + b, c, rep) == head + ReplaceAllChar(a[1..] + b, c, rep);
      ReplaceAllCharAppend(a[1..], b, c, rep);
      assert ReplaceAllChar(a, c, rep) == head + ReplaceAllChar(a[1..], c, rep);
    } else {
      assert a + b == b;
    }
  }

  lemma ReplaceSingle(x: char, c: char, rep: string)
    ensures ReplaceAllChar([x], c, rep) == if x == c then rep else [x]
  {
    assert [x][1..] == [];
  }

  lemma SanitizeAppend(a: string, b: string)
    ensures Sanitize(a + b) == Sanitize(a) + Sanitize(b)
  {
    var a1 := ReplaceAllChar(a, '<', "&lt;");
    var b1 := ReplaceAllChar(b, '<', "&lt;");
    ReplaceAllCharAppend(a, b, '<', "&lt;");
    var a2 := ReplaceAllChar(a1, '>', "&gt;");
    var b2 := ReplaceAllChar(b1, '>', "&gt;");
    ReplaceAllCharAppend(a1, b1, '>', "&gt;");
    var a3 := ReplaceAllChar(a2, '"', "&quot;");
    var b3 := ReplaceAllChar(b2, '"', "&quot;");
    ReplaceAllCharAppend(a2, b2, '"', "&quot;");
    var a4 := ReplaceAllChar(a3, '\'', "&#x27;");
    var b4 := ReplaceAllChar(b3, '\'', "&#x27;");
    ReplaceAllCharAppend(a3, b3, '\'', "&#x27;");
    ReplaceAllCharAppend(a4, b4, '/', "&#x2F;");
  }

  /** A single character comes out of the replacement chain as its entity. */
  lemma SanitizeChar(c: char)
    ensures Sanitize([c]) == EscapeChar(c)
  {
    if c == '<' {
      ReplaceSingle(c, '<', "&lt;");
      assert '>' !in "&lt;" && '"' !in "&lt;" && '\'' !in "&lt;" && '/' !in "&lt;";
    } else if c == '>' {
      ReplaceSingle(c, '<', "&lt;");
      ReplaceSingle(c, '>', "&gt;");
      assert '"' !in "&gt;" && '\'' !in "&gt;" && '/' !in "&gt;";
    } else {
      SanitizeCharRest(c);
    }
  }

  lemma SanitizeCharRest(c: char)
    requires c != '<' && c != '>'
    ensures Sanitize([c]) == EscapeChar(c)
  {
    ReplaceSingle(c, '<', "&lt;");
    ReplaceSingle(c, '>', "&gt;");
    ReplaceSingle(c, '"', "&quot;");
    if c == '"' {
      assert '\'' !in "&quot;" && '/' !in "&quot;";
    } else {
      ReplaceSingle(c, '\'', "&#x27;");
      if c != '\'' {
        ReplaceSingle(c, '/', "&#x2F;");
      } else {
        assert '/' !in "&#x27;";
      }
    }
  }

  /** The replacement chain escapes every character independently: it equals the per-character escape. */
  lemma {:induction false} SanitizeIsEscape(s: string)
    ensures Sanitize(s) == EscapeAll(s)
  {
    if s != [] {
      assert s == [s[0]] + s[1..];
      SanitizeAppend([s[0]], s[1..]);
      SanitizeChar(s[0]);
      SanitizeIsEscape(s[1..]);
    }
  }

  /**
   * The escaped text holds none of `< > " ' /`, so escaping it again changes
   * nothing; text without them is returned as it is.
   */
  lemma SanitizeSafe(s: string)
    ensures NoneIn(Sanitize(s), Escaped)
    ensures Sanitize(Sanitize(s)) == Sanitize(s)
    ensures NoneIn(s, Escaped) ==> Sanitize(s) == s
  {
    SanitizeIsEscape(s);
    SanitizeIsEscape(Sanitize(s));
    CleanEscapesToItself(Sanitize(s));
    CleanEscapesToItself(s);
  }

  lemma {:induction false} CleanEscapesToItself(s: string)
    ensures NoneIn(s, Escaped) ==> EscapeAll(s) == s
  {
    if s != [] && NoneIn(s, Escaped) {
      assert NoneIn(s[1..], Escaped) by {
        forall i | 0 <= i < |s[1..]| ensures s[1..][i] !in Escaped {
          assert s[1..][i] == s[i + 1];
        }
      }
      CleanEscapesToItself(s[1..]);
      assert s[0] !in Escaped;
    }
  }

  /** `&` is not escaped, so two different inputs can escape to the same text. */
  lemma SanitizeNotInjective()
    ensures Sanitize("<") == Sanitize("&lt;") && "<" != "&lt;"
  {
    SanitizeChar('<');
    SanitizeSafe("&lt;");
    assert NoneIn("&lt;", Escaped);
  }

  /** `sanitizeInput`: strings are escaped; any other value is returned unchanged. */
  function SanitizeInput(input: Json): (r: Json)
    ensures input.JStr? ==> r.JStr? && NoneIn(r.s, Escaped) && r.s == EscapeAll(input.s)
    ensures !input.JStr? ==> r == input
  {
    if input.JStr? then
      SanitizeSafe(input.s);
      SanitizeIsEscape(input.s);
      JStr(Sanitize(input.s))
    else input
  }

  // ---------------------------------------------------------------------
  // Validators
  // ---------------------------------------------------------------------

  /** `[^\s@]`: a character an email part may hold. */
  predicate EmailChar(c: char) {
    !IsWhitespace(c) && c != '@'
  }

  /**
   * What `/^[^\s@]+@[^\s@]+\.[^\s@]+$/` matches: an `@` at `i` with something
   * before it, a `.` at `j` with something between them and something after
   * it, and every other character a non-space, non-`@` character.
   */
  ghost predicate EmailMatches(s: string) {
    exists i, j :: 0 < i && i + 1 < j < |s| - 1 && s[i] == '@' && s[j] == '.'
      && forall k :: 0 <= k < |s| && k != i ==> EmailChar(s[k])
  }

  /** `validators.email`, computed by scanning: the first `@`, then a `.` inside the domain. */
  function ValidEmail(s: string): (ok: bool) {
    var i := FirstIn(s, {'@'});
    if i == 0 || i >= |s| then false
    else
      var domain := s[i + 1..];
      |domain| >= 3
      && FirstIn(domain[1..], {'.'}) < |domain| - 2
      && AllChars(s[..i], EmailChar) && AllChars(domain, EmailChar)
  }

  /** The scan accepts exactly the strings the regular expression matches. */
  lemma ValidEmailMatches(s: string)
    ensures ValidEmail(s) <==> EmailMatches(s)
  {
    if ValidEmail(s) {
      ValidEmailSound(s);
    }
    if EmailMatches(s) {
      var i, j :| 0 < i && i + 1 < j < |s| - 1 && s[i] == '@' && s[j] == '.'
        && forall k :: 0 <= k < |s| && k != i ==> EmailChar(s[k]);
      ValidEmailComplete(s, i, j);
    }
  }

  lemma ValidEmailSound(s: string)
    requires ValidEmail(s)
    ensures EmailMatches(s)
  {
    var i := FirstIn(s, {'@'});
    var domain := s[i + 1..];
    var j := i + 2 + FirstIn(domain[1..], {'.'});
    assert domain[1..][j - i - 2] == s[j];
    forall k | 0 <= k < |s| && k != i ensures EmailChar(s[k]) {
      if k < i { assert s[..i][k] == s[k]; } else { assert domain[k - i - 1] == s[k]; }
    }
  }

  lemma ValidEmailComplete(s: string, i: nat, j: nat)
    requires 0 < i && i + 1 < j < |s| - 1 && s[i] == '@' && s[j] == '.'
    requires forall k :: 0 <= k < |s| && k != i ==> EmailChar(s[k])
    ensures ValidEmail(s)
  {
    FirstInIs(s, {'@'}, i);
    var domain := s[i + 1..];
    assert domain[1..][j - i - 2] == '.';
    FirstInAtMost(domain[1..], {'.'}, j - i - 2);
    assert AllChars(s[..i], EmailChar) by {
      forall k | 0 <= k < i ensures EmailChar(s[..i][k]) { assert s[..i][k] == s[k]; }
    }
    assert AllChars(domain, EmailChar) by {
      forall k | 0 <= k < |domain| ensures EmailChar(domain[k]) { assert domain[k] == s[k + i + 1]; }
    }
  }

  lemma FirstInIs(s: string, cs: set<char>, i: nat)
    requires i < |s| && s[i] in cs
    requires forall k :: 0 <= k < |s| && k != i ==> s[k] !in cs
    ensures FirstIn(s, cs) == i
  {
    FirstInAtMost(s, cs, i);
  }

  lemma FirstInAtMost(s: string, cs: set<char>, i: nat)
    requires i < |s| && s[i] in cs
    ensures FirstIn(s, cs) <= i && FirstIn(s, cs) < |s| && s[FirstIn(s, cs)] in cs
  {
  }

  /** The characters `[A-Za-z\d@$!%*#?&]`. */
  predicate PasswordChar(c: char) {
    IsAsciiLetter(c) || IsDigit(c) || c in SpecialChars
  }

  const SpecialChars: set<char> := {'@', '$', '!', '%', '*', '#', '?', '&'}

  predicate HasSome(s: string, p: char -> bool) {
    exists i :: 0 <= i < |s| && p(s[i])
  }

  function IsSpecial(c: char): bool { c in SpecialChars }

  /**
   * `validators.password`: at least eight characters, all letters, digits
   * or `@$!%*#?&`, with at least one letter and one digit.
   */
  predicate ValidPassword(p: string) {
    |p| >= 8 && AllChars(p, PasswordChar) && HasSome(p, IsAsciiLetter) && HasSome(p, IsDigit)
  }

  // ---------------------------------------------------------------------
  // Password strength
  // ---------------------------------------------------------------------

  /** The six checks, in the source's order. */
  datatype Checks = Checks(length: bool, hasLetter: bool, hasNumber: bool,
                           hasSpecial: bool, hasUpper: bool, hasLower: bool)

  datatype Strength = Weak | Medium | Strong

  datatype StrengthReport = StrengthReport(score: nat, strength: Strength, checks: Checks, suggestions: seq<string>)

  function Flags(c: Checks): seq<bool> {
    [c.length, c.hasLetter, c.hasNumber, c.hasSpecial, c.hasUpper, c.hasLower]
  }

  /** The advice for each failed check, in the same order. */
  const Advice: seq<string> := ["至少8个字符", "包含字母", "包含数字", "包含特殊字符(@$!%*#?&)", "包含大写字母", "包含小写字母"]

  function CountTrue(flags: seq<bool>): (n: nat)
    ensures n <= |flags|
  {
    if flags == [] then 0 else (if flags[0] then 1 else 0) + CountTrue(flags[1..])
  }

  /** The advice of the failed checks, in order. */
  function Failed(flags: seq<bool>, advice: seq<string>): (r: seq<string>)
    requires |flags| == |advice|
    ensures |r| + CountTrue(flags) == |flags|
    ensures forall a :: a in r ==> a in advice
  {
    if flags == [] then []
    else (if flags[0] then [] else [advice[0]]) + Failed(flags[1..], advice[1..])
  }

  function Bit(b: bool): nat { if b then 1 else 0 }

  /** The score is the number of passed checks. */
  lemma {:induction false} ScoreIsSum(c: Checks)
    ensures CountTrue(Flags(c)) == Bit(c.length) + Bit(c.hasLetter) + Bit(c.hasNumber)
      + Bit(c.hasSpecial) + Bit(c.hasUpper) + Bit(c.hasLower)
  {
    var f := Flags(c);
    assert CountTrue(f) == Bit(f[0]) + CountTrue(f[1..]);
    assert CountTrue(f[1..]) == Bit(f[1]) + CountTrue(f[2..]);
    assert CountTrue(f[2..]) == Bit(f[2]) + CountTrue(f[3..]);
    assert CountTrue(f[3..]) == Bit(f[3]) + CountTrue(f[4..]);
    assert CountTrue(f[4..]) == Bit(f[4]) + CountTrue(f[5..]);
    assert CountTrue(f[5..]) == Bit(f[5]) + CountTrue(f[6..]);
    assert f[6..] == [];
  }

  function RunChecks(p: string): Checks {
    Checks(|p| >= 8, HasSome(p, IsAsciiLetter), HasSome(p, IsDigit), HasSome(p, IsSpecial),
           HasSome(p, IsAsciiUpper), HasSome(p, IsAsciiLower))
  }

  /**
   * `checkPasswordStrength`: the score counts the passed checks; five or
   * more is strong, three or more medium; one suggestion per failed check.
   */
  function CheckPasswordStrength(p: string): (r: StrengthReport)
    ensures r.checks == RunChecks(p) && r.score == CountTrue(Flags(r.checks)) && r.score <= 6
    ensures r.strength == (if r.score >= 5 then Strong else if r.score >= 3 then Medium else Weak)
    ensures r.score + |r.suggestions| == 6
    ensures |r.suggestions| == 0 <==> r.score == 6
  {
    var c := RunChecks(p);
    var score := CountTrue(Flags(c));
    var strength := if score >= 5 then Strong else if score >= 3 then Medium else Weak;
    StrengthReport(score, strength, c, Failed(Flags(c), Advice))
  }

  /** A password the validator accepts passes the length, letter and digit checks, so it is never weak. */
  lemma ValidPasswordNotWeak(p: string)
    requires ValidPassword(p)
    ensures CheckPasswordStrength(p).score >= 3 && CheckPasswordStrength(p).strength != Weak
  {
    var c := RunChecks(p);
    assert c.length && c.hasLetter && c.hasNumber;
    ScoreIsSum(c);
  }

  /** A letter is an upper- or lower-case letter, so failing the letter check fails both case checks: at most three checks then pass. */
  lemma NoLetterIsWeak(p: string)
    requires !HasSome(p, IsAsciiLetter)
    ensures CheckPasswordStrength(p).score <= 3 && CheckPasswordStrength(p).strength != Strong
  {
    var c := RunChecks(p);
    assert !c.hasUpper && !c.hasLower;
    ScoreIsSum(c);
  }
}
