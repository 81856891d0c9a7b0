/**
 * The mock SMS service: one-time codes kept per phone number for five
 * minutes, a send history per phone, single-use verification and a sweep
 * of expired codes.  The random draw, the clock and the development flag
 * are parameters.
 */
module MockSms {
  import opened Common
  import opened Text

  /** A stored code. */
  datatype CodeRecord = CodeRecord(code: string, kind: string, timestamp: int, expires: int)

  /** One send, as the history records it. */
  datatype SendRecord = SendRecord(code: string, kind: string, timestamp: int, phone: string)

  datatype SendResult = SendResult(success: bool, message: string, code: string)

  datatype VerifyResult = VerifyResult(valid: bool, message: string)

  /** Codes expire five minutes after they are sent. */
  const CodeTtlMs := 5 * 60 * 1000

  /** `generateCode`: `floor(100000 + random * 900000)` for a draw in [0, 1). */
  function CodeNumber(random: real): (n: nat)
    requires 0.0 <= random < 1.0
    ensures 100000 <= n <= 999999
  {
    var x := 100000.0 + random * 900000.0;
    assert 100000.0 <= x < 1000000.0;
    x.Floor
  }

  /** The code's text has exactly six digits. */
  function GenerateCode(random: real): (code: string)
    requires 0.0 <= random < 1.0
    ensures |code| == 6 && AllChars(code, IsDigit)
  {
    var n := CodeNumber(random);
    assert Pow10(5) == 100000 && Pow10(6) == 1000000;
    NatToStringLength(n, 6);
    NatToString(n)
  }

  /**
   * The outcome of `verifyCode` for the stored record: no record, an
   * expired record and a wrong code are refused; the right code within the
   * lifetime is accepted.
   */
  function Verdict(stored: Option<CodeRecord>, input: string, now: int): (r: VerifyResult)
    ensures r.valid <==> stored.Some? && now <= stored.value.expires && stored.value.code == input
  {
    match stored
    case None => VerifyResult(false, "验证码不存在或已过期")
    case Some(rec) =>
      if now > rec.expires then VerifyResult(false, "验证码已过期")
      else if rec.code != input then VerifyResult(false, "验证码错误")
      else VerifyResult(true, "验证成功")
  }

  /** Whether `verifyCode` deletes the record: on expiry and on success. */
  predicate Consumes(stored: Option<CodeRecord>, input: string, now: int) {
    stored.Some? && (now > stored.value.expires || stored.value.code == input)
  }

  /** The codes a sweep at `now` keeps: exactly those not yet expired. */
  function Unexpired(codes: map<string, CodeRecord>, now: int): (r: map<string, CodeRecord>)
    ensures forall p :: p in r <==> p in codes && now <= codes[p].expires
    ensures forall p :: p in r ==> r[p] == codes[p]
  {
    map p | p in codes && now <= codes[p].expires :: codes[p]
  }

  function Lookup(codes: map<string, CodeRecord>, phone: string): Option<CodeRecord> {
    if phone in codes then Some(codes[phone]) else None
  }

  class MockSmsService {
    var codes: map<string, CodeRecord>
    var sendHistory: map<string, seq<SendRecord>>

    constructor()
      ensures codes == map[] && sendHistory == map[]
    {
      codes := map[];
      sendHistory := map[];
    }

    /**
     * `sendSMS`: stores a fresh code for the phone, replacing any earlier
     * one, and appends the send to the phone's history.  The code is
     * returned only in development.
     */
    method SendSms(phone: string, kind: string, random: real, now: int, development: bool)
      returns (r: SendResult)
      requires 0.0 <= random < 1.0
      modifies this
      ensures var code := GenerateCode(random);
        codes == old(codes)[phone := CodeRecord(code, kind, now, now + CodeTtlMs)]
        && sendHistory == old(sendHistory)[phone := old(GetSendHistory(phone)) + [SendRecord(code, kind, now, phone)]]
        && r.success && r.code == (if development then code else "")
    {
      var code := GenerateCode(random);
      codes := codes[phone := CodeRecord(code, kind, now, now + CodeTtlMs)];
      var history := if phone in sendHistory then sendHistory[phone] else [];
      history := history + [SendRecord(code, kind, now, phone)];
      sendHistory := sendHistory[phone := history];
      r := SendResult(true, "验证码发送成功", if development then code else "");
    }

    /**
     * `verifyCode`: the verdict for the stored record; an expired record
     * and a matching code are deleted, so a code is accepted at most once.
     */
    method VerifyCode(phone: string, input: string, now: int) returns (r: VerifyResult)
      modifies this
      ensures r == Verdict(Lookup(old(codes), phone), input, now)
      ensures Consumes(Lookup(old(codes), phone), input, now) ==> codes == old(codes) - {phone}
      ensures !Consumes(Lookup(old(codes), phone), input, now) ==> codes == old(codes)
      ensures r.valid ==> phone !in codes
      ensures sendHistory == old(sendHistory)
    {
      if phone !in codes {
        return VerifyResult(false, "验证码不存在或已过期");
      }
      var stored := codes[phone];
      if now > stored.expires {
        codes := codes - {phone};
        return VerifyResult(false, "验证码已过期");
      }
      if stored.code != input {
        return VerifyResult(false, "验证码错误");
      }
      codes := codes - {phone};
      r := VerifyResult(true, "验证成功");
    }

    /** `getSendHistory`: the phone's sends in order, [] for an unknown phone. */
    function GetSendHistory(phone: string): (h: seq<SendRecord>)
      reads this
      ensures phone !in sendHistory ==> h == []
      ensures phone in sendHistory ==> h == sendHistory[phone]
    {
      if phone in sendHistory then sendHistory[phone] else []
    }

    /** `cleanup`: deletes exactly the expired codes, one entry at a time. */
    method Cleanup(now: int)
      modifies this
      ensures codes == Unexpired(old(codes), now)
      ensures sendHistory == old(sendHistory)
    {
      var pending := codes.Keys;
      ghost var before := codes;
      while pending != {}
        invariant pending <= before.Keys
        invariant forall p :: p in codes <==> p in before && (p in pending || now <= before[p].expires)
        invariant forall p :: p in codes ==> codes[p] == before[p]
        invariant sendHistory == old(sendHistory)
        decreases |pending|
      {
        var phone :| phone in pending;
        if now > codes[phone].expires {
          codes := codes - {phone};
        }
        pending := pending - {phone};
      }
    }
  }

  /** A code is single-use: once accepted, verifying the same code again is refused. */
  lemma SingleUse(codes: map<string, CodeRecord>, phone: string, input: string, now: int, later: int)
    requires Verdict(Lookup(codes, phone), input, now).valid
    ensures !Verdict(Lookup(codes - {phone}, phone), input, later).valid
  {
  }
}
