// backend/otp_service.py: the per-phone OTP record that send_otp overwrites
// and verify_otp consumes. The random code and the current time (whole
// seconds) are parameters; Twilio delivery is not modelled, so send_otp
// answers as in demo mode.
module OtpService {
  import opened Wrappers

  datatype OtpRecord = OtpRecord(otp: string, expiry: int, verified: bool)

  /** The dict send_otp returns. */
  datatype SendResult = SendResult(success: bool, message: string, sid: Option<string>, otp: Option<string>)

  /** The dict verify_otp returns. */
  datatype VerifyResult = VerifyResult(success: bool, message: string)

  const OtpLifetime := 300
  const MinCode := 100000
  const MaxCode := 999999

  function DigitChar(d: nat): char
    requires d < 10
  {
    ('0' as int + d) as char
  }

  /** str(n) for a natural number n. */
  function Decimal(n: nat): (s: string)
    ensures |s| > 0
    decreases n
  {
    if n < 10 then [DigitChar(n)] else Decimal(n / 10) + [DigitChar(n % 10)]
  }

  function Pow10(k: nat): (p: nat)
    ensures p >= 1
  {
    if k == 0 then 1 else 10 * Pow10(k - 1)
  }

  lemma {:induction false} DecimalShape(n: nat, k: nat)
    requires Pow10(k) <= n < 10 * Pow10(k)
    ensures |Decimal(n)| == k + 1
    ensures forall i :: 0 <= i < |Decimal(n)| ==> '0' <= Decimal(n)[i] <= '9'
  {
    if k > 0 {
      assert n >= 10;
      DecimalShape(n / 10, k - 1);
    }
  }

  /** Every code randint(100000, 999999) can draw is stored as six decimal digits. */
  lemma SixDigitCode(code: int)
    requires MinCode <= code <= MaxCode
    ensures |Decimal(code)| == 6
    ensures forall i :: 0 <= i < 6 ==> '0' <= Decimal(code)[i] <= '9'
  {
    assert Pow10(5) == 100000 by {
      assert Pow10(1) == 10;
      assert Pow10(2) == 100;
      assert Pow10(3) == 1000;
      assert Pow10(4) == 10000;
    }
    DecimalShape(code, 5);
  }

  /** verify_otp on a snapshot of the records: its answer and the records afterwards.
      The checks run in the order verify_otp makes them: no record, already used, expired, mismatch. */
  function Verify(records: map<string, OtpRecord>, phone: string, otp: string, now: int): (r: (VerifyResult, map<string, OtpRecord>))
    ensures r.0.success <==>
      phone in records && !records[phone].verified && now <= records[phone].expiry && records[phone].otp == otp
    ensures r.0.success ==> r.1 == records[phone := records[phone].(verified := true)]
    ensures !r.0.success ==> r.1 == records
  {
    if phone !in records then (VerifyResult(false, "No OTP found for this phone number"), records)
    else
      var rec := records[phone];
      if rec.verified then (VerifyResult(false, "OTP already used"), records)
      else if now > rec.expiry then (VerifyResult(false, "OTP has expired"), records)
      else if rec.otp == otp then
        (VerifyResult(true, "OTP verified successfully"), records[phone := rec.(verified := true)])
      else (VerifyResult(false, "Invalid OTP"), records)
  }

  /** The record send_otp stores for a code drawn at time now. */
  function FreshRecord(code: nat, now: int): OtpRecord {
    OtpRecord(Decimal(code), now + OtpLifetime, false)
  }

  /** The answer of send_otp in demo mode: the code itself is part of it. */
  function DemoReply(code: nat): (r: SendResult)
    ensures r.success && r.sid.None? && r.otp == Some(Decimal(code))
  {
    SendResult(true, "OTP sent successfully (Demo Mode)", None, Some(Decimal(code)))
  }

  class OtpStore {
    /** otp_collection, keyed by phone number. */
    var records: map<string, OtpRecord>

    constructor ()
      ensures records == map[]
    {
      records := map[];
    }

    /** send_otp: upsert the record for phone, replacing any earlier code. */
    method SendOtp(phone: string, code: int, now: int) returns (r: SendResult)
      requires MinCode <= code <= MaxCode
      modifies this
      ensures records == old(records)[phone := FreshRecord(code, now)]
      ensures r == DemoReply(code)
    {
      var otp := Decimal(code);
      var expiry := now + OtpLifetime;
      records := records[phone := OtpRecord(otp, expiry, false)];
      r := SendResult(true, "OTP sent successfully (Demo Mode)", None, Some(otp));
    }

    /** verify_otp. */
    method VerifyOtp(phone: string, otp: string, now: int) returns (r: VerifyResult)
      modifies this
      ensures (r, records) == Verify(old(records), phone, otp, now)
    {
      if phone !in records {
        return VerifyResult(false, "No OTP found for this phone number");
      }
      var doc := records[phone];
      if doc.verified {
        return VerifyResult(false, "OTP already used");
      }
      if now > doc.expiry {
        return VerifyResult(false, "OTP has expired");
      }
      if doc.otp == otp {
        records := records[phone := doc.(verified := true)];
        return VerifyResult(true, "OTP verified successfully");
      }
      r := VerifyResult(false, "Invalid OTP");
    }
  }

  /** The failure messages follow the order of the checks: a used record is
      reported as used even with the right code and past its expiry. */
  lemma VerifyFailureMessages(records: map<string, OtpRecord>, phone: string, otp: string, now: int)
    ensures phone !in records ==> Verify(records, phone, otp, now).0.message == "No OTP found for this phone number"
    ensures phone in records && records[phone].verified ==> Verify(records, phone, otp, now).0.message == "OTP already used"
    ensures phone in records && !records[phone].verified && now > records[phone].expiry ==>
      Verify(records, phone, otp, now).0.message == "OTP has expired"
    ensures phone in records && !records[phone].verified && now <= records[phone].expiry && records[phone].otp != otp ==>
      Verify(records, phone, otp, now).0.message == "Invalid OTP"
  {
  }

  /** A code is consumed by its first successful use: verifying it again fails as used. */
  lemma VerifyIsSingleUse(records: map<string, OtpRecord>, phone: string, otp: string, now: int, later: int)
    requires Verify(records, phone, otp, now).0.success
    ensures Verify(Verify(records, phone, otp, now).1, phone, otp, later) ==
      (VerifyResult(false, "OTP already used"), Verify(records, phone, otp, now).1)
  {
  }

  /** After send_otp at time t with a code, that code verifies at every time up to
      and including t + 300 seconds and is expired afterwards; any earlier code, used or
      not, is forgotten. */
  lemma SendThenVerify(records: map<string, OtpRecord>, phone: string, code: nat, t: int, now: int)
    requires MinCode <= code <= MaxCode
    ensures var after := records[phone := FreshRecord(code, t)];
      (now <= t + OtpLifetime ==> Verify(after, phone, Decimal(code), now).0.success) &&
      (now > t + OtpLifetime ==> Verify(after, phone, Decimal(code), now).0 == VerifyResult(false, "OTP has expired"))
  {
  }
}
