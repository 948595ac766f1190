/** NotificationService: the in-memory one-time-password store, the number formatting used
    before an SMS is handed to the carrier, and the notification kinds and message
    templates chosen for deposits and withdrawals. Sending itself is outside the model;
    a sent notification is recorded as a `Notice`. */
module Notifications {
  import opened Wrappers
  import opened Text
  import opened PhoneNumbers

  // ---- one-time passwords ----

  const OtpLength: nat := 6
  /** Five minutes, in milliseconds. */
  const OtpExpiryMillis: nat := 5 * 60 * 1000
  /** `random.nextInt(1000000)` draws below this bound. */
  const OtpBound: nat := 1000000

  datatype OtpEntry = OtpEntry(code: string, expiry: nat)

  /** The store, keyed by the phone number the caller passes. */
  type OtpStore = map<string, OtpEntry>

  /** `String.format("%06d", n)`: zero-padded to six digits. */
  function FormatOtp(n: nat): (r: string)
    requires n < OtpBound
    ensures |r| == OtpLength && AllDigits(r)
    ensures DecimalValue(r) == n
  {
    var d := Decimal(n);
    assert Pow10(6) == OtpBound;
    DecimalLength(n, 6, Pow10(6));
    LeadingZerosValue(6 - |d|, d);
    DecimalRoundTrip(n);
    Zeros(6 - |d|) + d
  }

  /** Different draws give different codes. */
  lemma FormatOtpInjective(a: nat, b: nat)
    requires a < OtpBound && b < OtpBound
    requires FormatOtp(a) == FormatOtp(b)
    ensures a == b
  {
  }

  /** `now.isAfter(expiry)`. */
  predicate IsExpired(e: OtpEntry, now: nat) {
    now > e.expiry
  }

  datatype OtpSent = OtpSent(store: OtpStore, outcome: Result<string, string>)

  /** `generateAndSendOTP`: the code is stored before the SMS is attempted, so a failed SMS
      ("Failed to send OTP") still leaves the new code in place. `draw` is the random number
      and `smsFails` says whether the carrier call throws. */
  function GenerateOtp(store: OtpStore, phone: string, draw: nat, now: nat, smsFails: bool): (r: OtpSent)
    requires draw < OtpBound
    ensures phone in r.store && r.store[phone] == OtpEntry(FormatOtp(draw), now + OtpExpiryMillis)
    ensures r.store.Keys == store.Keys + {phone}
    ensures forall k :: k in store && k != phone ==> r.store[k] == store[k]
    ensures r.outcome == (if smsFails then Err("Failed to send OTP") else Ok(FormatOtp(draw)))
  {
    var code := FormatOtp(draw);
    var s := store[phone := OtpEntry(code, now + OtpExpiryMillis)];
    OtpSent(s, if smsFails then Err("Failed to send OTP") else Ok(code))
  }

  datatype OtpChecked = OtpChecked(store: OtpStore, valid: bool)

  /** `verifyOTP`. `provided` is `None` for a null code. */
  function VerifyOtp(store: OtpStore, phone: string, provided: Option<string>, now: nat): (r: OtpChecked)
    ensures phone !in store ==> r == OtpChecked(store, false)
    ensures r.valid <==> phone in store && !IsExpired(store[phone], now) && provided == Some(store[phone].code)
    ensures phone in store && IsExpired(store[phone], now) ==> r.store == store - {phone}
    ensures r.valid ==> r.store == store - {phone}
    ensures phone in store && !IsExpired(store[phone], now) && !r.valid ==> r.store == store
  {
    if phone !in store then OtpChecked(store, false)
    else
      var e := store[phone];
      if IsExpired(e, now) then OtpChecked(store - {phone}, false)
      else if provided == Some(e.code) then OtpChecked(store - {phone}, true)
      else OtpChecked(store, false)
  }

  /** A code is good once: the same code presented again is refused. */
  lemma OtpSingleUse(store: OtpStore, phone: string, code: Option<string>, t1: nat, t2: nat)
    requires VerifyOtp(store, phone, code, t1).valid
    ensures !VerifyOtp(VerifyOtp(store, phone, code, t1).store, phone, code, t2).valid
  {
  }

  /** A freshly generated code verifies until its expiry instant, inclusive, and not after. */
  lemma GenerateThenVerify(store: OtpStore, phone: string, draw: nat, now: nat, smsFails: bool, later: nat)
    requires draw < OtpBound
    ensures var s := GenerateOtp(store, phone, draw, now, smsFails).store;
            VerifyOtp(s, phone, Some(FormatOtp(draw)), later).valid <==> later <= now + OtpExpiryMillis
  {
  }

  /** A newer code replaces the older one, which then no longer verifies (when the codes
      differ). */
  lemma RegenerateReplaces(store: OtpStore, phone: string, d1: nat, d2: nat, t1: nat, t2: nat,
                           f1: bool, f2: bool, later: nat)
    requires d1 < OtpBound && d2 < OtpBound && d1 != d2
    ensures var s := GenerateOtp(GenerateOtp(store, phone, d1, t1, f1).store, phone, d2, t2, f2).store;
            !VerifyOtp(s, phone, Some(FormatOtp(d1)), later).valid
  {
    if FormatOtp(d1) == FormatOtp(d2) {
      FormatOtpInjective(d1, d2);
    }
  }

  /** `cleanupExpiredOTPs`: drops exactly the expired entries. */
  function CleanupExpired(store: OtpStore, now: nat): (r: OtpStore)
    ensures forall k :: k in r <==> k in store && !IsExpired(store[k], now)
    ensures forall k :: k in r ==> r[k] == store[k]
  {
    map k | k in store && !IsExpired(store[k], now) :: store[k]
  }

  /** Cleaning up first never changes what a verification at the same instant decides. */
  lemma CleanupPreservesVerdict(store: OtpStore, phone: string, code: Option<string>, now: nat)
    ensures VerifyOtp(CleanupExpired(store, now), phone, code, now).valid == VerifyOtp(store, phone, code, now).valid
  {
  }

  // ---- SMS number formatting ----

  /** The regex class `[\s\-\(\)]`. */
  predicate IsSeparator(c: char) {
    IsRegexSpace(c) || c == '-' || c == '(' || c == ')'
  }

  predicate NotSeparator(c: char) {
    !IsSeparator(c)
  }

  predicate NoSeparator(s: string) {
    forall i :: 0 <= i < |s| ==> !IsSeparator(s[i])
  }

  /** `replaceAll("[\\s\\-\\(\\)]", "")`. */
  function RemoveSeparators(s: string): (r: string)
    ensures NoSeparator(r)
    ensures r == Filter(s, NotSeparator)
    ensures NoSeparator(s) ==> r == s
    decreases |s|
  {
    if |s| == 0 then []
    else if IsSeparator(s[0]) then RemoveSeparators(s[1..])
    else
      var rest := RemoveSeparators(s[1..]);
      assert NoSeparator(s) ==> NoSeparator(s[1..]);
      [s[0]] + rest
  }

  /** `formatPhoneNumber`: separators are removed and a missing "+" or "+237" is added. */
  function FormatForSms(phone: string): (r: string)
    ensures StartsWith(r, "+") && NoSeparator(r)
    ensures var c := RemoveSeparators(phone);
            (StartsWith(c, "+") ==> r == c) &&
            (!StartsWith(c, "+") && StartsWith(c, "237") ==> r == "+" + c) &&
            (!StartsWith(c, "+") && !StartsWith(c, "237") ==> r == "+237" + c)
  {
    var cleaned := RemoveSeparators(phone);
    if StartsWith(cleaned, "+") then cleaned
    else if StartsWith(cleaned, "237") then "+" + cleaned
    else "+237" + cleaned
  }

  /** Formatting is idempotent. */
  lemma FormatForSmsIdempotent(phone: string)
    ensures FormatForSms(FormatForSms(phone)) == FormatForSms(phone)
  {
    var r := FormatForSms(phone);
    assert RemoveSeparators(r) == r;
    assert r[..1] == "+";
  }

  /** Digits and a plus sign are never removed. */
  lemma PlainNumberKept(s: string)
    requires forall i :: 0 <= i < |s| ==> IsDigit(s[i]) || s[i] == '+'
    ensures RemoveSeparators(s) == s
  {
    assert NoSeparator(s);
  }

  lemma FormatQualified(l: string)
    requires IsLocalNumber(l)
    ensures FormatForSms("+237" + l) == "+237" + l
  {
    var b := "+237" + l;
    assert forall i :: 4 <= i < |b| ==> b[i] == l[i - 4];
    PlainNumberKept(b);
    assert b[..1] == "+";
  }

  lemma FormatCountryCode(l: string)
    requires IsLocalNumber(l)
    ensures FormatForSms("237" + l) == "+237" + l
  {
    var a := "237" + l;
    assert forall i :: 3 <= i < |a| ==> a[i] == l[i - 3];
    PlainNumberKept(a);
    assert a[..3] == "237" && a[..1] != "+";
    assert "+" + a == "+237" + l;
  }

  lemma FormatLocal(l: string)
    requires IsLocalNumber(l) && !StartsWith(l, "237")
    ensures FormatForSms(l) == "+237" + l
  {
    PlainNumberKept(l);
    assert l[..1] != "+";
  }

  /** On the numbers the store holds, and on the local and "237" spellings of them, the SMS
      formatting agrees with the normaliser used for look-ups. */
  lemma FormatAgreesWithNormalize(l: string)
    requires IsLocalNumber(l) && !StartsWith(l, "237")
    ensures FormatForSms("+237" + l) == Normalize(Some("+237" + l)).value
    ensures FormatForSms("237" + l) == Normalize(Some("237" + l)).value
    ensures FormatForSms(l) == Normalize(Some(l)).value
  {
    FormsAgree(l);
    FormatQualified(l);
    FormatCountryCode(l);
    FormatLocal(l);
  }

  // ---- notifications ----

  /** A notification handed to the sender: the recipient's phone and the notification type. */
  datatype Notice = Notice(phone: string, kind: string)

  /** Which of the three message texts a deposit or withdrawal notification uses. */
  datatype Template = SuccessText | FailureText | PendingText

  /** The template choice of `sendDepositNotification` and `sendWithdrawalNotification`. */
  function TemplateFor(status: string): (t: Template)
    ensures t == SuccessText <==> status == "COMPLETED"
    ensures t == FailureText <==> status == "FAILED"
  {
    if status == "COMPLETED" then SuccessText
    else if status == "FAILED" then FailureText
    else PendingText
  }

  function DepositNotice(phone: string, status: string): (n: Notice)
    ensures n.phone == phone && StartsWith(n.kind, "DEPOSIT_") && n.kind[8..] == status
  {
    Notice(phone, "DEPOSIT_" + status)
  }

  function WithdrawalNotice(phone: string, status: string): (n: Notice)
    ensures n.phone == phone && StartsWith(n.kind, "WITHDRAWAL_") && n.kind[11..] == status
  {
    Notice(phone, "WITHDRAWAL_" + status)
  }

  /** The notification type identifies the operation and the status: no deposit type equals
      a withdrawal type, and each status has its own type. */
  lemma NoticeKindsDistinct(p: string, s1: string, s2: string)
    ensures DepositNotice(p, s1) != WithdrawalNotice(p, s2)
    ensures DepositNotice(p, s1) == DepositNotice(p, s2) ==> s1 == s2
    ensures WithdrawalNotice(p, s1) == WithdrawalNotice(p, s2) ==> s1 == s2
  {
    var d := DepositNotice(p, s1).kind;
    var w := WithdrawalNotice(p, s2).kind;
    assert d[0] == 'D' && w[0] == 'W';
  }
}
