/** Cameroon phone-number normalisation, extraction and validation (PhoneNumberUtils). */
module PhoneNumbers {
  import opened Wrappers
  import opened Text

  /** `^[26][0-9]{8}$`: a nine-digit local Cameroon number. */
  predicate IsLocalNumber(t: string) {
    |t| == 9 && (t[0] == '2' || t[0] == '6') && AllDigits(t)
  }

  /** `^\+237[26][0-9]{8}$`: the stored, fully qualified form. */
  predicate IsFullNumber(n: string) {
    |n| == 13 && StartsWith(n, "+237") && IsLocalNumber(n[4..])
  }

  /** `normalizePhoneNumber`: null and blank inputs come back untouched; otherwise the
      trimmed text gets the missing part of the "+237" prefix, if it has a recognised shape. */
  function Normalize(p: Option<string>): (r: Option<string>)
    ensures r.Some? <==> p.Some?
    ensures p.Some? && IsBlank(p.value) ==> r == p
    ensures p.Some? && !IsBlank(p.value) ==>
              var t := Trim(p.value);
              IsTrimmed(r.value) && |r.value| > 0 &&
              (r.value == t || r.value == "+" + t || r.value == "+237" + t)
    ensures p.Some? && !IsBlank(p.value) ==>
              var t := Trim(p.value);
              (StartsWith(t, "+237") ==> r.value == t) &&
              (!StartsWith(t, "+237") && StartsWith(t, "237") ==> r.value == "+" + t) &&
              (!StartsWith(t, "237") && IsLocalNumber(t) ==> r.value == "+237" + t) &&
              (!StartsWith(t, "+237") && !StartsWith(t, "237") && !IsLocalNumber(t) ==> r.value == t)
    ensures p.Some? && !IsBlank(p.value) ==>
              var t := Trim(p.value);
              (StartsWith(r.value, "+237") <==>
                 StartsWith(t, "+237") || StartsWith(t, "237") || IsLocalNumber(t))
  {
    match p
    case None => None
    case Some(s) =>
      if IsBlank(s) then p
      else
        var t := Trim(s);
        if StartsWith(t, "+237") then Some(t)
        else if StartsWith(t, "237") then Some("+" + t)
        else if IsLocalNumber(t) then Some("+237" + t)
        else Some(t)
  }

  /** `extractLocalNumber`: drops a leading "+237" or "237" from the trimmed text. */
  function ExtractLocal(p: Option<string>): (r: Option<string>)
    ensures r.Some? <==> p.Some?
    ensures p.Some? && IsBlank(p.value) ==> r == p
    ensures p.Some? && !IsBlank(p.value) ==>
              var t := Trim(p.value);
              (StartsWith(t, "+237") ==> t == "+237" + r.value) &&
              (!StartsWith(t, "+237") && StartsWith(t, "237") ==> t == "237" + r.value) &&
              (!StartsWith(t, "+237") && !StartsWith(t, "237") ==> r.value == t)
  {
    match p
    case None => None
    case Some(s) =>
      if IsBlank(s) then p
      else
        var t := Trim(s);
        if StartsWith(t, "+237") then Some(t[4..])
        else if StartsWith(t, "237") then Some(t[3..])
        else Some(t)
  }

  /** `isValidCameroonNumber`: the normalised form matches `^\+237[26][0-9]{8}$`. */
  function IsValidCameroon(p: Option<string>): (b: bool)
    ensures p.None? ==> !b
    ensures p.Some? && IsBlank(p.value) ==> !b
    ensures b ==> Normalize(p).Some? && IsFullNumber(Normalize(p).value) && |Normalize(p).value| == 13
  {
    match p
    case None => false
    case Some(s) => !IsBlank(s) && IsFullNumber(Normalize(p).value)
  }

  /** `getPhoneNumberForLookup`. */
  function ForLookup(p: Option<string>): Option<string> {
    match p
    case None => p
    case Some(s) => if IsBlank(s) then p else Normalize(p)
  }

  /** The lookup key is always the normalised number. */
  lemma LookupIsNormalize(p: Option<string>)
    ensures ForLookup(p) == Normalize(p)
  {
  }

  /** Normalising twice is normalising once. */
  lemma NormalizeIdempotent(p: Option<string>)
    ensures Normalize(Normalize(p)) == Normalize(p)
  {
    if p.Some? && !IsBlank(p.value) {
      var t := Trim(p.value);
      var n := Normalize(p).value;
      assert Trim(n) == n;
      assert !IsBlank(n);
      if StartsWith(t, "+237") {
      } else if StartsWith(t, "237") {
        assert n == "+" + t;
        assert n[..4] == "+" + t[..3];
      } else if IsLocalNumber(t) {
        assert n[..4] == "+237";
      }
    }
  }

  /** A local number that does not itself begin with "237" survives the round trip
      through the qualified form. */
  lemma ExtractAfterNormalize(n: string)
    requires IsLocalNumber(n) && !StartsWith(n, "237")
    ensures ExtractLocal(Normalize(Some(n))) == Some(n)
  {
    assert IsTrimmed(n) by { assert IsDigit(n[0]) && IsDigit(n[8]); }
    assert !IsBlank(n);
    var q := "+237" + n;
    assert Normalize(Some(n)) == Some(q);
    assert IsTrimmed(q);
    assert !IsBlank(q);
    assert StartsWith(q, "+237");
    assert q[4..] == n;
  }

  /** The input shapes `isValidCameroonNumber` accepts, stated on the trimmed text without
      reference to the normaliser. */
  predicate AcceptedShape(t: string) {
    || IsFullNumber(t)
    || (|t| == 12 && StartsWith(t, "237") && IsLocalNumber(t[3..]))
    || (IsLocalNumber(t) && !StartsWith(t, "237"))
  }

  /** Validation accepts exactly the three shapes: "+237" + local, "237" + local, and a bare
      local number, except that a bare local number beginning with "237" is taken as
      already carrying the country code and so is rejected. */
  lemma ValidIffAcceptedShape(s: string)
    ensures IsValidCameroon(Some(s)) <==> AcceptedShape(Trim(s))
  {
    var t := Trim(s);
    if IsBlank(s) {
      assert |t| == 0;
    } else {
      var n := Normalize(Some(s)).value;
      if StartsWith(t, "+237") {
        assert n == t;
        assert !IsDigit(t[0]);
      } else if StartsWith(t, "237") {
        assert n == "+" + t;
        assert n[4..] == t[3..];
        assert t[0] != '+';
        if IsFullNumber(n) {
          assert n[..4] == "+237";
        }
        if |t| == 12 && IsLocalNumber(t[3..]) {
          assert n[..4] == "+" + t[..3];
        }
      } else if IsLocalNumber(t) {
        assert n == "+237" + t;
        assert n[4..] == t;
        assert n[..4] == "+237";
      } else {
        assert n == t;
      }
    }
  }

  /** A string of digits has nothing for `trim()` to remove. */
  lemma LocalIsTrimmed(l: string)
    requires IsLocalNumber(l)
    ensures IsTrimmed(l) && Trim(l) == l && !IsBlank(l)
  {
    assert IsDigit(l[0]) && IsDigit(l[8]);
  }

  lemma QualifiedForm(l: string)
    requires IsLocalNumber(l)
    ensures Normalize(Some("+237" + l)) == Some("+237" + l)
    ensures IsFullNumber("+237" + l)
  {
    var b := "+237" + l;
    assert IsDigit(l[8]);
    assert IsTrimmed(b);
    assert StartsWith(b, "+237");
    assert b[4..] == l;
  }

  lemma CountryCodeForm(l: string)
    requires IsLocalNumber(l)
    ensures Normalize(Some("237" + l)) == Some("+237" + l)
  {
    var a := "237" + l;
    assert IsDigit(l[8]);
    assert IsTrimmed(a);
    assert !StartsWith(a, "+237") && StartsWith(a, "237");
    assert "+" + a == "+237" + l;
  }

  /** The three written forms of one number are all valid and normalise to the same key. */
  lemma FormsAgree(l: string)
    requires IsLocalNumber(l) && !StartsWith(l, "237")
    ensures Normalize(Some(l)) == Normalize(Some("237" + l)) == Normalize(Some("+237" + l)) == Some("+237" + l)
    ensures IsValidCameroon(Some(l)) && IsValidCameroon(Some("237" + l)) && IsValidCameroon(Some("+237" + l))
  {
    LocalIsTrimmed(l);
    QualifiedForm(l);
    CountryCodeForm(l);
  }
}
