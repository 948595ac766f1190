/** Control-character sanitisers of the request objects: the description of a gateway
    payout request (CampayDisburseRequest) and the PIN and provider of a withdrawal
    request (WithdrawalRequest). */
module Sanitizers {
  import opened Wrappers
  import opened Text

  // ---- regex replacements ----

  /** `replaceAll("\\p{Cntrl}", " ")`. */
  function ControlsToSpaces(s: string): (r: string)
    ensures |r| == |s|
    ensures forall i :: 0 <= i < |s| ==> r[i] == (if IsControl(s[i]) then ' ' else s[i])
  {
    seq(|s|, i requires 0 <= i < |s| => if IsControl(s[i]) then ' ' else s[i])
  }

  /** `replaceAll("\\p{Cntrl}", "")`. */
  function StripControls(s: string): (r: string)
    ensures NoControl(r)
    ensures r == Filter(s, NotControl)
    ensures NoControl(s) ==> r == s
    decreases |s|
  {
    if |s| == 0 then []
    else if IsControl(s[0]) then StripControls(s[1..])
    else
      var rest := StripControls(s[1..]);
      assert NoControl(s) ==> NoControl(s[1..]);
      [s[0]] + rest
  }

  /** No two neighbouring characters both match `\s`. */
  predicate NoDoubleSpace(s: string) {
    forall i :: 0 <= i < |s| - 1 ==> !(IsRegexSpace(s[i]) && IsRegexSpace(s[i + 1]))
  }

  /** Every `\s` character is the plain space U+0020. */
  predicate SpacesArePlain(s: string) {
    forall i :: 0 <= i < |s| ==> IsRegexSpace(s[i]) ==> s[i] == ' '
  }

  /** Drops the run of `\s` characters at the front. */
  function SkipSpaces(s: string): (r: string)
    ensures |r| <= |s| && r == s[|s| - |r|..]
    ensures |r| > 0 ==> !IsRegexSpace(r[0])
    ensures |s| > 0 && !IsRegexSpace(s[0]) ==> r == s
    decreases |s|
  {
    if |s| > 0 && IsRegexSpace(s[0]) then SkipSpaces(s[1..]) else s
  }

  /** `replaceAll("\\s+", " ")`: every maximal run of `\s` becomes one space. */
  function CollapseSpaces(s: string): (r: string)
    ensures |r| == 0 <==> |s| == 0
    ensures |s| > 0 ==> (IsRegexSpace(r[0]) <==> IsRegexSpace(s[0]))
    ensures NoDoubleSpace(r)
    ensures SpacesArePlain(r)
    ensures NoControl(s) ==> NoControl(r)
    decreases |s|
  {
    if |s| == 0 then []
    else if IsRegexSpace(s[0]) then
      var k := SkipSpaces(s[1..]);
      assert NoControl(s) ==> NoControl(k) by {
        if NoControl(s) {
          assert forall i :: 0 <= i < |k| ==> k[i] == s[|s| - |k| + i];
        }
      }
      [' '] + CollapseSpaces(k)
    else
      assert NoControl(s) ==> NoControl(s[1..]);
      [s[0]] + CollapseSpaces(s[1..])
  }

  /** Collapsing only rewrites `\s` runs: every other character is kept, in order. */
  lemma {:induction false} CollapseKeepsNonSpace(s: string)
    ensures Filter(CollapseSpaces(s), NotSpace) == Filter(s, NotSpace)
    decreases |s|
  {
    if |s| > 0 {
      if IsRegexSpace(s[0]) {
        var k := SkipSpaces(s[1..]);
        CollapseKeepsNonSpace(k);
        FilterConcat([' '], CollapseSpaces(k), NotSpace);
        SkippedSpacesInvisible(s[1..]);
      } else {
        CollapseKeepsNonSpace(s[1..]);
        FilterConcat([s[0]], CollapseSpaces(s[1..]), NotSpace);
      }
    }
  }

  /** What `SkipSpaces` drops holds no non-space character. */
  lemma SkippedSpacesInvisible(s: string)
    ensures Filter(SkipSpaces(s), NotSpace) == Filter(s, NotSpace)
  {
    var k := SkipSpaces(s);
    var front := s[..|s| - |k|];
    assert s == front + k;
    FilterConcat(front, k, NotSpace);
    SkippedAreSpaces(s);
  }

  lemma {:induction false} SkippedAreSpaces(s: string)
    ensures forall i :: 0 <= i < |s| - |SkipSpaces(s)| ==> IsRegexSpace(s[i])
    ensures Filter(s[..|s| - |SkipSpaces(s)|], NotSpace) == []
    decreases |s|
  {
    if |s| > 0 && IsRegexSpace(s[0]) {
      SkippedAreSpaces(s[1..]);
      assert forall i :: 1 <= i < |s| - |SkipSpaces(s)| ==> s[i] == s[1..][i - 1];
    }
    var front := s[..|s| - |SkipSpaces(s)|];
    assert forall i :: 0 <= i < |front| ==> !NotSpace(front[i]);
  }

  /** A left-to-right reading of `replaceAll("\s+", " ")`: a `\s` character is written as
      a space unless the previous character was one too. */
  function Squeeze(s: string, afterSpace: bool): string
    decreases |s|
  {
    if |s| == 0 then []
    else if IsRegexSpace(s[0]) then
      (if afterSpace then [] else [' ']) + Squeeze(s[1..], true)
    else [s[0]] + Squeeze(s[1..], false)
  }

  lemma {:induction false} SqueezeSkips(s: string)
    ensures Squeeze(s, true) == Squeeze(SkipSpaces(s), true)
    decreases |s|
  {
    if |s| > 0 && IsRegexSpace(s[0]) {
      SqueezeSkips(s[1..]);
    }
  }

  /** The run-skipping collapse and the one-character-at-a-time reading agree everywhere. */
  lemma {:induction false} CollapseIsSqueeze(s: string)
    ensures CollapseSpaces(s) == Squeeze(s, false)
    decreases |s|
  {
    if |s| > 0 {
      if IsRegexSpace(s[0]) {
        var k := SkipSpaces(s[1..]);
        SqueezeSkips(s[1..]);
        CollapseIsSqueeze(k);
        assert Squeeze(k, true) == Squeeze(k, false);
      } else {
        CollapseIsSqueeze(s[1..]);
      }
    }
  }

  /** A text already free of space runs and of non-plain spaces is left alone. */
  lemma {:induction false} CollapseFixpoint(s: string)
    requires NoDoubleSpace(s) && SpacesArePlain(s)
    ensures CollapseSpaces(s) == s
    decreases |s|
  {
    if |s| > 0 {
      var t := s[1..];
      assert NoDoubleSpace(t) by {
        assert forall i :: 0 <= i < |t| ==> t[i] == s[i + 1];
      }
      assert SpacesArePlain(t);
      CollapseFixpoint(t);
      if IsRegexSpace(s[0]) {
        if |t| > 0 {
          assert !IsRegexSpace(s[1]);
        }
        assert SkipSpaces(t) == t;
      }
    }
  }

  /** The three shape properties survive taking a contiguous piece. */
  lemma SliceKeepsShape(c: string, a: nat, r: string)
    requires a + |r| <= |c| && r == c[a..a + |r|]
    ensures NoControl(c) ==> NoControl(r)
    ensures NoDoubleSpace(c) ==> NoDoubleSpace(r)
    ensures SpacesArePlain(c) ==> SpacesArePlain(r)
  {
    assert forall i :: 0 <= i < |r| ==> r[i] == c[a + i];
  }

  // ---- CampayDisburseRequest ----

  /** The description sanitiser's steps on a non-null text. */
  function SanitizeText(s: string): (r: string)
    ensures NoControl(r)
    ensures NoDoubleSpace(r)
    ensures SpacesArePlain(r)
    ensures IsTrimmed(r)
    ensures Filter(r, Visible) == Filter(s, Visible)
    ensures NoControl(s) && NoDoubleSpace(s) && SpacesArePlain(s) && IsTrimmed(s) ==> r == s
    ensures r == Trim(Squeeze(ControlsToSpaces(s), false))
  {
    var r := Trim(CollapseSpaces(ControlsToSpaces(s)));
    SanitizeFacts(s, r);
    r
  }

  lemma SanitizeFacts(s: string, r: string)
    requires r == Trim(CollapseSpaces(ControlsToSpaces(s)))
    ensures NoControl(r) && NoDoubleSpace(r) && SpacesArePlain(r) && IsTrimmed(r)
    ensures Filter(r, Visible) == Filter(s, Visible)
    ensures NoControl(s) && NoDoubleSpace(s) && SpacesArePlain(s) && IsTrimmed(s) ==> r == s
    ensures r == Trim(Squeeze(ControlsToSpaces(s), false))
  {
    CollapseIsSqueeze(ControlsToSpaces(s));
    SanitizeShape(s);
    SanitizeKeepsVisible(s);
    if NoControl(s) && NoDoubleSpace(s) && SpacesArePlain(s) && IsTrimmed(s) {
      SanitizeCleanText(s);
    }
  }

  lemma SanitizeShape(s: string)
    ensures var r := Trim(CollapseSpaces(ControlsToSpaces(s)));
            NoControl(r) && NoDoubleSpace(r) && SpacesArePlain(r)
  {
    var c := CollapseSpaces(ControlsToSpaces(s));
    assert NoControl(ControlsToSpaces(s));
    SliceKeepsShape(c, LeadingBlanks(c), Trim(c));
  }

  lemma SanitizeKeepsVisible(s: string)
    ensures Filter(Trim(CollapseSpaces(ControlsToSpaces(s))), Visible) == Filter(s, Visible)
  {
    var p := ControlsToSpaces(s);
    var c := CollapseSpaces(p);
    FilterSameKept(p, s, Visible);
    TrimKeepsVisible(c);
    CollapseKeepsNonSpace(p);
    FilterTwice(c, NotSpace, Visible);
    FilterTwice(p, NotSpace, Visible);
  }

  lemma SanitizeCleanText(s: string)
    requires NoControl(s) && NoDoubleSpace(s) && SpacesArePlain(s) && IsTrimmed(s)
    ensures Trim(CollapseSpaces(ControlsToSpaces(s))) == s
  {
    assert ControlsToSpaces(s) == s;
    CollapseFixpoint(s);
  }

  /** `sanitizeDescription`. */
  function SanitizeDescription(d: Option<string>): (r: Option<string>)
    ensures r.None? <==> d.None?
    ensures r.Some? ==> NoControl(r.value) && NoDoubleSpace(r.value) && IsTrimmed(r.value)
    ensures r.Some? ==> Filter(r.value, Visible) == Filter(d.value, Visible)
    ensures r.Some? ==> r.value == Trim(Squeeze(ControlsToSpaces(d.value), false))
  {
    match d
    case None => None
    case Some(s) => Some(SanitizeText(s))
  }

  /** Sanitising a sanitised description changes nothing. */
  lemma SanitizeIdempotent(d: Option<string>)
    ensures SanitizeDescription(SanitizeDescription(d)) == SanitizeDescription(d)
  {
    if d.Some? {
      var r := SanitizeText(d.value);
      assert ControlsToSpaces(r) == r;
      CollapseFixpoint(r);
    }
  }

  /** The JSON body of a payout request. */
  datatype DisburseRequest = DisburseRequest(
    amount: Option<string>,
    to: Option<string>,
    description: Option<string>,
    externalReference: Option<string>)

  /** The four-argument constructor. */
  function NewDisburseRequest(amount: Option<string>, to: Option<string>, description: Option<string>,
                              externalReference: Option<string>): (r: DisburseRequest)
    ensures r.amount == amount && r.to == to && r.externalReference == externalReference
    ensures r.description.None? <==> description.None?
    ensures r.description.Some? ==> NoControl(r.description.value) && IsTrimmed(r.description.value)
    ensures r.description == SanitizeDescription(description)
  {
    DisburseRequest(amount, to, SanitizeDescription(description), externalReference)
  }

  /** `setDescription`. */
  function SetDescription(req: DisburseRequest, description: Option<string>): (r: DisburseRequest)
    ensures r.(description := req.description) == req
    ensures r.description.Some? ==> NoControl(r.description.value) && NoDoubleSpace(r.description.value)
    ensures r.description == SanitizeDescription(description)
  {
    req.(description := SanitizeDescription(description))
  }

  /** The setter and the constructor sanitise alike, and storing the stored description
      again is a no-op. */
  lemma SetterMatchesConstructor(amount: Option<string>, to: Option<string>, d1: Option<string>,
                                 d2: Option<string>, x: Option<string>)
    ensures SetDescription(NewDisburseRequest(amount, to, d1, x), d2) == NewDisburseRequest(amount, to, d2, x)
    ensures var r := NewDisburseRequest(amount, to, d1, x); SetDescription(r, r.description) == r
  {
    SanitizeIdempotent(d1);
  }

  // ---- WithdrawalRequest ----

  /** The withdrawal request body; `provider` holds the enum constant's name. */
  datatype WithdrawalRequest = WithdrawalRequest(amount: int, pin: Option<string>, provider: Option<string>)

  /** What `setPin` stores. */
  function SanitizePin(p: Option<string>): (r: Option<string>)
    ensures r.None? <==> p.None?
    ensures r.Some? ==> NoControl(r.value) && IsTrimmed(r.value)
    ensures r.Some? ==> Filter(r.value, Visible) == Filter(p.value, Visible)
    ensures r.Some? ==> r.value == Trim(Filter(p.value, NotControl))
    ensures p.Some? && NoControl(p.value) && IsTrimmed(p.value) ==> r == p
  {
    match p
    case None => None
    case Some(s) =>
      var c := StripControls(s);
      var t := Trim(c);
      SliceKeepsShape(c, LeadingBlanks(c), t);
      TrimKeepsVisible(c);
      FilterTwice(s, NotControl, Visible);
      Some(t)
  }

  /** `setPin`. */
  function SetPin(req: WithdrawalRequest, p: Option<string>): (r: WithdrawalRequest)
    ensures r.(pin := req.pin) == req
    ensures r.pin.Some? ==> NoControl(r.pin.value) && IsTrimmed(r.pin.value)
    ensures r.pin == SanitizePin(p)
  {
    req.(pin := SanitizePin(p))
  }

  lemma PinSanitizeIdempotent(p: Option<string>)
    ensures SanitizePin(SanitizePin(p)) == SanitizePin(p)
  {
  }

  /** The sanitised, upper-cased provider name of `setProviderFromString`. */
  function ProviderKey(s: string): string {
    Upper(Trim(StripControls(s)))
  }

  /** `setProviderFromString`, for an enum whose constant names are `providers`: null keeps the
      current provider; otherwise the cleaned name must be a constant, else
      IllegalArgumentException("Invalid provider: " + cleaned text). */
  function SetProviderFromString(req: WithdrawalRequest, p: Option<string>, providers: set<string>)
    : (r: Result<WithdrawalRequest, string>)
    ensures p.None? ==> r == Ok(req)
    ensures r.Ok? ==> r.value.(provider := req.provider) == req
    ensures r.Ok? && p.Some? ==> r.value.provider == Some(ProviderKey(p.value)) && ProviderKey(p.value) in providers
    ensures p.Some? && ProviderKey(p.value) in providers ==> r == Ok(req.(provider := Some(ProviderKey(p.value))))
    ensures p.Some? && ProviderKey(p.value) !in providers ==>
              r == Err("Invalid provider: " + Trim(StripControls(p.value)))
  {
    match p
    case None => Ok(req)
    case Some(s) =>
      var sanitized := Trim(StripControls(s));
      var name := Upper(sanitized);
      if name in providers then Ok(req.(provider := Some(name)))
      else Err("Invalid provider: " + sanitized)
  }

  /** Upper-casing ASCII letters keeps a text control-free and trimmed. */
  lemma UpperKeepsShape(t: string)
    requires NoControl(t) && IsTrimmed(t)
    ensures NoControl(Upper(t)) && IsTrimmed(Upper(t))
  {
  }

  /** Feeding a stored provider name back through the setter is a no-op. */
  lemma ProviderResetIsNoOp(req: WithdrawalRequest, p: string, providers: set<string>)
    requires SetProviderFromString(req, Some(p), providers).Ok?
    ensures var r := SetProviderFromString(req, Some(p), providers).value;
            SetProviderFromString(r, r.provider, providers) == Ok(r)
  {
    var c := StripControls(p);
    var t := Trim(c);
    SliceKeepsShape(c, LeadingBlanks(c), t);
    var name := Upper(t);
    UpperKeepsShape(t);
    assert Trim(StripControls(name)) == name;
    UpperIdempotent(t);
    assert ProviderKey(name) == name;
  }

  /** `toString`: the PIN is always printed as the fixed mask. */
  function ToString(req: WithdrawalRequest): (r: string)
    ensures Contains(r, "pin='****")
  {
    var head := "WithdrawalRequest{amount=" + WholeDoubleText(req.amount) + ", provider=" + OptionText(req.provider);
    var tail := ", pin='****}";
    assert Contains(tail, "pin='****") by {
      assert tail[2..2 + 9] == "pin='****";
      ContainsAt(tail, "pin='****", 2);
    }
    assert Contains(head + tail, "pin='****") by {
      var i := ContainsHasPosition(tail, "pin='****");
      assert (head + tail)[|head| + i..|head| + i + 9] == tail[i..i + 9];
      ContainsAt(head + tail, "pin='****", |head| + i);
    }
    head + tail
  }

  /** The printed form does not depend on the PIN at all. */
  lemma ToStringHidesPin(req: WithdrawalRequest, p: Option<string>)
    ensures ToString(req.(pin := p)) == ToString(req)
  {
  }
}
