/** The pieces of java.lang.String and java.util.regex behaviour the services rely on,
    stated over `seq<char>`, plus decimal rendering of natural numbers. */
module Text {
  import opened Wrappers

  /** `String.trim()` strips every character whose code is at most U+0020. */
  predicate IsTrimmable(c: char) {
    c <= ' '
  }

  /** The regex class `\p{Cntrl}`: U+0000..U+001F and U+007F. */
  predicate IsControl(c: char) {
    c as int < 32 || c as int == 127
  }

  /** The regex class `\s`: space, tab, newline, vertical tab, form feed, carriage return. */
  predicate IsRegexSpace(c: char) {
    c == ' ' || c == '\t' || c == '\n' || c as int == 11 || c as int == 12 || c == '\r'
  }

  predicate IsDigit(c: char) {
    '0' <= c <= '9'
  }

  predicate AllDigits(s: string) {
    forall i :: 0 <= i < |s| ==> IsDigit(s[i])
  }

  predicate NoControl(s: string) {
    forall i :: 0 <= i < |s| ==> !IsControl(s[i])
  }

  /** Neither end of `s` is a character `trim()` would remove. */
  predicate IsTrimmed(s: string) {
    |s| == 0 || (!IsTrimmable(s[0]) && !IsTrimmable(s[|s| - 1]))
  }

  predicate StartsWith(s: string, prefix: string) {
    |prefix| <= |s| && s[..|prefix|] == prefix
  }

  /** `String.contains`: `sub` occurs somewhere in `s`. */
  predicate Contains(s: string, sub: string)
    decreases |s|
  {
    StartsWith(s, sub) || (|s| > 0 && Contains(s[1..], sub))
  }

  /** The number of characters `trim()` removes at the front. */
  function LeadingBlanks(s: string): (n: nat)
    ensures n <= |s|
    ensures forall i :: 0 <= i < n ==> IsTrimmable(s[i])
    ensures n < |s| ==> !IsTrimmable(s[n])
    decreases |s|
  {
    if |s| > 0 && IsTrimmable(s[0]) then
      var n := 1 + LeadingBlanks(s[1..]);
      assert forall i :: 1 <= i < n ==> s[i] == s[1..][i - 1];
      n
    else 0
  }

  /** The number of characters `trim()` removes at the back. */
  function TrailingBlanks(s: string): (n: nat)
    ensures n <= |s|
    ensures forall i :: |s| - n <= i < |s| ==> IsTrimmable(s[i])
    ensures n < |s| ==> !IsTrimmable(s[|s| - 1 - n])
    decreases |s|
  {
    if |s| > 0 && IsTrimmable(s[|s| - 1]) then
      var n := 1 + TrailingBlanks(s[..|s| - 1]);
      assert forall i :: |s| - n <= i < |s| - 1 ==> s[i] == s[..|s| - 1][i];
      n
    else 0
  }

  /** `String.trim()`. */
  function Trim(s: string): (r: string)
    ensures IsTrimmed(r)
    ensures LeadingBlanks(s) + |r| <= |s|
    ensures r == s[LeadingBlanks(s)..LeadingBlanks(s) + |r|]
    ensures forall i :: 0 <= i < LeadingBlanks(s) ==> IsTrimmable(s[i])
    ensures forall i :: LeadingBlanks(s) + |r| <= i < |s| ==> IsTrimmable(s[i])
    ensures IsTrimmed(s) ==> r == s
  {
    var a := LeadingBlanks(s);
    var t := s[a..];
    var b := TrailingBlanks(t);
    assert forall i :: a + |t| - b <= i < |s| ==> s[i] == t[i - a];
    t[..|t| - b]
  }

  /** `s.trim().isEmpty()`. */
  predicate IsBlank(s: string) {
    |Trim(s)| == 0
  }

  lemma BlankIffAllTrimmable(s: string)
    ensures IsBlank(s) <==> forall i :: 0 <= i < |s| ==> IsTrimmable(s[i])
  {
    if !IsBlank(s) {
      var a := LeadingBlanks(s);
      assert !IsTrimmable(s[a]);
    }
  }

  /** Trimming keeps every remaining character from the input. */
  lemma TrimChars(s: string)
    ensures forall i :: 0 <= i < |Trim(s)| ==> Trim(s)[i] == s[LeadingBlanks(s) + i]
  {
  }

  /** `Character.toUpperCase` restricted to ASCII letters. */
  function UpperChar(c: char): char {
    if 'a' <= c <= 'z' then (c as int - 32) as char else c
  }

  /** `String.toUpperCase()` on the ASCII range. */
  function Upper(s: string): (r: string)
    ensures |r| == |s|
    ensures forall i :: 0 <= i < |s| ==> r[i] == UpperChar(s[i])
  {
    seq(|s|, i requires 0 <= i < |s| => UpperChar(s[i]))
  }

  lemma UpperIdempotent(s: string)
    ensures Upper(Upper(s)) == Upper(s)
  {
  }

  // ---- filtering ----

  /** The characters of `s` that satisfy `keep`, in their original order. */
  function Filter(s: string, keep: char -> bool): (r: string)
    ensures |r| <= |s|
    ensures forall i :: 0 <= i < |r| ==> keep(r[i])
    ensures (forall i :: 0 <= i < |s| ==> keep(s[i])) ==> r == s
    ensures (forall i :: 0 <= i < |s| ==> !keep(s[i])) ==> r == []
    decreases |s|
  {
    if |s| == 0 then []
    else if keep(s[0]) then [s[0]] + Filter(s[1..], keep)
    else Filter(s[1..], keep)
  }

  /** Filtering distributes over concatenation. */
  lemma {:induction false} FilterConcat(a: string, b: string, keep: char -> bool)
    ensures Filter(a + b, keep) == Filter(a, keep) + Filter(b, keep)
    decreases |a|
  {
    if |a| == 0 {
      assert a + b == b;
    } else {
      assert (a + b)[1..] == a[1..] + b;
      FilterConcat(a[1..], b, keep);
    }
  }

  /** Filtering by a stricter test after a weaker one is filtering by the stricter one. */
  lemma {:induction false} FilterTwice(s: string, weak: char -> bool, strict: char -> bool)
    requires forall c :: strict(c) ==> weak(c)
    ensures Filter(Filter(s, weak), strict) == Filter(s, strict)
    decreases |s|
  {
    if |s| > 0 {
      FilterTwice(s[1..], weak, strict);
      if weak(s[0]) {
        assert Filter(s, weak) == [s[0]] + Filter(s[1..], weak);
        FilterConcat([s[0]], Filter(s[1..], weak), strict);
        assert Filter([s[0]], strict) == (if strict(s[0]) then [s[0]] else []) by {
          assert [s[0]][1..] == [];
        }
      }
    }
  }

  /** Two texts of one length that agree on what they keep, and on the kept characters
      themselves, filter to the same text. */
  lemma {:induction false} FilterSameKept(a: string, b: string, keep: char -> bool)
    requires |a| == |b|
    requires forall i :: 0 <= i < |a| ==> keep(a[i]) == keep(b[i])
    requires forall i :: 0 <= i < |a| ==> keep(a[i]) ==> a[i] == b[i]
    ensures Filter(a, keep) == Filter(b, keep)
    decreases |a|
  {
    if |a| > 0 {
      FilterSameKept(a[1..], b[1..], keep);
    }
  }

  predicate NotControl(c: char) {
    !IsControl(c)
  }

  predicate NotSpace(c: char) {
    !IsRegexSpace(c)
  }

  /** Neither a control character nor `\s`: what survives every sanitiser untouched. */
  predicate Visible(c: char) {
    !IsControl(c) && !IsRegexSpace(c)
  }

  /** Whatever `trim()` cuts away is invisible, so trimming keeps every visible character. */
  lemma TrimKeepsVisible(s: string)
    ensures Filter(Trim(s), Visible) == Filter(s, Visible)
  {
    var a := LeadingBlanks(s);
    var r := Trim(s);
    var e := a + |r|;
    var front, back := s[..a], s[e..];
    assert s == front + r + back by {
      assert s[a..e] == r;
      assert s == s[..a] + s[a..e] + s[e..];
    }
    assert forall i :: 0 <= i < |front| ==> IsTrimmable(front[i]);
    assert forall i :: 0 <= i < |back| ==> IsTrimmable(back[i]);
    BlanksInvisible(front);
    BlanksInvisible(back);
    FilterConcat(front + r, back, Visible);
    FilterConcat(front, r, Visible);
  }

  /** A run of trimmable characters leaves nothing visible. */
  lemma BlanksInvisible(s: string)
    requires forall i :: 0 <= i < |s| ==> IsTrimmable(s[i])
    ensures Filter(s, Visible) == []
  {
    assert forall i :: 0 <= i < |s| ==> !Visible(s[i]);
  }

  /** Relating `Contains` to an explicit position of the occurrence. */
  lemma {:induction false} ContainsAt(s: string, sub: string, i: nat)
    requires i + |sub| <= |s| && s[i..i + |sub|] == sub
    ensures Contains(s, sub)
    decreases i
  {
    if i == 0 {
      assert s[..|sub|] == sub;
    } else {
      assert s[1..][i - 1..i - 1 + |sub|] == s[i..i + |sub|];
      ContainsAt(s[1..], sub, i - 1);
    }
  }

  lemma {:induction false} ContainsHasPosition(s: string, sub: string) returns (i: nat)
    requires Contains(s, sub)
    ensures i + |sub| <= |s| && s[i..i + |sub|] == sub
    decreases |s|
  {
    if StartsWith(s, sub) {
      i := 0;
    } else {
      var j := ContainsHasPosition(s[1..], sub);
      assert s[1..][j..j + |sub|] == s[j + 1..j + 1 + |sub|];
      i := j + 1;
    }
  }

  /** A string that lacks one of the characters of `sub` cannot contain `sub`. */
  lemma MissingCharExcludes(s: string, sub: string, k: nat)
    requires k < |sub| && Lacks(s, sub[k])
    ensures !Contains(s, sub)
  {
    if Contains(s, sub) {
      var i := ContainsHasPosition(s, sub);
      assert false;
    }
  }

  /** `sub` occurs in any text built around it. */
  lemma ContainsJoin(a: string, sub: string, b: string)
    ensures Contains(a + sub + b, sub)
  {
    assert (a + sub + b)[|a|..|a| + |sub|] == sub;
    ContainsAt(a + sub + b, sub, |a|);
  }

  /** `c` does not occur in `s`. */
  predicate Lacks(s: string, c: char) {
    forall i :: 0 <= i < |s| ==> s[i] != c
  }

  lemma LacksConcat(a: string, b: string, c: char)
    requires Lacks(a, c) && Lacks(b, c)
    ensures Lacks(a + b, c)
  {
    forall i | 0 <= i < |a + b|
      ensures (a + b)[i] != c
    {
      if i >= |a| {
        assert (a + b)[i] == b[i - |a|];
      }
    }
  }

  /** Appending text without the last character of `sub` cannot create an occurrence:
      any occurrence would have to end inside the appended part. */
  lemma ConcatExcludes(a: string, b: string, sub: string)
    requires |sub| > 0 && !Contains(a, sub) && Lacks(b, sub[|sub| - 1])
    ensures !Contains(a + b, sub)
  {
    if Contains(a + b, sub) {
      var i := ContainsHasPosition(a + b, sub);
      var end := i + |sub| - 1;
      assert (a + b)[end] == sub[|sub| - 1];
      if end < |a| {
        assert a[i..i + |sub|] == (a + b)[i..i + |sub|];
        ContainsAt(a, sub, i);
      }
    }
  }

  /** Rendered numbers consist of digits, a sign and a decimal point only. */
  lemma NumberTextLacks(i: int, c: char)
    requires !IsDigit(c) && c != '-' && c != '.'
    ensures Lacks(TwoDecimals(i), c)
  {
    var d := Decimal(if i < 0 then -i else i);
    assert Lacks(d, c);
    if i < 0 {
      LacksConcat("-", d, c);
    }
    LacksConcat(IntText(i), ".00", c);
  }

  /** An occurrence in a prefix is an occurrence in the whole. */
  lemma ContainsInPrefix(a: string, b: string, sub: string)
    requires Contains(a, sub)
    ensures Contains(a + b, sub)
  {
    var i := ContainsHasPosition(a, sub);
    assert (a + b)[i..i + |sub|] == a[i..i + |sub|];
    ContainsAt(a + b, sub, i);
  }

  /** An occurrence in a suffix is an occurrence in the whole. */
  lemma ContainsInSuffix(a: string, b: string, sub: string)
    requires Contains(b, sub)
    ensures Contains(a + b, sub)
  {
    var i := ContainsHasPosition(b, sub);
    assert (a + b)[|a| + i..|a| + i + |sub|] == b[i..i + |sub|];
    ContainsAt(a + b, sub, |a| + i);
  }

  // ---- decimal rendering ----

  function DigitChar(d: nat): (c: char)
    requires d < 10
    ensures IsDigit(c)
  {
    ('0' as int + d) as char
  }

  function DigitValue(c: char): (d: nat)
    requires IsDigit(c)
    ensures d < 10
  {
    (c as int - '0' as int) as nat
  }

  /** `Long.toString(n)` for a non-negative value: digits, most significant first, no padding. */
  function Decimal(n: nat): (r: string)
    ensures 1 <= |r| && AllDigits(r)
    decreases n
  {
    if n < 10 then [DigitChar(n)] else Decimal(n / 10) + [DigitChar(n % 10)]
  }

  /** String concatenation of a possibly null string: null prints as "null". */
  function OptionText(p: Option<string>): string {
    p.GetOr("null")
  }

  /** `Long.toString(i)` for any sign. */
  function IntText(i: int): string {
    if i < 0 then "-" + Decimal(-i) else Decimal(i)
  }

  /** `Double.toString` of a whole number, exact while the magnitude stays below 2^53: plain
      digits and ".0" below 10^7, and from 10^7 on Java's computerized scientific notation,
      one digit, the remaining significant digits (at least one) and the exponent. */
  function WholeDoubleText(i: int): string {
    var n := if i < 0 then -i else i;
    var sign := if i < 0 then "-" else "";
    if n < 10000000 then sign + Decimal(n) + ".0"
    else
      var d := Decimal(n);
      var frac := DropTrailingZeros(d[1..]);
      sign + [d[0]] + "." + (if |frac| == 0 then "0" else frac) + "E" + Decimal(|d| - 1)
  }

  /** The digits of `s` without the zeros at its end. */
  function DropTrailingZeros(s: string): (r: string)
    ensures |r| <= |s| && r == s[..|r|]
    ensures |r| > 0 ==> r[|r| - 1] != '0'
    ensures forall i :: |r| <= i < |s| ==> s[i] == '0'
    decreases |s|
  {
    if |s| > 0 && s[|s| - 1] == '0' then DropTrailingZeros(s[..|s| - 1]) else s
  }

  /** Zeros appended to a digit string are dropped again. */
  lemma {:induction false} DropZerosAppended(s: string, k: nat)
    ensures DropTrailingZeros(s + Zeros(k)) == DropTrailingZeros(s)
    decreases k
  {
    if k == 0 {
      assert s + Zeros(k) == s;
    } else {
      var t := s + Zeros(k);
      assert t[|t| - 1] == '0';
      assert t[..|t| - 1] == s + Zeros(k - 1);
      DropZerosAppended(s, k - 1);
    }
  }

  /** Below 10^7 a whole double prints as the integer followed by ".0". */
  lemma WholeDoubleTextPlain(i: int)
    requires -10000000 < i < 10000000
    ensures WholeDoubleText(i) == IntText(i) + ".0"
  {
  }

  /** From 10^7 on, a whole double prints in scientific notation: ten million is "1.0E7". */
  lemma WholeDoubleTextTenMillion()
    ensures WholeDoubleText(10000000) == "1.0E7"
  {
    DecimalTenMillion();
    var d := Decimal(10000000);
    assert d[1..] == "" + Zeros(7);
    DropZerosAppended("", 7);
    assert Decimal(|d| - 1) == "7";
  }

  /** The significant digits after the first are kept: minus twelve and a half million is
      "-1.25E7". */
  lemma WholeDoubleTextNegative()
    ensures WholeDoubleText(-12500000) == "-1.25E7"
  {
    DecimalTwelveHalfMillion();
    var d := Decimal(12500000);
    assert d[1..] == "25" + Zeros(5);
    DropZerosAppended("25", 5);
    assert DropTrailingZeros("25") == "25";
    assert Decimal(7) == "7";
    assert d[0] == '1' && |d| - 1 == 7;
  }

  lemma DecimalTenMillion()
    ensures Decimal(10000000) == "10000000"
  {
    assert Decimal(10) == "10";
    assert Decimal(1000) == "1000";
    assert Decimal(100000) == "100000";
  }

  lemma DecimalTwelveHalfMillion()
    ensures Decimal(12500000) == "12500000"
  {
    assert Decimal(12) == "12";
    assert Decimal(1250) == "1250";
    assert Decimal(125000) == "125000";
  }

  /** `String.format("%.2f", x)` of a whole number, in a locale with "." as separator. */
  function TwoDecimals(i: int): string {
    IntText(i) + ".00"
  }

  /** The number a string of decimal digits denotes. */
  function DecimalValue(s: string): nat
    requires AllDigits(s)
    decreases |s|
  {
    if |s| == 0 then 0 else 10 * DecimalValue(s[..|s| - 1]) + DigitValue(s[|s| - 1])
  }

  lemma {:induction false} DecimalRoundTrip(n: nat)
    ensures DecimalValue(Decimal(n)) == n
    decreases n
  {
    if n >= 10 {
      var r := Decimal(n);
      assert r[..|r| - 1] == Decimal(n / 10);
      DecimalRoundTrip(n / 10);
    }
  }

  /** Below 10^k a number needs at most k digits. */
  lemma {:induction false} DecimalLength(n: nat, k: nat, bound: nat)
    requires k >= 1 && bound == Pow10(k) && n < bound
    ensures |Decimal(n)| <= k
    decreases k
  {
    if n >= 10 {
      assert k >= 2;
      DecimalLength(n / 10, k - 1, Pow10(k - 1));
    }
  }

  function Pow10(k: nat): (p: nat)
    ensures p >= 1
  {
    if k == 0 then 1 else 10 * Pow10(k - 1)
  }

  function Zeros(k: nat): (r: string)
    ensures |r| == k && AllDigits(r)
    ensures forall i :: 0 <= i < k ==> r[i] == '0'
  {
    seq(k, i => '0')
  }

  /** Leading zeros do not change the value of a digit string. */
  lemma {:induction false} LeadingZerosValue(k: nat, s: string)
    requires AllDigits(s)
    ensures AllDigits(Zeros(k) + s)
    ensures DecimalValue(Zeros(k) + s) == DecimalValue(s)
    decreases |s|
  {
    var z := Zeros(k) + s;
    if |s| == 0 {
      assert z == Zeros(k);
      ZerosValue(k);
    } else {
      assert z[..|z| - 1] == Zeros(k) + s[..|s| - 1];
      LeadingZerosValue(k, s[..|s| - 1]);
    }
  }

  lemma {:induction false} ZerosValue(k: nat)
    ensures DecimalValue(Zeros(k)) == 0
    decreases k
  {
    if k > 0 {
      assert Zeros(k)[..k - 1] == Zeros(k - 1);
      ZerosValue(k - 1);
    }
  }
}
