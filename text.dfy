/** The Python string operations the bot relies on: `strip`, `upper`, `lower`,
    `startswith`, `isdigit`, `int(...)`, `str(...)`, `f"{n:03}"` and `sep.join`.
    Case mapping is modelled on ASCII letters only. */
module Text {
  import opened Wrappers

  /** Python's `str.isspace` characters. */
  predicate IsSpace(c: char) {
    || c == ' ' || ('\t' <= c <= '\r') || ('\U{001c}' <= c <= '\U{001f}')
    || c == '\U{0085}' || c == '\U{00a0}' || c == '\U{1680}'
    || ('\U{2000}' <= c <= '\U{200a}') || c == '\U{2028}' || c == '\U{2029}'
    || c == '\U{202f}' || c == '\U{205f}' || c == '\U{3000}'
  }

  function TrimLeft(s: string): string {
    if |s| > 0 && IsSpace(s[0]) then TrimLeft(s[1..]) else s
  }

  function TrimRight(s: string): string {
    if |s| > 0 && IsSpace(s[|s| - 1]) then TrimRight(s[..|s| - 1]) else s
  }

  /** `s.strip()` */
  function Strip(s: string): string {
    TrimRight(TrimLeft(s))
  }

  function UpperChar(c: char): char {
    if 'a' <= c <= 'z' then (c as int - 'a' as int + 'A' as int) as char else c
  }

  function LowerChar(c: char): char {
    if 'A' <= c <= 'Z' then (c as int - 'A' as int + 'a' as int) as char else c
  }

  /** `s.upper()` */
  function Upper(s: string): (r: string)
    ensures |r| == |s|
  {
    if s == [] then [] else [UpperChar(s[0])] + Upper(s[1..])
  }

  /** `s.lower()` */
  function Lower(s: string): (r: string)
    ensures |r| == |s|
  {
    if s == [] then [] else [LowerChar(s[0])] + Lower(s[1..])
  }

  /** `s.startswith(prefix)` */
  predicate StartsWith(s: string, prefix: string) {
    |prefix| <= |s| && s[..|prefix|] == prefix
  }

  predicate IsDigit(c: char) {
    '0' <= c <= '9'
  }

  /** `s.isdigit()`: non-empty and made of digits only */
  predicate IsDigits(s: string) {
    |s| > 0 && forall i :: 0 <= i < |s| ==> IsDigit(s[i])
  }

  /** The body `int()` accepts after an optional sign: digits, with single
      underscores allowed between two digits. */
  predicate IsDigitBody(s: string) {
    && |s| > 0 && IsDigit(s[0]) && IsDigit(s[|s| - 1])
    && (forall i :: 0 <= i < |s| ==> IsDigit(s[i]) || s[i] == '_')
    && (forall i :: 0 <= i < |s| - 1 ==> !(s[i] == '_' && s[i + 1] == '_'))
  }

  /** The value of a digit body, underscores ignored. */
  function DigitsValue(s: string): nat {
    if s == [] then 0
    else if IsDigit(s[|s| - 1]) then DigitsValue(s[..|s| - 1]) * 10 + (s[|s| - 1] as int - '0' as int)
    else DigitsValue(s[..|s| - 1])
  }

  /** `int(s)` on a str: None where Python raises ValueError. */
  function ParseInt(s: string): (r: Option<int>)
    ensures r.Some? ==> |Strip(s)| > 0
  {
    var t := Strip(s);
    if |t| == 0 then None
    else if t[0] == '-' || t[0] == '+' then
      var v: int := DigitsValue(t[1..]);
      if IsDigitBody(t[1..]) then Some(if t[0] == '-' then -v else v) else None
    else if IsDigitBody(t) then Some(DigitsValue(t))
    else None
  }

  function DigitChar(d: nat): (c: char)
    requires d < 10
    ensures IsDigit(c)
  {
    ('0' as int + d) as char
  }

  /** `str(n)` for n >= 0 */
  function NatToString(n: nat): (r: string)
    ensures IsDigits(r)
  {
    if n < 10 then [DigitChar(n)] else NatToString(n / 10) + [DigitChar(n % 10)]
  }

  /** `str(n)` */
  function IntToString(n: int): string {
    if n < 0 then "-" + NatToString(-n) else NatToString(n)
  }

  /** `f"{n:03}"` for n >= 0: zero-padded on the left to at least three digits. */
  function Pad3(n: nat): (r: string)
    ensures IsDigits(r) && |r| >= 3
  {
    var s := NatToString(n);
    if |s| >= 3 then s else Zeros(3 - |s|) + s
  }

  function Zeros(k: nat): (r: string)
    ensures |r| == k && forall i :: 0 <= i < k ==> r[i] == '0'
  {
    if k == 0 then "" else "0" + Zeros(k - 1)
  }

  /** `sep.join(parts)` */
  function Join(sep: string, parts: seq<string>): string {
    if |parts| == 0 then ""
    else if |parts| == 1 then parts[0]
    else Join(sep, parts[..|parts| - 1]) + sep + parts[|parts| - 1]
  }

  /** `s * k` */
  function Repeat(s: string, k: nat): string {
    if k == 0 then "" else s + Repeat(s, k - 1)
  }

  /** `s.split(' ', 1)[1]`: the text after the first space (None where Python
      raises IndexError because there is no space). */
  function AfterFirstSpace(s: string): Option<string> {
    if s == [] then None
    else if s[0] == ' ' then Some(s[1..])
    else AfterFirstSpace(s[1..])
  }

  /** Digits read back give the number they were printed from. */
  lemma {:induction false} DigitsValueOfNatToString(n: nat)
    ensures DigitsValue(NatToString(n)) == n
  {
    if n >= 10 {
      var s := NatToString(n / 10) + [DigitChar(n % 10)];
      assert s[..|s| - 1] == NatToString(n / 10);
      DigitsValueOfNatToString(n / 10);
    }
  }

  /** A leading block of zeros does not change the value. */
  lemma {:induction false} DigitsValueZeros(k: nat, s: string)
    ensures DigitsValue(Zeros(k) + s) == DigitsValue(s)
    decreases |s|
  {
    if s == [] {
      DigitsValueOfZeros(k);
      assert Zeros(k) + s == Zeros(k);
    } else {
      var t := Zeros(k) + s;
      assert t[..|t| - 1] == Zeros(k) + s[..|s| - 1];
      assert t[|t| - 1] == s[|s| - 1];
      DigitsValueZeros(k, s[..|s| - 1]);
    }
  }

  lemma {:induction false} DigitsValueOfZeros(k: nat)
    ensures DigitsValue(Zeros(k)) == 0
  {
    if k > 0 {
      var z := Zeros(k);
      assert z[..k - 1] == Zeros(k - 1) by {
        assert forall i :: 0 <= i < k - 1 ==> z[i] == Zeros(k - 1)[i];
      }
      DigitsValueOfZeros(k - 1);
    }
  }

  lemma {:induction false} StripWithoutSpaces(s: string)
    requires forall i :: 0 <= i < |s| ==> !IsSpace(s[i])
    ensures Strip(s) == s
  {
    assert TrimLeft(s) == s;
    assert TrimRight(s) == s;
  }

  lemma {:induction false} TrimLeftStart(s: string)
    ensures TrimLeft(s) != "" ==> !IsSpace(TrimLeft(s)[0])
  {
    if |s| > 0 && IsSpace(s[0]) {
      TrimLeftStart(s[1..]);
    }
  }

  lemma {:induction false} TrimRightPrefix(s: string)
    ensures var r := TrimRight(s);
      && |r| <= |s| && r == s[..|r|]
      && (r != "" ==> !IsSpace(r[|r| - 1]))
  {
    if |s| > 0 && IsSpace(s[|s| - 1]) {
      TrimRightPrefix(s[..|s| - 1]);
    }
  }

  /** `s.strip().strip() == s.strip()` */
  lemma StripIdempotent(s: string)
    ensures Strip(Strip(s)) == Strip(s)
  {
    var t := TrimLeft(s);
    var r := TrimRight(t);
    TrimLeftStart(s);
    TrimRightPrefix(t);
    if r != "" {
      assert r[0] == t[0];
      assert TrimLeft(r) == r;
    }
  }

  /** Position `k` of a stripped text holds a character `int()` never accepts
      there: not a digit, not an underscore, and not a leading sign. */
  predicate NotIntegerChar(t: string, k: int) {
    && 0 <= k < |t|
    && !IsDigit(t[k]) && t[k] != '_'
    && !(k == 0 && (t[0] == '-' || t[0] == '+'))
  }

  /** `int(s)` raises ValueError on a text with such a character. */
  lemma ParseRejects(s: string, k: int)
    requires NotIntegerChar(Strip(s), k)
    ensures ParseInt(s) == None
  {
    var t := Strip(s);
    if t[0] == '-' || t[0] == '+' {
      assert t[1..][k - 1] == t[k];
    }
  }

  lemma DigitsAreBody(s: string)
    requires IsDigits(s)
    ensures IsDigitBody(s)
  {
  }

  /** `int(str(n)) == n`: printing a number and parsing it back is the identity. */
  lemma IntRoundTrip(n: int)
    ensures ParseInt(IntToString(n)) == Some(n)
  {
    if n < 0 {
      NegativeRoundTrip(-n);
    } else {
      NatRoundTrip(n);
    }
  }

  lemma NatRoundTrip(n: nat)
    ensures ParseInt(NatToString(n)) == Some(n)
  {
    var d := NatToString(n);
    DigitsValueOfNatToString(n);
    DigitsAreBody(d);
    StripWithoutSpaces(d);
    UnsignedParse(d);
  }

  lemma UnsignedParse(d: string)
    requires IsDigitBody(d) && Strip(d) == d
    ensures ParseInt(d) == Some(DigitsValue(d))
  {
    assert d[0] != '-' && d[0] != '+';
  }

  lemma NegativeRoundTrip(m: nat)
    requires m > 0
    ensures ParseInt("-" + NatToString(m)) == Some(-(m as int))
  {
    var d := NatToString(m);
    var s := "-" + d;
    DigitsValueOfNatToString(m);
    DigitsAreBody(d);
    assert forall i :: 0 <= i < |s| ==> !IsSpace(s[i]) by {
      forall i | 0 <= i < |s| ensures !IsSpace(s[i]) {
        if i > 0 { assert s[i] == d[i - 1]; }
      }
    }
    StripWithoutSpaces(s);
    assert s[1..] == d;
    assert IsDigitBody(Strip(s)[1..]) && DigitsValue(Strip(s)[1..]) == m;
  }

  /** Zero padding keeps the number: reading the padded digits gives it back,
      so different ticket numbers always give different names. */
  lemma Pad3RoundTrip(n: nat)
    ensures DigitsValue(Pad3(n)) == n
  {
    var s := NatToString(n);
    DigitsValueOfNatToString(n);
    if |s| < 3 {
      DigitsValueZeros(3 - |s|, s);
    }
  }

  lemma Pad3Injective(m: nat, n: nat)
    requires m != n
    ensures Pad3(m) != Pad3(n)
  {
    Pad3RoundTrip(m);
    Pad3RoundTrip(n);
  }

  /** `(prefix + " " + v).split(' ', 1)[1] == v` when the prefix has no space. */
  lemma {:induction false} AfterFirstSpaceOfPrefixed(prefix: string, v: string)
    requires forall i :: 0 <= i < |prefix| ==> prefix[i] != ' '
    ensures AfterFirstSpace(prefix + " " + v) == Some(v)
  {
    if prefix != [] {
      assert (prefix + " " + v)[1..] == prefix[1..] + " " + v;
      AfterFirstSpaceOfPrefixed(prefix[1..], v);
    } else {
      assert (prefix + " " + v)[1..] == v;
    }
  }
}
