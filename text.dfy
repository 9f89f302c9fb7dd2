/** The string built-ins the components call: `trim`, `toLowerCase`/`toUpperCase`, `startsWith`,
    `charAt`, number-to-string conversion in template literals, and `parseInt`. */
module Text {
  import opened Wrappers

  /** ECMAScript's WhiteSpace and LineTerminator code points, the characters `trim` removes. */
  predicate IsJsWhitespace(c: char) {
    c == ' ' || c == '\t' || c == '\n' || c == '\r' || c == '\U{000B}' || c == '\U{000C}'
    || c == '\U{00A0}' || c == '\U{1680}' || ('\U{2000}' <= c <= '\U{200A}')
    || c == '\U{2028}' || c == '\U{2029}' || c == '\U{202F}' || c == '\U{205F}'
    || c == '\U{3000}' || c == '\U{FEFF}'
  }

  predicate IsBlank(s: string) {
    forall i :: 0 <= i < |s| ==> IsJsWhitespace(s[i])
  }

  function TrimStart(s: string): (r: string)
    ensures |r| <= |s| && r == s[|s| - |r|..]
    ensures r != [] ==> !IsJsWhitespace(r[0])
  {
    if s != [] && IsJsWhitespace(s[0]) then TrimStart(s[1..]) else s
  }

  function TrimEnd(s: string): (r: string)
    ensures r <= s
  {
    if s != [] && IsJsWhitespace(s[|s| - 1]) then TrimEnd(s[..|s| - 1]) else s
  }

  /** `s.trim()`. */
  function Trim(s: string): string {
    TrimEnd(TrimStart(s))
  }

  /** A non-empty string is blank when its first character is white space and the rest is blank. */
  lemma BlankCons(s: string)
    requires s != []
    ensures IsBlank(s) <==> IsJsWhitespace(s[0]) && IsBlank(s[1..])
  {
    if IsBlank(s) {
      forall j | 0 <= j < |s[1..]| ensures IsJsWhitespace(s[1..][j]) {
        assert s[1..][j] == s[j + 1];
      }
    }
    if IsJsWhitespace(s[0]) && IsBlank(s[1..]) {
      forall i | 0 <= i < |s| ensures IsJsWhitespace(s[i]) {
        if i > 0 {
          assert s[i] == s[1..][i - 1];
        }
      }
    }
  }

  lemma {:induction false} TrimStartBlank(s: string)
    ensures TrimStart(s) == [] <==> IsBlank(s)
  {
    if s != [] {
      BlankCons(s);
      if IsJsWhitespace(s[0]) {
        assert TrimStart(s) == TrimStart(s[1..]);
        TrimStartBlank(s[1..]);
      } else {
        assert TrimStart(s) == s;
      }
    }
  }

  lemma {:induction false} TrimEndOfNonBlankStart(s: string)
    requires s != [] && !IsJsWhitespace(s[0])
    ensures TrimEnd(s) != []
  {
    if IsJsWhitespace(s[|s| - 1]) {
      TrimEndOfNonBlankStart(s[..|s| - 1]);
    }
  }

  /** A string trims to nothing exactly when every character of it is white space. */
  lemma TrimEmptyIffBlank(s: string)
    ensures Trim(s) == [] <==> IsBlank(s)
  {
    TrimStartBlank(s);
    var t := TrimStart(s);
    if t != [] {
      assert !IsJsWhitespace(t[0]);
      TrimEndOfNonBlankStart(t);
    }
  }

  /** `c.toLowerCase()` on the ASCII letters. */
  function LowerChar(c: char): char {
    if 'A' <= c <= 'Z' then (c as int + 32) as char else c
  }

  /** `c.toUpperCase()` on the ASCII letters. */
  function UpperChar(c: char): char {
    if 'a' <= c <= 'z' then (c as int - 32) as char else c
  }

  /** `s.toLowerCase()` on ASCII letters. What it is for, an icon lookup that ignores case, is
      `PetCard.PetIconIgnoresCase`. */
  function ToLower(s: string): (r: string)
    ensures |r| == |s|
    ensures forall i :: 0 <= i < |s| ==> r[i] == LowerChar(s[i])
  {
    seq(|s|, i requires 0 <= i < |s| => LowerChar(s[i]))
  }

  /** `s.charAt(0).toUpperCase()`: the upper-cased first character, or "" for "". */
  function InitialUpper(s: string): (r: string)
    ensures |r| == if s == [] then 0 else 1
    ensures s != [] ==> r[0] == UpperChar(s[0])
  {
    if s == [] then "" else [UpperChar(s[0])]
  }

  /** `s.startsWith(prefix)`. */
  predicate StartsWith(s: string, prefix: string) {
    prefix <= s
  }

  predicate EndsWith(s: string, suffix: string) {
    |suffix| <= |s| && s[|s| - |suffix|..] == suffix
  }

  predicate IsDigit(c: char) {
    '0' <= c <= '9'
  }

  function DigitChar(d: int): char
    requires 0 <= d < 10
  {
    ('0' as int + d) as char
  }

  /** The decimal numeral of a natural number, with no leading zeros. */
  function NatString(n: nat): (r: string)
    ensures |r| > 0 && forall i :: 0 <= i < |r| ==> IsDigit(r[i])
    ensures |r| > 1 ==> r[0] != '0'
  {
    if n < 10 then [DigitChar(n)] else NatString(n / 10) + [DigitChar(n % 10)]
  }

  /** How an integer prints in a template literal such as `${pet.Id}`. */
  function NumberString(n: int): string {
    if n < 0 then "-" + NatString(-n) else NatString(n)
  }

  predicate IsHexDigit(c: char) {
    IsDigit(c) || 'a' <= c <= 'f' || 'A' <= c <= 'F'
  }

  /** A digit of base 16 when `hex`, of base 10 otherwise. */
  predicate IsDigitOf(c: char, hex: bool) {
    if hex then IsHexDigit(c) else IsDigit(c)
  }

  /** The digits `s` starts with, as many as there are. */
  function LeadingDigits(s: string, hex: bool): (r: string)
    ensures r <= s
    ensures forall i :: 0 <= i < |r| ==> IsDigitOf(r[i], hex)
    ensures |r| < |s| ==> !IsDigitOf(s[|r|], hex)
  {
    if s != [] && IsDigitOf(s[0], hex) then [s[0]] + LeadingDigits(s[1..], hex) else []
  }

  function HexValue(c: char): nat
    requires IsHexDigit(c)
  {
    if IsDigit(c) then c as int - '0' as int
    else if 'a' <= c <= 'f' then c as int - 'a' as int + 10
    else c as int - 'A' as int + 10
  }

  /** The value of a numeral in base `radix` whose last digit is last in `ds`. */
  function NumeralValue(ds: string, radix: nat): nat
    requires forall i :: 0 <= i < |ds| ==> IsHexDigit(ds[i])
  {
    if ds == [] then 0 else NumeralValue(ds[..|ds| - 1], radix) * radix + HexValue(ds[|ds| - 1])
  }

  /** The digits after the sign: a `0x` or `0X` prefix selects base 16, and the longest run of digits
      that follows is the value; `None` when there is no digit. */
  function ParseUnsigned(u: string): Option<nat> {
    var hex := |u| >= 2 && u[0] == '0' && (u[1] == 'x' || u[1] == 'X');
    var ds := if hex then LeadingDigits(u[2..], true) else LeadingDigits(u, false);
    if ds == [] then None else Some(NumeralValue(ds, if hex then 16 else 10))
  }

  /** `parseInt(s)` without a radix: leading white space is skipped and a sign is read before the
      digits; `None` stands for `NaN`. */
  function ParseInt(s: string): Option<int> {
    ParseSigned(TrimStart(s))
  }

  /** The sign and the digits once the white space is skipped. */
  function ParseSigned(t: string): Option<int> {
    var negative := t != [] && t[0] == '-';
    var u := if t != [] && (t[0] == '-' || t[0] == '+') then t[1..] else t;
    match ParseUnsigned(u)
    case None => None
    case Some(v) => Some(if negative then -(v as int) else v)
  }

  lemma {:induction false} NatStringValue(n: nat)
    ensures NumeralValue(NatString(n), 10) == n
  {
    if n >= 10 {
      NatStringValue(n / 10);
      var r := NatString(n);
      assert r[..|r| - 1] == NatString(n / 10);
    }
  }

  lemma {:induction false} LeadingDigitsOfDigits(s: string)
    requires forall i :: 0 <= i < |s| ==> IsDigit(s[i])
    ensures LeadingDigits(s, false) == s
  {
    if s != [] {
      LeadingDigitsOfDigits(s[1..]);
    }
  }

  lemma ParseUnsignedNatString(m: nat)
    ensures ParseUnsigned(NatString(m)) == Some(m)
  {
    var ds := NatString(m);
    NatStringValue(m);
    LeadingDigitsOfDigits(ds);
    assert !(|ds| >= 2 && ds[0] == '0');
  }

  lemma ParseIntUnsigned(s: string)
    requires s != [] && IsDigit(s[0])
    ensures ParseInt(s) == if ParseUnsigned(s).Some? then Some(ParseUnsigned(s).value as int) else None
  {
    assert !IsJsWhitespace(s[0]);
    assert TrimStart(s) == s;
    assert !(s[0] == '-' || s[0] == '+');
  }

  lemma ParseIntNatString(m: nat)
    ensures ParseInt(NatString(m)) == Some(m as int)
  {
    ParseUnsignedNatString(m);
    ParseIntUnsigned(NatString(m));
  }

  lemma ParseIntNegative(n: int)
    requires n < 0
    ensures ParseInt(NumberString(n)) == Some(n)
  {
    var m: nat := -n;
    var s := NumberString(n);
    assert s == "-" + NatString(m);
    ParseUnsignedNatString(m);
    assert s[0] == '-' && !IsJsWhitespace(s[0]);
    assert TrimStart(s) == s;
    assert s[1..] == NatString(m);
    assert ParseSigned(s) == Some(-(m as int));
  }

  lemma {:induction false} LeadingDigitsStop(ds: string, rest: string)
    requires forall i :: 0 <= i < |ds| ==> IsDigit(ds[i])
    requires rest != [] ==> !IsDigit(rest[0])
    ensures LeadingDigits(ds + rest, false) == ds
  {
    if ds != [] {
      assert (ds + rest)[1..] == ds[1..] + rest;
      LeadingDigitsStop(ds[1..], rest);
    }
  }

  /** `parseInt` reads the number at the head of a text such as "3 years old". */
  lemma ParseIntLeadingNumber(n: nat, rest: string)
    requires rest != [] ==> rest[0] == ' '
    ensures ParseInt(NatString(n) + rest) == Some(n as int)
  {
    var ds := NatString(n);
    var s := ds + rest;
    assert s[0] == ds[0];
    ParseIntUnsigned(s);
    if |s| >= 2 && s[0] == '0' {
      assert |ds| == 1 && s[1] == rest[0];
    }
    LeadingDigitsStop(ds, rest);
    NatStringValue(n);
  }

  /** `parseInt` reads back every integer a template literal prints. */
  lemma ParseIntNumberString(n: int)
    ensures ParseInt(NumberString(n)) == Some(n)
  {
    if n < 0 {
      ParseIntNegative(n);
    } else {
      assert NumberString(n) == NatString(n);
      ParseIntNatString(n);
    }
  }
}
