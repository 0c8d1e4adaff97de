/**
 * The string built-ins the dashboard's list rules rely on: `String.prototype.trim`,
 * `toUpperCase` on ASCII letters, `split(':')` and the global `parseInt`.
 */
module Text {
  import opened Wrappers
  import opened Seqs

  /** The characters ECMAScript counts as WhiteSpace or LineTerminator. */
  predicate IsWhitespace(c: char) {
    || c == '\t' || c == '\n' || c == '\U{000B}' || c == '\U{000C}' || c == '\r' || c == ' '
    || c == '\U{00A0}' || c == '\U{FEFF}' || c == '\U{1680}'
    || ('\U{2000}' <= c <= '\U{200A}')
    || c == '\U{2028}' || c == '\U{2029}' || c == '\U{202F}' || c == '\U{205F}' || c == '\U{3000}'
  }

  /** The number of white-space characters at the front of `s`. */
  function Lead(s: string): (n: nat)
    ensures n <= |s|
    ensures forall i :: 0 <= i < n ==> IsWhitespace(s[i])
    ensures n < |s| ==> !IsWhitespace(s[n])
  {
    if |s| > 0 && IsWhitespace(s[0]) then 1 + Lead(s[1..]) else 0
  }

  /** The number of white-space characters at the end of `s`. */
  function Trail(s: string): (n: nat)
    ensures n <= |s|
    ensures forall i :: |s| - n <= i < |s| ==> IsWhitespace(s[i])
    ensures n < |s| ==> !IsWhitespace(s[|s| - n - 1])
  {
    if |s| > 0 && IsWhitespace(s[|s| - 1]) then 1 + Trail(s[..|s| - 1]) else 0
  }

  /**
   * `trim()`: the infix of `s` left after removing white space at both ends.
   * Only white space is removed, and neither end of the result is white space.
   */
  function Trim(s: string): (r: string)
    ensures Lead(s) + |r| <= |s| && r == s[Lead(s)..Lead(s) + |r|]
    ensures forall i :: 0 <= i < Lead(s) ==> IsWhitespace(s[i])
    ensures forall i :: Lead(s) + |r| <= i < |s| ==> IsWhitespace(s[i])
    ensures |r| > 0 ==> !IsWhitespace(r[0]) && !IsWhitespace(r[|r| - 1])
  {
    var n := Lead(s);
    var t := s[n..];
    var m := Trail(t);
    assert forall i :: n + |t| - m <= i < |s| ==> s[i] == t[i - n];
    s[n..|s| - m]
  }

  /** Text with no white space at either end is its own trim. */
  lemma TrimKeeps(s: string)
    requires |s| > 0 ==> !IsWhitespace(s[0]) && !IsWhitespace(s[|s| - 1])
    ensures Trim(s) == s
  {
    assert Lead(s) == 0;
    assert s[0..] == s;
    assert Trail(s) == 0;
  }

  /** Trimming twice is trimming once. */
  lemma TrimIdempotent(s: string)
    ensures Trim(Trim(s)) == Trim(s)
  {
    TrimKeeps(Trim(s));
  }

  function UpperChar(c: char): char {
    if 'a' <= c <= 'z' then (c as int - 32) as char else c
  }

  /** `toUpperCase()` on the ASCII letters. */
  function Upper(s: string): (r: string)
    ensures |r| == |s|
    ensures forall i :: 0 <= i < |r| ==> !('a' <= r[i] <= 'z')
    ensures forall i :: 0 <= i < |s| && !('a' <= s[i] <= 'z') ==> r[i] == s[i]
    ensures forall i :: 0 <= i < |s| && 'a' <= s[i] <= 'z' ==> 'A' <= r[i] <= 'Z' && r[i] as int - s[i] as int == -32
  {
    seq(|s|, i requires 0 <= i < |s| => UpperChar(s[i]))
  }

  /** Text without lower-case letters is its own upper case. */
  lemma UpperKeeps(s: string)
    requires forall i :: 0 <= i < |s| ==> !('a' <= s[i] <= 'z')
    ensures Upper(s) == s
  {
  }

  /** Upper-casing twice is upper-casing once. */
  lemma UpperIdempotent(s: string)
    ensures Upper(Upper(s)) == Upper(s)
  {
  }

  /** `s.split(':')[0]`. */
  function FirstField(s: string): (r: string)
    ensures ':' !in r
    ensures ':' in s <==> |r| < |s|
    ensures |r| <= |s| && r == s[..|r|]
    ensures |r| < |s| ==> s[|r|] == ':'
  {
    s[..IndexOf(s, ':')]
  }

  /** `s.split(':')[1]`, which exists when `s` holds a colon. */
  function SecondField(s: string): (r: string)
    requires ':' in s
    ensures ':' !in r
    ensures |FirstField(s)| + 1 + |r| <= |s|
    ensures s[..|FirstField(s)| + 1 + |r|] == FirstField(s) + [':'] + r
    ensures |FirstField(s)| + 1 + |r| < |s| ==> s[|FirstField(s)| + 1 + |r|] == ':'
  {
    var rest := s[IndexOf(s, ':') + 1..];
    assert s == FirstField(s) + [':'] + rest;
    FirstField(rest)
  }

  /** The value of a digit in bases up to 36; 36 for anything else. */
  function DigitValue(c: char): (d: nat)
    ensures d <= 36
  {
    if '0' <= c <= '9' then c as int - '0' as int
    else if 'a' <= c <= 'z' then c as int - 'a' as int + 10
    else if 'A' <= c <= 'Z' then c as int - 'A' as int + 10
    else 36
  }

  /** The length of the longest prefix of `s` made of digits of `radix`. */
  function DigitRun(s: string, radix: nat): (n: nat)
    ensures n <= |s|
    ensures forall i :: 0 <= i < n ==> DigitValue(s[i]) < radix
    ensures n < |s| ==> DigitValue(s[n]) >= radix
  {
    if |s| > 0 && DigitValue(s[0]) < radix then 1 + DigitRun(s[1..], radix) else 0
  }

  /** The number the digits of `s` spell in `radix`, most significant first. */
  function DigitsValue(s: string, radix: nat): nat {
    if |s| == 0 then 0 else DigitsValue(s[..|s| - 1], radix) * radix + DigitValue(s[|s| - 1])
  }

  /** A numeral split into its sign, its base and the text holding its digits. */
  datatype Numeral = Numeral(negative: bool, radix: nat, body: string)

  /** The sign and base prefix `parseInt` reads after leading white space. */
  function ScanNumeral(s: string): (m: Numeral)
    ensures m.radix == 10 || m.radix == 16
  {
    var t := s[Lead(s)..];
    var negative := |t| > 0 && t[0] == '-';
    var u := if |t| > 0 && (t[0] == '-' || t[0] == '+') then t[1..] else t;
    if |u| >= 2 && u[0] == '0' && (u[1] == 'x' || u[1] == 'X') then Numeral(negative, 16, u[2..])
    else Numeral(negative, 10, u)
  }

  /**
   * `parseInt(s)` with no radix: skip leading white space, an optional sign,
   * a `0x`/`0X` prefix selecting base 16, then the longest run of digits;
   * anything after the run is ignored. `None` is NaN (no digit at all).
   */
  function ParseInt(s: string): (r: Option<int>)
    ensures var m := ScanNumeral(s); r.None? <==> DigitRun(m.body, m.radix) == 0
    ensures r.Some? ==> (r.value < 0 ==> ScanNumeral(s).negative)
  {
    var m := ScanNumeral(s);
    var n := DigitRun(m.body, m.radix);
    if n == 0 then None
    else
      var v: int := DigitsValue(m.body[..n], m.radix);
      Some(if m.negative then -v else v)
  }

  function DigitChar(d: nat): (c: char)
    requires d < 10
    ensures DigitValue(c) == d
  {
    ('0' as int + d) as char
  }

  /** The decimal notation of `n`, as a template literal prints it. */
  function DecimalString(n: nat): (s: string)
    ensures |s| > 0
    ensures forall i :: 0 <= i < |s| ==> '0' <= s[i] <= '9'
    ensures |s| > 1 ==> s[0] != '0'
  {
    if n < 10 then [DigitChar(n)] else DecimalString(n / 10) + [DigitChar(n % 10)]
  }

  lemma {:induction false} DecimalValue(n: nat)
    ensures DigitsValue(DecimalString(n), 10) == n
  {
    if n >= 10 {
      var s := DecimalString(n);
      assert s[..|s| - 1] == DecimalString(n / 10);
      DecimalValue(n / 10);
    }
  }

  /** `parseInt` reads back the decimal notation of every natural number. */
  lemma ParseIntDecimal(n: nat)
    ensures ParseInt(DecimalString(n)) == Some(n)
  {
    var s := DecimalString(n);
    assert !IsWhitespace(s[0]);
    assert Lead(s) == 0;
    assert s[0..] == s;
    assert ScanNumeral(s) == Numeral(false, 10, s);
    assert DigitRun(s, 10) == |s|;
    assert s[..|s|] == s;
    DecimalValue(n);
  }
}
