/** JavaScript's `parseInt(string)` with no radix argument, on the integers:
    leading white space is skipped, one `+` or `-` sign is taken, a `0x` or `0X`
    prefix switches to base 16 (otherwise base 10), and the longest prefix of
    digits of that base is read; when there is no such digit the result is NaN,
    here `None`. */
module JsNumber {
  import opened Types

  /** The white space and line terminators `parseInt` skips. */
  predicate IsWhitespace(c: char) {
    ('\U{0009}' <= c <= '\U{000D}') || c == ' ' || c == '\U{00A0}' || c == '\U{1680}' ||
    ('\U{2000}' <= c <= '\U{200A}') || c == '\U{2028}' || c == '\U{2029}' || c == '\U{202F}' ||
    c == '\U{205F}' || c == '\U{3000}' || c == '\U{FEFF}'
  }

  predicate IsDecimalDigit(c: char) {
    '0' <= c <= '9'
  }

  /** The value of `c` as a digit of base `radix` (10 or 16), if it is one. */
  function DigitValue(c: char, radix: nat): (r: Option<nat>)
    requires radix == 10 || radix == 16
    ensures r.Some? ==> r.value < radix
    ensures radix == 10 ==> (r.Some? <==> IsDecimalDigit(c))
  {
    if '0' <= c <= '9' then Some(c as nat - '0' as nat)
    else if radix == 16 && 'a' <= c <= 'f' then Some(c as nat - 'a' as nat + 10)
    else if radix == 16 && 'A' <= c <= 'F' then Some(c as nat - 'A' as nat + 10)
    else None
  }

  predicate AllDigits(d: string, radix: nat)
    requires radix == 10 || radix == 16
  {
    forall i :: 0 <= i < |d| ==> DigitValue(d[i], radix).Some?
  }

  function TrimStart(s: string): (r: string)
    ensures |r| <= |s| && r == s[|s| - |r|..]
    ensures r == [] || !IsWhitespace(r[0])
  {
    if s != [] && IsWhitespace(s[0]) then TrimStart(s[1..]) else s
  }

  /** The longest prefix of `s` made of digits of base `radix`. */
  function DigitPrefix(s: string, radix: nat): (r: string)
    requires radix == 10 || radix == 16
    ensures |r| <= |s| && r == s[..|r|]
    ensures AllDigits(r, radix)
    ensures |r| < |s| ==> DigitValue(s[|r|], radix).None?
  {
    if s != [] && DigitValue(s[0], radix).Some? then [s[0]] + DigitPrefix(s[1..], radix) else []
  }

  /** The number a string of digits denotes, most significant digit first. */
  function DigitsValue(d: string, radix: nat): (r: nat)
    requires radix == 10 || radix == 16
    requires AllDigits(d, radix)
  {
    if d == [] then 0
    else DigitsValue(d[..|d| - 1], radix) * radix + DigitValue(d[|d| - 1], radix).value
  }

  /** The sign, radix and digits `parseInt` reads from `s`. */
  datatype Scan = Scan(negative: bool, radix: nat, digits: string)

  function ScanNumber(s: string): (r: Scan)
    ensures r.radix == 10 || r.radix == 16
    ensures AllDigits(r.digits, r.radix)
  {
    var t := TrimStart(s);
    if t != [] && (t[0] == '-' || t[0] == '+') then ScanUnsigned(t[0] == '-', t[1..])
    else ScanUnsigned(false, t)
  }

  /** What follows the sign: a `0x`/`0X` prefix and hexadecimal digits, or
      decimal digits. */
  function ScanUnsigned(negative: bool, u: string): (r: Scan)
    ensures r.negative == negative
    ensures r.radix == 10 || r.radix == 16
    ensures AllDigits(r.digits, r.radix)
    ensures r.digits != [] ==> u != [] && IsDecimalDigit(u[0])
  {
    if |u| >= 2 && u[0] == '0' && (u[1] == 'x' || u[1] == 'X') then
      Scan(negative, 16, DigitPrefix(u[2..], 16))
    else
      Scan(negative, 10, DigitPrefix(u, 10))
  }

  /** `parseInt(s)`: `None` stands for NaN, which it is exactly when no digit
      is read; a negative result needs a `-` sign. */
  function ParseInt(s: string): (r: Option<int>)
    ensures r.None? <==> ScanNumber(s).digits == []
    ensures r.Some? && r.value < 0 ==> ScanNumber(s).negative
  {
    var scan := ScanNumber(s);
    if scan.digits == [] then None
    else
      var magnitude: int := DigitsValue(scan.digits, scan.radix);
      Some(if scan.negative then -magnitude else magnitude)
  }

  /** A string without any decimal digit is always NaN: the first character
      after the white space and the sign would have to be one. */
  lemma ParseIntWithoutDigits(s: string)
    requires forall i :: 0 <= i < |s| ==> !IsDecimalDigit(s[i])
    ensures ParseInt(s).None?
  {
    var t := TrimStart(s);
    var u := if t != [] && (t[0] == '-' || t[0] == '+') then t[1..] else t;
    assert u == s[|s| - |u|..];
    if u != [] {
      assert u[0] == s[|s| - |u|];
    }
  }

  /** `parseInt(s) || 0`: NaN (and -0) become 0. */
  function ParseIntOrZero(s: string): (r: int)
    ensures ParseInt(s).None? ==> r == 0
    ensures ParseInt(s).Some? ==> r == ParseInt(s).value
  {
    match ParseInt(s)
    case None => 0
    case Some(n) => n
  }

  // ---------- decimal numerals, the partner of ParseInt ----------

  function DigitChar(d: nat): (c: char)
    requires d < 10
    ensures IsDecimalDigit(c) && DigitValue(c, 10) == Some(d)
  {
    ('0' as nat + d) as char
  }

  /** The decimal numeral of `n`, without leading zeros. */
  function Digits(n: nat): (r: string)
    ensures r != [] && AllDigits(r, 10)
    ensures r[0] == '0' ==> n == 0
    ensures |r| >= 2 ==> IsDecimalDigit(r[1])
  {
    if n < 10 then [DigitChar(n)] else Digits(n / 10) + [DigitChar(n % 10)]
  }

  /** The decimal numeral of `n`, with a `-` when it is negative. */
  function DecimalString(n: int): (r: string) {
    if n < 0 then "-" + Digits(-n) else Digits(n)
  }

  lemma {:induction false} DigitsValueOfDigits(n: nat)
    ensures DigitsValue(Digits(n), 10) == n
  {
    if n >= 10 {
      var d := Digits(n);
      assert d[..|d| - 1] == Digits(n / 10);
      DigitsValueOfDigits(n / 10);
    }
  }

  lemma {:induction false} DigitPrefixOfDigits(d: string, rest: string)
    requires AllDigits(d, 10)
    requires rest == [] || !IsDecimalDigit(rest[0])
    ensures DigitPrefix(d + rest, 10) == d
  {
    if d != [] {
      assert (d + rest)[1..] == d[1..] + rest;
      DigitPrefixOfDigits(d[1..], rest);
      assert [d[0]] + d[1..] == d;
    } else {
      assert d + rest == rest;
    }
  }

  lemma TrimStartKeeps(s: string)
    requires s != [] && !IsWhitespace(s[0])
    ensures TrimStart(s) == s
  {
  }

  /** A decimal numeral never starts with the `0x` that selects base 16. */
  lemma NotHexPrefix(m: nat, rest: string)
    requires rest == [] || (!IsDecimalDigit(rest[0]) && rest[0] != 'x' && rest[0] != 'X')
    ensures var u := Digits(m) + rest; !(|u| >= 2 && u[0] == '0' && (u[1] == 'x' || u[1] == 'X'))
  {
    var d := Digits(m);
    var u := d + rest;
    if |u| >= 2 && u[0] == '0' {
      assert d[0] == '0' && d == Digits(0);
      assert u[1] == rest[0];
    }
  }

  /** The unsigned part of a decimal numeral followed by `rest` scans as
      exactly its decimal digits. */
  lemma ScanUnsignedOfDigits(negative: bool, m: nat, rest: string)
    requires rest == [] || (!IsDecimalDigit(rest[0]) && rest[0] != 'x' && rest[0] != 'X')
    ensures ScanUnsigned(negative, Digits(m) + rest) == Scan(negative, 10, Digits(m))
  {
    NotHexPrefix(m, rest);
    DigitPrefixOfDigits(Digits(m), rest);
  }

  /** An unsigned string that starts with a digit is scanned as it stands. */
  lemma ScanOfUnsigned(u: string)
    requires u != [] && IsDecimalDigit(u[0])
    ensures ScanNumber(u) == ScanUnsigned(false, u)
  {
    TrimStartKeeps(u);
  }

  /** A `-` followed by a digit is scanned as a negative number. */
  lemma ScanOfNegative(u: string)
    requires u != [] && IsDecimalDigit(u[0])
    ensures ScanNumber(['-'] + u) == ScanUnsigned(true, u)
  {
    var s := ['-'] + u;
    TrimStartKeeps(s);
    assert s[0] == '-' && s[1..] == u;
  }

  /** What `parseInt` scans in a decimal numeral followed by `rest`. */
  lemma ScanOfDecimal(n: int, rest: string)
    requires rest == [] || (!IsDecimalDigit(rest[0]) && rest[0] != 'x' && rest[0] != 'X')
    ensures ScanNumber(DecimalString(n) + rest) == Scan(n < 0, 10, Digits(if n < 0 then -n else n))
  {
    var m: nat := if n < 0 then -n else n;
    var d := Digits(m);
    var u := d + rest;
    ScanUnsignedOfDigits(n < 0, m, rest);
    assert DigitValue(d[0], 10).Some?;
    assert u[0] == d[0];
    if n < 0 {
      assert DecimalString(n) + rest == ['-'] + u;
      ScanOfNegative(u);
    } else {
      assert DecimalString(n) + rest == u;
      ScanOfUnsigned(u);
    }
  }

  /** `parseInt` reads back the decimal numeral of any integer, also when the
      numeral is followed by anything that cannot continue it (a fraction, an
      exponent, a unit). */
  lemma ParseIntOfDecimal(n: int, rest: string)
    requires rest == [] || (!IsDecimalDigit(rest[0]) && rest[0] != 'x' && rest[0] != 'X')
    ensures ParseInt(DecimalString(n) + rest) == Some(n)
    ensures ParseIntOrZero(DecimalString(n) + rest) == n
  {
    ScanOfDecimal(n, rest);
    DigitsValueOfDigits(if n < 0 then -n else n);
  }
}
