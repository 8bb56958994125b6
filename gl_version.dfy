/**
 * The "major.minor" OpenGL version parser (MinimalGetGLVersion, the same in
 * src/Minimal/Minimal.c and Minimal/src/Minimal/Minimal.c): atoi of the
 * whole string for the major number, atoi of the text after the first '.'
 * (found with strcspn) for the minor number. A C string is represented by
 * its characters before the terminator.
 */
module GLVersion {

  type CString = s: string | '\0' !in s

  /** isspace in the C locale. */
  predicate IsSpace(c: char)
  {
    c == ' ' || c == '\t' || c == '\n' || c == '\U{0B}' || c == '\U{0C}' || c == '\r'
  }

  predicate IsDigit(c: char)
  {
    '0' <= c <= '9'
  }

  /** Number of leading decimal digits. */
  function DigitSpan(s: string): (n: nat)
    ensures n <= |s|
    ensures forall i :: 0 <= i < n ==> IsDigit(s[i])
    ensures n < |s| ==> !IsDigit(s[n])
  {
    if s != [] && IsDigit(s[0]) then 1 + DigitSpan(s[1..]) else 0
  }

  /** The value of a string of decimal digits. */
  function DigitsValue(d: string): (v: nat)
    requires forall i :: 0 <= i < |d| ==> IsDigit(d[i])
  {
    if d == [] then 0
    else
      assert IsDigit(d[|d| - 1]);
      10 * DigitsValue(d[..|d| - 1]) + (d[|d| - 1] as int - '0' as int)
  }

  /** The value of the digits at the front of s (0 if there are none). */
  function LeadingValue(s: string): nat
  {
    DigitsValue(s[..DigitSpan(s)])
  }

  /**
   * atoi: leading white space is skipped, then an optional sign, then the
   * longest run of digits. (The source's int overflow is not modelled.)
   */
  function Atoi(s: string): int
  {
    if s != [] && IsSpace(s[0]) then Atoi(s[1..])
    else if s != [] && s[0] == '-' then -(LeadingValue(s[1..]) as int)
    else if s != [] && s[0] == '+' then LeadingValue(s[1..])
    else LeadingValue(s)
  }

  /** strcspn(s, "."): the length of the prefix without a '.'. */
  function SpanToDot(s: string): (n: nat)
    ensures n <= |s|
    ensures '.' !in s[..n]
    ensures n < |s| ==> s[n] == '.'
    ensures n == |s| <==> '.' !in s
  {
    if s == [] || s[0] == '.' then 0
    else
      assert s[..1 + SpanToDot(s[1..])] == [s[0]] + s[1..][..SpanToDot(s[1..])];
      1 + SpanToDot(s[1..])
  }

  /**
   * MinimalGetGLVersion. The minor number is read just past the first '.';
   * for a string without one that is one past the terminator, so the
   * string must hold a '.'.
   */
  function GetGLVersion(version: CString): (r: (int, int))
    requires '.' in version
    ensures SpanToDot(version) < |version|
  {
    (Atoi(version), Atoi(version[SpanToDot(version) + 1..]))
  }

  /** The decimal text of a natural number, as printf("%u") writes it. */
  function Decimal(n: nat): (s: string)
    ensures |s| > 0
    ensures forall i :: 0 <= i < |s| ==> IsDigit(s[i])
    ensures '\0' !in s && '.' !in s
  {
    if n < 10 then [('0' as int + n) as char]
    else Decimal(n / 10) + [('0' as int + n % 10) as char]
  }

  // ---------------------------------------------------------------------------
  // Properties

  /** The digits of a number read back as that number. */
  lemma {:induction false} DecimalValue(n: nat)
    ensures DigitsValue(Decimal(n)) == n
  {
    if n >= 10 {
      var s := Decimal(n);
      assert s[..|s| - 1] == Decimal(n / 10);
      DecimalValue(n / 10);
    }
  }

  /** The digit run at the front of digits followed by a non-digit ends at that non-digit. */
  lemma {:induction false} DigitSpanOfDigits(d: string, rest: string)
    requires forall i :: 0 <= i < |d| ==> IsDigit(d[i])
    requires rest == [] || !IsDigit(rest[0])
    ensures DigitSpan(d + rest) == |d|
  {
    if d != [] {
      assert (d + rest)[1..] == d[1..] + rest;
      DigitSpanOfDigits(d[1..], rest);
    } else {
      assert d + rest == rest;
    }
  }

  /** atoi reads a number's decimal text back, whatever non-digit text follows it. */
  lemma AtoiDecimal(n: nat, rest: string)
    requires rest == [] || !IsDigit(rest[0])
    ensures Atoi(Decimal(n) + rest) == n
  {
    var d := Decimal(n);
    DigitSpanOfDigits(d, rest);
    assert (d + rest)[..|d|] == d;
    DecimalValue(n);
  }

  /**
   * "major.minor" followed by any text that does not continue the minor
   * number is parsed into the two numbers.
   */
  lemma {:induction false} GLVersionPrefix(major: nat, minor: nat, rest: CString)
    requires rest == [] || !IsDigit(rest[0])
    ensures var v := Decimal(major) + "." + Decimal(minor) + rest;
      '\0' !in v && '.' in v && GetGLVersion(v) == (major, minor)
  {
    var a, b := Decimal(major), Decimal(minor);
    var tail := "." + (b + rest);
    VersionText(a, b, rest);
    var v: CString := a + "." + b + rest;
    SpanToDotAfterDigits(a, tail);
    AtoiDecimal(major, tail);
    AtoiDecimal(minor, rest);
  }

  /** How "major.minor" followed by other text splits at its first '.'. */
  lemma VersionText(a: string, b: string, rest: CString)
    requires '\0' !in a && '\0' !in b && '.' !in a
    ensures var v := a + "." + b + rest;
      v == a + ("." + (b + rest)) && '\0' !in v && '.' in v &&
      v[|a|] == '.' && v[|a| + 1..] == b + rest
  {
    var v := a + "." + b + rest;
    assert v == a + ("." + (b + rest));
    assert v[|a|] == '.';
    assert v[|a| + 1..] == b + rest;
  }

  /** "major.minor" is parsed back into the two numbers. */
  lemma GLVersionRoundTrip(major: nat, minor: nat)
    ensures var v := Decimal(major) + "." + Decimal(minor);
      '\0' !in v && '.' in v && GetGLVersion(v) == (major, minor)
  {
    GLVersionPrefix(major, minor, "");
    assert Decimal(major) + "." + Decimal(minor) + "" == Decimal(major) + "." + Decimal(minor);
  }

  /** Only the first '.' counts: "4.5.1" is 4.5. */
  lemma ThirdComponentIgnored(major: nat, minor: nat, patch: nat)
    ensures var v := Decimal(major) + "." + Decimal(minor) + "." + Decimal(patch);
      '\0' !in v && '.' in v && GetGLVersion(v) == (major, minor)
  {
    var rest := "." + Decimal(patch);
    GLVersionPrefix(major, minor, rest);
    assert Decimal(major) + "." + Decimal(minor) + rest == Decimal(major) + "." + Decimal(minor) + "." + Decimal(patch);
  }

  /** strcspn skips a run of digits. */
  lemma {:induction false} SpanToDotAfterDigits(d: string, rest: string)
    requires forall i :: 0 <= i < |d| ==> IsDigit(d[i])
    requires rest != [] && rest[0] == '.'
    ensures SpanToDot(d + rest) == |d|
  {
    if d != [] {
      assert (d + rest)[1..] == d[1..] + rest;
      SpanToDotAfterDigits(d[1..], rest);
    } else {
      assert d + rest == rest;
    }
  }
}
