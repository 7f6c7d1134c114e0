/** Memory and disk sizes: the parser of the `--memory` and `--disk` flags and the printer that
    shows them back (internal/shared/size/parse.go and formatMB in cmd/goship/commands/deploy.go). */
module Sizes {
  const MAX_INT64 := 0x7FFF_FFFF_FFFF_FFFF
  const MIN_INT64 := -0x8000_0000_0000_0000
  const MB_PER_GB := 1024

  datatype Error = Empty | Invalid | Negative
  datatype Result = Ok(value: int) | Err(error: Error)

  predicate IsInt64(n: int) {
    MIN_INT64 <= n <= MAX_INT64
  }

  /** Two's complement wrap-around of a 64-bit product. */
  function Wrap64(n: int): int {
    (n + 0x8000_0000_0000_0000) % 0x1_0000_0000_0000_0000 - 0x8000_0000_0000_0000
  }

  // ---------------------------------------------------------------- numerals

  predicate IsDigit(c: char) {
    '0' <= c <= '9'
  }

  function DigitChar(d: nat): char
    requires d < 10
  {
    '0' + d as char
  }

  predicate AllDigits(s: string) {
    forall i :: 0 <= i < |s| ==> IsDigit(s[i])
  }

  function Numeral(s: string): nat
    requires AllDigits(s)
  {
    if s == "" then 0
    else Numeral(s[..|s| - 1]) * 10 + (s[|s| - 1] - '0') as nat
  }

  function Digits(n: nat): string {
    if n < 10 then [DigitChar(n)] else Digits(n / 10) + [DigitChar(n % 10)]
  }

  /** The `%d` verb. */
  function Decimal(n: int): string {
    if n < 0 then "-" + Digits(-n) else Digits(n)
  }

  /**
   * `strconv.ParseInt(s, 10, 64)`; None stands for both of its errors, syntax
   * and range, which the parser of sizes does not tell apart.
   */
  datatype Int = None | Some(value: int)

  function ParseInt(s: string): Int {
    if s == "" then None
    else if s[0] == '+' then Signed(s[1..], 1)
    else if s[0] == '-' then Signed(s[1..], -1)
    else Signed(s, 1)
  }

  function Signed(s: string, sign: int): Int {
    if s == "" || !AllDigits(s) then None
    else if !IsInt64(sign * Numeral(s)) then None
    else Some(sign * Numeral(s))
  }

  lemma {:induction false} DigitsReadBack(n: nat)
    ensures AllDigits(Digits(n)) && Digits(n) != "" && Numeral(Digits(n)) == n
  {
    if n < 10 {
      assert Digits(n)[..0] == "";
    } else {
      DigitsReadBack(n / 10);
      assert Digits(n)[..|Digits(n)| - 1] == Digits(n / 10);
    }
  }

  /** A number in decimal is read as itself if it has 64 bits, and refused if it has not. */
  lemma DecimalReadsBack(n: int)
    ensures ParseInt(Decimal(n)) ==
      if -9223372036854775808 <= n <= 9223372036854775807 then Some(n) else None
  {
    if n < 0 {
      DigitsReadBack(-n);
      assert Decimal(n)[1..] == Digits(-n);
    } else {
      DigitsReadBack(n);
    }
  }

  // ------------------------------------------------------------------ parser

  /** `unicode.IsSpace`. */
  predicate IsSpace(c: char) {
    || '\t' <= c <= '\r' || c == ' ' || c == '\U{85}' || c == '\U{A0}' || c == '\U{1680}'
    || '\U{2000}' <= c <= '\U{200A}' || c == '\U{2028}' || c == '\U{2029}' || c == '\U{202F}'
    || c == '\U{205F}' || c == '\U{3000}'
  }

  function TrimLeft(s: string): string {
    if s != "" && IsSpace(s[0]) then TrimLeft(s[1..]) else s
  }

  function TrimRight(s: string): string {
    if s != "" && IsSpace(s[|s| - 1]) then TrimRight(s[..|s| - 1]) else s
  }

  function TrimSpace(s: string): string {
    TrimRight(TrimLeft(s))
  }

  function Checked(n: Int, scale: int): Result {
    match n
    case None => Err(Invalid)
    case Some(v) => if v < 0 then Err(Negative) else Ok(Wrap64(v * scale))
  }

  function ParseSizeMB(text: string): Result {
    var s := TrimSpace(text);
    if s == "" then Err(Empty)
    else
      var suffix, number := s[|s| - 1], s[..|s| - 1];
      if suffix == 'm' || suffix == 'M' then Checked(ParseInt(number), 1)
      else if suffix == 'g' || suffix == 'G' then Checked(ParseInt(number), MB_PER_GB)
      else Checked(ParseInt(s), 1)
  }

  /** How a size in megabytes is shown. */
  function FormatMB(mb: int): string {
    if mb == 0 then "default"
    else if mb >= MB_PER_GB && mb % MB_PER_GB == 0 then Decimal(mb / MB_PER_GB) + "G"
    else Decimal(mb) + "M"
  }

  // -------------------------------------------------------------- properties

  predicate Blank(s: string) {
    forall i :: 0 <= i < |s| ==> IsSpace(s[i])
  }

  lemma {:induction false} TrimLeftDropsBlank(a: string, s: string)
    requires Blank(a)
    ensures TrimLeft(a + s) == TrimLeft(s)
  {
    if a == "" {
      assert a + s == s;
    } else {
      TrimLeftDropsBlank(a[1..], s);
      assert (a + s)[1..] == a[1..] + s;
    }
  }

  lemma {:induction false} TrimRightDropsBlank(s: string, b: string)
    requires Blank(b)
    ensures TrimRight(s + b) == TrimRight(s)
  {
    if b == "" {
      assert s + b == s;
    } else {
      TrimRightDropsBlank(s, b[..|b| - 1]);
      assert (s + b)[..|s + b| - 1] == s + b[..|b| - 1];
    }
  }

  lemma {:induction false} TrimLeftIgnoresTheEnd(s: string, b: string)
    requires Blank(b)
    ensures TrimRight(TrimLeft(s + b)) == TrimRight(TrimLeft(s))
  {
    if s == "" {
      TrimLeftDropsBlank(b, "");
      assert s + b == b == b + "";
    } else if IsSpace(s[0]) {
      TrimLeftIgnoresTheEnd(s[1..], b);
      assert (s + b)[1..] == s[1..] + b;
    } else {
      TrimRightDropsBlank(s, b);
    }
  }

  /** White space around a size never matters. */
  lemma SurroundingSpaceIsIgnored(a: string, s: string, b: string)
    requires Blank(a) && Blank(b)
    ensures ParseSizeMB(a + s + b) == ParseSizeMB(s)
  {
    TrimLeftIgnoresTheEnd(a + s, b);
    TrimLeftDropsBlank(a, s);
  }

  /** A number followed by a letter is already trimmed. */
  lemma NumberIsTrimmed(t: string, c: char)
    requires ParseInt(t).Some? && !IsSpace(c)
    ensures TrimSpace(t + [c]) == t + [c] && (t + [c])[..|t|] == t
  {
    assert (t + [c])[0] == t[0];
    assert !IsSpace(t[0]);
  }

  /** A number of megabytes is taken as it is, with either suffix or none, unless it is negative. */
  lemma MegabytesExact(t: string, v: int)
    requires ParseInt(t) == Some(v)
    ensures ParseSizeMB(t + "M") == if v < 0 then Err(Negative) else Ok(v)
    ensures ParseSizeMB(t + "m") == ParseSizeMB(t + "M") == ParseSizeMB(t)
  {
    NumberIsTrimmed(t, 'M');
    NumberIsTrimmed(t, 'm');
    PlainIsTrimmed(t);
  }

  lemma PlainIsTrimmed(t: string)
    requires ParseInt(t).Some?
    ensures TrimSpace(t) == t && t != "" && IsDigit(t[|t| - 1])
  {
    assert t[0] == '+' || t[0] == '-' || IsDigit(t[0]);
    var digits := if t[0] == '+' || t[0] == '-' then t[1..] else t;
    assert AllDigits(digits) && digits[|digits| - 1] == t[|t| - 1];
  }

  /** A plus sign in front of a number does not matter. */
  lemma PlusIsIgnored(t: string)
    requires t != "" && IsDigit(t[0])
    ensures ParseInt("+" + t) == ParseInt(t)
  {
    assert ("+" + t)[1..] == t;
  }

  /** Blanks, tabs, newlines and the like are white space; what sizes are made of is not. */
  lemma SpacesAre(c: char)
    ensures c in " \t\n\r" ==> IsSpace(c)
    ensures c in "+-0123456789mMgG" ==> !IsSpace(c)
  {
  }

  /** Nothing but white space is an empty size; a suffix behind no number is an invalid one. */
  lemma NoNumber(t: string, c: char)
    ensures Blank(t) ==> ParseSizeMB(t) == Err(Empty)
    ensures t != "" && !IsSpace(t[0]) && ParseInt(t).None? && c in "mMgG" ==> ParseSizeMB(t + [c]) == Err(Invalid)
  {
    if Blank(t) {
      SurroundingSpaceIsIgnored(t, "", "");
      assert t + "" + "" == t;
    } else if t != "" && !IsSpace(t[0]) && c in "mMgG" {
      var s := t + [c];
      assert s[0] == t[0] && s[..|t|] == t && TrimLeft(s) == s && TrimRight(s) == s;
    }
  }

  /** Sizes are shown in gigabytes when they are whole gigabytes, and 0 as the default. */
  lemma ShownAs(n: int)
    ensures n > 0 ==> FormatMB(1024 * n) == Decimal(n) + "G"
    ensures n < 1024 || n % 1024 != 0 ==> FormatMB(n) == if n == 0 then "default" else Decimal(n) + "M"
  {
  }

  /**
   * The gigabyte branch multiplies without an overflow check: it gives the
   * exact product for values up to (2^63 - 1) / 1024 and for no larger one,
   * and always the product modulo 2^64.
   */
  lemma GigabytesExact(t: string, v: int)
    requires ParseInt(t) == Some(v) && v >= 0
    ensures ParseSizeMB(t + "G") == ParseSizeMB(t + "g")
    ensures ParseSizeMB(t + "G").Ok? && IsInt64(ParseSizeMB(t + "G").value)
    ensures ParseSizeMB(t + "G") == Ok(v * MB_PER_GB) <==> v <= MAX_INT64 / MB_PER_GB
    ensures (ParseSizeMB(t + "G").value - v * 1024) % 0x1_0000_0000_0000_0000 == 0
  {
    NumberIsTrimmed(t, 'G');
    NumberIsTrimmed(t, 'g');
  }

  /** A size of 2^53 gigabytes is accepted and becomes a negative number. */
  lemma AcceptedButNegative()
    ensures ParseSizeMB(Decimal(0x20_0000_0000_0000) + "G") == Ok(MIN_INT64)
  {
    DecimalReadsBack(0x20_0000_0000_0000);
    NumberIsTrimmed(Decimal(0x20_0000_0000_0000), 'G');
  }

  lemma DefaultIsInvalid()
    ensures ParseSizeMB("default") == Err(Invalid)
  {
    var s := "default";
    assert TrimLeft(s) == s && TrimRight(s) == s;
    assert s[|s| - 1] == 't' && s[0] == 'd';
    assert ParseInt(s) == Signed(s, 1) && !IsDigit(s[0]);
  }

  lemma MegabytesReadBack(n: int)
    requires IsInt64(n)
    ensures ParseSizeMB(Decimal(n) + "M") == if n < 0 then Err(Negative) else Ok(n)
  {
    DecimalReadsBack(n);
    NumberIsTrimmed(Decimal(n), 'M');
  }

  lemma GigabytesReadBack(n: int)
    requires 0 <= n <= MAX_INT64 / MB_PER_GB
    ensures ParseSizeMB(Decimal(n) + "G") == Ok(n * MB_PER_GB)
  {
    DecimalReadsBack(n);
    GigabytesExact(Decimal(n), n);
  }

  /** Printing then parsing gives every 64-bit size back, if and only if it is positive. */
  lemma RoundTrip(n: int)
    requires IsInt64(n)
    ensures ParseSizeMB(FormatMB(n)) == Ok(n) <==> n > 0
    ensures n == 0 ==> ParseSizeMB(FormatMB(n)) == Err(Invalid)
    ensures n < 0 ==> ParseSizeMB(FormatMB(n)) == Err(Negative)
  {
    if n == 0 {
      DefaultIsInvalid();
    } else if n >= MB_PER_GB && n % MB_PER_GB == 0 {
      GigabytesReadBack(n / MB_PER_GB);
    } else {
      MegabytesReadBack(n);
    }
  }

  /** Every size that prints as a number is printed in a way no other size is. */
  lemma FormatInjective(m: int, n: int)
    requires IsInt64(m) && IsInt64(n)
    requires FormatMB(m) == FormatMB(n)
    ensures m == n
  {
    RoundTrip(m);
    RoundTrip(n);
    if m < 0 {
      DecimalReadsBack(m);
      DecimalReadsBack(n);
      assert FormatMB(m)[..|FormatMB(m)| - 1] == Decimal(m);
      assert FormatMB(n)[..|FormatMB(n)| - 1] == Decimal(n);
    }
  }
}
