/** Printing and scanning decimal numbers: the `%d` conversions of the printf and
    scanf families (section 7.21.6 of ISO C11) on values of any size. */
module Numerals {
  predicate IsDigit(c: char) { '0' <= c <= '9' }

  /** The characters for which isspace() holds in the C locale. */
  predicate IsSpace(c: char) {
    c == ' ' || c == '\t' || c == '\n' || c == '\r' || c == '\U{000B}' || c == '\U{000C}'
  }

  function Digit(d: nat): char
    requires d < 10
  {
    ('0' as int + d) as char
  }

  function DigitValue(c: char): nat
    requires IsDigit(c)
  {
    c as int - '0' as int
  }

  /** `%d` of a number that is not negative. */
  function Decimal(n: nat): string {
    if n < 10 then [Digit(n)] else Decimal(n / 10) + [Digit(n % 10)]
  }

  predicate AllDigits(s: string) { forall i :: 0 <= i < |s| ==> IsDigit(s[i]) }

  function Value(s: string): nat
    requires AllDigits(s)
  {
    if s == [] then 0 else Value(s[..|s| - 1]) * 10 + DigitValue(s[|s| - 1])
  }

  /** The length of the longest prefix of white space. */
  function Spaces(s: string): (n: nat)
    ensures n <= |s|
  {
    if s != [] && IsSpace(s[0]) then 1 + Spaces(s[1..]) else 0
  }

  /** The length of the longest prefix of digits. */
  function Digits(s: string): (n: nat)
    ensures n <= |s| && AllDigits(s[..n])
    ensures n < |s| ==> !IsDigit(s[n])
  {
    if s != [] && IsDigit(s[0]) then
      var n := Digits(s[1..]);
      assert s[..1 + n] == [s[0]] + s[1..][..n];
      1 + n
    else 0
  }

  datatype Scan = NoMatch | Match(value: int, used: nat)

  function SignLength(s: string): nat { if s != [] && (s[0] == '-' || s[0] == '+') then 1 else 0 }

  /** `%d%n` of scanf: white space, an optional sign and at least one digit. */
  function ScanInt(s: string): Scan {
    var w := Spaces(s);
    var g := SignLength(s[w..]);
    var d := Digits(s[w + g..]);
    if d == 0 then NoMatch
    else
      var v: int := Value(s[w + g..][..d]);
      Match(if g == 1 && s[w] == '-' then -v else v, w + g + d)
  }

  /** A successful scan reads at least one character and stays inside the text. */
  lemma ScanAdvances(s: string)
    requires ScanInt(s).Match?
    ensures 0 < ScanInt(s).used <= |s|
  {
  }

  lemma {:induction false} DecimalDigits(n: nat)
    ensures |Decimal(n)| >= 1 && AllDigits(Decimal(n)) && Value(Decimal(n)) == n
    decreases n
  {
    if n >= 10 {
      DecimalDigits(n / 10);
      var s := Decimal(n);
      assert s[..|s| - 1] == Decimal(n / 10);
    } else {
      assert Decimal(n)[..0] == [];
    }
  }

  /** The number of digits grows with the number. */
  lemma {:induction false} DecimalLength(n: nat, width: nat, bound: nat)
    requires width >= 1 && n < bound && bound == Power10(width)
    ensures |Decimal(n)| <= width
    decreases width
  {
    if width > 1 && n >= 10 {
      DecimalLength(n / 10, width - 1, Power10(width - 1));
    }
  }

  function Power10(n: nat): nat { if n == 0 then 1 else 10 * Power10(n - 1) }

  lemma {:induction false} DigitsOf(s: string, rest: string)
    requires AllDigits(s) && (rest == [] || !IsDigit(rest[0]))
    ensures Digits(s + rest) == |s|
    decreases |s|
  {
    if s != [] {
      assert (s + rest)[1..] == s[1..] + rest;
      DigitsOf(s[1..], rest);
    } else {
      assert s + rest == rest;
    }
  }

  /** Scanning takes back what printing a number wrote. */
  lemma ScanDecimal(n: nat, rest: string)
    requires rest == [] || !IsDigit(rest[0])
    ensures ScanInt(Decimal(n) + rest) == Match(n, |Decimal(n)|)
  {
    DecimalDigits(n);
    var s := Decimal(n) + rest;
    assert IsDigit(s[0]);
    assert Spaces(s) == 0 && s[0..] == s && SignLength(s) == 0;
    DigitsOf(Decimal(n), rest);
    assert s[..|Decimal(n)|] == Decimal(n);
  }

  // ---- what can be scanned ----

  predicate AllSpaces(s: string) { forall i :: 0 <= i < |s| ==> IsSpace(s[i]) }

  /** The blank, and the control characters from tab to carriage return. */
  lemma SpacesAre(c: char)
    ensures IsSpace(c) <==> c == ' ' || 9 <= c as int <= 13
  {
    assert '\t' as int == 9 && '\n' as int == 10 && '\r' as int == 13;
    assert '\U{000B}' as int == 11 && '\U{000C}' as int == 12;
  }

  /** A text that starts with a number: white space, perhaps a sign, and all the digits there are. */
  ghost predicate StartsWithNumber(s: string, blanks: string, sign: string, digits: string, rest: string) {
    && s == blanks + sign + digits + rest
    && AllSpaces(blanks) && (sign == "" || sign == "-" || sign == "+")
    && digits != [] && AllDigits(digits) && (rest == [] || !IsDigit(rest[0]))
  }

  lemma {:induction false} SpacesOf(blanks: string, rest: string)
    requires AllSpaces(blanks) && (rest == [] || !IsSpace(rest[0]))
    ensures Spaces(blanks + rest) == |blanks|
    decreases |blanks|
  {
    if blanks == [] {
      assert blanks + rest == rest;
    } else {
      assert (blanks + rest)[1..] == blanks[1..] + rest;
      SpacesOf(blanks[1..], rest);
    }
  }

  lemma {:induction false} SpacesOnly(s: string)
    ensures AllSpaces(s[..Spaces(s)])
    decreases |s|
  {
    if s != [] && IsSpace(s[0]) {
      SpacesOnly(s[1..]);
      assert s[..1 + Spaces(s[1..])] == [s[0]] + s[1..][..Spaces(s[1..])];
    }
  }

  function Signed(sign: string, n: nat): int { if sign == "-" then 0 - n else n }

  /** Where its parts are. */
  lemma Slices(s: string, blanks: string, sign: string, digits: string, rest: string)
    requires StartsWithNumber(s, blanks, sign, digits, rest)
    ensures |blanks| + |sign| + |digits| <= |s|
    ensures var tail, number := s[|blanks|..], s[|blanks| + |sign|..];
            && s == blanks + tail && AllSpaces(blanks)
            && tail != [] && !IsSpace(tail[0]) && SignLength(tail) == |sign|
            && (sign != "" ==> s[|blanks|] == sign[0]) && (sign == "" || sign == "-" || sign == "+")
            && number == digits + rest && number[..|digits|] == digits
            && digits != [] && AllDigits(digits) && (rest == [] || !IsDigit(rest[0]))
  {
    assert s[|blanks|..] == sign + (digits + rest);
    assert s[|blanks| + |sign|..] == digits + rest;
    SignOf(sign, digits, rest);
  }

  lemma ScanAt(s: string, w: nat, g: nat, digits: string)
    requires w + g + |digits| <= |s| && digits != [] && AllDigits(digits)
    requires Spaces(s) == w && SignLength(s[w..]) == g && Digits(s[w + g..]) == |digits|
    requires s[w + g..][..|digits|] == digits
    ensures ScanInt(s) == Match(if g == 1 && s[w] == '-' then 0 - Value(digits) else Value(digits), w + g + |digits|)
  {
    hide Value, Spaces, Digits;
  }

  /** Such a text scans to the number, negative exactly behind a minus sign, and the scan
      uses it to its last digit. */
  lemma ScanNumber(s: string, blanks: string, sign: string, digits: string, rest: string)
    requires StartsWithNumber(s, blanks, sign, digits, rest)
    ensures ScanInt(s) == Match(Signed(sign, Value(digits)), |blanks| + |sign| + |digits|)
  {
    hide Value, Spaces, Digits, ScanInt, StartsWithNumber, AllSpaces, SignLength;
    Slices(s, blanks, sign, digits, rest);
    SpacesOf(blanks, s[|blanks|..]);
    DigitsOf(digits, rest);
    ScanAt(s, |blanks|, |sign|, digits);
  }

  lemma SignOf(sign: string, digits: string, rest: string)
    requires (sign == "" || sign == "-" || sign == "+") && digits != [] && IsDigit(digits[0])
    ensures SignLength(sign + (digits + rest)) == |sign|
    ensures !IsSpace((sign + (digits + rest))[0])
  {
  }

  /** No other text scans. */
  lemma ScansOnlyNumbers(s: string) returns (blanks: string, sign: string, digits: string, rest: string)
    requires ScanInt(s).Match?
    ensures StartsWithNumber(s, blanks, sign, digits, rest)
  {
    SpacesOnly(s);
    hide Value, Spaces, AllSpaces, Digits;
    var w := Spaces(s);
    var tail := s[w..];
    var g := SignLength(tail);
    assert s[w + g..] == tail[g..];
    var d := Digits(tail[g..]);
    assert d > 0;
    hide ScanInt;
    OneSign(tail);
    digits, rest := Halves(tail[g..], d);
    blanks, sign := s[..w], tail[..g];
    Joins(s, w, g, digits, rest);
  }

  lemma Halves(s: string, d: nat) returns (a: string, b: string)
    requires d <= |s|
    ensures a == s[..d] && b == s[d..] && s == a + b && (b != [] ==> b[0] == s[d])
  {
    a, b := s[..d], s[d..];
  }

  lemma Joins(s: string, w: nat, g: nat, digits: string, rest: string)
    requires w + g <= |s| && s[w..][g..] == digits + rest
    ensures s == s[..w] + s[w..][..g] + digits + rest
  {
    assert s == s[..w] + s[w..] && s[w..] == s[w..][..g] + s[w..][g..];
    assert s[..w] + (s[w..][..g] + (digits + rest)) == s[..w] + s[w..][..g] + digits + rest;
  }

  lemma OneSign(s: string)
    ensures var g := s[..SignLength(s)]; g == "" || g == "-" || g == "+"
  {
  }

  lemma ScanSigned(n: nat, rest: string)
    requires rest == [] || !IsDigit(rest[0])
    ensures ScanInt("-" + Decimal(n) + rest) == Match(0 - n, |Decimal(n)| + 1)
    ensures ScanInt("+" + Decimal(n) + rest) == Match(n, |Decimal(n)| + 1)
  {
    DecimalDigits(n);
    hide Decimal, ScanInt;
    assert "" + "-" + Decimal(n) + rest == "-" + Decimal(n) + rest;
    assert "" + "+" + Decimal(n) + rest == "+" + Decimal(n) + rest;
    ScanNumber("-" + Decimal(n) + rest, "", "-", Decimal(n), rest);
    ScanNumber("+" + Decimal(n) + rest, "", "+", Decimal(n), rest);
  }

  /** White space in front of a number is skipped and counted. */
  lemma ScanAfterSpace(c: char, s: string)
    requires IsSpace(c)
    ensures ScanInt([c] + s) == match ScanInt(s)
                                case NoMatch => NoMatch
                                case Match(v, n) => Match(v, n + 1)
  {
    var t := [c] + s;
    assert t[1..] == s;
    var w := Spaces(s);
    assert Spaces(t) == w + 1 && t[w + 1..] == s[w..];
    var g := SignLength(s[w..]);
    assert t[w + 1 + g..] == s[w + g..];
  }

  /** The C string in a buffer: everything before the first NUL. */
  function CString(b: seq<char>): (s: string)
    ensures |s| <= |b| && (forall i :: 0 <= i < |s| ==> s[i] != '\0')
    ensures s <= b && (|s| < |b| ==> b[|s|] == '\0')
  {
    if b == [] || b[0] == '\0' then [] else [b[0]] + CString(b[1..])
  }

  /** sprintf to `offset`: the text and a NUL, everything else as it was. */
  function Sprintf(b: seq<char>, offset: nat, text: string): seq<char>
    requires offset + |text| < |b|
  {
    b[..offset] + text + ['\0'] + b[offset + |text| + 1..]
  }

  /** sprintf writes the text and a NUL where it is told to, and nothing else. */
  lemma SprintfLeaves(b: seq<char>, offset: nat, text: string, i: nat)
    requires offset + |text| < |b| && i < |b|
    ensures var s := Sprintf(b, offset, text);
            && |s| == |b|
            && s[i] == if i < offset || i > offset + |text| then b[i] else if i < offset + |text| then text[i - offset] else '\0'
  {
  }

  lemma {:induction false} CStringOf(text: string, rest: seq<char>)
    requires forall i :: 0 <= i < |text| ==> text[i] != '\0'
    ensures CString(text + ['\0'] + rest) == text
    decreases |text|
  {
    var b := text + ['\0'] + rest;
    if text == [] {
    } else {
      assert b[1..] == text[1..] + ['\0'] + rest;
      CStringOf(text[1..], rest);
    }
  }

  /** Printing a text with "%s" shows what is left behind it, too. */
  lemma {:induction false} CStringAppend(text: string, rest: seq<char>)
    requires forall i :: 0 <= i < |text| ==> text[i] != '\0'
    ensures CString(text + rest) == text + CString(rest)
    decreases |text|
  {
    if text == [] {
      assert text + rest == rest;
    } else {
      assert (text + rest)[1..] == text[1..] + rest;
      CStringAppend(text[1..], rest);
    }
  }
}
