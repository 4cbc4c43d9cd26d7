/**
 * Character and string helpers of the C++ and Python standard libraries that the
 * SDK relies on: reading a `char *` up to its NUL, `std::isspace` in the
 * classic locale, `strcasecmp`,
 * `std::to_string`, `std::stoul` and Python's `str.replace`, `upper` and
 * `lower` (on ASCII letters).
 */
module Strings {
  import opened Wrappers

  /** The string a `char *` points at: everything before the first NUL. */
  function CString(s: string): (r: string)
    ensures |r| <= |s| && r == s[..|r|]
    ensures forall i :: 0 <= i < |r| ==> r[i] != '\0'
    ensures |r| < |s| ==> s[|r|] == '\0'
  {
    if s == [] || s[0] == '\0' then [] else [s[0]] + CString(s[1..])
  }

  /** A string with no NUL in it is its own C string. */
  lemma {:induction false} CStringWithoutNul(s: string)
    requires forall i :: 0 <= i < |s| ==> s[i] != '\0'
    ensures CString(s) == s
  {
    if s != [] {
      assert forall i :: 0 <= i < |s[1..]| ==> s[1..][i] == s[i + 1];
      CStringWithoutNul(s[1..]);
    }
  }

  /** `std::isspace` in the "C" locale: space, \t, \n, \v, \f, \r. */
  predicate IsSpace(c: char) {
    c == ' ' || '\t' <= c <= '\r'
  }

  /** `ltrim`: drop leading white space. */
  function TrimLeft(s: string): (r: string)
    ensures |r| <= |s|
    decreases |s|
  {
    if s != [] && IsSpace(s[0]) then TrimLeft(s[1..]) else s
  }

  /** `ltrim` cuts a prefix of white space and stops at the first other character. */
  lemma {:induction false} TrimLeftCuts(s: string)
    ensures TrimLeft(s) == s[|s| - |TrimLeft(s)|..]
    ensures forall i :: 0 <= i < |s| - |TrimLeft(s)| ==> IsSpace(s[i])
    ensures TrimLeft(s) == [] || !IsSpace(TrimLeft(s)[0])
    decreases |s|
  {
    if s != [] && IsSpace(s[0]) {
      TrimLeftCuts(s[1..]);
    }
  }

  /** `rtrim`: drop trailing white space. */
  function TrimRight(s: string): (r: string)
    ensures |r| <= |s|
    decreases |s|
  {
    if s != [] && IsSpace(s[|s| - 1]) then TrimRight(s[..|s| - 1]) else s
  }

  /** `rtrim` cuts a suffix of white space and stops at the last other character. */
  lemma {:induction false} TrimRightCuts(s: string)
    ensures TrimRight(s) == s[..|TrimRight(s)|]
    ensures forall i :: |TrimRight(s)| <= i < |s| ==> IsSpace(s[i])
    ensures TrimRight(s) == [] || !IsSpace(TrimRight(s)[|TrimRight(s)| - 1])
    decreases |s|
  {
    if s != [] && IsSpace(s[|s| - 1]) {
      TrimRightCuts(s[..|s| - 1]);
    }
  }

  /** `trim(s)` is `ltrim(rtrim(s))`: the infix of `s` between its leading and trailing white space. */
  function Trim(s: string): (r: string)
  {
    TrimLeft(TrimRight(s))
  }

  /** The trimmed string is an infix of the input, everything cut away is white space, and it has no white space at either end. */
  lemma TrimIsInfix(s: string)
    ensures exists a, b :: (0 <= a <= b <= |s| && Trim(s) == s[a..b]
      && (forall i :: 0 <= i < a ==> IsSpace(s[i]))
      && (forall i :: b <= i < |s| ==> IsSpace(s[i])))
    ensures Trim(s) == [] || (!IsSpace(Trim(s)[0]) && !IsSpace(Trim(s)[|Trim(s)| - 1]))
  {
    var t := TrimRight(s);
    var r := TrimLeft(t);
    TrimRightCuts(s);
    TrimLeftCuts(t);
    var a := |t| - |r|;
    assert r == s[a..|t|];
    if r != [] {
      assert r[|r| - 1] == t[|t| - 1];
    }
  }

  /** Trimming twice is trimming once. */
  lemma TrimIdempotent(s: string)
    ensures Trim(Trim(s)) == Trim(s)
  {
    var r := Trim(s);
    TrimIsInfix(s);
    assert TrimRight(r) == r;
    assert TrimLeft(r) == r;
  }

  /** C `tolower` in the "C" locale. */
  function ToLowerAscii(c: char): char {
    if 'A' <= c <= 'Z' then (c as int + 32) as char else c
  }

  /** C `toupper` in the "C" locale (and Python's `str.upper` on ASCII). */
  function ToUpperAscii(c: char): char {
    if 'a' <= c <= 'z' then (c as int - 32) as char else c
  }

  /** `strcasecmp(a, b) == 0`. */
  predicate EqualsIgnoreCase(a: string, b: string) {
    |a| == |b| && forall i :: 0 <= i < |a| ==> ToLowerAscii(a[i]) == ToLowerAscii(b[i])
  }

  /** `sub` occurs in `s` starting at position `j`. */
  predicate OccursAt(s: string, sub: string, j: nat) {
    j + |sub| <= |s| && s[j..j + |sub|] == sub
  }

  /** Python's `s.replace(a, b)` for a single character: every `a` becomes `b`. */
  function ReplaceChar(s: string, a: char, b: char): (r: string)
    ensures |r| == |s|
    ensures forall i :: 0 <= i < |s| ==> r[i] == (if s[i] == a then b else s[i])
  {
    if s == [] then [] else [if s[0] == a then b else s[0]] + ReplaceChar(s[1..], a, b)
  }

  /** Python's `s.replace(pat, rep)`: non-overlapping occurrences, left to right. */
  function ReplaceAll(s: string, pat: string, rep: string): string
    requires pat != []
    decreases |s|
  {
    if |s| < |pat| then s
    else if s[..|pat|] == pat then rep + ReplaceAll(s[|pat|..], pat, rep)
    else [s[0]] + ReplaceAll(s[1..], pat, rep)
  }

  /** Replacing a pattern that does not occur changes nothing. */
  lemma {:induction false} ReplaceAllAbsent(s: string, pat: string, rep: string)
    requires pat != []
    requires forall j: nat :: !OccursAt(s, pat, j)
    ensures ReplaceAll(s, pat, rep) == s
    decreases |s|
  {
    if |s| >= |pat| {
      assert !OccursAt(s, pat, 0);
      forall j: nat ensures !OccursAt(s[1..], pat, j) {
        assert !OccursAt(s, pat, j + 1);
      }
      ReplaceAllAbsent(s[1..], pat, rep);
    }
  }

  /** Stripping a leading pattern from a name that does not contain it again leaves the name. */
  lemma ReplaceAllStripsPrefix(pat: string, name: string)
    requires pat != []
    requires forall j: nat :: !OccursAt(name, pat, j)
    ensures ReplaceAll(pat + name, pat, "") == name
  {
    assert (pat + name)[..|pat|] == pat;
    assert (pat + name)[|pat|..] == name;
    ReplaceAllAbsent(name, pat, "");
  }

  function DigitChar(d: nat): char
    requires d < 10
  {
    ('0' as int + d) as char
  }

  predicate IsDigit(c: char) {
    '0' <= c <= '9'
  }

  /** `std::to_string` of an unsigned value: decimal digits without leading zeros. */
  function NatToString(n: nat): (s: string)
    ensures |s| >= 1 && forall i :: 0 <= i < |s| ==> IsDigit(s[i])
    ensures s[0] == '0' <==> n == 0
    ensures n < 10 <==> |s| == 1
  {
    if n < 10 then [DigitChar(n)] else NatToString(n / 10) + [DigitChar(n % 10)]
  }

  /** The value of a string of decimal digits. */
  function DecimalValue(s: string): nat
    requires forall i :: 0 <= i < |s| ==> IsDigit(s[i])
  {
    if s == [] then 0
    else
      assert IsDigit(s[|s| - 1]);
      10 * DecimalValue(s[..|s| - 1]) + (s[|s| - 1] as int - '0' as int)
  }

  /** Reading back the decimal form gives the number. */
  lemma {:induction false} NatToStringRoundTrip(n: nat)
    ensures DecimalValue(NatToString(n)) == n
  {
    if n >= 10 {
      var s := NatToString(n);
      assert s[..|s| - 1] == NatToString(n / 10);
      NatToStringRoundTrip(n / 10);
    }
  }

  /** Different numbers have different decimal forms. */
  lemma NatToStringInjective(m: nat, n: nat)
    requires NatToString(m) == NatToString(n)
    ensures m == n
  {
    NatToStringRoundTrip(m);
    NatToStringRoundTrip(n);
  }

  // ----- std::stoul(s, nullptr, 0) ----------------------------------------------------

  /** 2^64: one more than the largest `unsigned long`. */
  const Two64: nat := 0x1_0000_0000_0000_0000

  /** Why `std::stoul` throws: no digits at all, or a value that does not fit. */
  datatype StoulError = InvalidArgument | OutOfRange

  /** The value of a digit character in bases up to 36, and 36 for anything else. */
  function DigitValue(c: char): (d: nat)
    ensures d <= 36
    ensures IsDigit(c) ==> d == c as int - '0' as int
  {
    if '0' <= c <= '9' then c as int - '0' as int
    else if 'a' <= c <= 'z' then c as int - 'a' as int + 10
    else if 'A' <= c <= 'Z' then c as int - 'A' as int + 10
    else 36
  }

  /** The number of leading characters of `s` that are digits in `base`. */
  function DigitRun(s: string, base: nat): (n: nat)
    ensures n <= |s|
    ensures forall i :: 0 <= i < n ==> DigitValue(s[i]) < base
    ensures n < |s| ==> DigitValue(s[n]) >= base
    decreases |s|
  {
    if s != [] && DigitValue(s[0]) < base then 1 + DigitRun(s[1..], base) else 0
  }

  /** The value of a string of digits in `base`. */
  function ValueIn(s: string, base: nat): nat
    decreases |s|
  {
    if s == [] then 0 else base * ValueIn(s[..|s| - 1], base) + DigitValue(s[|s| - 1])
  }

  /** An optional sign: whether it is '-', and the text after it. */
  function Sign(t: string): (bool, string) {
    if t != [] && (t[0] == '+' || t[0] == '-') then (t[0] == '-', t[1..]) else (false, t)
  }

  /**
   * The base `strtoul` picks when asked for base 0, and where the digits start:
   * "0x"/"0X" before a hexadecimal digit selects 16 and is skipped, a leading '0'
   * selects 8 and anything else 10.
   */
  function Radix(u: string): (nat, string) {
    if |u| >= 3 && u[0] == '0' && (u[1] == 'x' || u[1] == 'X') && DigitValue(u[2]) < 16 then (16, u[2..])
    else if u != [] && u[0] == '0' then (8, u)
    else (10, u)
  }

  /** Reading the longest run of digits: none is `invalid_argument`, 2^64 or more `out_of_range`, a '-' negates modulo 2^64. */
  function Convert(digits: string, base: nat, negative: bool): (r: Result<nat, StoulError>)
    ensures r.Ok? ==> r.value < Two64
  {
    var n := DigitRun(digits, base);
    if n == 0 then Err(InvalidArgument)
    else
      var v := ValueIn(digits[..n], base);
      if v >= Two64 then Err(OutOfRange)
      else if negative then Ok(if v == 0 then 0 else Two64 - v)
      else Ok(v)
  }

  /**
   * `std::stoul(s, nullptr, 0)` on an LP64 platform, after `strtoul` with base 0:
   * leading white space is skipped, then an optional sign, then the base prefix, and
   * the longest run of digits is read; anything after it is ignored.
   */
  function Stoul(s: string): (r: Result<nat, StoulError>)
    ensures r.Ok? ==> r.value < Two64
  {
    var (negative, u) := Sign(TrimLeft(s));
    var (base, digits) := Radix(u);
    Convert(digits, base, negative)
  }

  /** A run of digits that fills the whole string converts to its value. */
  lemma ConvertWhole(digits: string, base: nat, negative: bool)
    requires digits != [] && forall i :: 0 <= i < |digits| ==> DigitValue(digits[i]) < base
    requires ValueIn(digits, base) < Two64
    ensures Convert(digits, base, negative) ==
      Ok(if negative && ValueIn(digits, base) != 0 then Two64 - ValueIn(digits, base) else ValueIn(digits, base))
  {
    DigitRunAll(digits, base);
    assert digits[..|digits|] == digits;
  }

  /** In base ten `ValueIn` is the decimal value. */
  lemma {:induction false} ValueInDecimal(s: string)
    requires forall i :: 0 <= i < |s| ==> IsDigit(s[i])
    ensures ValueIn(s, 10) == DecimalValue(s)
    decreases |s|
  {
    if s != [] {
      ValueInDecimal(s[..|s| - 1]);
    }
  }

  /** The run covers a string made only of digits of the base. */
  lemma {:induction false} DigitRunAll(s: string, base: nat)
    requires forall i :: 0 <= i < |s| ==> DigitValue(s[i]) < base
    ensures DigitRun(s, base) == |s|
    decreases |s|
  {
    if s != [] {
      DigitRunAll(s[1..], base);
    }
  }

  /** `Stoul` by its stages, for a string that starts with its sign or digits. */
  lemma StoulStages(s: string, negative: bool, u: string, base: nat, digits: string)
    requires s == [] || !IsSpace(s[0])
    requires Sign(s) == (negative, u) && Radix(u) == (base, digits)
    ensures Stoul(s) == Convert(digits, base, negative)
  {
    assert TrimLeft(s) == s;
  }

  /** `std::stoul` reads back what `std::to_string` writes, for every value that fits in 64 bits. */
  lemma StoulReadsDecimal(n: nat)
    requires n < Two64
    ensures Stoul(NatToString(n)) == Ok(n)
  {
    var s := NatToString(n);
    if n == 0 {
      assert s == "0";
      StoulStages(s, false, s, 8, s);
      ConvertWhole(s, 8, false);
    } else {
      StoulStages(s, false, s, 10, s);
      ValueInDecimal(s);
      NatToStringRoundTrip(n);
      ConvertWhole(s, 10, false);
    }
  }

  /** A '-' sign wraps the value around modulo 2^64. */
  lemma StoulNegative(n: nat)
    requires 0 < n < Two64
    ensures Stoul("-" + NatToString(n)) == Ok(Two64 - n)
  {
    var d := NatToString(n);
    var s := "-" + d;
    assert s[1..] == d;
    StoulStages(s, true, d, 10, d);
    ValueInDecimal(d);
    NatToStringRoundTrip(n);
    ConvertWhole(d, 10, true);
  }

  /** A reply without a lifetime (the empty string) makes `std::stoul` throw `invalid_argument`. */
  lemma StoulEmpty()
    ensures Stoul("") == Err(InvalidArgument)
  {
  }

  /** Base 0 reads a leading zero as octal: "0100" is 64, not 100. */
  lemma StoulOctal()
    ensures Stoul("0100") == Ok(64)
  {
    var s := "0100";
    StoulStages(s, false, s, 8, s);
    OctalValue();
    ConvertWhole(s, 8, false);
  }

  lemma OctalValue()
    ensures ValueIn("0100", 8) == 64
  {
    assert ValueIn("0", 8) == 0 by { assert "0"[..0] == ""; }
    assert ValueIn("01", 8) == 1 by { assert "01"[..1] == "0"; }
    assert ValueIn("010", 8) == 8 by { assert "010"[..2] == "01"; }
    assert "0100"[..3] == "010";
  }

  /** Base 0 reads "0x" before a hexadecimal digit as base 16: "0x10" is 16. */
  lemma StoulHex()
    ensures Stoul("0x10") == Ok(16)
  {
    var s := "0x10";
    var digits := s[2..];
    assert digits == "10";
    StoulStages(s, false, s, 16, digits);
    assert ValueIn(digits, 16) == 16 by {
      assert ValueIn("1", 16) == 1 by { assert "1"[..0] == ""; }
      assert digits[..1] == "1";
    }
    ConvertWhole(digits, 16, false);
  }
}
