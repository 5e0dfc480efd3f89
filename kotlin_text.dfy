/**
 * The pieces of the Kotlin standard library (JVM) and of java.util.regex that the screens
 * rely on, given exact definitions over strings: whitespace, isBlank and trim, toIntOrNull
 * and toLongOrNull, the decimal rendering of integers, the two input-filter regexes, and split.
 */
module KotlinText {
  import opened Wrappers

  const INT_MIN: int := -0x8000_0000
  const INT_MAX: int := 0x7FFF_FFFF
  const LONG_MIN: int := -0x8000_0000_0000_0000
  const LONG_MAX: int := 0x7FFF_FFFF_FFFF_FFFF

  /** Kotlin's Int and Long. */
  type Int32 = x: int | -0x8000_0000 <= x <= 0x7FFF_FFFF
  type Int64 = x: int | -0x8000_0000_0000_0000 <= x <= 0x7FFF_FFFF_FFFF_FFFF

  /** Long.toInt(): keeps the low 32 bits, read as two's complement. */
  function LongToInt(x: Int64): (r: Int32)
    ensures (x - r) % 0x1_0000_0000 == 0
    ensures INT_MIN <= x <= INT_MAX ==> r == x
  {
    var low := (x - INT_MIN) % 0x1_0000_0000;
    assert x - (low + INT_MIN) == 0x1_0000_0000 * ((x - INT_MIN) / 0x1_0000_0000);
    low + INT_MIN
  }

  // ---------------------------------------------------------------- whitespace

  /** Char.isWhitespace on the JVM: Character.isWhitespace(c) || Character.isSpaceChar(c). */
  predicate IsWhitespace(c: char)
  {
    var n := c as int;
    || 9 <= n <= 13 || 0x1C <= n <= 0x20 || n == 0xA0 || n == 0x1680
    || 0x2000 <= n <= 0x200A || n == 0x2028 || n == 0x2029 || n == 0x202F
    || n == 0x205F || n == 0x3000
  }

  /** CharSequence.isBlank(): every char is whitespace, so the empty string is blank. */
  predicate IsBlank(s: string)
  {
    forall i :: 0 <= i < |s| ==> IsWhitespace(s[i])
  }

  /** Drops the leading whitespace. */
  function TrimStart(s: string): (r: string)
    ensures |r| <= |s| && r == s[|s| - |r|..]
    ensures IsBlank(s[..|s| - |r|])
    ensures r == [] || !IsWhitespace(r[0])
  {
    if s != [] && IsWhitespace(s[0]) then
      var r := TrimStart(s[1..]);
      assert s[..|s| - |r|] == [s[0]] + s[1..][..|s| - 1 - |r|];
      r
    else s
  }

  /** Drops the trailing whitespace. */
  function TrimEnd(s: string): (r: string)
    ensures |r| <= |s| && r == s[..|r|]
    ensures IsBlank(s[|r|..])
    ensures r == [] || !IsWhitespace(r[|r| - 1])
  {
    if s != [] && IsWhitespace(s[|s| - 1]) then
      var r := TrimEnd(s[..|s| - 1]);
      assert s[|r|..] == s[..|s| - 1][|r|..] + [s[|s| - 1]];
      r
    else s
  }

  /** String.trim(): drops leading and trailing whitespace. */
  function Trim(s: string): (r: string)
    ensures |r| <= |s|
    ensures r == [] <==> IsBlank(s)
    ensures r != [] ==> !IsWhitespace(r[0]) && !IsWhitespace(r[|r| - 1])
  {
    var t := TrimStart(s);
    var r := TrimEnd(t);
    assert r == [] ==> s == s[..|s| - |t|] + t[|r|..];
    assert IsBlank(s) ==> t == [];
    r
  }

  /** The trimmed text is a piece of the input with only whitespace before and after it. */
  lemma TrimIsInfix(s: string)
    ensures exists i :: 0 <= i <= |s| - |Trim(s)| && Trim(s) == s[i..i + |Trim(s)|]
                        && IsBlank(s[..i]) && IsBlank(s[i + |Trim(s)|..])
  {
    var t := TrimStart(s);
    var r := TrimEnd(t);
    var i := |s| - |t|;
    assert t == s[i..];
    assert r == s[i..i + |r|];
    assert s[i + |r|..] == t[|r|..];
    assert IsBlank(s[..i]);
  }

  /** Trimming twice is the same as trimming once. */
  lemma TrimIdempotent(s: string)
    ensures Trim(Trim(s)) == Trim(s)
  {
    var r := Trim(s);
    if r != [] {
      assert TrimStart(r) == r;
      assert TrimEnd(r) == r;
    }
  }

  // ---------------------------------------------------------------- decimal integers

  predicate IsDigit(c: char)
  {
    '0' <= c <= '9'
  }

  predicate AllDigits(s: string)
  {
    forall i :: 0 <= i < |s| ==> IsDigit(s[i])
  }

  function DigitValue(c: char): (d: nat)
    requires IsDigit(c)
    ensures d < 10
  {
    c as int - '0' as int
  }

  function DigitChar(d: nat): (c: char)
    requires d < 10
    ensures IsDigit(c) && DigitValue(c) == d
  {
    ('0' as int + d) as char
  }

  /** The number a string of decimal digits denotes; leading zeros are allowed. */
  function DigitsValue(s: string): nat
    requires AllDigits(s)
  {
    if s == [] then 0 else 10 * DigitsValue(s[..|s| - 1]) + DigitValue(s[|s| - 1])
  }

  /**
   * String.toIntOrNull() and String.toLongOrNull() in radix 10, for the target range [lo, hi]:
   * an optional '-' or '+' and then at least one digit, with no surrounding whitespace,
   * whose value lies in the range.
   */
  function ParseInteger(s: string, lo: int, hi: int): (r: Option<int>)
    ensures r.Some? ==> lo <= r.value <= hi
    ensures r.Some? ==> s != [] && IsDigit(s[|s| - 1])
  {
    if s == [] then None
    else
      var digits := if s[0] == '-' || s[0] == '+' then s[1..] else s;
      if digits == [] || !AllDigits(digits) then None
      else
        var v: int := if s[0] == '-' then -(DigitsValue(digits) as int) else DigitsValue(digits);
        if lo <= v <= hi then Some(v) else None
  }

  /** String.toIntOrNull(); String.toInt() throws exactly when this is None. */
  function ToIntOrNull(s: string): (r: Option<int>)
    ensures r.Some? ==> INT_MIN <= r.value <= INT_MAX
    ensures r.Some? ==> !IsBlank(s)
  {
    ParseInteger(s, INT_MIN, INT_MAX)
  }

  /** String.toLongOrNull(). */
  function ToLongOrNull(s: string): (r: Option<int>)
    ensures r.Some? ==> LONG_MIN <= r.value <= LONG_MAX
    ensures r.Some? ==> !IsBlank(s)
  {
    ParseInteger(s, LONG_MIN, LONG_MAX)
  }

  /** The decimal digits of n, without leading zeros. */
  function NatToString(n: nat): (s: string)
    ensures s != [] && AllDigits(s) && DigitsValue(s) == n
    ensures s[0] == '0' ==> n == 0
  {
    if n < 10 then [DigitChar(n)]
    else
      var s := NatToString(n / 10) + [DigitChar(n % 10)];
      assert s[..|s| - 1] == NatToString(n / 10);
      s
  }

  /** Int.toString() and Long.toString() (also what a "$n" string template renders). */
  function IntToString(n: int): (s: string)
    ensures n >= 0 ==> AllDigits(s) && DigitsValue(s) == n
    ensures n < 0 ==> |s| > 1 && s[0] == '-' && AllDigits(s[1..]) && DigitsValue(s[1..]) == -n
    ensures s != [] && (n >= 0 && s[0] == '0' ==> n == 0)
    ensures n < 0 ==> s[1] != '0'
    ensures n == 0 ==> s == "0"
  {
    if n < 0 then "-" + NatToString(-n) else NatToString(n)
  }

  /** Rendering an integer and parsing it back gives the integer (toIntOrNull(n.toString()) == n). */
  lemma ParseIntToString(n: int, lo: int, hi: int)
    requires lo <= n <= hi
    ensures ParseInteger(IntToString(n), lo, hi) == Some(n)
  {
    var s := IntToString(n);
    if n < 0 {
      assert s[1..] == NatToString(-n);
    } else {
      assert s == NatToString(n);
      assert s[0] != '-' && s[0] != '+';
    }
  }

  /** A rendered integer never contains a separator such as '/' or '{'. */
  lemma IntToStringChars(n: int, c: char)
    requires !IsDigit(c) && c != '-'
    ensures c !in IntToString(n)
  {
    var s := IntToString(n);
    if n < 0 {
      assert s == [s[0]] + s[1..];
      assert c !in s[1..];
    }
  }

  /**
   * Text that toIntOrNull reads as a positive Int, described without the parser:
   * an optional '+', then at least one digit, denoting a value in 1..Int.MAX_VALUE.
   */
  predicate PositiveIntText(s: string)
  {
    var digits := if s != [] && s[0] == '+' then s[1..] else s;
    digits != [] && AllDigits(digits) && 0 < DigitsValue(digits) <= INT_MAX
  }

  /** The check both forms perform — non-blank and toIntOrNull() > 0 — is exactly PositiveIntText. */
  lemma PositiveIntTextIff(s: string)
    ensures PositiveIntText(s) <==> !IsBlank(s) && ToIntOrNull(s).Some? && ToIntOrNull(s).value > 0
  {
    if PositiveIntText(s) {
      assert s[0] != '-';
      assert ToIntOrNull(s).Some?;
    }
  }

  // ---------------------------------------------------------------- regex filters

  /** Java's `s.matches("^\\d+$")`: one or more ASCII digits and nothing else. */
  predicate MatchesDigits(s: string)
  {
    s != [] && AllDigits(s)
  }

  /** Java's `s.matches("^\\d*\\.?\\d*$")`: digits, at most one '.', digits. */
  predicate MatchesDecimal(s: string)
  {
    || AllDigits(s)
    || exists i :: 0 <= i < |s| && s[i] == '.' && AllDigits(s[..i]) && AllDigits(s[i + 1..])
  }

  /** The decimal pattern accepts exactly the strings of digits and dots with at most one dot. */
  lemma MatchesDecimalIff(s: string)
    ensures MatchesDecimal(s) <==>
      && (forall i :: 0 <= i < |s| ==> IsDigit(s[i]) || s[i] == '.')
      && (forall i, j :: 0 <= i < j < |s| && s[i] == '.' ==> s[j] != '.')
  {
    var charsOk := forall i :: 0 <= i < |s| ==> IsDigit(s[i]) || s[i] == '.';
    var oneDot := forall i, j :: 0 <= i < j < |s| && s[i] == '.' ==> s[j] != '.';
    if MatchesDecimal(s) && !AllDigits(s) {
      var i :| 0 <= i < |s| && s[i] == '.' && AllDigits(s[..i]) && AllDigits(s[i + 1..]);
      forall k | 0 <= k < |s| && k != i ensures IsDigit(s[k]) {
        if k < i { assert s[..i][k] == s[k]; } else { assert s[i + 1..][k - i - 1] == s[k]; }
      }
    }
    if charsOk && oneDot && !AllDigits(s) {
      var i :| 0 <= i < |s| && !IsDigit(s[i]);
      assert s[i] == '.';
      assert AllDigits(s[..i]);
      var rest := s[i + 1..];
      forall k | 0 <= k < |rest| ensures IsDigit(rest[k]) {
        assert rest[k] == s[i + 1 + k];
      }
    }
  }

  // ---------------------------------------------------------------- split and join

  /** Index of the first occurrence of c. */
  function IndexOf(s: string, c: char): (i: nat)
    requires c in s
    ensures i < |s| && s[i] == c && c !in s[..i]
  {
    if s[0] == c then 0
    else
      var i := 1 + IndexOf(s[1..], c);
      assert s[..i] == [s[0]] + s[1..][..i - 1];
      i
  }

  /** CharSequence.split(sep) with no limit: the pieces between separators, empty pieces kept. */
  function Split(s: string, sep: char): (parts: seq<string>)
    ensures |parts| >= 1
    ensures forall k :: 0 <= k < |parts| ==> sep !in parts[k]
    decreases |s|
  {
    if sep !in s then [s]
    else
      var i := IndexOf(s, sep);
      [s[..i]] + Split(s[i + 1..], sep)
  }

  /** joinToString(sep): the pieces with sep between them. */
  function Join(parts: seq<string>, sep: char): string
    requires parts != []
  {
    if |parts| == 1 then parts[0] else parts[0] + [sep] + Join(parts[1..], sep)
  }

  /** Splitting a join of separator-free pieces gives the pieces back. */
  lemma {:induction false} SplitJoin(parts: seq<string>, sep: char)
    requires parts != []
    requires forall k :: 0 <= k < |parts| ==> sep !in parts[k]
    ensures Split(Join(parts, sep), sep) == parts
  {
    if |parts| > 1 {
      var s := Join(parts, sep);
      var rest := Join(parts[1..], sep);
      assert s == parts[0] + [sep] + rest;
      assert s[|parts[0]|] == sep;
      assert s[..|parts[0]|] == parts[0];
      assert IndexOf(s, sep) == |parts[0]|;
      assert s[|parts[0]| + 1..] == rest;
      SplitJoin(parts[1..], sep);
    }
  }

  /** Joining what split produced gives the string back. */
  lemma {:induction false} JoinSplit(s: string, sep: char)
    ensures Join(Split(s, sep), sep) == s
    decreases |s|
  {
    if sep in s {
      var i := IndexOf(s, sep);
      JoinSplit(s[i + 1..], sep);
      assert s == s[..i] + [sep] + s[i + 1..];
    }
  }
}
