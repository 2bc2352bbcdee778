/**
 * The .NET string and number primitives the custom theme parser relies on: white space,
 * `Trim`, ordinal prefix and suffix tests, `Split` on one character, `int.Parse` with the
 * default integer style and `int.TryParse` with the hexadecimal style, plus the
 * formatting that writes the same numbers back.
 */
module DotNetText {
  import opened Wrappers

  /** `char.IsWhiteSpace`: the Unicode separators and U+0009..U+000D, U+0085. */
  predicate IsWhiteSpace(c: char) {
    || c == ' ' || ('\t' <= c <= '\r') || c == '\U{85}' || c == '\U{A0}' || c == '\U{1680}'
    || ('\U{2000}' <= c <= '\U{200A}') || c == '\U{2028}' || c == '\U{2029}'
    || c == '\U{202F}' || c == '\U{205F}' || c == '\U{3000}'
  }

  /** The white space `NumberStyles.AllowLeadingWhite` and `AllowTrailingWhite` skip. */
  predicate IsNumberWhite(c: char) {
    c == ' ' || ('\t' <= c <= '\r')
  }

  /** `string.IsNullOrWhiteSpace` on a non-null string. */
  predicate IsNullOrWhiteSpace(s: string) {
    forall i :: 0 <= i < |s| ==> IsWhiteSpace(s[i])
  }

  function TrimStart(s: string, white: char -> bool): (t: string)
    ensures |t| <= |s| && t == s[|s| - |t|..]
    ensures forall i :: 0 <= i < |s| - |t| ==> white(s[i])
    ensures |t| > 0 ==> !white(t[0])
  {
    if |s| > 0 && white(s[0]) then
      var t := TrimStart(s[1..], white);
      assert s[1..][|s| - 1 - |t|..] == s[|s| - |t|..];
      assert forall i :: 1 <= i < |s| - |t| ==> s[i] == s[1..][i - 1];
      t
    else s
  }

  function TrimEnd(s: string, white: char -> bool): (t: string)
    ensures |t| <= |s| && t == s[..|t|]
    ensures forall i :: |t| <= i < |s| ==> white(s[i])
    ensures |t| > 0 ==> !white(t[|t| - 1])
  {
    if |s| > 0 && white(s[|s| - 1]) then TrimEnd(s[..|s| - 1], white) else s
  }

  /** Removes the leading and trailing characters `white` accepts. */
  function TrimBy(s: string, white: char -> bool): (t: string)
    ensures |t| <= |s|
    ensures |t| > 0 ==> !white(t[0]) && !white(t[|t| - 1])
    ensures (forall i :: 0 <= i < |s| ==> white(s[i])) <==> |t| == 0
  {
    var front := TrimStart(s, white);
    var t := TrimEnd(front, white);
    assert forall i :: 0 <= i < |front| ==> front[i] == s[|s| - |front| + i];
    t
  }

  /**
   * The trimmed string is the middle of the input: a slice starting at `k`, with only
   * characters `white` accepts before and after it.
   */
  lemma TrimByMiddle(s: string, white: char -> bool) returns (k: nat)
    ensures k + |TrimBy(s, white)| <= |s| && TrimBy(s, white) == s[k..k + |TrimBy(s, white)|]
    ensures forall i :: 0 <= i < k ==> white(s[i])
    ensures forall i :: k + |TrimBy(s, white)| <= i < |s| ==> white(s[i])
  {
    k := MiddleOf(s, TrimStart(s, white), TrimEnd(TrimStart(s, white), white), white);
    TrimByIs(s, white);
  }

  lemma MiddleOf(s: string, front: string, t: string, white: char -> bool) returns (k: nat)
    requires front == TrimStart(s, white) && t == TrimEnd(front, white)
    ensures k + |t| <= |s| && t == s[k..k + |t|]
    ensures forall i :: 0 <= i < k ==> white(s[i])
    ensures forall i :: k + |t| <= i < |s| ==> white(s[i])
  {
    k := |s| - |front|;
    SliceOfSuffix(s, k, |t|);
    TrailingWhite(s, k, front, |t|, white);
  }

  lemma TrimByIs(s: string, white: char -> bool)
    ensures TrimBy(s, white) == TrimEnd(TrimStart(s, white), white)
  {
  }

  lemma SliceOfSuffix(s: string, k: nat, n: nat)
    requires k + n <= |s|
    ensures s[k..][..n] == s[k..k + n]
  {
  }

  lemma TrailingWhite(s: string, k: nat, front: string, n: nat, white: char -> bool)
    requires k <= |s| && front == s[k..] && n <= |front|
    requires forall j :: n <= j < |front| ==> white(front[j])
    ensures forall i :: k + n <= i < |s| ==> white(s[i])
  {
    forall i | k + n <= i < |s|
      ensures white(s[i])
    {
      assert s[i] == front[i - k];
    }
  }

  /** `string.Trim()`. */
  function Trim(s: string): string {
    TrimBy(s, IsWhiteSpace)
  }

  lemma {:induction false} TrimStartUnchanged(s: string, white: char -> bool)
    requires |s| == 0 || !white(s[0])
    ensures TrimStart(s, white) == s
  {
  }

  lemma TrimEndUnchanged(s: string, white: char -> bool)
    requires |s| == 0 || !white(s[|s| - 1])
    ensures TrimEnd(s, white) == s
  {
  }

  lemma TrimByUnchanged(s: string, white: char -> bool)
    requires |s| > 0 ==> !white(s[0]) && !white(s[|s| - 1])
    ensures TrimBy(s, white) == s
  {
    TrimStartUnchanged(s, white);
    assert TrimStart(s, white) == s;
    TrimEndUnchanged(s, white);
  }

  /** A string with no white space at either end is its own trim. */
  lemma TrimUnchanged(s: string)
    requires |s| > 0 ==> !IsWhiteSpace(s[0]) && !IsWhiteSpace(s[|s| - 1])
    ensures Trim(s) == s
  {
    TrimByUnchanged(s, IsWhiteSpace);
  }

  /** Trimming a string with white space only in front of a non-white tail gives the tail. */
  lemma {:induction false} TrimLeadingWhite(w: string, s: string)
    requires forall i :: 0 <= i < |w| ==> IsWhiteSpace(w[i])
    requires |s| > 0 && !IsWhiteSpace(s[0]) && !IsWhiteSpace(s[|s| - 1])
    ensures Trim(w + s) == s
  {
    TrimStartAll(w, s, IsWhiteSpace);
    assert TrimStart(w + s, IsWhiteSpace) == s;
    TrimEndUnchanged(s, IsWhiteSpace);
  }

  lemma {:induction false} TrimStartAll(w: string, s: string, white: char -> bool)
    requires forall i :: 0 <= i < |w| ==> white(w[i])
    requires |s| > 0 && !white(s[0])
    ensures TrimStart(w + s, white) == s
  {
    if |w| > 0 {
      assert (w + s)[1..] == w[1..] + s;
      TrimStartAll(w[1..], s, white);
    } else {
      assert w + s == s;
    }
  }

  /** Ordinal `StartsWith`. */
  predicate StartsWith(s: string, prefix: string) {
    |prefix| <= |s| && s[..|prefix|] == prefix
  }

  /** Ordinal `EndsWith`. */
  predicate EndsWith(s: string, suffix: string) {
    |suffix| <= |s| && s[|s| - |suffix|..] == suffix
  }

  /** The index of the first occurrence of `c`. */
  function IndexOf(s: string, c: char): (r: Option<nat>)
    ensures r.None? <==> c !in s
    ensures r.Some? ==> r.value < |s| && s[r.value] == c && c !in s[..r.value]
  {
    if |s| == 0 then None
    else if s[0] == c then Some(0)
    else
      match IndexOf(s[1..], c)
      case None => None
      case Some(i) =>
        assert s[..i + 1] == [s[0]] + s[1..][..i];
        Some(i + 1)
  }

  /** `s.Split(sep)`: the pieces between the separators, at least one, none holding `sep`. */
  function Split(s: string, sep: char): (parts: seq<string>)
    ensures |parts| >= 1
    ensures forall i :: 0 <= i < |parts| ==> sep !in parts[i]
    ensures |parts| >= 2 <==> sep in s
    ensures sep !in s ==> parts == [s]
    decreases |s|
  {
    match IndexOf(s, sep)
    case None => [s]
    case Some(i) => [s[..i]] + Split(s[i + 1..], sep)
  }

  /** Joins pieces with a separator, the inverse of `Split`. */
  function Join(parts: seq<string>, sep: char): string
    requires |parts| >= 1
  {
    if |parts| == 1 then parts[0] else parts[0] + [sep] + Join(parts[1..], sep)
  }

  /** Splitting and joining again gives back the string. */
  lemma {:induction false} JoinSplit(s: string, sep: char)
    ensures Join(Split(s, sep), sep) == s
    decreases |s|
  {
    var found := IndexOf(s, sep);
    if found.Some? {
      var i := found.value;
      var head, tail := s[..i], s[i + 1..];
      var rest := Split(tail, sep);
      SplitAt(s, sep, i);
      JoinSplit(tail, sep);
      JoinCons(head, rest, sep);
      CutAt(s, i);
    }
  }

  lemma CutAt(s: string, i: nat)
    requires i < |s|
    ensures s == s[..i] + [s[i]] + s[i + 1..]
  {
  }

  /** Where the first separator sits, `Split` cuts off the piece before it. */
  lemma SplitAt(s: string, sep: char, i: nat)
    requires IndexOf(s, sep) == Some(i)
    ensures Split(s, sep) == [s[..i]] + Split(s[i + 1..], sep)
  {
  }

  lemma JoinCons(head: string, rest: seq<string>, sep: char)
    requires |rest| >= 1
    ensures Join([head] + rest, sep) == head + [sep] + Join(rest, sep)
  {
    var parts := [head] + rest;
    assert parts[0] == head && parts[1..] == rest;
  }

  /** Joining pieces free of the separator and splitting again gives back the pieces. */
  lemma {:induction false} SplitJoin(parts: seq<string>, sep: char)
    requires |parts| >= 1
    requires forall i :: 0 <= i < |parts| ==> sep !in parts[i]
    ensures Split(Join(parts, sep), sep) == parts
    decreases |parts|
  {
    if |parts| > 1 {
      var head, tail := parts[0], parts[1..];
      var rest := Join(tail, sep);
      var s := head + [sep] + rest;
      JoinCons(head, tail, sep);
      assert [head] + tail == parts;
      SplitJoin(tail, sep);
      FirstSeparator(head, sep, rest);
      assert s[..|head|] == head;
      assert s[|head| + 1..] == rest;
      SplitAt(s, sep, |head|);
    }
  }

  lemma FirstSeparator(a: string, sep: char, b: string)
    requires sep !in a
    ensures IndexOf(a + [sep] + b, sep) == Some(|a|)
  {
    var s := a + [sep] + b;
    assert s[|a|] == sep;
    assert s[..|a|] == a;
  }

  // ---------------------------------------------------------------------------
  // Numbers
  // ---------------------------------------------------------------------------

  predicate IsDecimalDigit(c: char) {
    '0' <= c <= '9'
  }

  predicate IsHexDigit(c: char) {
    ('0' <= c <= '9') || ('a' <= c <= 'f') || ('A' <= c <= 'F')
  }

  function HexDigitValue(c: char): (v: nat)
    requires IsHexDigit(c)
    ensures v < 16
  {
    if '0' <= c <= '9' then c as int - '0' as int
    else if 'a' <= c <= 'f' then c as int - 'a' as int + 10
    else c as int - 'A' as int + 10
  }

  /** The value of a string of decimal digits. */
  function DecimalDigitValue(c: char): (v: nat)
    requires IsDecimalDigit(c)
    ensures v < 10
  {
    c as int - '0' as int
  }

  function DecimalValue(s: string): nat
    requires forall i :: 0 <= i < |s| ==> IsDecimalDigit(s[i])
  {
    if |s| == 0 then 0 else DecimalValue(s[..|s| - 1]) * 10 + DecimalDigitValue(s[|s| - 1])
  }

  /** The value of a string of hexadecimal digits. */
  function HexValue(s: string): nat
    requires forall i :: 0 <= i < |s| ==> IsHexDigit(s[i])
  {
    if |s| == 0 then 0 else HexValue(s[..|s| - 1]) * 16 + HexDigitValue(s[|s| - 1])
  }

  const Int32Min: int := -0x8000_0000
  const Int32Max: int := 0x7FFF_FFFF

  /**
   * `int.Parse(s)` with `NumberStyles.Integer`: optional white space at both ends, an
   * optional sign, then decimal digits, in the 32-bit range. `None` is the exception
   * (`FormatException` or `OverflowException`) it throws.
   */
  function ParseInt32(s: string): (r: Option<int>)
    ensures r.Some? ==> Int32Min <= r.value <= Int32Max
  {
    ParseSigned(TrimBy(s, IsNumberWhite))
  }

  predicate AllDecimal(s: string) {
    forall i :: 0 <= i < |s| ==> IsDecimalDigit(s[i])
  }

  /** A trimmed number: an optional sign and at least one decimal digit, in range. */
  function ParseSigned(t: string): (r: Option<int>)
    ensures r.Some? ==> Int32Min <= r.value <= Int32Max
  {
    var negative := |t| > 0 && t[0] == '-';
    var digits := if |t| > 0 && (t[0] == '-' || t[0] == '+') then t[1..] else t;
    if |digits| == 0 || !AllDecimal(digits) then None
    else
      var v: int := if negative then -(DecimalValue(digits) as int) else DecimalValue(digits);
      if Int32Min <= v <= Int32Max then Some(v) else None
  }

  const Bits32: nat := 0x1_0000_0000

  /**
   * `int.TryParse(s, NumberStyles.HexNumber, ...)`: optional white space at both ends and
   * hexadecimal digits whose value fits 32 bits. The result is the unsigned 32-bit pattern
   * (the C# `int` holding it is its two's-complement reading).
   */
  function ParseHex32(s: string): (r: Option<nat>)
    ensures r.Some? ==> r.value < Bits32
  {
    var t := TrimBy(s, IsNumberWhite);
    if |t| == 0 || exists i :: 0 <= i < |t| && !IsHexDigit(t[i]) then None
    else if HexValue(t) < Bits32 then Some(HexValue(t))
    else None
  }

  /** The upper-case hexadecimal digit of a value below 16. */
  function HexChar(d: nat): (c: char)
    requires d < 16
    ensures IsHexDigit(c) && HexDigitValue(c) == d
  {
    if d < 10 then ('0' as int + d) as char else ('A' as int + d - 10) as char
  }

  /** The lowest `width` hexadecimal digits of `n`, most significant first. */
  function HexDigits(n: nat, width: nat): (s: string)
    ensures |s| == width
    ensures forall i :: 0 <= i < |s| ==> IsHexDigit(s[i])
  {
    if width == 0 then "" else HexDigits(n / 16, width - 1) + [HexChar(n % 16)]
  }

  function Pow16(k: nat): (p: nat)
    ensures p > 0
  {
    if k == 0 then 1 else 16 * Pow16(k - 1)
  }

  /** Reading back the digits gives the value modulo 16^width. */
  lemma {:induction false} HexDigitsValue(n: nat, width: nat)
    ensures HexValue(HexDigits(n, width)) == n % Pow16(width)
  {
    if width > 0 {
      var s := HexDigits(n, width);
      assert s[..|s| - 1] == HexDigits(n / 16, width - 1);
      HexDigitsValue(n / 16, width - 1);
      ModDivStep(n, Pow16(width - 1));
    }
  }

  /** n % (16 p) == (n / 16 % p) * 16 + n % 16. */
  lemma ModDivStep(n: nat, p: nat)
    requires p > 0
    ensures n % (16 * p) == (n / 16 % p) * 16 + n % 16
  {
    var q := n / 16;
    var d := n % 16;
    assert n == 16 * q + d;
    var q2 := q / p;
    var r2 := q % p;
    assert q == p * q2 + r2;
    assert n == (16 * p) * q2 + (16 * r2 + d) by {
      assert 16 * q == 16 * (p * q2) + 16 * r2;
      assert 16 * (p * q2) == (16 * p) * q2;
    }
    assert 0 <= 16 * r2 + d < 16 * p;
    DivModUnique(n, 16 * p, q2, 16 * r2 + d);
  }

  /** Division with remainder has one answer. */
  lemma DivModUnique(n: nat, m: nat, q: nat, r: nat)
    requires m > 0 && r < m && n == m * q + r
    ensures n / m == q && n % m == r
  {
    var q' := n / m;
    var r' := n % m;
    assert n == m * q' + r';
    if q' < q {
      assert m * q >= m * (q' + 1) by { LemmaMulMono(m, q' + 1, q); }
      assert false;
    } else if q' > q {
      assert m * q' >= m * (q + 1) by { LemmaMulMono(m, q + 1, q'); }
      assert false;
    }
  }

  lemma LemmaMulMono(m: nat, a: nat, b: nat)
    requires a <= b
    ensures m * a <= m * b
  {
  }

  /** Eight hexadecimal digits of a 32-bit pattern, as a theme file writes a colour. */
  function Hex8(bits: nat): (s: string)
    ensures |s| == 8 && forall i :: 0 <= i < 8 ==> IsHexDigit(s[i])
  {
    HexDigits(bits, 8)
  }

  lemma NoNumberWhite(s: string)
    requires forall i :: 0 <= i < |s| ==> IsHexDigit(s[i]) || s[i] == '-'
    ensures TrimBy(s, IsNumberWhite) == s
  {
    if |s| > 0 {
      assert IsHexDigit(s[0]) || s[0] == '-';
      assert !IsNumberWhite(s[0]);
      assert IsHexDigit(s[|s| - 1]) || s[|s| - 1] == '-';
      assert !IsNumberWhite(s[|s| - 1]);
    }
    TrimByUnchanged(s, IsNumberWhite);
  }

  lemma Pow16Eight()
    ensures Pow16(8) == Bits32
  {
    assert Pow16(2) == 0x100;
    assert Pow16(4) == 0x1_0000;
    assert Pow16(6) == 0x100_0000;
  }

  /** Eight digits read back as the same 32-bit pattern. */
  lemma Hex8RoundTrip(bits: nat)
    requires bits < Bits32
    ensures ParseHex32(Hex8(bits)) == Some(bits)
  {
    Hex8Value(bits);
    Hex8Trimmed(bits);
    ParseHexDigits(Hex8(bits));
  }

  lemma Hex8Value(bits: nat)
    requires bits < Bits32
    ensures HexValue(Hex8(bits)) == bits
  {
    HexDigitsValue(bits, 8);
    Pow16Eight();
    DivModUnique(bits, Bits32, 0, bits);
  }

  lemma Hex8Trimmed(bits: nat)
    ensures TrimBy(Hex8(bits), IsNumberWhite) == Hex8(bits)
  {
    var s := Hex8(bits);
    assert forall i :: 0 <= i < |s| ==> IsHexDigit(s[i]);
    NoNumberWhite(s);
  }

  /** Hexadecimal digits with no white space around them parse as their value, when it fits. */
  lemma ParseHexDigits(t: string)
    requires |t| > 0 && forall i :: 0 <= i < |t| ==> IsHexDigit(t[i])
    requires TrimBy(t, IsNumberWhite) == t && HexValue(t) < Bits32
    ensures ParseHex32(t) == Some(HexValue(t))
  {
    assert !exists i :: 0 <= i < |t| && !IsHexDigit(t[i]);
  }

  /** The decimal digits of a natural number, most significant first. */
  function DecimalDigits(n: nat): (s: string)
    ensures |s| >= 1
    ensures forall i :: 0 <= i < |s| ==> IsDecimalDigit(s[i])
  {
    if n < 10 then [('0' as int + n) as char] else DecimalDigits(n / 10) + [('0' as int + n % 10) as char]
  }

  lemma {:induction false} DecimalDigitsValue(n: nat)
    ensures DecimalValue(DecimalDigits(n)) == n
  {
    var s := DecimalDigits(n);
    if n >= 10 {
      assert s[..|s| - 1] == DecimalDigits(n / 10);
      DecimalDigitsValue(n / 10);
    }
  }

  /** `int.ToString()` with the invariant culture's minus sign. */
  function FormatInt32(n: int): string {
    if n < 0 then "-" + DecimalDigits(-n) else DecimalDigits(n)
  }

  /** A run of decimal digits in range parses to its value. */
  lemma ParseDigits(digits: string)
    requires |digits| >= 1 && AllDecimal(digits)
    requires DecimalValue(digits) <= Int32Max
    ensures ParseInt32(digits) == Some(DecimalValue(digits))
  {
    DecimalNoNumberWhite(digits);
    SignedDigits(digits);
  }

  /** A minus sign and a run of decimal digits in range parse to the negated value. */
  lemma ParseNegativeDigits(digits: string)
    requires |digits| >= 1 && AllDecimal(digits)
    requires Int32Min <= -(DecimalValue(digits) as int)
    ensures ParseInt32("-" + digits) == Some(-(DecimalValue(digits) as int))
  {
    var s := "-" + digits;
    assert forall i :: 0 <= i < |s| ==> IsHexDigit(s[i]) || s[i] == '-' by {
      DecimalAreHex(digits);
      assert forall i :: 1 <= i < |s| ==> s[i] == digits[i - 1];
    }
    NoNumberWhite(s);
    SignedNegative(digits);
  }

  lemma DecimalAreHex(digits: string)
    requires AllDecimal(digits)
    ensures forall i :: 0 <= i < |digits| ==> IsHexDigit(digits[i])
  {
  }

  lemma DecimalNoNumberWhite(digits: string)
    requires AllDecimal(digits)
    ensures TrimBy(digits, IsNumberWhite) == digits
  {
    DecimalAreHex(digits);
    NoNumberWhite(digits);
  }

  lemma SignedDigits(digits: string)
    requires |digits| >= 1 && AllDecimal(digits)
    requires DecimalValue(digits) <= Int32Max
    ensures ParseSigned(digits) == Some(DecimalValue(digits))
  {
    assert IsDecimalDigit(digits[0]);
  }

  lemma SignedNegative(digits: string)
    requires |digits| >= 1 && AllDecimal(digits)
    requires Int32Min <= -(DecimalValue(digits) as int)
    ensures ParseSigned("-" + digits) == Some(-(DecimalValue(digits) as int))
  {
    var s := "-" + digits;
    assert s[0] == '-' && s[1..] == digits;
  }

  /** `int.Parse` reads back what `ToString` writes, for every 32-bit value. */
  lemma ParseFormatInt32(n: int)
    requires Int32Min <= n <= Int32Max
    ensures ParseInt32(FormatInt32(n)) == Some(n)
  {
    var m: nat := if n < 0 then -n else n;
    DecimalDigitsValue(m);
    if n < 0 {
      ParseNegativeDigits(DecimalDigits(m));
    } else {
      ParseDigits(DecimalDigits(m));
    }
  }
}
