/** The string primitives the codec relies on: Kotlin's `toInt()` on two-character
    fields, `%02d`, `%04X`, `equals(ignoreCase = true)`, `split`, `replace`,
    `padStart`, and the UTF-8 encoding done by `toByteArray(Charsets.UTF_8)`.
    A `char` is a Unicode scalar value; for characters of the Basic Multilingual
    Plane it is the one UTF-16 code unit a Kotlin `Char` holds. */
module Text {
  import opened Wrappers

  // ---------------------------------------------------------------- decimal

  predicate IsDigit(c: char) {
    '0' <= c <= '9'
  }

  predicate IsDigits(s: string) {
    forall i | 0 <= i < |s| :: IsDigit(s[i])
  }

  function DigitValue(c: char): (d: nat)
    requires IsDigit(c)
    ensures d < 10
  {
    c as int - '0' as int
  }

  function DigitChar(d: nat): (c: char)
    requires d < 10
    ensures IsDigit(c) && DigitValue(c) == d
  {
    ('0' as int + d) as char
  }

  /** The number a string of decimal digits denotes, most significant digit first. */
  function DecimalValue(s: string): nat
    requires IsDigits(s)
  {
    if s == [] then 0 else DecimalValue(s[..|s| - 1]) * 10 + DigitValue(s[|s| - 1])
  }

  /** `n.toString()` for a non-negative Int or Long. */
  function DecimalString(n: nat): (s: string)
    ensures IsDigits(s) && DecimalValue(s) == n
    ensures |s| >= 1 && (|s| == 1 <==> n < 10) && (|s| <= 2 <==> n < 100)
    ensures s[0] != '0' || n == 0
  {
    if n < 10 then [DigitChar(n)] else DecimalString(n / 10) + [DigitChar(n % 10)]
  }

  /** `String.format("%02d", n)`: the decimal digits of n, zero-padded to at least two. */
  function FormatTwoDigits(n: nat): (s: string)
    ensures IsDigits(s) && DecimalValue(s) == n
    ensures |s| >= 2 && (|s| == 2 <==> n <= 99)
  {
    if n < 10 then
      var s := ['0', DigitChar(n)];
      assert s[..1] == ['0'] && s[..1][..0] == [];
      assert DecimalValue(s[..1]) == 0;
      assert DecimalValue(s) == DecimalValue(s[..1]) * 10 + DigitValue(s[1]);
      s
    else DecimalString(n)
  }

  /** Two ASCII digits read as a number. */
  function ParseTwoDigits(s: string): (r: Option<nat>)
    requires |s| == 2
    ensures r.Some? <==> IsDigits(s)
    ensures r.Some? ==> r.value <= 99 && FormatTwoDigits(r.value) == s
  {
    if IsDigit(s[0]) && IsDigit(s[1]) then Some(10 * DigitValue(s[0]) + DigitValue(s[1])) else None
  }

  /** `%02d` followed by `toInt()` gives the length back, for every length the
      two-character field can hold. */
  lemma ParseFormatTwoDigits(n: nat)
    requires n <= 99
    ensures ParseTwoDigits(FormatTwoDigits(n)) == Some(n)
  {
    var s := FormatTwoDigits(n);
    assert s[..1][..0] == [];
    assert DecimalValue(s) == DecimalValue(s[..1]) * 10 + DigitValue(s[1]);
  }

  /** Kotlin's `toInt()` on a two-character string: two digits, or a sign and one
      digit ("+5" is 5, "-5" is -5); anything else is the `NumberFormatException`
      case (None). */
  function ToInt2(s: string): (r: Option<int>)
    requires |s| == 2
    ensures r.Some? <==> IsDigit(s[1]) && (IsDigit(s[0]) || s[0] == '+' || s[0] == '-')
    ensures r.Some? ==> -9 <= r.value <= 99
    ensures r.Some? && r.value < 0 ==> s[0] == '-'
  {
    if IsDigit(s[0]) && IsDigit(s[1]) then Some(10 * DigitValue(s[0]) + DigitValue(s[1]))
    else if s[0] == '+' && IsDigit(s[1]) then Some(DigitValue(s[1]))
    else if s[0] == '-' && IsDigit(s[1]) then Some(-(DigitValue(s[1]) as int))
    else None
  }

  /** `%02d` followed by `toInt()` gives the length back, for every length the
      two-character field can hold. */
  lemma ToIntFormatTwoDigits(n: nat)
    requires n <= 99
    ensures ToInt2(FormatTwoDigits(n)) == Some(n)
  {
    ParseFormatTwoDigits(n);
    ToIntOfDigits(FormatTwoDigits(n));
  }

  /** On two digits, `toInt()` is the plain two-digit reading. */
  lemma ToIntOfDigits(s: string)
    requires |s| == 2 && IsDigits(s)
    ensures ToInt2(s) == ParseTwoDigits(s)
  {
    assert IsDigit(s[0]) && IsDigit(s[1]);
  }

  // ------------------------------------------------------------ hexadecimal

  predicate IsHexDigit(c: char) {
    '0' <= c <= '9' || 'A' <= c <= 'F' || 'a' <= c <= 'f'
  }

  predicate IsUpperHexDigit(c: char) {
    '0' <= c <= '9' || 'A' <= c <= 'F'
  }

  predicate IsHex(s: string) {
    forall i | 0 <= i < |s| :: IsHexDigit(s[i])
  }

  predicate IsUpperHex(s: string) {
    forall i | 0 <= i < |s| :: IsUpperHexDigit(s[i])
  }

  /** ASCII upper-casing, the only case folding a hexadecimal comparison needs. */
  function AsciiUpper(c: char): char {
    if 'a' <= c <= 'z' then (c as int - 32) as char else c
  }

  function HexChar(d: nat): (c: char)
    requires d < 16
    ensures IsUpperHexDigit(c)
  {
    if d < 10 then ('0' as int + d) as char else ('A' as int + d - 10) as char
  }

  /** The value of one hexadecimal digit of either case; upper-casing the digit
      gives the digit `%X` prints for that value. */
  function HexDigitValue(c: char): (d: nat)
    requires IsHexDigit(c)
    ensures d < 16 && HexChar(d) == AsciiUpper(c)
  {
    if c <= '9' then c as int - '0' as int
    else if c <= 'F' then c as int - 'A' as int + 10
    else c as int - 'a' as int + 10
  }

  function HexValue(s: string): nat
    requires IsHex(s)
  {
    if s == [] then 0 else HexValue(s[..|s| - 1]) * 16 + HexDigitValue(s[|s| - 1])
  }

  /** The upper-case hexadecimal digits of n without leading zeros (none for zero). */
  function HexDigits(n: nat): (s: string)
    ensures IsUpperHex(s) && HexValue(s) == n
  {
    if n == 0 then []
    else
      var s := HexDigits(n / 16) + [HexChar(n % 16)];
      assert s[..|s| - 1] == HexDigits(n / 16);
      s
  }

  function Zeros(k: nat): (z: string)
    ensures |z| == k && forall i | 0 <= i < k :: z[i] == '0'
  {
    if k == 0 then [] else Zeros(k - 1) + ['0']
  }

  /** Leading zeros do not change the value of a hexadecimal string. */
  lemma {:induction false} HexValueZeros(z: string, d: string)
    requires IsHex(d) && forall i | 0 <= i < |z| :: z[i] == '0'
    ensures IsHex(z + d) && HexValue(z + d) == HexValue(d)
  {
    if d == [] {
      assert z + d == z;
      if z != [] {
        assert z[..|z| - 1] + [] == z[..|z| - 1];
        HexValueZeros(z[..|z| - 1], []);
      }
    } else {
      assert (z + d)[..|z + d| - 1] == z + d[..|d| - 1];
      HexValueZeros(z, d[..|d| - 1]);
    }
  }

  /** A number below 16^k has at most k hexadecimal digits, for k up to four. */
  lemma {:induction false} HexDigitsFit(n: nat)
    ensures n < 0x10 ==> |HexDigits(n)| <= 1
    ensures n < 0x100 ==> |HexDigits(n)| <= 2
    ensures n < 0x1000 ==> |HexDigits(n)| <= 3
    ensures n < 0x10000 ==> |HexDigits(n)| <= 4
  {
    if n > 0 {
      HexDigitsFit(n / 16);
    }
  }

  /** `String.format("%04X", n)`: upper-case hexadecimal, zero-padded to at least four. */
  function FormatHex04(n: nat): (s: string)
    ensures IsUpperHex(s) && HexValue(s) == n && |s| >= 4
    ensures n <= 0xFFFF ==> |s| == 4
  {
    var d := HexDigits(n);
    HexDigitsFit(n);
    if |d| >= 4 then d
    else
      HexValueZeros(Zeros(4 - |d|), d);
      Zeros(4 - |d|) + d
  }

  /** Java's `equalsIgnoreCase`, with ASCII case folding. */
  predicate EqualsIgnoreCase(a: string, b: string) {
    |a| == |b| && forall i | 0 <= i < |a| :: AsciiUpper(a[i]) == AsciiUpper(b[i])
  }

  /** Two hexadecimal strings of the same length denote the same number exactly
      when they agree digit by digit. */
  lemma {:induction false} HexValueDigitwise(a: string, b: string)
    requires IsHex(a) && IsHex(b) && |a| == |b|
    ensures HexValue(a) == HexValue(b) <==>
              forall i | 0 <= i < |a| :: HexDigitValue(a[i]) == HexDigitValue(b[i])
  {
    if a != [] {
      var n := |a| - 1;
      HexValueDigitwise(a[..n], b[..n]);
      if HexValue(a) == HexValue(b) {
        assert HexValue(a[..n]) * 16 + HexDigitValue(a[n]) == HexValue(b[..n]) * 16 + HexDigitValue(b[n]);
        assert HexDigitValue(a[n]) == HexDigitValue(b[n]);
        assert HexValue(a[..n]) == HexValue(b[..n]);
        forall i | 0 <= i < |a| ensures HexDigitValue(a[i]) == HexDigitValue(b[i]) {
          if i < n {
            assert a[..n][i] == a[i] && b[..n][i] == b[i];
          }
        }
      } else if HexDigitValue(a[n]) == HexDigitValue(b[n]) {
        assert HexValue(a[..n]) != HexValue(b[..n]);
        var i :| 0 <= i < n && HexDigitValue(a[..n][i]) != HexDigitValue(b[..n][i]);
        assert a[..n][i] == a[i] && b[..n][i] == b[i];
      }
    }
  }

  /** A string matches an upper-case hexadecimal spelling, ignoring case, exactly
      when it is itself a hexadecimal string of the same length and value. */
  lemma HexIgnoreCase(u: string, t: string)
    requires IsUpperHex(u) && |u| == |t|
    ensures EqualsIgnoreCase(u, t) <==> IsHex(t) && HexValue(t) == HexValue(u)
  {
    assert IsHex(u);
    if EqualsIgnoreCase(u, t) {
      forall i | 0 <= i < |t| ensures IsHexDigit(t[i]) && HexDigitValue(t[i]) == HexDigitValue(u[i]) {
        assert AsciiUpper(u[i]) == u[i];
      }
      HexValueDigitwise(u, t);
    }
    if IsHex(t) && HexValue(t) == HexValue(u) {
      HexValueDigitwise(u, t);
      forall i | 0 <= i < |t| ensures AsciiUpper(u[i]) == AsciiUpper(t[i]) {
        assert HexChar(HexDigitValue(u[i])) == AsciiUpper(u[i]);
        assert HexChar(HexDigitValue(t[i])) == AsciiUpper(t[i]);
      }
    }
  }

  // ------------------------------------------------------------------ UTF-8

  predicate IsAscii(s: string) {
    forall i | 0 <= i < |s| :: s[i] as int < 0x80
  }

  lemma AsciiConcat(a: string, b: string)
    requires IsAscii(a) && IsAscii(b)
    ensures IsAscii(a + b)
  {
  }

  /** A byte as Kotlin's `byte.toInt() and 0xFF` sees it. */
  type Byte = x: int | 0 <= x < 0x100

  /** The UTF-8 bytes of one character. A character outside ASCII never produces
      a byte below 0x80, which keeps the encoding self-synchronising. */
  function Utf8EncodeChar(c: char): (bs: seq<Byte>)
    ensures c as int < 0x80 ==> bs == [c as int]
    ensures c as int >= 0x80 ==> 2 <= |bs| <= 4 && forall i | 0 <= i < |bs| :: bs[i] >= 0x80
  {
    var cp := c as int;
    if cp < 0x80 then [cp]
    else if cp < 0x800 then [0xC0 + cp / 0x40, 0x80 + cp % 0x40]
    else if cp < 0x10000 then [0xE0 + cp / 0x1000, 0x80 + cp / 0x40 % 0x40, 0x80 + cp % 0x40]
    else [0xF0 + cp / 0x40000, 0x80 + cp / 0x1000 % 0x40, 0x80 + cp / 0x40 % 0x40, 0x80 + cp % 0x40]
  }

  /** `s.toByteArray(Charsets.UTF_8)`. */
  function Utf8Encode(s: string): (bs: seq<Byte>)
    ensures |bs| >= |s|
    ensures IsAscii(s) ==> |bs| == |s| && forall i | 0 <= i < |s| :: bs[i] == s[i] as int
  {
    if s == [] then []
    else
      var p := s[..|s| - 1];
      assert forall i | 0 <= i < |p| :: p[i] == s[i];
      Utf8Encode(p) + Utf8EncodeChar(s[|s| - 1])
  }

  /** UTF-8 encodes a string character by character. */
  lemma {:induction false} Utf8Append(a: string, b: string)
    ensures Utf8Encode(a + b) == Utf8Encode(a) + Utf8Encode(b)
  {
    if b == [] {
      assert a + b == a;
    } else {
      var n := |b| - 1;
      LastOfConcat(a, b);
      Utf8Append(a, b[..n]);
    }
  }

  /** Dropping the last character of a + b drops it from b. */
  lemma LastOfConcat(a: string, b: string)
    requires b != []
    ensures (a + b)[..|a + b| - 1] == a + b[..|b| - 1] && (a + b)[|a + b| - 1] == b[|b| - 1]
  {
  }

  // ---------------------------------------------------- split, replace, pad

  /** The pieces joined back together with the delimiter between them. */
  function Join(parts: seq<string>, c: char): string
    requires |parts| >= 1
  {
    if |parts| == 1 then parts[0] else parts[0] + [c] + Join(parts[1..], c)
  }

  /** Kotlin's `s.split(c)` for a one-character delimiter: all pieces, empty ones
      included, in order. The pieces hold no delimiter and join back to s, which
      determines them uniquely. */
  function Split(s: string, c: char): (parts: seq<string>)
    ensures |parts| >= 1
    ensures forall i | 0 <= i < |parts| :: c !in parts[i]
    ensures Join(parts, c) == s
  {
    if s == [] then [""]
    else
      var rest := Split(s[1..], c);
      if s[0] == c then
        assert s == [c] + s[1..];
        [""] + rest
      else
        var parts := [[s[0]] + rest[0]] + rest[1..];
        assert parts[1..] == rest[1..];
        assert c !in [s[0]] + rest[0];
        assert s == [s[0]] + s[1..];
        parts
  }

  /** The string without any occurrence of c: `s.replace(":", "")` for c = ':'. */
  function RemoveAll(s: string, c: char): (r: string)
    ensures c !in r && |r| <= |s|
  {
    if s == [] then []
    else if s[0] == c then RemoveAll(s[1..], c)
    else [s[0]] + RemoveAll(s[1..], c)
  }

  /** Concatenation of all pieces, without separators. */
  function Concat(parts: seq<string>): string {
    if parts == [] then [] else parts[0] + Concat(parts[1..])
  }

  /** Removing every c is the same as splitting at c and gluing the pieces. */
  lemma {:induction false} RemoveAllIsSplitConcat(s: string, c: char)
    ensures RemoveAll(s, c) == Concat(Split(s, c))
  {
    if s != [] {
      RemoveAllIsSplitConcat(s[1..], c);
      var rest := Split(s[1..], c);
      if s[0] == c {
        assert Split(s, c) == [""] + rest;
        assert Concat([""] + rest) == "" + Concat(rest);
      } else {
        var parts := [[s[0]] + rest[0]] + rest[1..];
        assert Split(s, c) == parts;
        assert Concat(rest) == rest[0] + Concat(rest[1..]);
        assert Concat(parts) == ([s[0]] + rest[0]) + Concat(rest[1..]);
      }
    }
  }

  /** Kotlin's `s.padStart(n, '0')`. */
  function PadStartZeros(s: string, n: nat): (r: string)
    ensures |r| == if |s| >= n then |s| else n
    ensures r[|r| - |s|..] == s && forall i | 0 <= i < |r| - |s| :: r[i] == '0'
  {
    if |s| >= n then s else Zeros(n - |s|) + s
  }

  /** A string without the delimiter is one piece. */
  lemma {:induction false} SplitNoDelimiter(s: string, c: char)
    requires c !in s
    ensures Split(s, c) == [s]
  {
    if s != [] {
      SplitNoDelimiter(s[1..], c);
      assert [s[0]] + s[1..] == s;
    }
  }

  /** A piece, the delimiter, then the rest: the piece comes first. */
  lemma {:induction false} SplitCons(p: string, c: char, t: string)
    requires c !in p
    ensures Split(p + [c] + t, c) == [p] + Split(t, c)
  {
    var s := p + [c] + t;
    if p == [] {
      assert s == [c] + t && s[1..] == t;
    } else {
      assert s[1..] == p[1..] + [c] + t;
      SplitCons(p[1..], c, t);
      assert [p[0]] + p[1..] == p;
    }
  }

  /** Splitting undoes joining, when no piece holds the delimiter. */
  lemma {:induction false} SplitJoin(parts: seq<string>, c: char)
    requires |parts| >= 1 && forall i | 0 <= i < |parts| :: c !in parts[i]
    ensures Split(Join(parts, c), c) == parts
  {
    if |parts| == 1 {
      SplitNoDelimiter(parts[0], c);
    } else {
      SplitJoin(parts[1..], c);
      SplitCons(parts[0], c, Join(parts[1..], c));
      assert [parts[0]] + parts[1..] == parts;
    }
  }

  /** The first piece runs up to the first delimiter, or to the end. */
  lemma {:induction false} SplitFirstPiece(s: string, c: char, i: nat)
    requires i <= |s| && c !in s[..i] && (i == |s| || s[i] == c)
    ensures Split(s, c)[0] == s[..i]
  {
    if i == |s| {
      assert s[..i] == s;
      SplitNoDelimiter(s, c);
    } else {
      assert s == s[..i] + [c] + s[i + 1..];
      SplitCons(s[..i], c, s[i + 1..]);
    }
  }

  /** The last piece is everything after the last delimiter. */
  lemma {:induction false} SplitLastPiece(s: string, c: char, k: nat)
    requires k < |s| && s[k] == c && c !in s[k + 1..]
    ensures |Split(s, c)| >= 2 && Split(s, c)[|Split(s, c)| - 1] == s[k + 1..]
  {
    var rest := s[k + 1..];
    SplitNoDelimiter(rest, c);
    var pieces := Split(s[..k], c);
    assert s == s[..k] + [c] + rest;
    JoinAppend(pieces, rest, c);
    assert Join(pieces + [rest], c) == s;
    SplitJoin(pieces + [rest], c) by {
      JoinAppend(pieces, rest, c);
      forall i | 0 <= i < |pieces| + 1 ensures c !in (pieces + [rest])[i] {
        if i < |pieces| {
          assert (pieces + [rest])[i] == pieces[i];
        }
      }
    }
  }

  /** Joining one more piece puts the delimiter and the piece at the end. */
  lemma {:induction false} JoinAppend(parts: seq<string>, last: string, c: char)
    requires |parts| >= 1
    ensures Join(parts + [last], c) == Join(parts, c) + [c] + last
  {
    if |parts| == 1 {
      assert (parts + [last])[1..] == [last];
    } else {
      assert (parts + [last])[1..] == parts[1..] + [last];
      JoinAppend(parts[1..], last, c);
    }
  }

  /** Removal distributes over concatenation. */
  lemma {:induction false} RemoveAllAppend(a: string, b: string, c: char)
    ensures RemoveAll(a + b, c) == RemoveAll(a, c) + RemoveAll(b, c)
  {
    if a == [] {
      assert a + b == b;
    } else {
      assert (a + b)[1..] == a[1..] + b;
      RemoveAllAppend(a[1..], b, c);
    }
  }

  /** Nothing to remove leaves the string as it is. */
  lemma {:induction false} RemoveAllNone(s: string, c: char)
    requires c !in s
    ensures RemoveAll(s, c) == s
  {
    if s != [] {
      RemoveAllNone(s[1..], c);
      assert [s[0]] + s[1..] == s;
    }
  }

  /** The pieces of ASCII text are ASCII. */
  lemma {:induction false} SplitAscii(s: string, c: char)
    requires IsAscii(s)
    ensures forall i | 0 <= i < |Split(s, c)| :: IsAscii(Split(s, c)[i])
  {
    if s != [] {
      SplitAscii(s[1..], c);
      var rest := Split(s[1..], c);
      if s[0] != c {
        var parts := [[s[0]] + rest[0]] + rest[1..];
        assert Split(s, c) == parts;
        assert IsAscii(parts[0]);
        assert forall i | 1 <= i < |parts| :: parts[i] == rest[i];
      }
    }
  }

  /** Removing characters from ASCII text leaves ASCII text. */
  lemma {:induction false} RemoveAllAscii(s: string, c: char)
    requires IsAscii(s)
    ensures IsAscii(RemoveAll(s, c))
  {
    if s != [] {
      RemoveAllAscii(s[1..], c);
    }
  }

  /** Zero-padding ASCII text leaves ASCII text. */
  lemma PadStartAscii(s: string, n: nat)
    requires IsAscii(s)
    ensures IsAscii(PadStartZeros(s, n))
  {
    var r := PadStartZeros(s, n);
    forall i | 0 <= i < |r| ensures r[i] as int < 0x80 {
      if i >= |r| - |s| {
        assert r[i] == r[|r| - |s|..][i - (|r| - |s|)];
      }
    }
  }

  function Pow10(k: nat): (p: nat)
    ensures p >= 1
  {
    if k == 0 then 1 else 10 * Pow10(k - 1)
  }

  lemma {:induction false} Pow10Add(a: nat, b: nat)
    ensures Pow10(a + b) == Pow10(a) * Pow10(b)
  {
    if b > 0 {
      Pow10Add(a, b - 1);
    }
  }

  lemma ShiftDigit(high: int, p: int, low: int)
    ensures (high * p + low) * 10 == high * (p * 10) + low * 10
  {
  }

  /** Digits written after others shift them up by a power of ten. */
  lemma {:induction false} DecimalValueAppend(a: string, b: string)
    requires IsDigits(a) && IsDigits(b)
    ensures IsDigits(a + b) && DecimalValue(a + b) == DecimalValue(a) * Pow10(|b|) + DecimalValue(b)
  {
    if b == [] {
      assert a + b == a;
    } else {
      var n := |b| - 1;
      assert (a + b)[..|a + b| - 1] == a + b[..n];
      assert (a + b)[|a + b| - 1] == b[n];
      DecimalValueAppend(a, b[..n]);
      ShiftDigit(DecimalValue(a), Pow10(n), DecimalValue(b[..n]));
    }
  }
}
