/** The checksum `EmvQrParser.generate` appends, from its private `calculateCrc`. It
    runs the same CRC-16 register as CrcCalculator.kt, but feeds it each character's
    code (`character.code shl 8`) where the validator feeds UTF-8 bytes. The two agree
    on ASCII text and disagree as soon as a character needs more than one UTF-8 byte. */
module GeneratorCrc {
  import opened Text
  import opened CrcCalculator

  /** The checksum field's id and length, which the checksum covers. */
  const ChecksumHeader := "6304"

  /** One character as the generator feeds it: its code XORed into the register from
      bit 8 up (bits above 15 included, as Kotlin's `Int` keeps them), then eight bit
      steps. */
  function UpdateChar(crc: bv32, c: char): (r: bv32)
    ensures r <= 0xFFFF
  {
    ShiftBits(crc ^ (((c as int) as bv32) << 8), 8)
  }

  /** The register after the characters, fed first to last. */
  function CharRegister(crc: bv32, s: string): (r: bv32)
    ensures crc <= 0xFFFF ==> r <= 0xFFFF
  {
    if s == [] then crc else UpdateChar(CharRegister(crc, s[..|s| - 1]), s[|s| - 1])
  }

  /** The generator's checksum as written: the character register over the data and
      the checksum header, printed as `%04X`. */
  function AsWrittenCrcHex(data: string): (hex: string)
    ensures |hex| == 4 && IsUpperHex(hex)
    ensures HexValue(hex) == CharRegister(InitialValue, data + ChecksumHeader) as nat
  {
    FormatHex04(CharRegister(InitialValue, data + ChecksumHeader) as nat)
  }

  /** The generator's `calculateCrc` as written: the loop over characters and the
      inner loop over eight bits. */
  method CalculateCrcAsWritten(data: string) returns (hex: string)
    ensures hex == AsWrittenCrcHex(data)
  {
    var text := data + ChecksumHeader;
    var crc: bv32 := InitialValue;
    for k := 0 to |text|
      invariant crc == CharRegister(InitialValue, text[..k])
    {
      assert text[..k + 1][..k] == text[..k];
      var x := crc ^ (((text[k] as int) as bv32) << 8);
      crc := x;
      for i := 0 to 8
        invariant crc == ShiftBits(x, i)
      {
        crc := if crc & 0x8000 != 0 then (crc << 1) ^ Polynomial else crc << 1;
        crc := crc & 0xFFFF;
      }
    }
    assert text[..|text|] == text;
    hex := FormatHex04(crc as nat);
  }

  /** On ASCII text each character code is its own UTF-8 byte, so the character
      register is the validator's byte register. */
  lemma {:induction false} AsciiCharRegister(crc: bv32, s: string)
    requires IsAscii(s)
    ensures CharRegister(crc, s) == Register(crc, Utf8Encode(s))
  {
    if s != [] {
      var n := |s| - 1;
      var p := s[..n];
      assert IsAscii(p);
      var bytes := Utf8Encode(s);
      assert bytes == Utf8Encode(p) + [s[n] as int];
      assert bytes[..n] == Utf8Encode(p);
      AsciiCharRegister(crc, p);
      var x := CharRegister(crc, p);
      assert Register(crc, bytes) == UpdateByte(x, s[n] as int);
      assert UpdateByte(x, s[n] as int) == UpdateChar(x, s[n]);
    }
  }

  /** On ASCII data the generator's checksum is the validator's checksum of the data
      and header. */
  lemma AsciiChecksumsAgree(data: string)
    requires IsAscii(data)
    ensures AsWrittenCrcHex(data) == CrcHex(data + ChecksumHeader)
  {
    var text := data + ChecksumHeader;
    assert IsAscii(text);
    AsciiCharRegister(InitialValue, text);
  }

  /** The example text: a merchant name field "5901\U{E9}" and the checksum header. */
  const ExampleText := "5901\U{E9}" + ChecksumHeader

  /** Its UTF-8 bytes: the one non-ASCII character takes two. */
  const ExampleBytes: seq<Byte> := [0x35, 0x39, 0x30, 0x31, 0xC3, 0xA9, 0x36, 0x33, 0x30, 0x34]

  /** A register trace: the states before and after each byte. */
  lemma {:induction false} ByteTrace(bytes: seq<Byte>, states: seq<bv32>)
    requires |states| == |bytes| + 1 && states[0] == InitialValue
    requires forall k | 0 <= k < |bytes| :: UpdateByte(states[k], bytes[k]) == states[k + 1]
    ensures Register(InitialValue, bytes) == states[|bytes|]
  {
    if bytes != [] {
      var n := |bytes| - 1;
      ByteTrace(bytes[..n], states[..n + 1]);
    }
  }

  /** The character codes of a string whose characters all fit in a byte. */
  function Codes(s: string): (bytes: seq<Byte>)
    requires forall i | 0 <= i < |s| :: s[i] as int < 0x100
    ensures |bytes| == |s| && forall i | 0 <= i < |s| :: bytes[i] == s[i] as int
  {
    seq(|s|, i requires 0 <= i < |s| => s[i] as int)
  }

  /** When every character code fits in a byte, the generator's register is the byte
      register over those codes. */
  lemma {:induction false} CodesRegister(crc: bv32, s: string)
    requires forall i | 0 <= i < |s| :: s[i] as int < 0x100
    ensures CharRegister(crc, s) == Register(crc, Codes(s))
  {
    if s != [] {
      var n := |s| - 1;
      var p := s[..n];
      CodesRegister(crc, p);
      assert Codes(s)[..n] == Codes(p);
      assert UpdateByte(CharRegister(crc, p), s[n] as int) == UpdateChar(CharRegister(crc, p), s[n]);
    }
  }

  /** The byte updates the validator makes on the example. */
  lemma ExampleSharedUpdates()
    ensures UpdateByte(0xFFFF, 0x35) == 0x8706
    ensures UpdateByte(0x8706, 0x39) == 0x4015
    ensures UpdateByte(0x4015, 0x30) == 0x6B97
    ensures UpdateByte(0x6B97, 0x31) == 0x6CBF
    ensures UpdateByte(0x6CBF, 0xC3) == 0xFB05
    ensures UpdateByte(0xFB05, 0xA9) == 0x7FB7
    ensures UpdateByte(0x7FB7, 0x36) == 0x6EED
    ensures UpdateByte(0x6EED, 0x33) == 0x6658
    ensures UpdateByte(0x6658, 0x30) == 0x6233
    ensures UpdateByte(0x6233, 0x34) == 0x0933
  {
    assert UpdateByte(0xFFFF, 0x35) == 0x8706 by {
      var x: bv32 := 0xCAFF;
      assert 0xFFFF ^ ((0x35 as bv32) << 8) == x;
      assert ShiftBits(x, 1) == 0x85DF;
      assert ShiftBits(x, 2) == 0x1B9F;
      assert ShiftBits(x, 3) == 0x373E;
      assert ShiftBits(x, 4) == 0x6E7C;
      assert ShiftBits(x, 5) == 0xDCF8;
      assert ShiftBits(x, 6) == 0xA9D1;
      assert ShiftBits(x, 7) == 0x4383;
      assert ShiftBits(x, 8) == 0x8706;
    }
    assert UpdateByte(0x8706, 0x39) == 0x4015 by {
      var x: bv32 := 0xBE06;
      assert 0x8706 ^ ((0x39 as bv32) << 8) == x;
      assert ShiftBits(x, 1) == 0x6C2D;
      assert ShiftBits(x, 2) == 0xD85A;
      assert ShiftBits(x, 3) == 0xA095;
      assert ShiftBits(x, 4) == 0x510B;
      assert ShiftBits(x, 5) == 0xA216;
      assert ShiftBits(x, 6) == 0x540D;
      assert ShiftBits(x, 7) == 0xA81A;
      assert ShiftBits(x, 8) == 0x4015;
    }
    assert UpdateByte(0x4015, 0x30) == 0x6B97 by {
      var x: bv32 := 0x7015;
      assert 0x4015 ^ ((0x30 as bv32) << 8) == x;
      assert ShiftBits(x, 1) == 0xE02A;
      assert ShiftBits(x, 2) == 0xD075;
      assert ShiftBits(x, 3) == 0xB0CB;
      assert ShiftBits(x, 4) == 0x71B7;
      assert ShiftBits(x, 5) == 0xE36E;
      assert ShiftBits(x, 6) == 0xD6FD;
      assert ShiftBits(x, 7) == 0xBDDB;
      assert ShiftBits(x, 8) == 0x6B97;
    }
    assert UpdateByte(0x6B97, 0x31) == 0x6CBF by {
      var x: bv32 := 0x5A97;
      assert 0x6B97 ^ ((0x31 as bv32) << 8) == x;
      assert ShiftBits(x, 1) == 0xB52E;
      assert ShiftBits(x, 2) == 0x7A7D;
      assert ShiftBits(x, 3) == 0xF4FA;
      assert ShiftBits(x, 4) == 0xF9D5;
      assert ShiftBits(x, 5) == 0xE38B;
      assert ShiftBits(x, 6) == 0xD737;
      assert ShiftBits(x, 7) == 0xBE4F;
      assert ShiftBits(x, 8) == 0x6CBF;
    }
    assert UpdateByte(0x6CBF, 0xC3) == 0xFB05 by {
      var x: bv32 := 0xAFBF;
      assert 0x6CBF ^ ((0xC3 as bv32) << 8) == x;
      assert ShiftBits(x, 1) == 0x4F5F;
      assert ShiftBits(x, 2) == 0x9EBE;
      assert ShiftBits(x, 3) == 0x2D5D;
      assert ShiftBits(x, 4) == 0x5ABA;
      assert ShiftBits(x, 5) == 0xB574;
      assert ShiftBits(x, 6) == 0x7AC9;
      assert ShiftBits(x, 7) == 0xF592;
      assert ShiftBits(x, 8) == 0xFB05;
    }
    assert UpdateByte(0xFB05, 0xA9) == 0x7FB7 by {
      var x: bv32 := 0x5205;
      assert 0xFB05 ^ ((0xA9 as bv32) << 8) == x;
      assert ShiftBits(x, 1) == 0xA40A;
      assert ShiftBits(x, 2) == 0x5835;
      assert ShiftBits(x, 3) == 0xB06A;
      assert ShiftBits(x, 4) == 0x70F5;
      assert ShiftBits(x, 5) == 0xE1EA;
      assert ShiftBits(x, 6) == 0xD3F5;
      assert ShiftBits(x, 7) == 0xB7CB;
      assert ShiftBits(x, 8) == 0x7FB7;
    }
    assert UpdateByte(0x7FB7, 0x36) == 0x6EED by {
      var x: bv32 := 0x49B7;
      assert 0x7FB7 ^ ((0x36 as bv32) << 8) == x;
      assert ShiftBits(x, 1) == 0x936E;
      assert ShiftBits(x, 2) == 0x36FD;
      assert ShiftBits(x, 3) == 0x6DFA;
      assert ShiftBits(x, 4) == 0xDBF4;
      assert ShiftBits(x, 5) == 0xA7C9;
      assert ShiftBits(x, 6) == 0x5FB3;
      assert ShiftBits(x, 7) == 0xBF66;
      assert ShiftBits(x, 8) == 0x6EED;
    }
    assert UpdateByte(0x6EED, 0x33) == 0x6658 by {
      var x: bv32 := 0x5DED;
      assert 0x6EED ^ ((0x33 as bv32) << 8) == x;
      assert ShiftBits(x, 1) == 0xBBDA;
      assert ShiftBits(x, 2) == 0x6795;
      assert ShiftBits(x, 3) == 0xCF2A;
      assert ShiftBits(x, 4) == 0x8E75;
      assert ShiftBits(x, 5) == 0x0CCB;
      assert ShiftBits(x, 6) == 0x1996;
      assert ShiftBits(x, 7) == 0x332C;
      assert ShiftBits(x, 8) == 0x6658;
    }
    assert UpdateByte(0x6658, 0x30) == 0x6233 by {
      var x: bv32 := 0x5658;
      assert 0x6658 ^ ((0x30 as bv32) << 8) == x;
      assert ShiftBits(x, 1) == 0xACB0;
      assert ShiftBits(x, 2) == 0x4941;
      assert ShiftBits(x, 3) == 0x9282;
      assert ShiftBits(x, 4) == 0x3525;
      assert ShiftBits(x, 5) == 0x6A4A;
      assert ShiftBits(x, 6) == 0xD494;
      assert ShiftBits(x, 7) == 0xB909;
      assert ShiftBits(x, 8) == 0x6233;
    }
    assert UpdateByte(0x6233, 0x34) == 0x0933 by {
      var x: bv32 := 0x5633;
      assert 0x6233 ^ ((0x34 as bv32) << 8) == x;
      assert ShiftBits(x, 1) == 0xAC66;
      assert ShiftBits(x, 2) == 0x48ED;
      assert ShiftBits(x, 3) == 0x91DA;
      assert ShiftBits(x, 4) == 0x3395;
      assert ShiftBits(x, 5) == 0x672A;
      assert ShiftBits(x, 6) == 0xCE54;
      assert ShiftBits(x, 7) == 0x8C89;
      assert ShiftBits(x, 8) == 0x0933;
    }
  }

  /** The further updates the generator makes, from the character 0xE9 on. */
  lemma ExampleGeneratorUpdates()
    ensures UpdateByte(0x6CBF, 0xE9) == 0x7E2D
    ensures UpdateByte(0x7E2D, 0x36) == 0xE4CC
    ensures UpdateByte(0xE4CC, 0x33) == 0x779A
    ensures UpdateByte(0x779A, 0x30) == 0xA223
    ensures UpdateByte(0xA223, 0x34) == 0xC07F
  {
    assert UpdateByte(0x6CBF, 0xE9) == 0x7E2D by {
      var x: bv32 := 0x85BF;
      assert 0x6CBF ^ ((0xE9 as bv32) << 8) == x;
      assert ShiftBits(x, 1) == 0x1B5F;
      assert ShiftBits(x, 2) == 0x36BE;
      assert ShiftBits(x, 3) == 0x6D7C;
      assert ShiftBits(x, 4) == 0xDAF8;
      assert ShiftBits(x, 5) == 0xA5D1;
      assert ShiftBits(x, 6) == 0x5B83;
      assert ShiftBits(x, 7) == 0xB706;
      assert ShiftBits(x, 8) == 0x7E2D;
    }
    assert UpdateByte(0x7E2D, 0x36) == 0xE4CC by {
      var x: bv32 := 0x482D;
      assert 0x7E2D ^ ((0x36 as bv32) << 8) == x;
      assert ShiftBits(x, 1) == 0x905A;
      assert ShiftBits(x, 2) == 0x3095;
      assert ShiftBits(x, 3) == 0x612A;
      assert ShiftBits(x, 4) == 0xC254;
      assert ShiftBits(x, 5) == 0x9489;
      assert ShiftBits(x, 6) == 0x3933;
      assert ShiftBits(x, 7) == 0x7266;
      assert ShiftBits(x, 8) == 0xE4CC;
    }
    assert UpdateByte(0xE4CC, 0x33) == 0x779A by {
      var x: bv32 := 0xD7CC;
      assert 0xE4CC ^ ((0x33 as bv32) << 8) == x;
      assert ShiftBits(x, 1) == 0xBFB9;
      assert ShiftBits(x, 2) == 0x6F53;
      assert ShiftBits(x, 3) == 0xDEA6;
      assert ShiftBits(x, 4) == 0xAD6D;
      assert ShiftBits(x, 5) == 0x4AFB;
      assert ShiftBits(x, 6) == 0x95F6;
      assert ShiftBits(x, 7) == 0x3BCD;
      assert ShiftBits(x, 8) == 0x779A;
    }
    assert UpdateByte(0x779A, 0x30) == 0xA223 by {
      var x: bv32 := 0x479A;
      assert 0x779A ^ ((0x30 as bv32) << 8) == x;
      assert ShiftBits(x, 1) == 0x8F34;
      assert ShiftBits(x, 2) == 0x0E49;
      assert ShiftBits(x, 3) == 0x1C92;
      assert ShiftBits(x, 4) == 0x3924;
      assert ShiftBits(x, 5) == 0x7248;
      assert ShiftBits(x, 6) == 0xE490;
      assert ShiftBits(x, 7) == 0xD901;
      assert ShiftBits(x, 8) == 0xA223;
    }
    assert UpdateByte(0xA223, 0x34) == 0xC07F by {
      var x: bv32 := 0x9623;
      assert 0xA223 ^ ((0x34 as bv32) << 8) == x;
      assert ShiftBits(x, 1) == 0x3C67;
      assert ShiftBits(x, 2) == 0x78CE;
      assert ShiftBits(x, 3) == 0xF19C;
      assert ShiftBits(x, 4) == 0xF319;
      assert ShiftBits(x, 5) == 0xF613;
      assert ShiftBits(x, 6) == 0xFC07;
      assert ShiftBits(x, 7) == 0xE82F;
      assert ShiftBits(x, 8) == 0xC07F;
    }
  }

  /** The character codes of the example text. */
  const ExampleCodes: seq<Byte> := [0x35, 0x39, 0x30, 0x31, 0xE9, 0x36, 0x33, 0x30, 0x34]

  /** The generator's register over the example text. */
  lemma ExampleCharRegister()
    ensures CharRegister(InitialValue, ExampleText) == 0xC07F
  {
    assert Codes(ExampleText) == ExampleCodes;
    CodesRegister(InitialValue, ExampleText);
    ExampleCodesRegister();
  }

  /** The byte register over the example's character codes. */
  lemma ExampleCodesRegister()
    ensures Register(InitialValue, ExampleCodes) == 0xC07F
  {
    ExampleSharedUpdates();
    ExampleGeneratorUpdates();
    ByteTrace(ExampleCodes, [0xFFFF, 0x8706, 0x4015, 0x6B97, 0x6CBF, 0x7E2D, 0xE4CC, 0x779A, 0xA223, 0xC07F]);
  }

  /** The first five characters of the example: "\U{E9}" is 0xC3 0xA9 in UTF-8. */
  lemma ExampleUtf8Prefix()
    ensures Utf8Encode(ExampleText[..5]) == ExampleBytes[..6]
  {
    var text := ExampleText;
    assert Utf8Encode(text[..4]) == ExampleBytes[..4] by {
      var p := text[..4];
      assert p[..0] == [];
      assert p[..1][..0] == p[..0];
      assert Utf8Encode(p[..1]) == [0x35];
      assert p[..2][..1] == p[..1];
      assert Utf8Encode(p[..2]) == [0x35, 0x39];
      assert p[..3][..2] == p[..2];
      assert Utf8Encode(p[..3]) == [0x35, 0x39, 0x30];
      assert p[..4][..3] == p[..3];
      assert p[..4] == p;
    }
    assert text[..5][..4] == text[..4];
    assert Utf8EncodeChar(text[4]) == [0xC3, 0xA9] by {
      assert text[4] == '\U{E9}';
      assert 0xE9 / 0x40 == 3 && 0xE9 % 0x40 == 0x29;
    }
    assert ExampleBytes[..6] == ExampleBytes[..4] + [0xC3, 0xA9];
  }

  /** The validator's bytes for the example text. */
  lemma ExampleUtf8()
    ensures Utf8Encode(ExampleText) == ExampleBytes
  {
    var text := ExampleText;
    ExampleUtf8Prefix();
    assert text[..6][..5] == text[..5];
    assert Utf8Encode(text[..6]) == ExampleBytes[..7];
    assert text[..7][..6] == text[..6];
    assert Utf8Encode(text[..7]) == ExampleBytes[..8];
    assert text[..8][..7] == text[..7];
    assert Utf8Encode(text[..8]) == ExampleBytes[..9];
    assert text[..9][..8] == text[..8];
    assert Utf8Encode(text[..9]) == ExampleBytes[..10];
    assert text[..9] == text && ExampleBytes[..10] == ExampleBytes;
  }

  /** The validator's register over those bytes. */
  lemma ExampleByteRegister()
    ensures Register(InitialValue, ExampleBytes) == 0x0933
  {
    ExampleSharedUpdates();
    ByteTrace(ExampleBytes, [0xFFFF, 0x8706, 0x4015, 0x6B97, 0x6CBF, 0xFB05, 0x7FB7, 0x6EED, 0x6658, 0x6233, 0x0933]);
  }

  /** One non-ASCII character is enough to tell the two checksums apart: for the
      merchant name field "5901\U{E9}", the generator feeds the single code 0xE9
      where the validator feeds the bytes 0xC3 0xA9, and the registers end at 0xC07F
      and 0x0933. */
  lemma NonAsciiChecksumsDiffer()
    ensures AsWrittenCrcHex("5901\U{E9}") != CrcHex("5901\U{E9}" + ChecksumHeader)
  {
    ExampleCharRegister();
    ExampleUtf8();
    ExampleByteRegister();
  }
}
