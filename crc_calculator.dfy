/** CrcCalculator.kt: CRC-16/CCITT-FALSE (ISO/IEC 13239 polynomial 0x1021, initial
    register 0xFFFF, most significant bit first, no reflection, no final XOR) over the
    UTF-8 bytes of a string, printed as `%04X`. The register is a Kotlin `Int`, so it
    is a `bv32` here, masked to 16 bits after every bit step exactly as the source does. */
module CrcCalculator {
  import opened Text

  const Polynomial: bv32 := 0x1021
  const InitialValue: bv32 := 0xFFFF

  /** One bit step: shift left, XOR the polynomial in when bit 15 was set, keep 16 bits. */
  function ShiftBit(crc: bv32): (r: bv32)
    ensures r <= 0xFFFF
  {
    (if crc & 0x8000 != 0 then (crc << 1) ^ Polynomial else crc << 1) & 0xFFFF
  }

  /** The register after n bit steps. */
  function ShiftBits(crc: bv32, n: nat): (r: bv32)
    ensures n > 0 ==> r <= 0xFFFF
  {
    if n == 0 then crc else ShiftBit(ShiftBits(crc, n - 1))
  }

  /** One input byte: XOR it into the high byte of the register, then eight bit steps. */
  function UpdateByte(crc: bv32, b: Byte): (r: bv32)
    ensures r <= 0xFFFF
  {
    ShiftBits(crc ^ ((b as bv32) << 8), 8)
  }

  /** The register after the bytes, fed first to last, starting from crc. Started
      within 16 bits, it never leaves them. */
  function Register(crc: bv32, bytes: seq<Byte>): (r: bv32)
    ensures crc <= 0xFFFF ==> r <= 0xFFFF
  {
    if bytes == [] then crc else UpdateByte(Register(crc, bytes[..|bytes| - 1]), bytes[|bytes| - 1])
  }

  /** CRC-16/CCITT-FALSE of a byte sequence: a 16-bit value. */
  function Crc16(bytes: seq<Byte>): (r: bv32)
    ensures r <= 0xFFFF
  {
    Register(InitialValue, bytes)
  }

  /** The checksum string the validator compares against: `%04X` of the register over
      the UTF-8 bytes. */
  function CrcHex(data: string): (hex: string)
    ensures |hex| == 4 && IsUpperHex(hex) && HexValue(hex) == Crc16(Utf8Encode(data)) as nat
  {
    var crc := Crc16(Utf8Encode(data));
    assert crc as nat <= 0xFFFF;
    FormatHex04(crc as nat)
  }

  /** The register is a left fold: feeding a ++ b is feeding b from the register a left. */
  lemma {:induction false} RegisterAppend(crc: bv32, a: seq<Byte>, b: seq<Byte>)
    ensures Register(crc, a + b) == Register(Register(crc, a), b)
  {
    if b == [] {
      assert a + b == a;
    } else {
      assert (a + b)[..|a + b| - 1] == a + b[..|b| - 1];
      RegisterAppend(crc, a, b[..|b| - 1]);
    }
  }

  /** Nothing to feed leaves the initial register, so the empty string checks to "FFFF". */
  lemma EmptyInputCrc()
    ensures CrcHex("") == "FFFF"
  {
    assert Utf8Encode("") == [];
    assert Crc16([]) as nat == 0xFFFF;
    FourFs();
  }

  /** The initial register in hexadecimal. */
  lemma FourFs()
    ensures HexDigits(0xFFFF) == "FFFF"
  {
    assert HexChar(15) == 'F';
    assert HexDigits(0xF) == HexDigits(0) + ['F'] == "F";
    assert HexDigits(0xFF) == HexDigits(0xF) + ['F'] == "FF";
    assert HexDigits(0xFFF) == HexDigits(0xFF) + ['F'] == "FFF";
    assert HexDigits(0xFFFF) == HexDigits(0xFFF) + ['F'] == "FFFF";
  }

  /** `CrcCalculator.calculateCrc`: the nested byte and bit loops of the source. */
  method CalculateCrc(data: string) returns (hex: string)
    ensures hex == CrcHex(data)
    ensures |hex| == 4 && IsUpperHex(hex)
  {
    var bytes := Utf8Encode(data);
    var crc: bv32 := InitialValue;
    for k := 0 to |bytes|
      invariant crc == Register(InitialValue, bytes[..k])
      invariant crc <= 0xFFFF
    {
      assert bytes[..k + 1][..k] == bytes[..k];
      var x := crc ^ ((bytes[k] as bv32) << 8);
      crc := x;
      for i := 0 to 8
        invariant crc == ShiftBits(x, i)
        invariant i > 0 ==> crc <= 0xFFFF
      {
        crc := if crc & 0x8000 != 0 then (crc << 1) ^ Polynomial else crc << 1;
        crc := crc & 0xFFFF;
      }
    }
    assert bytes[..|bytes|] == bytes;
    hex := FormatHex04(crc as nat);
  }
}
