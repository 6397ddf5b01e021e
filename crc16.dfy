/** CRC16 as `CRC16::calculate` is used by src/Paynow.php:211. The helper's
    own source is not part of this model; this module is the reference
    definition CRC-16/CCITT-FALSE: polynomial 0x1021, register starting at
    0xFFFF, bytes fed most significant bit first, no reflection, no final
    XOR, result printed as four upper-case hexadecimal digits. */
module Crc16 {

  const Polynomial: bv16 := 0x1021
  const Initial: bv16 := 0xFFFF

  /** One bit step of the shift register. */
  function Shift(crc: bv16): bv16 {
    if crc & 0x8000 != 0 then (crc << 1) ^ Polynomial else crc << 1
  }

  function ShiftTimes(crc: bv16, k: nat): bv16
    decreases k
  {
    if k == 0 then crc else ShiftTimes(Shift(crc), k - 1)
  }

  /** The byte a character stands for. */
  function Byte(c: char): bv8 {
    ((c as int) % 256) as bv8
  }

  /** Feeds one byte into the register. */
  function Update(crc: bv16, c: char): bv16 {
    ShiftTimes(crc ^ ((Byte(c) as bv16) << 8), 8)
  }

  /** The register after feeding the bytes of `s` into `crc`, first byte first. */
  function Feed(crc: bv16, s: string): bv16
    decreases |s|
  {
    if s == [] then crc else Feed(Update(crc, s[0]), s[1..])
  }

  /** Feeding a concatenation is feeding its parts one after the other: a
      property of this reference definition, not of the package's helper. */
  lemma {:induction false} FeedAppend(crc: bv16, a: string, b: string)
    ensures Feed(crc, a + b) == Feed(Feed(crc, a), b)
    decreases |a|
  {
    if a != [] {
      assert (a + b)[0] == a[0] && (a + b)[1..] == a[1..] + b;
      FeedAppend(Update(crc, a[0]), a[1..], b);
    } else {
      assert a + b == b;
    }
  }

  predicate IsUpperHex(c: char) {
    '0' <= c <= '9' || 'A' <= c <= 'F'
  }

  function HexValue(c: char): (v: nat)
    requires IsUpperHex(c)
    ensures v < 16
  {
    if c <= '9' then c as int - '0' as int else c as int - 'A' as int + 10
  }

  function HexChar(v: nat): (c: char)
    requires v < 16
    ensures IsUpperHex(c) && HexValue(c) == v
  {
    if v < 10 then (v + '0' as int) as char else (v - 10 + 'A' as int) as char
  }

  /** A 16-bit value as exactly four upper-case hexadecimal digits, most
      significant first and zero-padded. */
  function Hex4(n: nat): (r: string)
    requires n < 0x1_0000
    ensures |r| == 4 && forall i :: 0 <= i < 4 ==> IsUpperHex(r[i])
  {
    [HexChar(n / 4096), HexChar(n / 256 % 16), HexChar(n / 16 % 16), HexChar(n % 16)]
  }

  /** The four digits read back as the value. */
  lemma Hex4ReadsBack(n: nat)
    requires n < 0x1_0000
    ensures HexValue(Hex4(n)[0]) * 4096 + HexValue(Hex4(n)[1]) * 256 + HexValue(Hex4(n)[2]) * 16
              + HexValue(Hex4(n)[3]) == n
  {
    var r := Hex4(n);
    assert HexValue(r[0]) == n / 4096 && HexValue(r[1]) == n / 256 % 16;
    assert HexValue(r[2]) == n / 16 % 16 && HexValue(r[3]) == n % 16;
    DivMod16(n / 256);
    DivMod16(n / 16);
    DivMod16(n);
    assert n / 256 / 16 == n / 4096;
    assert n / 16 / 16 == n / 256;
  }

  lemma DivMod16(n: nat)
    ensures n == n / 16 * 16 + n % 16
  {
  }

  /** `CRC16::calculate`: the register over all bytes of `s`, printed as four
      upper-case hexadecimal digits. */
  function Calculate(s: string): (r: string)
    ensures |r| == 4 && forall i :: 0 <= i < 4 ==> IsUpperHex(r[i])
  {
    Hex4(Feed(Initial, s) as int)
  }
}
