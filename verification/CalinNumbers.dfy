/** Number fields of the CALIN protocol: packed decimals, two-digit texts, and 32-bit little-endian integers. */
module CalinNumbers {
  import opened Domain
  import opened CalinFrame
  import opened Texts

  /** A decimal value of two digits as one packed byte. */
  function ToBcd(value: int): Option<Byte> {
    if value < 0 || value > 99 then None else Some(value / 10 * 16 + value % 10)
  }

  predicate IsBcd(b: Byte) {
    b / 16 < 10 && b % 16 < 10
  }

  /** The value a packed byte stands for. */
  function Dec(b: Byte): nat {
    b / 16 * 10 + b % 16
  }

  lemma ToBcdPacks(value: int)
    ensures ToBcd(value).Some? <==> 0 <= value <= 99
    ensures ToBcd(value).Some? ==> IsBcd(ToBcd(value).value) && Dec(ToBcd(value).value) == value
  {
  }

  /** A nibble printed in decimal: one digit, or two when it is no decimal digit. */
  function NibbleText(n: nat): string
    requires n < 16
  {
    if n < 10 then [Digit(n)] else ['1', Digit(n - 10)]
  }

  function ByteText(b: Byte): string {
    NibbleText(b / 16) + NibbleText(b % 16)
  }

  /** The digits of little-endian packed bytes, most significant first. */
  function BcdText(bytes: seq<Byte>): string {
    if bytes == [] then "" else BcdText(bytes[1..]) + ByteText(bytes[0])
  }

  /** Parsing the digits of a packed field; no digits at all is not a number. */
  function BcdToInteger(bytes: seq<Byte>): Option<nat> {
    if bytes == [] then None else Some(ParseDigits(BcdText(bytes)))
  }

  function PowerOf100(i: nat): nat {
    if i == 0 then 1 else 100 * PowerOf100(i - 1)
  }

  /** The sum of the decimal values weighted by the powers of a hundred. */
  function WeightedSum(bytes: seq<Byte>): nat {
    if bytes == [] then 0 else WeightedSum(bytes[..|bytes| - 1]) + Dec(bytes[|bytes| - 1]) * PowerOf100(|bytes| - 1)
  }

  lemma ParseOneMore(text: string, d: nat)
    requires d < 10
    ensures ParseDigits(text + NibbleText(d)) == ParseDigits(text) * 10 + d
  {
    var all := text + NibbleText(d);
    assert all[..|all| - 1] == text && all[|all| - 1] == Digit(d);
  }

  lemma ParseTwoMore(text: string, b: Byte)
    requires IsBcd(b)
    ensures ParseDigits(text + ByteText(b)) == ParseDigits(text) * 100 + Dec(b)
  {
    assert text + ByteText(b) == (text + NibbleText(b / 16)) + NibbleText(b % 16);
    ParseOneMore(text, b / 16);
    ParseOneMore(text + NibbleText(b / 16), b % 16);
  }

  /** A byte whose low half is no decimal digit prints three digits or four, not two. */
  lemma NonDecimalByteParses(b: Byte)
    ensures BcdToInteger([b]) == Some(if b % 16 < 10 then b / 16 * 10 + b % 16 else b / 16 * 100 + b % 16)
  {
    var high := NibbleText(b / 16);
    OneByteText(b);
    NibbleParses("", b / 16);
    assert "" + high == high;
    NibbleParses(high, b % 16);
  }

  lemma OneByteText(b: Byte)
    ensures BcdText([b]) == NibbleText(b / 16) + NibbleText(b % 16)
  {
    assert [b][1..] == [] && BcdText([]) == "";
  }

  lemma NibbleParses(text: string, n: nat)
    requires n < 16
    ensures ParseDigits(text + NibbleText(n)) == ParseDigits(text) * (if n < 10 then 10 else 100) + n
  {
    if n < 10 {
      ParseOneMore(text, n);
    } else {
      var all := text + NibbleText(n);
      assert all[..|all| - 1] == text + ['1'] && (text + ['1'])[..|text|] == text;
      assert ParseDigits(text + ['1']) == ParseDigits(text) * 10 + 1;
    }
  }

  lemma WeightUp(value: nat, power: nat)
    ensures value * (100 * power) == 100 * (value * power)
  {
  }

  lemma {:induction false} SumFromBelow(bytes: seq<Byte>)
    requires bytes != []
    ensures WeightedSum(bytes) == Dec(bytes[0]) + 100 * WeightedSum(bytes[1..])
    decreases |bytes|
  {
    var n := |bytes| - 1;
    if n > 0 {
      SumFromBelow(bytes[..n]);
      assert bytes[1..][..n - 1] == bytes[..n][1..];
      assert WeightedSum(bytes[1..]) == WeightedSum(bytes[1..][..n - 1]) + Dec(bytes[n]) * PowerOf100(n - 1);
      WeightUp(Dec(bytes[n]), PowerOf100(n - 1));
    } else {
      assert bytes[..0] == [] && bytes[1..] == [];
      assert WeightedSum(bytes[..0]) == 0 && PowerOf100(0) == 1;
    }
  }

  lemma {:induction false} TextParsesToSum(bytes: seq<Byte>)
    requires forall b :: b in bytes ==> IsBcd(b)
    ensures ParseDigits(BcdText(bytes)) == WeightedSum(bytes)
    decreases |bytes|
  {
    if bytes != [] {
      TextParsesToSum(bytes[1..]);
      ParseTwoMore(BcdText(bytes[1..]), bytes[0]);
      SumFromBelow(bytes);
    }
  }

  /** On packed decimals of any length the parsed integer is the sum of the bytes' values by powers of a hundred. */
  lemma BcdToIntegerIsSum(bytes: seq<Byte>)
    requires bytes != [] && forall b :: b in bytes ==> IsBcd(b)
    ensures BcdToInteger(bytes) == Some(WeightedSum(bytes))
  {
    TextParsesToSum(bytes);
  }

  /** `n` as `size` packed bytes, least significant first. */
  function PackDecimal(n: nat, size: nat): seq<Byte> {
    if size == 0 then [] else [ToBcd(n % 100).value] + PackDecimal(n / 100, size - 1)
  }

  lemma {:induction false} PackedSum(n: nat, size: nat)
    requires n < PowerOf100(size)
    ensures |PackDecimal(n, size)| == size
    ensures forall b :: b in PackDecimal(n, size) ==> IsBcd(b)
    ensures WeightedSum(PackDecimal(n, size)) == n
    decreases size
  {
    if size > 0 {
      PackedSum(n / 100, size - 1);
      ToBcdPacks(n % 100);
      var packed := PackDecimal(n, size);
      assert packed[1..] == PackDecimal(n / 100, size - 1);
      SumFromBelow(packed);
    }
  }

  /** Parsing inverts packing, for every number that fits. */
  lemma ParsePacked(n: nat, size: nat)
    requires size >= 1 && n < PowerOf100(size)
    ensures BcdToInteger(PackDecimal(n, size)) == Some(n)
  {
    PackedSum(n, size);
    BcdToIntegerIsSum(PackDecimal(n, size));
  }

  const HEX_DIGITS := "0123456789abcdef"

  /** A byte as two lower-case hexadecimal digits. */
  function HexText(b: Byte): string {
    [HEX_DIGITS[b / 16], HEX_DIGITS[b % 16]]
  }

  function TwoDigits(value: nat): string
    requires value < 100
  {
    [Digit(value / 10), Digit(value % 10)]
  }

  /** The hexadecimal text of a packed byte is its decimal text. */
  lemma HexTextOfBcd(value: nat)
    requires value < 100
    ensures HexText(ToBcd(value).value) == TwoDigits(value)
  {
    ToBcdPacks(value);
  }

  const TWO_32 := 0x1_0000_0000

  /** Conversion to a signed 32-bit integer. */
  function ToInt32(n: int): int {
    (n + 0x8000_0000) % TWO_32 - 0x8000_0000
  }

  function PowerOf2(n: nat): nat {
    if n == 0 then 1 else 2 * PowerOf2(n - 1)
  }

  /** The 32-bit left shift; the shift count is taken modulo 32. */
  function ShiftLeft(n: nat, count: nat): int {
    ToInt32(n * PowerOf2(count % 32))
  }

  function ReverseAndCombine(bytes: seq<Byte>): int {
    if bytes == [] then 0
    else
      var last := |bytes| - 1;
      ReverseAndCombine(bytes[..last]) + ShiftLeft(Unmask(bytes[last]), last * 8)
  }

  /** The unsigned value of little-endian bytes. */
  function LittleEndian(bytes: seq<Byte>): nat {
    if bytes == [] then 0 else LittleEndian(bytes[1..]) * 256 + bytes[0]
  }

  lemma ShiftsOfAByte(b: Byte)
    ensures ShiftLeft(b, 0) == b && ShiftLeft(b, 8) == b * 256 && ShiftLeft(b, 16) == b * 65536
    ensures ShiftLeft(b, 24) == if b < 128 then b * 16777216 else b * 16777216 - TWO_32
  {
    PowersOf2();
  }

  lemma PowersOf2()
    ensures PowerOf2(0) == 1 && PowerOf2(8) == 256 && PowerOf2(16) == 65536 && PowerOf2(24) == 16777216
  {
    assert PowerOf2(4) == 16;
    assert PowerOf2(8) == 2 * (2 * (2 * (2 * PowerOf2(4))));
    assert PowerOf2(12) == 2 * (2 * (2 * (2 * PowerOf2(8))));
    assert PowerOf2(16) == 2 * (2 * (2 * (2 * PowerOf2(12))));
    assert PowerOf2(20) == 2 * (2 * (2 * (2 * PowerOf2(16))));
    assert PowerOf2(24) == 2 * (2 * (2 * (2 * PowerOf2(20))));
  }

  lemma CombineOne(bytes: seq<Byte>)
    requires 1 <= |bytes| <= 4
    ensures var n := |bytes| - 1;
      ReverseAndCombine(bytes) == ReverseAndCombine(bytes[..n]) + ShiftLeft(Unmask(bytes[n]), n * 8)
  {
  }

  lemma LittleEndianOf(bytes: seq<Byte>)
    ensures |bytes| == 1 ==> LittleEndian(bytes) == bytes[0]
    ensures |bytes| == 2 ==> LittleEndian(bytes) == (bytes[0] as int) + 256 * (bytes[1] as int)
    ensures |bytes| == 3 ==>
      LittleEndian(bytes) == (bytes[0] as int) + 256 * (bytes[1] as int) + 65536 * (bytes[2] as int)
    ensures |bytes| == 4 ==>
      LittleEndian(bytes) ==
        (bytes[0] as int) + 256 * (bytes[1] as int) + 65536 * (bytes[2] as int) + 16777216 * (bytes[3] as int)
  {
    if 1 <= |bytes| <= 4 {
      var a := bytes[1..];
      assert LittleEndian(bytes) == LittleEndian(a) * 256 + bytes[0];
      if |a| >= 1 {
        var b := a[1..];
        assert LittleEndian(a) == LittleEndian(b) * 256 + bytes[1];
        if |b| >= 1 {
          var d := b[1..];
          assert LittleEndian(b) == LittleEndian(d) * 256 + bytes[2];
          if |d| >= 1 {
            assert d[1..] == [];
            assert LittleEndian(d) == LittleEndian(d[1..]) * 256 + bytes[3];
          }
        }
      }
    }
  }

  /**
   * A field of up to four bytes combines to its unmasked little-endian value, except that a four-byte value of 2^31 or
   * more comes out 2^32 too low.
   */
  lemma CombineIsLittleEndian(bytes: seq<Byte>)
    requires |bytes| <= 4
    ensures var value := LittleEndian(UnmaskAll(bytes));
      ReverseAndCombine(bytes) == if value < 0x8000_0000 then value else value - TWO_32
  {
    var u := UnmaskAll(bytes);
    LittleEndianOf(u);
    CombineByBytes(bytes);
  }

  lemma CombineByBytes(bytes: seq<Byte>)
    requires |bytes| <= 4
    ensures var u := UnmaskAll(bytes);
      && (|bytes| == 0 ==> ReverseAndCombine(bytes) == 0)
      && (|bytes| == 1 ==> ReverseAndCombine(bytes) == u[0])
      && (|bytes| == 2 ==> ReverseAndCombine(bytes) == (u[0] as int) + 256 * (u[1] as int))
      && (|bytes| == 3 ==> ReverseAndCombine(bytes) == (u[0] as int) + 256 * (u[1] as int) + 65536 * (u[2] as int))
      && (|bytes| == 4 ==>
            ReverseAndCombine(bytes) + (if u[3] < 128 then 0 else TWO_32)
            == (u[0] as int) + 256 * (u[1] as int) + 65536 * (u[2] as int) + 16777216 * (u[3] as int))
    decreases |bytes|
  {
    if bytes != [] {
      var n := |bytes| - 1;
      CombineByBytes(bytes[..n]);
      CombineOne(bytes);
      ShiftsOfAByte(Unmask(bytes[n]));
    }
  }
}
