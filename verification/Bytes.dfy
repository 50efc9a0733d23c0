/** Numbers as the machine keeps them in memory: bytes, little end first. */
module Bytes {
  type Byte = b: int | 0 <= b < 256

  function Pow2(n: nat): nat { if n == 0 then 1 else 2 * Pow2(n - 1) }

  /** What ReadMem makes of the bytes, little end first: a char is signed, a short is not, a word is. */
  function Assemble(b: seq<Byte>): int
    requires |b| in {1, 2, 4}
  {
    var b0: int := b[0];
    if |b| == 1 then if b0 < 128 then b0 else b0 - 256
    else
      var b1: int := b[1];
      if |b| == 2 then b0 + 256 * b1
      else
        var b2: int, b3: int := b[2], b[3];
        var w := b0 + 256 * b1 + 65536 * b2 + 16777216 * b3;
        if w < 0x8000_0000 then w else w - 0x1_0000_0000
  }

  /** The bytes WriteMem stores: the low ones of the value, in two's complement. */
  function BytesOf(value: int, size: int): (b: seq<Byte>)
    requires size in {1, 2, 4}
    ensures |b| == size
  {
    if size == 1 then [LowByte(value)]
    else if size == 2 then [LowByte(value), LowByte(value / 256)]
    else [LowByte(value), LowByte(value / 256), LowByte(value / 65536), LowByte(value / 16777216)]
  }

  function LowByte(value: int): Byte {
    var low: int := value % 256;
    low
  }

  /** What was written is read back, in two's complement for a word and for a byte, as an unsigned
      number for a short. */
  lemma ReadsBackWhatWasWritten(value: int, size: int)
    requires size in {1, 2, 4}
    requires size == 1 ==> -128 <= value < 128
    requires size == 2 ==> 0 <= value < 0x1_0000
    requires size == 4 ==> -0x8000_0000 <= value < 0x8000_0000
    ensures Assemble(BytesOf(value, size)) == value
  {
    if size == 4 { FourBytes(value); }
  }

  /** Bytes that were read as a number are the bytes of that number. */
  lemma BytesOfWhatWasRead(b: seq<Byte>)
    requires |b| in {1, 2, 4}
    ensures BytesOf(Assemble(b), |b|) == b
  {
    if |b| == 4 {
      FourDigits(b[0], b[1], b[2], b[3]);
      FourDigits(b[0], b[1], b[2], b[3] as int - 256);
    } else if |b| == 2 {
      Digit(b[0], b[1]);
    }
  }

  /** The low end comes first: byte k of a number is the digit of 256 to the k. */
  lemma LowEndFirst(value: int, size: int, k: nat)
    requires size in {1, 2, 4} && k < size
    ensures Pow2(8 * k) > 0 && BytesOf(value, size)[k] == value / Pow2(8 * k) % 256
  {
    assert Pow2(4) == 16 && Pow2(8) == 256 && Pow2(12) == 4096 && Pow2(16) == 65536 && Pow2(20) == 1048576 && Pow2(24) == 16777216;
  }

  lemma Digit(low: int, high: int)
    requires 0 <= low < 256
    ensures (low + 256 * high) % 256 == low && (low + 256 * high) / 256 == high
  {
  }

  lemma DivTwice(value: int)
    ensures value / 65536 == value / 256 / 256 && value / 16777216 == value / 256 / 256 / 256
  {
  }

  lemma FourDigits(b0: Byte, b1: Byte, b2: Byte, top: int)
    ensures var value := b0 + 256 * b1 + 65536 * b2 + 16777216 * top;
            value % 256 == b0 && value / 256 % 256 == b1 && value / 65536 % 256 == b2 && value / 16777216 == top
  {
    var value := b0 + 256 * b1 + 65536 * b2 + 16777216 * top;
    var second: int := b1 + 256 * b2 + 65536 * top;
    var third: int := b2 + 256 * top;
    DivTwice(value);
    Digit(b0, second);
    Digit(b1, third);
    Digit(b2, top);
    assert value == b0 + 256 * second && second == b1 + 256 * third;
  }

  lemma FourBytes(value: int)
    ensures value % 256 + 256 * (value / 256 % 256) + 65536 * (value / 65536 % 256) + 16777216 * (value / 16777216 % 256)
         == value % 0x1_0000_0000
  {
    var a := value / 256;
    var b := a / 256;
    var c := b / 256;
    assert value / 65536 == b && value / 16777216 == c;
    assert value == 16777216 * c + 65536 * (b % 256) + 256 * (a % 256) + value % 256;
  }
}
