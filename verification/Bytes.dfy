/** Disk blocks as bytes, and their reading as little-endian 32-bit words. */
module Bytes {

  const BSIZE := 1024
  const WORDS := BSIZE / 4
  const WORD_LIMIT := 0x1_0000_0000

  type Byte = x: int | 0 <= x < 256
  type Word = x: int | 0 <= x < WORD_LIMIT

  datatype Data = Data(bytes: seq<Byte>)
  type Block = b: Data | |b.bytes| == BSIZE witness Data(seq(BSIZE, _ => 0))

  function ZeroBlock(): Block { Data(seq(BSIZE, _ => 0)) }

  /** `((uint*)data)[i]` */
  function WordAt(b: Block, i: nat): Word
    requires i < WORDS
  {
    var b0: int, b1: int, b2: int, b3: int := b.bytes[4*i], b.bytes[4*i+1], b.bytes[4*i+2], b.bytes[4*i+3];
    b0 + 0x100 * b1 + 0x1_0000 * b2 + 0x100_0000 * b3
  }

  /** `((uint*)data)[i] = v` */
  function PutWord(b: Block, i: nat, v: Word): (r: Block)
    requires i < WORDS
  {
    Data(b.bytes[4*i := v % 0x100]
                [4*i+1 := v / 0x100 % 0x100]
                [4*i+2 := v / 0x1_0000 % 0x100]
                [4*i+3 := v / 0x100_0000])
  }

  /** The lowest digit of a number to the base 256, and the rest. */
  lemma LowDigit(d: Byte, rest: nat)
    ensures (d + 256 * rest) % 256 == d && (d + 256 * rest) / 256 == rest
  {}

  lemma Quotients(v: nat)
    ensures v / 65536 == v / 256 / 256 && v / 16777216 == v / 256 / 256 / 256
  {}

  /** A word has as its four bytes its digits to the base 256, the lowest first. */
  lemma LittleEndian(b: Block, i: nat)
    requires i < WORDS
    ensures
      var v := WordAt(b, i);
      && b.bytes[4*i] == v % 256 && b.bytes[4*i+1] == v / 256 % 256
      && b.bytes[4*i+2] == v / 65536 % 256 && b.bytes[4*i+3] == v / 16777216
  {
    var b0: Byte, b1: Byte, b2: Byte, b3: Byte := b.bytes[4*i], b.bytes[4*i+1], b.bytes[4*i+2], b.bytes[4*i+3];
    LowDigit(b0, b1 + 256 * (b2 + 256 * b3));
    LowDigit(b1, b2 + 256 * b3);
    LowDigit(b2, b3);
    Quotients(WordAt(b, i));
  }

  lemma JoinSplit(v: Word)
    ensures v % 0x100 + 0x100 * (v / 0x100 % 0x100) + 0x1_0000 * (v / 0x1_0000 % 0x100)
              + 0x100_0000 * (v / 0x100_0000) == v
  {}

  /** A word store is read back by its own index and by no other. */
  lemma PutWordAt(b: Block, i: nat, v: Word, j: nat)
    requires i < WORDS && j < WORDS
    ensures WordAt(PutWord(b, i, v), j) == if i == j then v else WordAt(b, j)
  {
    JoinSplit(v);
  }

  lemma ZeroWords(b: Block, i: nat)
    requires b == ZeroBlock() && i < WORDS
    ensures WordAt(b, i) == 0
  {
    forall x | 0 <= x < BSIZE ensures b.bytes[x] == 0 {}
  }
}
