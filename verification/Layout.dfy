/**
 The on-disk layout that fs.c works on: the free bitmap, and inodes packed sixteen to a block.
 Blocks here are what a read through the log and the buffer cache returns.
 */
module Layout {
  import opened Bytes

  const BPB := BSIZE * 8
  const IPB := 16
  const NDIRECT := 12
  const NINDIRECT := WORDS
  const MAXFILE := NDIRECT + NINDIRECT

  /** The superblock fields fs.c uses, and the first data block. */
  datatype Super = Super(size: nat, ninodes: nat, inodestart: nat, bmapstart: nat, datastart: nat)

  /** Inode blocks come before bitmap blocks, and those before data blocks. */
  predicate SuperOk(sb: Super) {
    && sb.inodestart <= sb.bmapstart <= sb.datastart <= sb.size < WORD_LIMIT
    && sb.ninodes <= IPB * (sb.bmapstart - sb.inodestart)
    && sb.size <= BPB * (sb.datastart - sb.bmapstart)
  }

  /* Bits. `x & m`, `x |= m` and `x &= ~m`, for a mask m of one bit, are written with BitOf, + and -. */

  /** `1 << k` */
  function Mask(k: nat): (m: nat)
    ensures m > 0
  {
    if k == 0 then 1 else 2 * Mask(k - 1)
  }

  /** `(x & (1 << k)) != 0` */
  predicate BitOf(x: nat, k: nat) {
    if k == 0 then x % 2 == 1 else BitOf(x / 2, k - 1)
  }

  lemma {:induction false} SetBitOf(x: nat, k: nat, j: nat)
    requires !BitOf(x, k)
    ensures BitOf(x + Mask(k), j) <==> j == k || BitOf(x, j)
  {
    if k > 0 {
      assert (x + Mask(k)) / 2 == x / 2 + Mask(k - 1);
      if j > 0 { SetBitOf(x / 2, k - 1, j - 1); }
    } else if j > 0 {
      assert (x + 1) / 2 == x / 2;
    }
  }

  /** A set bit is at most the number, and clearing it undoes setting it. */
  lemma {:induction false} BitBelow(x: nat, k: nat)
    requires BitOf(x, k)
    ensures Mask(k) <= x && !BitOf(x - Mask(k), k)
  {
    if k > 0 {
      BitBelow(x / 2, k - 1);
      assert (x - Mask(k)) / 2 == x / 2 - Mask(k - 1);
    }
  }

  lemma Halve(x: nat, a: nat, m: nat)
    requires x < 2 * m
    ensures x / 2 < m && (x % 2 == 0 ==> x + 1 < 2 * m) && (x / 2 + a < m ==> x + 2 * a < 2 * m)
  {}

  lemma {:induction false} SetBitFits(x: nat, k: nat, w: nat)
    requires !BitOf(x, k) && k < w && x < Mask(w)
    ensures x + Mask(k) < Mask(w)
  {
    if k == 0 {
      Halve(x, 0, Mask(w - 1));
    } else {
      Halve(x, Mask(k - 1), Mask(w - 1));
      SetBitFits(x / 2, k - 1, w - 1);
    }
  }

  predicate Bit(blk: Block, bi: nat)
    requires bi < BPB
  {
    BitOf(blk.bytes[bi / 8], bi % 8)
  }

  /** `bp->data[bi/8] |= m` for a clear bit. */
  function SetBit(blk: Block, bi: nat): Block
    requires bi < BPB && !Bit(blk, bi)
  {
    SetBitFits(blk.bytes[bi / 8], bi % 8, 8);
    assert Mask(8) == 256;
    Data(blk.bytes[bi / 8 := blk.bytes[bi / 8] + Mask(bi % 8)])
  }

  /** `bp->data[bi/8] &= ~m` for a set bit. */
  function ClearBit(blk: Block, bi: nat): Block
    requires bi < BPB && Bit(blk, bi)
  {
    BitBelow(blk.bytes[bi / 8], bi % 8);
    Data(blk.bytes[bi / 8 := blk.bytes[bi / 8] - Mask(bi % 8)])
  }

  lemma SetBitAt(blk: Block, bi: nat, bj: nat)
    requires bi < BPB && bj < BPB && !Bit(blk, bi)
    ensures Bit(SetBit(blk, bi), bj) <==> bj == bi || Bit(blk, bj)
  {
    SetBitOf(blk.bytes[bi / 8], bi % 8, bj % 8);
  }

  lemma ClearBitAt(blk: Block, bi: nat, bj: nat)
    requires bi < BPB && bj < BPB && Bit(blk, bi)
    ensures Bit(ClearBit(blk, bi), bj) <==> bj != bi && Bit(blk, bj)
  {
    BitBelow(blk.bytes[bi / 8], bi % 8);
    SetBitOf(blk.bytes[bi / 8] - Mask(bi % 8), bi % 8, bj % 8);
  }

  /* The free map. */

  /** BBLOCK */
  function BitmapBlock(sb: Super, b: nat): nat { b / BPB + sb.bmapstart }

  predicate Shaped(sb: Super, blocks: seq<Block>) {
    SuperOk(sb) && |blocks| == sb.size
  }

  /** Block b is marked in use. */
  predicate Used(sb: Super, blocks: seq<Block>, b: nat)
    requires Shaped(sb, blocks) && b < sb.size
  {
    Bit(blocks[BitmapBlock(sb, b)], b % BPB)
  }

  /** `1 << k` for the bits of a byte. */
  const POWERS := [1, 2, 4, 8, 16, 32, 64, 128]

  lemma {:induction false} BitIs(x: nat, k: nat)
    requires k < 8
    ensures BitOf(x, k) <==> x / POWERS[k] % 2 == 1
  {
    if k > 0 {
      BitIs(x / 2, k - 1);
      assert POWERS[k] == 2 * POWERS[k - 1];
      HalfThen(x, POWERS[k - 1]);
    }
  }

  lemma HalfThen(x: nat, p: nat)
    requires p in POWERS
    ensures x / 2 / p == x / (2 * p)
  {}

  /** Where the mark of block b is, as mkfs writes it: bit b % 8 of byte b / 8 of the bitmap. */
  lemma UsedIs(sb: Super, blocks: seq<Block>, b: nat)
    requires Shaped(sb, blocks) && b < sb.size
    ensures sb.bmapstart + b / 8192 < |blocks|
    ensures Used(sb, blocks, b) <==>
      blocks[sb.bmapstart + b / 8192].bytes[b % 8192 / 8] / POWERS[b % 8] % 2 == 1
  {
    BitIs(blocks[BitmapBlock(sb, b)].bytes[b % BPB / 8], b % BPB % 8);
    SameEighth(b);
  }

  lemma SameEighth(b: nat)
    ensures b % 8192 % 8 == b % 8
  {
    var q := b / 8192;
    assert b == 8 * (1024 * q + b % 8192 / 8) + b % 8192 % 8;
  }

  function Mark(sb: Super, blocks: seq<Block>, b: nat): (r: seq<Block>)
    requires Shaped(sb, blocks) && b < sb.size && !Used(sb, blocks, b)
    ensures Shaped(sb, r)
  {
    blocks[BitmapBlock(sb, b) := SetBit(blocks[BitmapBlock(sb, b)], b % BPB)]
  }

  function Unmark(sb: Super, blocks: seq<Block>, b: nat): (r: seq<Block>)
    requires Shaped(sb, blocks) && b < sb.size && Used(sb, blocks, b)
    ensures Shaped(sb, r)
  {
    blocks[BitmapBlock(sb, b) := ClearBit(blocks[BitmapBlock(sb, b)], b % BPB)]
  }

  lemma SameBit(b: nat, c: nat)
    requires b / BPB == c / BPB
    ensures b % BPB == c % BPB <==> b == c
  {}

  lemma MarkAt(sb: Super, blocks: seq<Block>, b: nat, c: nat)
    requires Shaped(sb, blocks) && b < sb.size && c < sb.size && !Used(sb, blocks, b)
    ensures Used(sb, Mark(sb, blocks, b), c) <==> c == b || Used(sb, blocks, c)
  {
    if BitmapBlock(sb, b) == BitmapBlock(sb, c) {
      SameBit(b, c);
      SetBitAt(blocks[BitmapBlock(sb, b)], b % BPB, c % BPB);
    }
  }

  lemma UnmarkAt(sb: Super, blocks: seq<Block>, b: nat, c: nat)
    requires Shaped(sb, blocks) && b < sb.size && c < sb.size && Used(sb, blocks, b)
    ensures Used(sb, Unmark(sb, blocks, b), c) <==> c != b && Used(sb, blocks, c)
  {
    if BitmapBlock(sb, b) == BitmapBlock(sb, c) {
      SameBit(b, c);
      ClearBitAt(blocks[BitmapBlock(sb, b)], b % BPB, c % BPB);
    }
  }

  /* Inodes: two words of shorts, the size, thirteen addresses. */

  type Short = x: int | 0 <= x < 0x1_0000

  datatype Inode = Inode(kind: Short, major: Short, minor: Short, nlink: Short, size: Word, addrs: seq<nat>)

  predicate InodeOk(ip: Inode) {
    |ip.addrs| == NDIRECT + 1 && forall a :: 0 <= a <= NDIRECT ==> ip.addrs[a] < WORD_LIMIT
  }

  predicate AllWords(ws: seq<nat>) { forall a :: 0 <= a < |ws| ==> ws[a] < WORD_LIMIT }

  /** struct dinode as sixteen words. */
  function Encode(ip: Inode): (ws: seq<nat>)
    requires InodeOk(ip)
    ensures |ws| == 16 && AllWords(ws)
  {
    [ip.kind + 0x1_0000 * ip.major, ip.minor + 0x1_0000 * ip.nlink, ip.size] + ip.addrs
  }

  function Decode(ws: seq<nat>): (ip: Inode)
    requires |ws| == 16 && AllWords(ws)
    ensures InodeOk(ip)
  {
    Inode(ws[0] % 0x1_0000, ws[0] / 0x1_0000, ws[1] % 0x1_0000, ws[1] / 0x1_0000, ws[2], ws[3..])
  }

  lemma DecodeEncode(ip: Inode)
    requires InodeOk(ip)
    ensures Decode(Encode(ip)) == ip
  {
    assert Encode(ip)[3..] == ip.addrs;
  }

  function Words(blk: Block, base: nat, n: nat): (r: seq<nat>)
    requires base + n <= WORDS
    ensures |r| == n && AllWords(r)
  {
    if n == 0 then [] else Words(blk, base, n - 1) + [WordAt(blk, base + n - 1)]
  }

  lemma {:induction false} WordsSame(x: Block, y: Block, base: nat, n: nat)
    requires base + n <= WORDS && forall w :: base <= w < base + n ==> WordAt(x, w) == WordAt(y, w)
    ensures Words(x, base, n) == Words(y, base, n)
  {
    if n > 0 { WordsSame(x, y, base, n - 1); }
  }

  lemma {:induction false} WordsAre(x: Block, base: nat, ws: seq<nat>)
    requires base + |ws| <= WORDS && forall w :: base <= w < base + |ws| ==> WordAt(x, w) == ws[w - base]
    ensures Words(x, base, |ws|) == ws
  {
    if ws != [] {
      var n := |ws| - 1;
      forall w | base <= w < base + n ensures WordAt(x, w) == ws[..n][w - base] {}
      WordsAre(x, base, ws[..n]);
      assert ws == ws[..n] + [ws[n]];
    }
  }

  function PutWords(blk: Block, base: nat, ws: seq<nat>): Block
    requires base + |ws| <= WORDS && AllWords(ws)
  {
    if ws == [] then blk
    else PutWord(PutWords(blk, base, ws[..|ws|-1]), base + |ws| - 1, ws[|ws|-1])
  }

  lemma {:induction false} PutWordsAt(blk: Block, base: nat, ws: seq<nat>, w: nat)
    requires base + |ws| <= WORDS && AllWords(ws) && w < WORDS
    ensures WordAt(PutWords(blk, base, ws), w) == if base <= w < base + |ws| then ws[w - base] else WordAt(blk, w)
  {
    if ws != [] {
      PutWordsAt(blk, base, ws[..|ws|-1], w);
      PutWordAt(PutWords(blk, base, ws[..|ws|-1]), base + |ws| - 1, ws[|ws|-1], w);
    }
  }

  /** Words stored at base are read back there, and a range apart from them reads as before. */
  lemma WordsPut(blk: Block, base: nat, ws: seq<nat>, other: nat)
    requires base + |ws| <= WORDS && AllWords(ws) && other + |ws| <= WORDS
    requires other == base || other + |ws| <= base || base + |ws| <= other
    ensures Words(PutWords(blk, base, ws), other, |ws|) == if other == base then ws else Words(blk, other, |ws|)
  {
    var r := PutWords(blk, base, ws);
    if other == base {
      forall w | base <= w < base + |ws| ensures WordAt(r, w) == ws[w - base] {
        PutWordsAt(blk, base, ws, w);
      }
      WordsAre(r, base, ws);
    } else {
      forall w | other <= w < other + |ws| ensures WordAt(r, w) == WordAt(blk, w) {
        PutWordsAt(blk, base, ws, w);
      }
      WordsSame(r, blk, other, |ws|);
    }
  }

  /** IBLOCK */
  function InodeBlock(sb: Super, i: nat): nat { i / IPB + sb.inodestart }

  /** What ilock reads for inode i. */
  function DiskInode(sb: Super, blocks: seq<Block>, i: nat): (ip: Inode)
    requires Shaped(sb, blocks) && i < sb.ninodes
    ensures InodeOk(ip)
  {
    Decode(Words(blocks[InodeBlock(sb, i)], 16 * (i % IPB), 16))
  }

  /** What iupdate writes. */
  function StoreInode(sb: Super, blocks: seq<Block>, i: nat, ip: Inode): (r: seq<Block>)
    requires Shaped(sb, blocks) && i < sb.ninodes && InodeOk(ip)
    ensures Shaped(sb, r)
  {
    blocks[InodeBlock(sb, i) := PutWords(blocks[InodeBlock(sb, i)], 16 * (i % IPB), Encode(ip))]
  }

  lemma {:induction false} WordsAt(blk: Block, base: nat, n: nat, k: nat)
    requires base + n <= WORDS && k < n
    ensures Words(blk, base, n)[k] == WordAt(blk, base + k)
  {
    if k < n - 1 { WordsAt(blk, base, n - 1, k); }
  }

  /** Where the fields of inode i are: four shorts, the size and the addresses of the i % 16-th dinode of its block. */
  lemma DiskInodeIs(sb: Super, blocks: seq<Block>, i: nat, k: nat)
    requires Shaped(sb, blocks) && i < sb.ninodes && k < 13
    ensures sb.inodestart + i / 16 < |blocks|
    ensures
      var ip, blk, w := DiskInode(sb, blocks, i), blocks[sb.inodestart + i / 16], i % 16 * 16;
      && ip.kind == WordAt(blk, w) % 65536 && ip.major == WordAt(blk, w) / 65536
      && ip.minor == WordAt(blk, w + 1) % 65536 && ip.nlink == WordAt(blk, w + 1) / 65536
      && ip.size == WordAt(blk, w + 2) && ip.addrs[k] == WordAt(blk, w + 3 + k)
  {
    var blk, w := blocks[InodeBlock(sb, i)], 16 * (i % IPB);
    WordsAt(blk, w, 16, 0);
    WordsAt(blk, w, 16, 1);
    WordsAt(blk, w, 16, 2);
    WordsAt(blk, w, 16, 3 + k);
  }

  /** An inode written by iupdate is read back by ilock, and no other inode changes. */
  lemma StoreInodeAt(sb: Super, blocks: seq<Block>, i: nat, ip: Inode, j: nat)
    requires Shaped(sb, blocks) && i < sb.ninodes && j < sb.ninodes && InodeOk(ip)
    ensures DiskInode(sb, StoreInode(sb, blocks, i, ip), j) == if j == i then ip else DiskInode(sb, blocks, j)
  {
    DecodeEncode(ip);
    if InodeBlock(sb, j) == InodeBlock(sb, i) {
      assert i % IPB == j % IPB <==> i == j;
      WordsPut(blocks[InodeBlock(sb, i)], 16 * (i % IPB), Encode(ip), 16 * (j % IPB));
    }
  }
}
