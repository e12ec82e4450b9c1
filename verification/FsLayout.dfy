/**
  Blocks of bytes and what kernel/fs.c packs into them: the bits of the free map and the block
  numbers of an indirect block.
*/
module FsLayout {

  /** Bytes in a block, bits in a free-map block, and the slots of an inode. */
  const BSIZE := 1024
  const BPB := 8192
  const NDIRECT := 12
  const NINDIRECT := 256
  const MAXFILE := 268
  const WORD := 0x1_0000_0000

  type byte = x: int | 0 <= x < 256
  type Block = b: seq<byte> | |b| == BSIZE witness seq(BSIZE, _ => 0)

  function Zero(): Block {
    seq(BSIZE, _ => 0)
  }

  // -------- bits --------

  function Pow2(k: nat): nat {
    if k == 0 then 1 else 2 * Pow2(k - 1)
  }

  /** x & (1 << k) is not zero. */
  predicate Bit(x: nat, k: nat) {
    if k == 0 then x % 2 == 1 else Bit(x / 2, k - 1)
  }

  /** x | (1 << k) */
  function Or(x: nat, k: nat): nat {
    if k == 0 then x / 2 * 2 + 1 else Or(x / 2, k - 1) * 2 + x % 2
  }

  /** x & ~(1 << k) */
  function AndNot(x: nat, k: nat): nat {
    if k == 0 then x / 2 * 2 else AndNot(x / 2, k - 1) * 2 + x % 2
  }

  lemma {:induction false} OrBound(x: nat, k: nat, n: nat)
    requires x < Pow2(n) && k < n
    ensures Or(x, k) < Pow2(n)
  {
    if k > 0 {
      OrBound(x / 2, k - 1, n - 1);
    }
  }

  lemma {:induction false} OrMeets(x: nat, k: nat, j: nat)
    ensures Bit(Or(x, k), j) <==> j == k || Bit(x, j)
  {
    if k > 0 {
      assert Or(x, k) / 2 == Or(x / 2, k - 1) && Or(x, k) % 2 == x % 2;
      if j > 0 {
        OrMeets(x / 2, k - 1, j - 1);
      }
    }
  }

  lemma {:induction false} AndNotMeets(x: nat, k: nat, j: nat)
    ensures AndNot(x, k) <= x
    ensures Bit(AndNot(x, k), j) <==> j != k && Bit(x, j)
  {
    if k > 0 {
      AndNotMeets(x / 2, k - 1, if j > 0 then j - 1 else 0);
      assert AndNot(x, k) / 2 == AndNot(x / 2, k - 1) && AndNot(x, k) % 2 == x % 2;
    }
  }

  /** Bit `i` of a free-map block. */
  predicate TestBit(b: Block, i: nat)
    requires i < BPB
  {
    Bit(b[i / 8], i % 8)
  }

  function SetBit(b: Block, i: nat): Block
    requires i < BPB
  {
    assert Pow2(8) == 256;
    OrBound(b[i / 8], i % 8, 8);
    b[i / 8 := Or(b[i / 8], i % 8)]
  }

  function ClearBit(b: Block, i: nat): Block
    requires i < BPB
  {
    AndNotMeets(b[i / 8], i % 8, 0);
    b[i / 8 := AndNot(b[i / 8], i % 8)]
  }

  /** Setting or clearing one bit of the map leaves every other bit alone. */
  lemma SetBitMeets(b: Block, i: nat, j: nat)
    requires i < BPB && j < BPB
    ensures TestBit(SetBit(b, i), j) <==> j == i || TestBit(b, j)
  {
    if i / 8 == j / 8 {
      OrMeets(b[i / 8], i % 8, j % 8);
    }
  }

  lemma ClearBitMeets(b: Block, i: nat, j: nat)
    requires i < BPB && j < BPB
    ensures TestBit(ClearBit(b, i), j) <==> j != i && TestBit(b, j)
  {
    if i / 8 == j / 8 {
      AndNotMeets(b[i / 8], i % 8, j % 8);
    }
  }

  // -------- words --------

  /** The little-endian 32-bit number at word `j`. */
  function GetWord(b: Block, j: nat): (w: nat)
    requires j < NINDIRECT
    ensures w < WORD
  {
    var b0: int, b1: int, b2: int, b3: int := b[4 * j], b[4 * j + 1], b[4 * j + 2], b[4 * j + 3];
    b0 + 0x100 * b1 + 0x1_0000 * b2 + 0x100_0000 * b3
  }

  function PutWord(b: Block, j: nat, w: nat): Block
    requires j < NINDIRECT && w < WORD
  {
    b[4 * j := w % 0x100][4 * j + 1 := w / 0x100 % 0x100][4 * j + 2 := w / 0x1_0000 % 0x100][4 * j + 3 := w / 0x100_0000]
  }

  lemma WordBytes(w: nat)
    requires w < WORD
    ensures w % 0x100 + 0x100 * (w / 0x100 % 0x100) + 0x1_0000 * (w / 0x1_0000 % 0x100) + 0x100_0000 * (w / 0x100_0000) == w
  {
    assert w / 0x1_0000 == w / 0x100 / 0x100 && w / 0x100_0000 == w / 0x1_0000 / 0x100;
  }

  lemma PutWordMeets(b: Block, j: nat, w: nat, k: nat)
    requires j < NINDIRECT && w < WORD && k < NINDIRECT
    ensures GetWord(PutWord(b, j, w), k) == if k == j then w else GetWord(b, k)
  {
    WordBytes(w);
    var c := PutWord(b, j, w);
    if k == j {
      assert c[4 * j] == w % 0x100 && c[4 * j + 1] == w / 0x100 % 0x100;
      assert c[4 * j + 2] == w / 0x1_0000 % 0x100 && c[4 * j + 3] == w / 0x100_0000;
    }
  }

  lemma ZeroWord(j: nat)
    requires j < NINDIRECT
    ensures GetWord(Zero(), j) == 0
  {
  }
}
