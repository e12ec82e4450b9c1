/**
  The block allocator and the inode contents of kernel/fs.c: balloc, bfree, bmap, itrunc, readi and
  writei, on the blocks as the log and the buffer cache present them.
*/
module Fs {
  import opened FsLayout
  import opened FsModel
  import opened Params

  class FileSystem {
    const sb: Super
    var blocks: seq<Block>
    var inodes: seq<Inode>
    /** What iupdate() last wrote for each inode. */
    var dinodes: seq<Inode>
    ghost var own: map<nat, Slot>
    ghost var pending: set<nat>
    /** Blocks handed to log_write(). */
    ghost var logged: set<nat>

    ghost function S(): State
      reads this
    {
      State(sb, blocks, inodes, own, pending)
    }

    /** An image with no file data, as mkfs writes its free map: the bits of the blocks that hold no file data
        are set, and every inode is empty. */
    constructor (sb: Super, ninodes: nat)
      requires sb.size <= WORD && 0 < sb.nmeta <= sb.size && sb.bmapstart + (sb.size - 1) / BPB < sb.nmeta
      ensures Valid(S()) && pending == {} && logged == {} && |inodes| == |dinodes| == ninodes && this.sb == sb
      ensures forall i :: 0 <= i < ninodes ==> Content(S(), i) == []
      ensures forall b {:trigger Used(sb, blocks, b)} :: 0 <= b < sb.size ==> (Used(sb, blocks, b) <==> b < sb.nmeta)
    {
      hide TestBit, SetBit;
      var bs: seq<Block> := seq(sb.size, _ => Zero());
      forall c | 0 <= c < sb.size ensures !Used(sb, bs, c) {
        ZeroBits(c % BPB);
      }
      var b := 0;
      while b < sb.nmeta
        invariant b <= sb.nmeta && Fits(sb, bs)
        invariant forall c {:trigger Used(sb, bs, c)} :: 0 <= c < sb.size ==> (Used(sb, bs, c) <==> c < b)
      {
        ghost var was := bs;
        bs := bs[sb.bmapstart + b / BPB := SetBit(bs[sb.bmapstart + b / BPB], b % BPB)];
        forall c | 0 <= c < sb.size ensures Used(sb, bs, c) <==> c < b + 1 {
          MarkMeets(sb, was, b, c);
        }
        b := b + 1;
      }
      this.sb, blocks := sb, bs;
      inodes := seq(ninodes, _ => Inode(0, seq(NDIRECT + 1, _ => 0)));
      dinodes := seq(ninodes, _ => Inode(0, seq(NDIRECT + 1, _ => 0)));
      own, pending, logged := map[], {}, {};
    }

    /** Allocate a zeroed block: the first one whose bit is clear, or 0 when every bit is set. */
    method Balloc() returns (r: nat, ghost wrote: set<nat>)
      requires Fits(sb, blocks)
      requires forall b {:trigger Used(sb, blocks, b)} :: 0 <= b < sb.nmeta ==> Used(sb, blocks, b)
      modifies this`blocks, this`pending, this`logged
      ensures r == 0 ==> S() == old(S()) && logged == old(logged)
      ensures r == 0 ==> forall b {:trigger Used(sb, blocks, b)} :: 0 <= b < sb.size ==> Used(sb, blocks, b)
      ensures r != 0 ==> sb.nmeta <= r < sb.size && !Used(sb, old(blocks), r)
      ensures r != 0 ==> forall b {:trigger Used(sb, old(blocks), b)} :: 0 <= b < r ==> Used(sb, old(blocks), b)
      ensures r != 0 ==> S() == Alloc(old(S()), r)
      ensures Logs(old(blocks), old(logged), blocks, logged, wrote)
      ensures wrote == if r == 0 then {} else {sb.bmapstart + r / BPB, r}
    {
      hide Used, TestBit, SetBit;
      var b := 0;
      while b < sb.size
        invariant b % BPB == 0 && S() == old(S()) && logged == old(logged)
        invariant forall c {:trigger Used(sb, blocks, c)} :: 0 <= c < b && c < sb.size ==> Used(sb, blocks, c)
        decreases sb.size - b
      {
        var bp := blocks[sb.bmapstart + b / BPB];
        var bi := 0;
        while bi < BPB && b + bi < sb.size
          invariant bi <= BPB && S() == old(S()) && logged == old(logged)
          invariant forall c {:trigger Used(sb, blocks, c)} :: 0 <= c < b + bi && c < sb.size ==> Used(sb, blocks, c)
        {
          BitUsed(sb, blocks, b, bi);
          if !TestBit(bp, bi) {
            blocks := blocks[sb.bmapstart + b / BPB := SetBit(bp, bi)];
            blocks := blocks[b + bi := Zero()];
            pending := pending + {b + bi};
            logged := logged + {sb.bmapstart + b / BPB, b + bi};
            return b + bi, {sb.bmapstart + b / BPB, b + bi};
          }
          bi := bi + 1;
        }
        b := b + BPB;
      }
      return 0, {};
    }

    /** Free a block. The block must be in use: bfree() panics on a clear bit. */
    method Bfree(b: nat) returns (ghost wrote: set<nat>)
      requires Fits(sb, blocks) && sb.nmeta <= b < sb.size && Used(sb, blocks, b)
      modifies this`blocks, this`pending, this`logged
      ensures S() == Free(old(S()), b)
      ensures Logs(old(blocks), old(logged), blocks, logged, wrote)
      ensures wrote == {sb.bmapstart + b / BPB}
    {
      var m := sb.bmapstart + b / BPB;
      blocks := blocks[m := ClearBit(blocks[m], b % BPB)];
      pending := pending - {b};
      logged := logged + {m};
      wrote := {m};
    }

    ghost predicate Full()
      reads this
      requires Fits(sb, blocks)
    {
      forall b {:trigger Used(sb, blocks, b)} :: 0 <= b < sb.size ==> Used(sb, blocks, b)
    }

    /** The index block of inode `i`, if it has one. */
    ghost function IndexOf(i: nat): set<nat>
      reads this
      requires i < |inodes| && |inodes[i].addrs| == NDIRECT + 1
    {
      if inodes[i].addrs[NDIRECT] == 0 then {} else {inodes[i].addrs[NDIRECT]}
    }

    /** bmap(): the disk block of the `bn`-th block of inode `i`, allocated if there was none; 0 when the
        disk is full. Nothing that was allocated before moves or changes. `bits` are the free-map blocks it
        logged. */
    method Bmap(i: nat, bn: nat) returns (addr: nat, ghost bits: set<nat>, ghost wrote: set<nat>)
      requires Owned(S()) && i < |inodes| && bn < MAXFILE && pending == {}
      modifies this`blocks, this`inodes, this`own, this`pending, this`logged
      ensures Owned(S()) && pending == {} && Grown(old(S()), S())
      ensures addr == SlotAddr(S(), i, bn)
      ensures SlotAddr(old(S()), i, bn) != 0 ==> S() == old(S()) && wrote == {} && bits == {}
      ensures addr == 0 ==> Full()
      ensures Logs(old(blocks), old(logged), blocks, logged, wrote)
      ensures wrote <= bits + IndexOf(i) + if addr == 0 then {} else {addr}
      ensures |bits| <= (if addr == 0 then 0 else 1) + (if IndexOf(i) != old(IndexOf(i)) then 1 else 0)
      ensures old(IndexOf(i)) == IndexOf(i) || old(IndexOf(i)) == {}
    {
      if bn < NDIRECT {
        addr, bits, wrote := BmapDirect(i, bn);
      } else {
        addr, bits, wrote := BmapBeyond(i, bn);
      }
    }

    /** bmap() for a block that the index block names. */
    method BmapBeyond(i: nat, bn: nat) returns (addr: nat, ghost bits: set<nat>, ghost wrote: set<nat>)
      requires Owned(S()) && i < |inodes| && NDIRECT <= bn < MAXFILE && pending == {}
      modifies this`blocks, this`inodes, this`own, this`pending, this`logged
      ensures Owned(S()) && pending == {} && Grown(old(S()), S())
      ensures addr == SlotAddr(S(), i, bn)
      ensures SlotAddr(old(S()), i, bn) != 0 ==> S() == old(S()) && wrote == {} && bits == {}
      ensures addr == 0 ==> Full()
      ensures Logs(old(blocks), old(logged), blocks, logged, wrote)
      ensures wrote <= bits + IndexOf(i) + if addr == 0 then {} else {addr}
      ensures |bits| <= (if addr == 0 then 0 else 1) + (if IndexOf(i) != old(IndexOf(i)) then 1 else 0)
      ensures old(IndexOf(i)) == IndexOf(i) || old(IndexOf(i)) == {}
    {
      if inodes[i].addrs[NDIRECT] != 0 {
        addr, bits, wrote := BmapIndirect(i, bn);
      } else {
        addr, bits, wrote := BmapFresh(i, bn);
      }
    }

    /** The same when the inode has no index block yet. */
    method BmapFresh(i: nat, bn: nat) returns (addr: nat, ghost bits: set<nat>, ghost wrote: set<nat>)
      requires Owned(S()) && i < |inodes| && NDIRECT <= bn < MAXFILE && pending == {} && inodes[i].addrs[NDIRECT] == 0
      modifies this`blocks, this`inodes, this`own, this`pending, this`logged
      ensures Owned(S()) && pending == {} && Grown(old(S()), S())
      ensures addr == SlotAddr(S(), i, bn) && SlotAddr(old(S()), i, bn) == 0
      ensures addr == 0 ==> Full()
      ensures Logs(old(blocks), old(logged), blocks, logged, wrote)
      ensures wrote <= bits + IndexOf(i) + if addr == 0 then {} else {addr}
      ensures |bits| <= (if addr == 0 then 0 else 1) + (if IndexOf(i) != {} then 1 else 0)
    {
      hide Used, Grown, Fits, GetWord, Logs;
      ghost var s0 := S();
      ghost var more, first;
      var index;
      index, more, first := BmapDirect(i, INDEX);
      if index == 0 {
        return 0, {}, first;
      }
      ghost var s1, l1 := S(), logged;
      addr, bits, wrote := BmapIndirect(i, bn);
      GrownTrans(s0, s1, S());
      LogsMore(s0.blocks, old(logged), s1.blocks, l1, blocks, logged, first, wrote);
      bits, wrote := bits + more, first + wrote;
    }

    method BmapDirect(i: nat, k: nat) returns (addr: nat, ghost bits: set<nat>, ghost wrote: set<nat>)
      requires Owned(S()) && i < |inodes| && (k < NDIRECT || k == INDEX) && pending == {}
      modifies this`blocks, this`inodes, this`own, this`pending, this`logged
      ensures Owned(S()) && pending == {} && Grown(old(S()), S())
      ensures addr == SlotAddr(S(), i, k)
      ensures k != INDEX ==> inodes[i].addrs[NDIRECT] == old(inodes[i].addrs[NDIRECT])
      ensures SlotAddr(old(S()), i, k) != 0 ==> S() == old(S()) && wrote == {} && bits == {}
      ensures addr == 0 ==> S() == old(S()) && Full() && bits == {}
      ensures Logs(old(blocks), old(logged), blocks, logged, wrote)
      ensures |bits| <= 1 && wrote <= bits + if addr == 0 then {} else {addr}
    {
      bits, wrote := {}, {};
      var slot := SlotIndex(k);
      addr := inodes[i].addrs[slot];
      if addr == 0 {
        ghost var s0 := S();
        addr, wrote := Balloc();
        if addr == 0 {
          return 0, {}, {};
        }
        GrowDirect(s0, i, k, addr);
        inodes := inodes[i := inodes[i].(addrs := inodes[i].addrs[slot := addr])];
        own := own[addr := Slot(i, k)];
        pending := pending - {addr};
        bits := {sb.bmapstart + addr / BPB};
        assert S() == NameDirect(Alloc(s0, addr), i, k, addr);
      }
    }

    method BmapIndirect(i: nat, bn: nat) returns (addr: nat, ghost bits: set<nat>, ghost wrote: set<nat>)
      requires Owned(S()) && i < |inodes| && NDIRECT <= bn < MAXFILE && pending == {} && inodes[i].addrs[NDIRECT] != 0
      modifies this`blocks, this`own, this`pending, this`logged
      ensures Owned(S()) && pending == {} && Grown(old(S()), S())
      ensures addr == SlotAddr(S(), i, bn)
      ensures SlotAddr(old(S()), i, bn) != 0 ==> S() == old(S()) && wrote == {} && bits == {}
      ensures addr == 0 ==> S() == old(S()) && Full() && bits == {}
      ensures Logs(old(blocks), old(logged), blocks, logged, wrote)
      ensures |bits| <= 1 && wrote <= bits + IndexOf(i) + if addr == 0 then {} else {addr}
    {
      bits, wrote := {}, {};
      var index := inodes[i].addrs[NDIRECT];
      IndexBlock(S(), i);
      addr := GetWord(blocks[index], bn - NDIRECT);
      if addr == 0 {
        ghost var s0 := S();
        addr, wrote := Balloc();
        if addr != 0 {
          GrowIndirect(s0, i, bn, addr);
          blocks := blocks[index := PutWord(blocks[index], bn - NDIRECT, addr)];
          own := own[addr := Slot(i, bn)];
          pending := pending - {addr};
          logged, wrote := logged + {index}, wrote + {index};
          bits := {sb.bmapstart + addr / BPB};
          assert S() == NameIndirect(Alloc(s0, addr), i, bn, addr);
        }
      }
    }

    /** One turn of readi()'s loop: bytes of the file that lie in one block. */
    method ReadBlock(i: nat, off: nat, m: nat) returns (addr: nat, piece: seq<byte>)
      requires Valid(S()) && pending == {} && i < |inodes| && off + m <= inodes[i].size && 0 < m && off % BSIZE + m <= BSIZE
      modifies this`blocks, this`inodes, this`own, this`pending, this`logged
      ensures S() == old(S()) && logged == old(logged) && addr != 0 && piece == Content(S(), i)[off..off + m]
    {
      assert SlotAddr(S(), i, off / BSIZE) != 0;
      ghost var bits, wrote;
      addr, bits, wrote := Bmap(i, off / BSIZE);
      BlockSlice(S(), i, inodes[i].size, off, m);
      piece := blocks[addr][off % BSIZE..off % BSIZE + m];
    }

    /** readi() to a kernel address: the bytes of the file from `off0`, as far as it goes; nothing when
        `off0` is past the end or the range wraps around 32 bits. The file system does not change. */
    method Readi(i: nat, off0: nat, n0: nat) returns (out: seq<byte>)
      requires Valid(S()) && pending == {} && i < |inodes| && off0 < WORD && n0 < WORD
      modifies this`blocks, this`inodes, this`own, this`pending, this`logged
      ensures S() == old(S()) && logged == old(logged)
      ensures out == if off0 > inodes[i].size || off0 + n0 >= WORD then []
                     else Content(S(), i)[off0..if off0 + n0 > inodes[i].size then inodes[i].size else off0 + n0]
    {
      hide Piece, Owned;
      out := [];
      if off0 > inodes[i].size || (off0 + n0) % WORD < off0 {
        return;
      }
      var n := if off0 + n0 > inodes[i].size then inodes[i].size - off0 else n0;
      var tot, off := 0, off0;
      while tot < n
        invariant tot <= n && off == off0 + tot && S() == old(S()) && logged == old(logged)
        invariant out == Content(S(), i)[off0..off]
      {
        var m := Piece(off, n - tot);
        var addr, piece := ReadBlock(i, off, m);
        if addr == 0 {
          break;
        }
        SliceMore(Content(S(), i), off0, off, off + m);
        out := out + piece;
        tot, off := tot + m, off + m;
      }
    }

    /** Copy `v` into the block that holds position `off`, allocating it if need be: bmap() takes the file
        system to `t`, and the copy changes one block. Beside the index block, `data` and `bits` are logged. */
    method PutBlock(i: nat, off: nat, v: seq<byte>)
      returns (ok: bool, ghost t: State, ghost data: set<nat>, ghost bits: set<nat>, ghost wrote: set<nat>)
      requires Owned(S()) && pending == {} && i < |inodes|
      requires 0 < |v| && off % BSIZE + |v| <= BSIZE && off + |v| <= MAXFILE * BSIZE
      modifies this`blocks, this`inodes, this`own, this`pending, this`logged
      ensures Owned(t) && Grown(old(S()), t) && pending == {} && i < |inodes| && |inodes[i].addrs| == NDIRECT + 1
      ensures !ok ==> S() == t && Full()
      ensures ok ==> 0 != SlotAddr(t, i, off / BSIZE) < |t.blocks| && S() == Patched(t, SlotAddr(t, i, off / BSIZE), off % BSIZE, v)
      ensures Logs(old(blocks), old(logged), blocks, logged, wrote)
      ensures wrote <= data + bits + IndexOf(i) && |data| <= 1
      ensures |bits| <= 1 + if IndexOf(i) != old(IndexOf(i)) then 1 else 0
      ensures old(IndexOf(i)) == IndexOf(i) || old(IndexOf(i)) == {}
      ensures SlotAddr(old(S()), i, off / BSIZE) != 0 ==> bits == {}
    {
      var addr;
      addr, bits, wrote := Bmap(i, off / BSIZE);
      t := S();
      if addr == 0 {
        return false, t, {}, bits, wrote;
      }
      assert addr in t.own;
      blocks := blocks[addr := Patch(blocks[addr], off % BSIZE, v)];
      ghost var l := logged;
      logged := logged + {addr};
      LogsMore(old(blocks), old(logged), t.blocks, l, blocks, logged, wrote, {addr});
      return true, t, {addr}, bits, wrote + {addr};
    }

    /** One turn of writei()'s loop. `s0`, `off0` and `w` say what the turns before it wrote, `c` what they
        logged. */
    method WriteBlock(i: nat, off: nat, v: seq<byte>, ghost s0: State, ghost off0: nat, ghost w: seq<byte>, ghost c: Account,
                      ghost l0: set<nat>, ghost done: set<nat>)
      returns (ok: bool, ghost c': Account, ghost wrote: set<nat>)
      requires Valid(s0) && i < |s0.inodes| && off0 <= s0.inodes[i].size && Wrote(s0, S(), i, off0, w) && pending == {}
      requires off == off0 + |w| && 0 < |v| && off % BSIZE + |v| <= BSIZE && off + |v| <= MAXFILE * BSIZE
      requires Charged(c, done, IndexOf(i), off0) && (c.turns == 0 ==> w == [])
      requires Logs(s0.blocks, l0, blocks, logged, done)
      modifies this`blocks, this`inodes, this`own, this`pending, this`logged
      ensures pending == {} && i < |inodes| && |inodes[i].addrs| == NDIRECT + 1
      ensures ok ==> Wrote(s0, S(), i, off0, w + v)
      ensures !ok ==> Wrote(s0, S(), i, off0, w) && Full()
      ensures Charged(c', wrote, IndexOf(i), off0) && c'.turns == c.turns + 1
      ensures Logs(s0.blocks, l0, blocks, logged, wrote)
    {
      hide Wrote, Grown, Owned, Charged, Patched, SlotAddr, Used, Logs;
      ghost var s := S();
      WroteFits(s0, s, i, off0, w);
      ghost var ix := IndexOf(i);
      ghost var t, data, bits, more;
      ok, t, data, bits, more := PutBlock(i, off, v);
      ChargeTurn(c, done, more, ix, IndexOf(i), data, bits, off0);
      LogsMore(s0.blocks, l0, s.blocks, old(logged), blocks, logged, done, more);
      c', wrote := Add(c, data, bits), done + more;
      if ok {
        WroteMore(s0, s, t, S(), i, off0, w, v);
      } else {
        WroteAndGrew(s0, s, t, i, off0, w);
      }
    }

    /** writei()'s loop. */
    method WriteBlocks(i: nat, src: seq<byte>, off0: nat) returns (tot: nat, ghost wrote: set<nat>)
      requires Valid(S()) && pending == {} && i < |inodes| && off0 <= inodes[i].size && off0 + |src| <= MAXFILE * BSIZE
      modifies this`blocks, this`inodes, this`own, this`pending, this`logged
      ensures pending == {} && tot <= |src| && Wrote(old(S()), S(), i, off0, src[..tot])
      ensures tot < |src| ==> Full()
      ensures Logs(old(blocks), old(logged), blocks, logged, wrote)
      ensures |src| <= 3 * BSIZE ==> |wrote| <= MAXOPBLOCKS - 1
    {
      hide Wrote, Valid, Owned, Charged, Paced, FewTurns, Piece, Used, Logs;
      ghost var s0 := S();
      WroteNothing(s0, i, off0);
      WroteFits(s0, s0, i, off0, []);
      ghost var c := Account(IndexOf(i), {}, {}, 0);
      wrote := {};
      LogsNothing(blocks, logged);
      PaceStart(off0, |src|);
      ChargeStart(c, off0);
      tot := 0;
      assert src[..tot] == [];
      while tot < |src|
        invariant tot <= |src| && pending == {} && i < |inodes| && |inodes[i].addrs| == NDIRECT + 1
        invariant Wrote(s0, S(), i, off0, src[..tot])
        invariant Paced(off0, |src|, tot, c.turns) && FewTurns(off0, |src|, c.turns)
        invariant Charged(c, wrote, IndexOf(i), off0) && Logs(s0.blocks, old(logged), blocks, logged, wrote)
      {
        var off := off0 + tot;
        var m := Piece(off, |src| - tot);
        PaceTurn(off0, |src|, tot, c.turns, m);
        PaceBound(off0, |src|, tot + m, c.turns + 1);
        var ok;
        ok, c, wrote := WriteBlock(i, off, src[tot..tot + m], s0, off0, src[..tot], c, old(logged), wrote);
        if !ok {
          break;
        }
        SliceMore(src, 0, tot, tot + m);
        tot := tot + m;
      }
      if |src| <= 3 * BSIZE {
        ChargeCovers(c, wrote, IndexOf(i), off0);
        ChargeTotal(c, wrote, IndexOf(i), off0, |src|);
        SizeOfSubset(wrote, c.data + c.bits + IndexOf(i));
      }
    }

    /** writei() from a kernel address: the first `tot` bytes of the source overlay the file from `off0`,
        the size becomes the larger of the old size and the end of what was written, and no other file
        changes; less than everything is written only when the disk is full. A write of at most three
        blocks' worth of bytes, the most filewrite() passes, logs at most MAXOPBLOCKS blocks. */
    method Writei(i: nat, src: seq<byte>, off0: nat) returns (tot: int, ghost wrote: set<nat>)
      requires Valid(S()) && pending == {} && i < |inodes| && |dinodes| == |inodes| && off0 < WORD && |src| < WORD
      modifies this
      ensures Valid(S()) && pending == {} && |inodes| == old(|inodes|)
      ensures tot == -1 <==> off0 > old(inodes[i].size) || off0 + |src| > MAXFILE * BSIZE
      ensures tot == -1 ==> S() == old(S()) && dinodes == old(dinodes)
      ensures tot != -1 ==> 0 <= tot <= |src| && (tot < |src| ==> Full())
      ensures tot != -1 ==> Content(S(), i) == Overlay(Content(old(S()), i), off0, src[..tot])
      ensures tot != -1 ==> inodes[i].size == Max(old(inodes[i].size), off0 + tot)
      ensures tot != -1 ==> dinodes == old(dinodes)[i := inodes[i]]
      ensures forall j :: 0 <= j < |inodes| && j != i ==> Content(S(), j) == Content(old(S()), j)
      ensures Logs(old(blocks), old(logged), blocks, logged, wrote)
      ensures forall j :: 0 <= j < |dinodes| && dinodes[j] != old(dinodes)[j] ==> sb.inodestart + j / 16 in wrote
      ensures |src| <= 3 * BSIZE ==> |wrote| <= MAXOPBLOCKS
    {
      var n := |src|;
      if off0 > inodes[i].size || (off0 + n) % WORD < off0 {
        return -1, {};
      }
      if (off0 + n) % WORD > MAXFILE * BSIZE {
        return -1, {};
      }
      ghost var s0 := S();
      tot, wrote := WriteBlocks(i, src, off0);
      ghost var s := S();
      if off0 + tot > inodes[i].size {
        inodes := inodes[i := inodes[i].(size := off0 + tot)];
      }
      WroteAll(s0, s, S(), i, off0, src[..tot]);
      dinodes := dinodes[i := inodes[i]];
      logged := logged + {sb.inodestart + i / 16};
      SizeOfUnion(wrote, {sb.inodestart + i / 16});
      wrote := wrote + {sb.inodestart + i / 16};
    }

    /** One turn of itrunc()'s first loop: give up the block of direct slot `k`. */
    method TruncSlot(i: nat, k: nat, ghost s0: State) returns (ghost wrote: set<nat>)
      requires i < |s0.inodes| && k < NDIRECT && Trimmed(s0, S(), i, k)
      modifies this`blocks, this`inodes, this`own, this`pending, this`logged
      ensures Trimmed(s0, S(), i, k + 1)
      ensures inodes == old(inodes)[i := old(inodes)[i].(addrs := old(inodes)[i].addrs[k := 0])]
      ensures Logs(old(blocks), old(logged), blocks, logged, wrote)
    {
      wrote := {};
      ghost var s := S();
      var a := inodes[i].addrs[k];
      if a != 0 {
        TrimDirect(s0, s, i, k);
        ghost var t := Detach(s, i, k, k, inodes[i].(addrs := inodes[i].addrs[k := 0]));
        own, pending := t.own, t.pending;
        wrote := Bfree(a);
        inodes := inodes[i := inodes[i].(addrs := inodes[i].addrs[k := 0])];
        assert S() == Free(t, a);
      } else {
        assert SlotAddr(s, i, k) == 0 && inodes[i].addrs[k := 0] == inodes[i].addrs;
        assert inodes[i := inodes[i].(addrs := inodes[i].addrs[k := 0])] == inodes;
        TrimEmpty(s0, s, i, k);
      }
    }

    /** itrunc()'s first loop: give up the direct blocks. */
    method TruncDirect(i: nat) returns (ghost wrote: set<nat>)
      requires Valid(S()) && pending == {} && i < |inodes|
      modifies this`blocks, this`inodes, this`own, this`pending, this`logged
      ensures Trimmed(old(S()), S(), i, NDIRECT)
      ensures forall k :: 0 <= k < NDIRECT ==> inodes[i].addrs[k] == 0
      ensures inodes[i].addrs[NDIRECT] == old(inodes[i].addrs[NDIRECT])
      ensures Logs(old(blocks), old(logged), blocks, logged, wrote)
    {
      ghost var s0 := S();
      wrote := {};
      assert Rest(own, i, 0) == own;
      for k := 0 to NDIRECT
        invariant Trimmed(s0, S(), i, k)
        invariant forall l :: 0 <= l < k ==> inodes[i].addrs[l] == 0
        invariant inodes[i].addrs[NDIRECT] == s0.inodes[i].addrs[NDIRECT]
        invariant Logs(s0.blocks, old(logged), blocks, logged, wrote)
      {
        ghost var bs, l, more := blocks, logged, {};
        more := TruncSlot(i, k, s0);
        LogsMore(s0.blocks, old(logged), bs, l, blocks, logged, wrote, more);
        wrote := wrote + more;
      }
    }

    /** S() as it will be once inode `i`'s index slot is cleared. */
    ghost function Cleared(i: nat): State
      reads this
      requires i < |inodes| && |inodes[i].addrs| == NDIRECT + 1
    {
      S().(inodes := inodes[i := inodes[i].(addrs := inodes[i].addrs[NDIRECT := 0])])
    }

    /** Free block `a`, which slot `k` of inode `i` held, if it held one. */
    method FreeSlot(i: nat, k: nat, a: nat, ghost s0: State) returns (ghost wrote: set<nat>)
      requires i < |s0.inodes| && Owned(s0) && k <= INDEX && a == SlotAddr(s0, i, k)
      requires i < |inodes| && |inodes[i].addrs| == NDIRECT + 1 && Draining(s0, Cleared(i), i, k)
      modifies this`blocks, this`pending, this`logged
      ensures Draining(s0, Cleared(i), i, k + 1)
      ensures Logs(old(blocks), old(logged), blocks, logged, wrote)
    {
      wrote := {};
      ghost var s := Cleared(i);
      DrainStep(s0, s, i, k);
      if a != 0 {
        wrote := Bfree(a);
        assert Cleared(i) == Free(s, a);
      }
    }

    /** The rest of itrunc()'s frees: every block the index block lists, then the index block. The list is
        read from the index block while the blocks on it are being freed. */
    method TruncIndirect(i: nat, ghost s0: State) returns (ghost wrote: set<nat>)
      requires Valid(s0) && i < |s0.inodes| && Trimmed(s0, S(), i, NDIRECT)
      requires inodes[i].addrs[NDIRECT] == s0.inodes[i].addrs[NDIRECT] != 0
      modifies this`blocks, this`inodes, this`own, this`pending, this`logged
      ensures Trimmed(s0, S(), i, INDEX + 1)
      ensures inodes == old(inodes)[i := old(inodes)[i].(addrs := old(inodes)[i].addrs[NDIRECT := 0])]
      ensures Logs(old(blocks), old(logged), blocks, logged, wrote)
    {
      wrote := {};
      ghost var more, bs, l := {}, blocks, logged;
      var index := inodes[i].addrs[NDIRECT];
      IndexBlock(s0, i);
      DrainStart(s0, S(), i);
      ghost var t := Detach(S(), i, NDIRECT, INDEX, inodes[i].(addrs := inodes[i].addrs[NDIRECT := 0]));
      own, pending := t.own, t.pending;
      assert Cleared(i) == t;
      var bp := blocks[index];
      for j := 0 to NINDIRECT
        invariant inodes == old(inodes) && Draining(s0, Cleared(i), i, NDIRECT + j)
        invariant Logs(old(blocks), old(logged), blocks, logged, wrote)
      {
        bs, l := blocks, logged;
        more := FreeSlot(i, NDIRECT + j, GetWord(bp, j), s0);
        LogsMore(old(blocks), old(logged), bs, l, blocks, logged, wrote, more);
        wrote := wrote + more;
      }
      bs, l := blocks, logged;
      more := FreeSlot(i, INDEX, index, s0);
      LogsMore(old(blocks), old(logged), bs, l, blocks, logged, wrote, more);
      wrote := wrote + more;
      inodes := inodes[i := inodes[i].(addrs := inodes[i].addrs[NDIRECT := 0])];
      DrainEnd(s0, S(), i);
    }

    /** itrunc(): the file becomes empty, the blocks it named, and no others, become free, and no other file
        changes. Every bfree() on the way finds its bit set. */
    method Itrunc(i: nat) returns (ghost wrote: set<nat>)
      requires Valid(S()) && pending == {} && i < |inodes| && |dinodes| == |inodes|
      modifies this
      ensures Valid(S()) && pending == {} && |inodes| == old(|inodes|)
      ensures inodes[i].size == 0 && forall k :: 0 <= k <= NDIRECT ==> inodes[i].addrs[k] == 0
      ensures Content(S(), i) == []
      ensures forall j :: 0 <= j < |inodes| && j != i ==> Content(S(), j) == Content(old(S()), j)
      ensures forall b {:trigger Used(sb, blocks, b)} :: sb.nmeta <= b < sb.size ==>
                (Used(sb, blocks, b) <==> Used(sb, old(blocks), b) && !Names(old(S()), i, b))
      ensures dinodes == old(dinodes)[i := inodes[i]]
      ensures Logs(old(blocks), old(logged), blocks, logged, wrote)
      ensures sb.inodestart + i / 16 in wrote
    {
      ghost var s0 := S();
      wrote := TruncDirect(i);
      if inodes[i].addrs[NDIRECT] != 0 {
        ghost var bs, l, more := blocks, logged, {};
        more := TruncIndirect(i, s0);
        LogsMore(s0.blocks, old(logged), bs, l, blocks, logged, wrote, more);
        wrote := wrote + more;
      } else {
        DrainNothing(s0, S(), i);
      }
      ghost var s1 := S();
      TrimSpares(s0, s1, i);
      forall b | sb.nmeta <= b < sb.size
        ensures Used(sb, blocks, b) <==> Used(sb, s0.blocks, b) && !Names(s0, i, b)
      {
        TrimFrees(s0, s1, i, b);
      }
      inodes := inodes[i := inodes[i].(size := 0)];
      dinodes := dinodes[i := inodes[i]];
      logged, wrote := logged + {sb.inodestart + i / 16}, wrote + {sb.inodestart + i / 16};
    }
  }
}
