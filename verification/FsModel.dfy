/**
  Who owns which disk block: the free map against the direct, indirect-index and indirect data blocks
  of every inode of kernel/fs.c, and the byte sequence a file stands for.
*/
module FsModel {
  import opened FsLayout
  import opened Params

  /** The superblock fields used here; blocks below `nmeta` hold no file data. */
  datatype Super = Super(size: nat, inodestart: nat, bmapstart: nat, nmeta: nat)

  /** The part of an inode that says where its contents are. */
  datatype Inode = Inode(size: nat, addrs: seq<nat>)

  /** One place where an inode names a block: a data block number, or the index block (slot INDEX). */
  datatype Slot = Slot(inum: nat, k: nat)

  const INDEX := MAXFILE

  /** `own` says which slot names each data block in use; `pending` are blocks in use that no slot names,
      because they were just allocated or are about to be freed. */
  datatype State = State(sb: Super, blocks: seq<Block>, inodes: seq<Inode>, own: map<nat, Slot>, pending: set<nat>)

  predicate Fits(sb: Super, blocks: seq<Block>) {
    && |blocks| == sb.size && sb.size <= WORD
    && 0 < sb.nmeta <= sb.size
    && sb.bmapstart + (sb.size - 1) / BPB < sb.nmeta
  }

  predicate InodesFit(inodes: seq<Inode>) {
    forall i :: 0 <= i < |inodes| ==> |inodes[i].addrs| == NDIRECT + 1
  }

  /** Block `b`'s bit in the free map. */
  predicate Used(sb: Super, blocks: seq<Block>, b: nat)
    requires Fits(sb, blocks) && b < sb.size
  {
    TestBit(blocks[sb.bmapstart + b / BPB], b % BPB)
  }

  lemma ZeroBits(i: nat)
    requires i < BPB
    ensures !TestBit(Zero(), i)
  {
    NoBits(i % 8);
  }

  lemma {:induction false} NoBits(k: nat)
    ensures !Bit(0, k)
  {
    if k > 0 { NoBits(k - 1); }
  }

  /** Setting the bit of block `b` marks that block and no other. */
  lemma MarkMeets(sb: Super, blocks: seq<Block>, b: nat, c: nat)
    requires Fits(sb, blocks) && b < sb.size && c < sb.size
    ensures var m := sb.bmapstart + b / BPB;
      var blocks' := blocks[m := SetBit(blocks[m], b % BPB)];
      Fits(sb, blocks') && (Used(sb, blocks', c) <==> c == b || Used(sb, blocks, c))
  {
    SetBitMeets(blocks[sb.bmapstart + b / BPB], b % BPB, c % BPB);
  }

  /** Where the free map keeps the bit of a block. */
  lemma BitOf(b: nat, bi: nat)
    requires b % BPB == 0 && bi < BPB
    ensures (b + bi) / BPB == b / BPB && (b + bi) % BPB == bi
  {
  }

  lemma BitUsed(sb: Super, blocks: seq<Block>, b: nat, bi: nat)
    requires Fits(sb, blocks) && b % BPB == 0 && bi < BPB && b + bi < sb.size
    ensures (b + bi) / BPB == b / BPB && (b + bi) % BPB == bi
    ensures Used(sb, blocks, b + bi) <==> TestBit(blocks[sb.bmapstart + b / BPB], bi)
  {
    BitOf(b, bi);
  }

  /** The block number a slot holds; 0 is none. */
  function Addr(blocks: seq<Block>, ip: Inode, k: nat): nat
    requires |ip.addrs| == NDIRECT + 1 && k <= INDEX
  {
    if k < NDIRECT then ip.addrs[k]
    else if k == INDEX then ip.addrs[NDIRECT]
    else if ip.addrs[NDIRECT] == 0 || ip.addrs[NDIRECT] >= |blocks| then 0
    else GetWord(blocks[ip.addrs[NDIRECT]], k - NDIRECT)
  }

  function SlotAddr(s: State, i: nat, k: nat): nat
    requires InodesFit(s.inodes) && i < |s.inodes| && k <= INDEX
  {
    Addr(s.blocks, s.inodes[i], k)
  }

  /** The free map and the slots agree: a data block is in use exactly when one slot names it, or it is
      pending; the blocks below `nmeta` are always in use. */
  ghost predicate Owned(s: State) {
    && Fits(s.sb, s.blocks) && InodesFit(s.inodes)
    && (forall b {:trigger Used(s.sb, s.blocks, b)} :: 0 <= b < s.sb.nmeta ==> Used(s.sb, s.blocks, b))
    && (forall b {:trigger Used(s.sb, s.blocks, b)} :: s.sb.nmeta <= b < s.sb.size ==>
          (Used(s.sb, s.blocks, b) <==> b in s.own || b in s.pending))
    && (forall b :: b in s.pending ==> s.sb.nmeta <= b < s.sb.size && b !in s.own)
    && (forall b :: b in s.own ==>
          && s.sb.nmeta <= b < s.sb.size
          && s.own[b].inum < |s.inodes| && s.own[b].k <= INDEX
          && SlotAddr(s, s.own[b].inum, s.own[b].k) == b)
    && (forall i, k {:trigger SlotAddr(s, i, k)} :: 0 <= i < |s.inodes| && 0 <= k <= INDEX && SlotAddr(s, i, k) != 0 ==>
          SlotAddr(s, i, k) in s.own && s.own[SlotAddr(s, i, k)] == Slot(i, k))
  }

  /** The first `n` bytes of inode `i` all lie in allocated blocks. */
  ghost predicate Backed(s: State, i: nat, n: nat)
    requires InodesFit(s.inodes) && i < |s.inodes|
  {
    && n <= MAXFILE * BSIZE
    && forall k {:trigger SlotAddr(s, i, k)} :: 0 <= k < MAXFILE && k * BSIZE < n ==> SlotAddr(s, i, k) != 0
  }

  ghost predicate Valid(s: State) {
    && Owned(s)
    && forall i {:trigger s.inodes[i]} :: 0 <= i < |s.inodes| ==> Backed(s, i, s.inodes[i].size)
  }

  // -------- allocation --------

  /** Bits and contents after balloc() returned `b`. */
  function Alloc(s: State, b: nat): State
    requires Fits(s.sb, s.blocks) && b < s.sb.size
  {
    var m := s.sb.bmapstart + b / BPB;
    s.(blocks := s.blocks[m := SetBit(s.blocks[m], b % BPB)][b := Zero()], pending := s.pending + {b})
  }

  /** Bits after bfree(b). */
  function Free(s: State, b: nat): State
    requires Fits(s.sb, s.blocks) && b < s.sb.size
  {
    var m := s.sb.bmapstart + b / BPB;
    s.(blocks := s.blocks[m := ClearBit(s.blocks[m], b % BPB)], pending := s.pending - {b})
  }

  lemma UsedAfterSet(s: State, b: nat, c: nat)
    requires Fits(s.sb, s.blocks) && s.sb.nmeta <= b < s.sb.size && c < s.sb.size
    ensures Fits(s.sb, Alloc(s, b).blocks)
    ensures Used(s.sb, Alloc(s, b).blocks, c) <==> c == b || Used(s.sb, s.blocks, c)
  {
    SetBitMeets(s.blocks[s.sb.bmapstart + b / BPB], b % BPB, c % BPB);
  }

  lemma UsedAfterClear(s: State, b: nat, c: nat)
    requires Fits(s.sb, s.blocks) && b < s.sb.size && c < s.sb.size
    ensures Fits(s.sb, Free(s, b).blocks)
    ensures Used(s.sb, Free(s, b).blocks, c) <==> c != b && Used(s.sb, s.blocks, c)
  {
    ClearBitMeets(s.blocks[s.sb.bmapstart + b / BPB], b % BPB, c % BPB);
  }

  /** An index block is in use and is no free-map block. */
  lemma IndexBlock(s: State, i: nat)
    requires Owned(s) && i < |s.inodes|
    ensures var a := s.inodes[i].addrs[NDIRECT];
            a != 0 ==> a in s.own && s.own[a] == Slot(i, INDEX) && s.sb.nmeta <= a < s.sb.size
  {
    assert SlotAddr(s, i, INDEX) == s.inodes[i].addrs[NDIRECT];
  }

  /** Changing blocks that are not index blocks changes no slot. */
  lemma SlotsKept(s: State, s': State)
    requires Owned(s) && |s'.blocks| == |s.blocks| && s'.inodes == s.inodes
    requires forall b :: b in s.own && s.own[b].k == INDEX ==> s'.blocks[b] == s.blocks[b]
    ensures forall i, k {:trigger SlotAddr(s', i, k)} :: 0 <= i < |s.inodes| && 0 <= k <= INDEX ==>
              SlotAddr(s', i, k) == SlotAddr(s, i, k)
  {
    forall i, k | 0 <= i < |s.inodes| && 0 <= k <= INDEX ensures SlotAddr(s', i, k) == SlotAddr(s, i, k) {
      IndexBlock(s, i);
    }
  }

  /** What balloc() and bfree() must do to the bits for ownership to hold afterwards. */
  lemma BitsChange(s: State, s': State)
    requires Owned(s) && s'.sb == s.sb && s'.inodes == s.inodes && s'.own == s.own && Fits(s.sb, s'.blocks)
    requires forall i, k {:trigger SlotAddr(s', i, k)} :: 0 <= i < |s.inodes| && 0 <= k <= INDEX ==>
               SlotAddr(s', i, k) == SlotAddr(s, i, k)
    requires forall b {:trigger Used(s.sb, s'.blocks, b)} :: 0 <= b < s.sb.size ==>
               (Used(s.sb, s'.blocks, b) <==> b < s.sb.nmeta || b in s.own || b in s'.pending)
    requires forall b :: b in s'.pending ==> s.sb.nmeta <= b < s.sb.size && b !in s.own
    ensures Owned(s')
  {
    forall b | b in s.own ensures SlotAddr(s', s.own[b].inum, s.own[b].k) == b {
      assert SlotAddr(s', s.own[b].inum, s.own[b].k) == SlotAddr(s, s.own[b].inum, s.own[b].k);
    }
    forall i, k | 0 <= i < |s.inodes| && 0 <= k <= INDEX && SlotAddr(s', i, k) != 0
      ensures SlotAddr(s', i, k) in s'.own && s'.own[SlotAddr(s', i, k)] == Slot(i, k)
    {
      assert SlotAddr(s', i, k) == SlotAddr(s, i, k);
    }
  }

  lemma AllocKeeps(s: State, b: nat)
    requires Owned(s) && s.sb.nmeta <= b < s.sb.size && !Used(s.sb, s.blocks, b)
    ensures Owned(Alloc(s, b))
    ensures forall i, k {:trigger SlotAddr(Alloc(s, b), i, k)} :: 0 <= i < |s.inodes| && 0 <= k <= INDEX ==>
              SlotAddr(Alloc(s, b), i, k) == SlotAddr(s, i, k)
  {
    hide Used, Addr, SetBit;
    var s' := Alloc(s, b);
    assert b !in s.own;
    SlotsKept(s, s');
    forall c | 0 <= c < s.sb.size ensures Used(s.sb, s'.blocks, c) <==> c < s.sb.nmeta || c in s.own || c in s'.pending {
      UsedAfterSet(s, b, c);
    }
    BitsChange(s, s');
  }

  lemma FreeKeeps(s: State, b: nat)
    requires Owned(s) && b in s.pending
    ensures Owned(Free(s, b))
    ensures forall i, k {:trigger SlotAddr(Free(s, b), i, k)} :: 0 <= i < |s.inodes| && 0 <= k <= INDEX ==>
              SlotAddr(Free(s, b), i, k) == SlotAddr(s, i, k)
  {
    var s' := Free(s, b);
    SlotsKept(s, s');
    forall c | 0 <= c < s.sb.size ensures Used(s.sb, s'.blocks, c) <==> c < s.sb.nmeta || c in s.own || c in s'.pending {
      UsedAfterClear(s, b, c);
    }
    BitsChange(s, s');
  }

  // -------- naming and un-naming blocks --------

  ghost predicate SameBits(s: State, s': State)
    requires Fits(s.sb, s.blocks) && Fits(s.sb, s'.blocks)
  {
    forall b {:trigger Used(s.sb, s'.blocks, b)} :: 0 <= b < s.sb.size ==>
      (Used(s.sb, s'.blocks, b) <==> Used(s.sb, s.blocks, b))
  }

  /** Writing a data block does not touch the free map. */
  lemma BitsUntouched(s: State, b: nat, data: Block)
    requires Fits(s.sb, s.blocks) && s.sb.nmeta <= b < s.sb.size
    ensures Fits(s.sb, s.blocks[b := data]) && SameBits(s, s.(blocks := s.blocks[b := data]))
  {
  }

  /** Naming a pending block in an empty slot. */
  lemma AttachKeeps(s: State, s': State, i: nat, k: nat, a: nat)
    requires Owned(s) && i < |s.inodes| && k <= INDEX && a in s.pending && SlotAddr(s, i, k) == 0
    requires s'.sb == s.sb && Fits(s.sb, s'.blocks) && |s'.inodes| == |s.inodes| && InodesFit(s'.inodes)
    requires SameBits(s, s')
    requires SlotAddr(s', i, k) == a
    requires forall j, l {:trigger SlotAddr(s', j, l)} :: 0 <= j < |s.inodes| && 0 <= l <= INDEX && !(j == i && l == k) ==>
               SlotAddr(s', j, l) == SlotAddr(s, j, l)
    requires s'.own == s.own[a := Slot(i, k)] && s'.pending == s.pending - {a}
    ensures Owned(s')
  {
    forall b | b in s'.own ensures SlotAddr(s', s'.own[b].inum, s'.own[b].k) == b {
      if b != a {
        var t := s.own[b];
        assert SlotAddr(s, t.inum, t.k) == b;
        assert SlotAddr(s', t.inum, t.k) == SlotAddr(s, t.inum, t.k);
      }
    }
    forall j, l | 0 <= j < |s.inodes| && 0 <= l <= INDEX && SlotAddr(s', j, l) != 0
      ensures SlotAddr(s', j, l) in s'.own && s'.own[SlotAddr(s', j, l)] == Slot(j, l)
    {
      if !(j == i && l == k) {
        assert SlotAddr(s', j, l) == SlotAddr(s, j, l);
      }
    }
  }

  /** Everything that was named is still named by the same slot, and no data block changed. */
  ghost predicate Grown(s: State, s': State)
    requires Owned(s) && Owned(s')
  {
    && |s'.inodes| == |s.inodes| && |s'.blocks| == |s.blocks|
    && (forall i :: 0 <= i < |s.inodes| ==> s'.inodes[i].size == s.inodes[i].size)
    && forall i, k {:trigger SlotAddr(s', i, k)} :: 0 <= i < |s.inodes| && 0 <= k <= INDEX && SlotAddr(s, i, k) != 0 ==>
         && SlotAddr(s', i, k) == SlotAddr(s, i, k)
         && (k < MAXFILE ==> s'.blocks[SlotAddr(s, i, k)] == s.blocks[SlotAddr(s, i, k)])
  }

  lemma GrownTrans(s: State, t: State, u: State)
    requires Owned(s) && Owned(t) && Owned(u) && Grown(s, t) && Grown(t, u)
    ensures Grown(s, u)
  {
    forall i, k | 0 <= i < |s.inodes| && 0 <= k <= INDEX && SlotAddr(s, i, k) != 0
      ensures SlotAddr(u, i, k) == SlotAddr(s, i, k)
      ensures k < MAXFILE ==> u.blocks[SlotAddr(s, i, k)] == s.blocks[SlotAddr(s, i, k)]
    {
      assert SlotAddr(t, i, k) == SlotAddr(s, i, k);
    }
  }

  function SlotIndex(k: nat): nat {
    if k == INDEX then NDIRECT else k
  }

  /** Inode `i` names the pending block `a` in a direct slot, or in the index slot. */
  function NameDirect(s: State, i: nat, k: nat, a: nat): State
    requires i < |s.inodes| && |s.inodes[i].addrs| == NDIRECT + 1 && (k < NDIRECT || k == INDEX)
  {
    var ip := s.inodes[i];
    s.(inodes := s.inodes[i := ip.(addrs := ip.addrs[SlotIndex(k) := a])], own := s.own[a := Slot(i, k)],
       pending := s.pending - {a})
  }

  /** Inode `i` names the pending block `a` in a word of its index block. */
  function NameIndirect(s: State, i: nat, k: nat, a: nat): State
    requires i < |s.inodes| && |s.inodes[i].addrs| == NDIRECT + 1 && NDIRECT <= k < INDEX
    requires s.inodes[i].addrs[NDIRECT] < |s.blocks| && a < WORD
  {
    var index := s.inodes[i].addrs[NDIRECT];
    s.(blocks := s.blocks[index := PutWord(s.blocks[index], k - NDIRECT, a)],
       own := s.own[a := Slot(i, k)], pending := s.pending - {a})
  }

  lemma NameDirectKeeps(s: State, i: nat, k: nat, a: nat)
    requires Owned(s) && i < |s.inodes| && (k < NDIRECT || k == INDEX) && a in s.pending
    requires SlotAddr(s, i, k) == 0 && s.blocks[a] == Zero()
    ensures var s' := NameDirect(s, i, k, a); Owned(s') && Grown(s, s') && SlotAddr(s', i, k) == a
  {
    var s' := NameDirect(s, i, k, a);
    forall j, l | 0 <= j < |s.inodes| && 0 <= l <= INDEX && !(j == i && l == k)
      ensures SlotAddr(s', j, l) == SlotAddr(s, j, l)
    {
      if j == i && k == INDEX && NDIRECT <= l < INDEX { ZeroWord(l - NDIRECT); }
    }
    AttachKeeps(s, s', i, k, a);
  }

  lemma NameIndirectKeeps(s: State, i: nat, k: nat, a: nat)
    requires Owned(s) && i < |s.inodes| && NDIRECT <= k < INDEX && a in s.pending && SlotAddr(s, i, k) == 0
    requires s.inodes[i].addrs[NDIRECT] != 0
    ensures s.inodes[i].addrs[NDIRECT] < |s.blocks| && a < WORD
    ensures var s' := NameIndirect(s, i, k, a); Owned(s') && Grown(s, s') && SlotAddr(s', i, k) == a
  {
    var index := s.inodes[i].addrs[NDIRECT];
    IndexBlock(s, i);
    var s' := NameIndirect(s, i, k, a);
    BitsUntouched(s, index, s'.blocks[index]);
    forall j, l | 0 <= j < |s.inodes| && 0 <= l <= INDEX
      ensures SlotAddr(s', j, l) == if j == i && l == k then a else SlotAddr(s, j, l)
    {
      IndexBlock(s, j);
      if j == i && NDIRECT <= l < INDEX { PutWordMeets(s.blocks[index], k - NDIRECT, a, l - NDIRECT); }
    }
    AttachKeeps(s, s', i, k, a);
  }

  lemma AllocGrows(s: State, a: nat)
    requires Owned(s) && s.sb.nmeta <= a < s.sb.size && !Used(s.sb, s.blocks, a)
    ensures Owned(Alloc(s, a)) && Grown(s, Alloc(s, a))
  {
    AllocKeeps(s, a);
  }

  /** Allocating a block for a direct slot, or for the index. */
  lemma GrowDirect(s: State, i: nat, k: nat, a: nat)
    requires Owned(s) && i < |s.inodes| && (k < NDIRECT || k == INDEX) && SlotAddr(s, i, k) == 0
    requires s.sb.nmeta <= a < s.sb.size && !Used(s.sb, s.blocks, a)
    ensures var s' := NameDirect(Alloc(s, a), i, k, a); Owned(s') && Grown(s, s') && SlotAddr(s', i, k) == a
  {
    AllocGrows(s, a);
    AllocKeeps(s, a);
    assert SlotAddr(Alloc(s, a), i, k) == 0;
    NameDirectKeeps(Alloc(s, a), i, k, a);
    GrownTrans(s, Alloc(s, a), NameDirect(Alloc(s, a), i, k, a));
  }

  /** Allocating a block for a word of the index block. */
  lemma GrowIndirect(s: State, i: nat, k: nat, a: nat)
    requires Owned(s) && i < |s.inodes| && NDIRECT <= k < INDEX && SlotAddr(s, i, k) == 0 && s.inodes[i].addrs[NDIRECT] != 0
    requires s.sb.nmeta <= a < s.sb.size && !Used(s.sb, s.blocks, a)
    ensures s.inodes[i].addrs[NDIRECT] < |s.blocks| && a < WORD
    ensures var s' := NameIndirect(Alloc(s, a), i, k, a); Owned(s') && Grown(s, s') && SlotAddr(s', i, k) == a
  {
    AllocGrows(s, a);
    AllocKeeps(s, a);
    assert SlotAddr(Alloc(s, a), i, k) == 0;
    NameIndirectKeeps(Alloc(s, a), i, k, a);
    GrownTrans(s, Alloc(s, a), NameIndirect(Alloc(s, a), i, k, a));
  }

  predicate Within(t: Slot, i: nat, lo: nat, hi: nat) {
    t.inum == i && lo <= t.k <= hi
  }

  /** The blocks named by slots `lo` to `hi` of inode `i`. */
  function Named(s: State, i: nat, lo: nat, hi: nat): set<nat> {
    set b | b in s.own && Within(s.own[b], i, lo, hi)
  }

  /** Inode `i` stops naming the blocks of slots `lo` to `hi`, which become pending. */
  function Detach(s: State, i: nat, lo: nat, hi: nat, ip: Inode): State
    requires i < |s.inodes|
  {
    s.(inodes := s.inodes[i := ip],
       own := map b | b in s.own && !Within(s.own[b], i, lo, hi) :: s.own[b],
       pending := s.pending + Named(s, i, lo, hi))
  }

  lemma DetachKeeps(s: State, i: nat, lo: nat, hi: nat, ip: Inode)
    requires Owned(s) && i < |s.inodes| && |ip.addrs| == NDIRECT + 1 && hi <= INDEX
    requires forall k {:trigger Addr(s.blocks, ip, k)} :: 0 <= k <= INDEX ==>
               Addr(s.blocks, ip, k) == if lo <= k <= hi then 0 else SlotAddr(s, i, k)
    ensures Owned(Detach(s, i, lo, hi, ip))
  {
    var s' := Detach(s, i, lo, hi, ip);
    forall j, l | 0 <= j < |s.inodes| && 0 <= l <= INDEX
      ensures SlotAddr(s', j, l) == if j == i && lo <= l <= hi then 0 else SlotAddr(s, j, l)
    {
      if j == i {
        assert SlotAddr(s', j, l) == Addr(s.blocks, ip, l);
      }
    }
    forall b | b in s'.own ensures SlotAddr(s', s'.own[b].inum, s'.own[b].k) == b {
      var t := s.own[b];
      assert SlotAddr(s, t.inum, t.k) == b;
    }
    forall j, l | 0 <= j < |s.inodes| && 0 <= l <= INDEX && SlotAddr(s', j, l) != 0
      ensures SlotAddr(s', j, l) in s'.own && s'.own[SlotAddr(s', j, l)] == Slot(j, l)
    {
      assert SlotAddr(s', j, l) == SlotAddr(s, j, l);
    }
  }

  /** The blocks named from slot `k` on are the one of slot `k`, if any, and those of the later slots. */
  lemma NamedStep(s: State, i: nat, k: nat, hi: nat)
    requires Owned(s) && i < |s.inodes| && k <= hi <= INDEX
    ensures var a := SlotAddr(s, i, k);
            && a !in Named(s, i, k + 1, hi)
            && Named(s, i, k, hi) == Named(s, i, k + 1, hi) + if a == 0 then {} else {a}
  {
    var a := SlotAddr(s, i, k);
    forall b | b in s.own && s.own[b] == Slot(i, k) ensures b == a {
      assert SlotAddr(s, s.own[b].inum, s.own[b].k) == b;
    }
    assert a != 0 ==> a in s.own && s.own[a] == Slot(i, k);
  }

  /** `own` without the slots of inode `i` below `k`. */
  function Rest(own: map<nat, Slot>, i: nat, k: nat): map<nat, Slot> {
    map b | b in own && !(own[b].inum == i && own[b].k < k) :: own[b]
  }

  /** From `s0` to `s`, inode `i` has given up the blocks of its slots below `k` and they are free; the
      rest of the file system is as it was. */
  ghost predicate Trimmed(s0: State, s: State, i: nat, k: nat)
    requires i < |s0.inodes|
  {
    && Owned(s) && s.pending == {} && s.sb == s0.sb && |s.inodes| == |s0.inodes| && |s.blocks| == |s0.blocks|
    && (forall j :: 0 <= j < |s.inodes| && j != i ==> s.inodes[j] == s0.inodes[j])
    && s.own == Rest(s0.own, i, k)
    && (forall b :: s0.sb.nmeta <= b < |s0.blocks| ==> s.blocks[b] == s0.blocks[b])
  }

  /** A direct slot given up: its block is freed and the slot cleared. */
  lemma TrimDirect(s0: State, s: State, i: nat, k: nat)
    requires i < |s0.inodes| && Trimmed(s0, s, i, k) && k < NDIRECT && s.inodes[i].addrs[k] != 0
    ensures var ip, a := s.inodes[i].(addrs := s.inodes[i].addrs[k := 0]), s.inodes[i].addrs[k];
            && s.sb.nmeta <= a < s.sb.size && Used(s.sb, s.blocks, a) && Detach(s, i, k, k, ip).pending == {a}
            && Trimmed(s0, Free(Detach(s, i, k, k, ip), a), i, k + 1)
  {
    var ip, a := s.inodes[i].(addrs := s.inodes[i].addrs[k := 0]), s.inodes[i].addrs[k];
    assert a == SlotAddr(s, i, k);
    NamedStep(s, i, k, k);
    assert Named(s, i, k + 1, k) == {};
    forall l | 0 <= l <= INDEX ensures Addr(s.blocks, ip, l) == if k <= l <= k then 0 else SlotAddr(s, i, l) {}
    DetachKeeps(s, i, k, k, ip);
    FreeKeeps(Detach(s, i, k, k, ip), a);
  }

  /** A direct slot that is already empty. */
  lemma TrimEmpty(s0: State, s: State, i: nat, k: nat)
    requires i < |s0.inodes| && Trimmed(s0, s, i, k) && k <= INDEX && SlotAddr(s, i, k) == 0
    ensures Trimmed(s0, s, i, k + 1)
  {
    assert forall b :: b in s.own && s.own[b] == Slot(i, k) ==> SlotAddr(s, s.own[b].inum, s.own[b].k) == b;
  }

  /** Inode `i` names nothing any more; the blocks of its slots from `k` on are still to be freed. */
  ghost predicate Draining(s0: State, s: State, i: nat, k: nat)
    requires i < |s0.inodes|
  {
    && Owned(s) && s.pending == Named(s0, i, k, INDEX) && s.sb == s0.sb
    && |s.inodes| == |s0.inodes| && |s.blocks| == |s0.blocks|
    && (forall j :: 0 <= j < |s.inodes| && j != i ==> s.inodes[j] == s0.inodes[j])
    && s.own == Rest(s0.own, i, INDEX + 1)
    && (forall b :: s0.sb.nmeta <= b < |s0.blocks| ==> s.blocks[b] == s0.blocks[b])
  }

  /** Clearing the index slot un-names the index block and every block it lists. */
  lemma DrainStart(s0: State, s: State, i: nat)
    requires i < |s0.inodes| && Owned(s0) && Trimmed(s0, s, i, NDIRECT)
    ensures var ip := s.inodes[i].(addrs := s.inodes[i].addrs[NDIRECT := 0]);
            Draining(s0, Detach(s, i, NDIRECT, INDEX, ip), i, NDIRECT)
  {
    DetachKeeps(s, i, NDIRECT, INDEX, s.inodes[i].(addrs := s.inodes[i].addrs[NDIRECT := 0]));
    DrainOwn(s0, s, i);
  }

  lemma DrainOwn(s0: State, s: State, i: nat)
    requires s.own == Rest(s0.own, i, NDIRECT) && forall b :: b in s0.own ==> s0.own[b].k <= INDEX
    ensures Named(s, i, NDIRECT, INDEX) == Named(s0, i, NDIRECT, INDEX)
    ensures (map b | b in s.own && !Within(s.own[b], i, NDIRECT, INDEX) :: s.own[b]) == Rest(s0.own, i, INDEX + 1)
  {
  }

  lemma DrainStep(s0: State, s: State, i: nat, k: nat)
    requires i < |s0.inodes| && Owned(s0) && Draining(s0, s, i, k) && k <= INDEX
    ensures var a := SlotAddr(s0, i, k);
            && (a == 0 ==> Draining(s0, s, i, k + 1))
            && (a != 0 ==> s.sb.nmeta <= a < s.sb.size && Used(s.sb, s.blocks, a) && Draining(s0, Free(s, a), i, k + 1))
  {
    var a := SlotAddr(s0, i, k);
    NamedStep(s0, i, k, INDEX);
    if a != 0 {
      FreeKeeps(s, a);
    }
  }

  lemma DrainEnd(s0: State, s: State, i: nat)
    requires i < |s0.inodes| && Owned(s0) && Draining(s0, s, i, INDEX + 1)
    ensures Trimmed(s0, s, i, INDEX + 1)
  {
  }

  /** Without an index block there is nothing left to free after the direct blocks. */
  lemma DrainNothing(s0: State, s: State, i: nat)
    requires i < |s0.inodes| && Owned(s0) && Trimmed(s0, s, i, NDIRECT) && s.inodes[i].addrs[NDIRECT] == 0
    ensures Trimmed(s0, s, i, INDEX + 1)
  {
    forall b | b in s.own ensures !(s.own[b].inum == i && s.own[b].k <= INDEX && NDIRECT <= s.own[b].k) {
      assert SlotAddr(s, s.own[b].inum, s.own[b].k) == b;
    }
  }

  /** Some slot of inode `i` holds block `b`. */
  ghost predicate Names(s: State, i: nat, b: nat)
    requires InodesFit(s.inodes) && i < |s.inodes|
  {
    exists k {:trigger SlotAddr(s, i, k)} :: 0 <= k <= INDEX && SlotAddr(s, i, k) == b
  }

  /** Once every slot is given up, exactly the blocks the inode named have become free. */
  lemma TrimFrees(s0: State, s: State, i: nat, b: nat)
    requires i < |s0.inodes| && Owned(s0) && s0.pending == {} && Trimmed(s0, s, i, INDEX + 1) && s0.sb.nmeta <= b < s0.sb.size
    ensures Used(s.sb, s.blocks, b) <==> Used(s0.sb, s0.blocks, b) && !Names(s0, i, b)
  {
    if b in s0.own {
      var t := s0.own[b];
      assert SlotAddr(s0, t.inum, t.k) == b;
    }
  }

  // -------- file contents --------

  ghost function ByteAt(s: State, i: nat, n: nat, x: nat): byte
    requires Owned(s) && i < |s.inodes| && Backed(s, i, n) && x < n
  {
    var a := SlotAddr(s, i, x / BSIZE);
    s.blocks[a][x % BSIZE]
  }

  /** The first `n` bytes of inode `i`. */
  ghost function Bytes(s: State, i: nat, n: nat): (c: seq<byte>)
    requires Owned(s) && i < |s.inodes| && Backed(s, i, n)
    ensures |c| == n
  {
    seq(n, x requires 0 <= x < n => ByteAt(s, i, n, x))
  }

  /** A file is the sequence of its first `size` bytes. */
  ghost function Content(s: State, i: nat): seq<byte>
    requires Valid(s) && i < |s.inodes|
  {
    Bytes(s, i, s.inodes[i].size)
  }

  lemma GrownKeepsBytes(s: State, s': State, i: nat, n: nat)
    requires Owned(s) && Owned(s') && Grown(s, s') && i < |s.inodes| && Backed(s, i, n)
    ensures Backed(s', i, n) && Bytes(s', i, n) == Bytes(s, i, n)
  {
    forall k | 0 <= k < MAXFILE && k * BSIZE < n ensures SlotAddr(s', i, k) != 0 {
      assert SlotAddr(s', i, k) == SlotAddr(s, i, k);
    }
    forall x | 0 <= x < n ensures ByteAt(s', i, n, x) == ByteAt(s, i, n, x) {
      assert SlotAddr(s', i, x / BSIZE) == SlotAddr(s, i, x / BSIZE);
    }
  }

  /** `w` written over `c` from position `off`. */
  function Overlay(c: seq<byte>, off: nat, w: seq<byte>): (r: seq<byte>)
    requires off <= |c|
  {
    c[..off] + w + if off + |w| < |c| then c[off + |w|..] else []
  }

  /** Writing on at the end of what was just written extends the overlay. */
  lemma OverlayMore(c: seq<byte>, off: nat, w: seq<byte>, v: seq<byte>)
    requires off <= |c|
    ensures off + |w| <= |Overlay(c, off, w)|
    ensures Overlay(Overlay(c, off, w), off + |w|, v) == Overlay(c, off, w + v)
  {
  }

  /** How much of `rest` bytes from position `off` lies in one block. */
  function Piece(off: nat, rest: nat): (m: nat)
    ensures m <= rest && off % BSIZE + m <= BSIZE && (0 < rest ==> 0 < m)
  {
    if rest < BSIZE - off % BSIZE then rest else BSIZE - off % BSIZE
  }

  lemma SliceMore<T>(s: seq<T>, a: nat, b: nat, c: nat)
    requires a <= b <= c <= |s|
    ensures s[a..b] + s[b..c] == s[a..c]
  {
  }

  function Max(a: nat, b: nat): nat {
    if a < b then b else a
  }

  /** The block of slot `bn` with `w` copied in at offset `off % BSIZE`. */
  function Patch(b: Block, o: nat, w: seq<byte>): Block
    requires o + |w| <= BSIZE
  {
    b[..o] + w + b[o + |w|..]
  }

  function Patched(s: State, a: nat, o: nat, w: seq<byte>): State
    requires a < |s.blocks| && o + |w| <= BSIZE
  {
    s.(blocks := s.blocks[a := Patch(s.blocks[a], o, w)])
  }

  /** Patching a data block changes neither the free map nor any slot. */
  lemma PatchKeeps(s: State, i: nat, bn: nat, o: nat, w: seq<byte>)
    requires Owned(s) && i < |s.inodes| && bn < MAXFILE && SlotAddr(s, i, bn) != 0 && o + |w| <= BSIZE
    ensures var a := SlotAddr(s, i, bn);
            && a < s.sb.size && a in s.own && s.own[a] == Slot(i, bn)
            && Owned(Patched(s, a, o, w))
            && forall j, k {:trigger SlotAddr(Patched(s, a, o, w), j, k)} :: 0 <= j < |s.inodes| && 0 <= k <= INDEX ==>
                 SlotAddr(Patched(s, a, o, w), j, k) == SlotAddr(s, j, k)
  {
    var a := SlotAddr(s, i, bn);
    var s' := Patched(s, a, o, w);
    BitsUntouched(s, a, Patch(s.blocks[a], o, w));
    SlotsKept(s, s');
    BitsChange(s, s');
  }

  lemma PatchBacked(s: State, i: nat, n: nat, off: nat, w: seq<byte>)
    requires Owned(s) && i < |s.inodes| && Backed(s, i, n) && off <= n && off + |w| <= MAXFILE * BSIZE
    requires 0 < |w| && off % BSIZE + |w| <= BSIZE && SlotAddr(s, i, off / BSIZE) != 0
    ensures SlotAddr(s, i, off / BSIZE) < s.sb.size
    ensures var s' := Patched(s, SlotAddr(s, i, off / BSIZE), off % BSIZE, w);
            Owned(s') && Backed(s', i, Max(n, off + |w|))
  {
    var s' := Patched(s, SlotAddr(s, i, off / BSIZE), off % BSIZE, w);
    PatchKeeps(s, i, off / BSIZE, off % BSIZE, w);
    forall k | 0 <= k < MAXFILE && k * BSIZE < Max(n, off + |w|) ensures SlotAddr(s', i, k) != 0 {
      assert SlotAddr(s', i, k) == SlotAddr(s, i, k);
    }
  }

  lemma PatchByte(s: State, i: nat, n: nat, off: nat, w: seq<byte>, x: nat)
    requires Owned(s) && i < |s.inodes| && Backed(s, i, n) && off <= n && off + |w| <= MAXFILE * BSIZE
    requires 0 < |w| && off % BSIZE + |w| <= BSIZE && SlotAddr(s, i, off / BSIZE) != 0 && x < Max(n, off + |w|)
    requires SlotAddr(s, i, off / BSIZE) < s.sb.size
    requires var s' := Patched(s, SlotAddr(s, i, off / BSIZE), off % BSIZE, w);
             Owned(s') && Backed(s', i, Max(n, off + |w|))
    ensures var s' := Patched(s, SlotAddr(s, i, off / BSIZE), off % BSIZE, w);
            ByteAt(s', i, Max(n, off + |w|), x) == Overlay(Bytes(s, i, n), off, w)[x]
  {
    var s' := Patched(s, SlotAddr(s, i, off / BSIZE), off % BSIZE, w);
    PatchKeeps(s, i, off / BSIZE, off % BSIZE, w);
    var b := SlotAddr(s, i, x / BSIZE);
    assert SlotAddr(s', i, x / BSIZE) == b && b in s.own && s.own[b] == Slot(i, x / BSIZE);
  }

  /** Patching the block that holds position `off` overlays the file there. */
  lemma PatchOverlays(s: State, i: nat, n: nat, off: nat, w: seq<byte>)
    requires Owned(s) && i < |s.inodes| && Backed(s, i, n) && off <= n && off + |w| <= MAXFILE * BSIZE
    requires 0 < |w| && off % BSIZE + |w| <= BSIZE && SlotAddr(s, i, off / BSIZE) != 0
    ensures SlotAddr(s, i, off / BSIZE) < s.sb.size
    ensures var s' := Patched(s, SlotAddr(s, i, off / BSIZE), off % BSIZE, w);
            && Owned(s') && Backed(s', i, Max(n, off + |w|))
            && Bytes(s', i, Max(n, off + |w|)) == Overlay(Bytes(s, i, n), off, w)
  {
    hide Backed, ByteAt, Addr, Used;
    PatchBacked(s, i, n, off, w);
    var s', n' := Patched(s, SlotAddr(s, i, off / BSIZE), off % BSIZE, w), Max(n, off + |w|);
    forall x | 0 <= x < n' ensures Bytes(s', i, n')[x] == Overlay(Bytes(s, i, n), off, w)[x] {
      PatchByte(s, i, n, off, w, x);
    }
  }

  /** Patching a block of one file leaves the bytes of every other file. */
  lemma PatchSpares(s: State, i: nat, bn: nat, o: nat, w: seq<byte>, j: nat, n: nat)
    requires Owned(s) && i < |s.inodes| && bn < MAXFILE && SlotAddr(s, i, bn) != 0 && o + |w| <= BSIZE
    requires j < |s.inodes| && j != i && Backed(s, j, n)
    ensures SlotAddr(s, i, bn) < s.sb.size
    ensures var s' := Patched(s, SlotAddr(s, i, bn), o, w);
            Owned(s') && Backed(s', j, n) && Bytes(s', j, n) == Bytes(s, j, n)
  {
    var s' := Patched(s, SlotAddr(s, i, bn), o, w);
    PatchKeeps(s, i, bn, o, w);
    forall k | 0 <= k < MAXFILE && k * BSIZE < n ensures SlotAddr(s', j, k) != 0 {
      assert SlotAddr(s', j, k) == SlotAddr(s, j, k);
    }
    forall x | 0 <= x < n ensures ByteAt(s', j, n, x) == ByteAt(s, j, n, x) {
      var b := SlotAddr(s, j, x / BSIZE);
      assert SlotAddr(s', j, x / BSIZE) == b && b in s.own && s.own[b] == Slot(j, x / BSIZE);
    }
  }

  /** Every inode but `i` keeps its size and its bytes. */
  ghost predicate OthersSame(s: State, s': State, i: nat)
    requires Owned(s) && Owned(s')
  {
    && |s'.inodes| == |s.inodes|
    && forall j {:trigger s'.inodes[j]} :: 0 <= j < |s.inodes| && j != i ==>
         && s'.inodes[j].size == s.inodes[j].size
         && (Backed(s, j, s.inodes[j].size) ==>
               && Backed(s', j, s.inodes[j].size)
               && Bytes(s', j, s.inodes[j].size) == Bytes(s, j, s.inodes[j].size))
  }

  lemma OthersSameTrans(s: State, t: State, u: State, i: nat)
    requires Owned(s) && Owned(t) && Owned(u) && OthersSame(s, t, i) && OthersSame(t, u, i)
    ensures OthersSame(s, u, i)
  {
    forall j | 0 <= j < |s.inodes| && j != i && Backed(s, j, s.inodes[j].size)
      ensures u.inodes[j].size == s.inodes[j].size
      ensures Backed(u, j, s.inodes[j].size) && Bytes(u, j, s.inodes[j].size) == Bytes(s, j, s.inodes[j].size)
    {
      assert t.inodes[j].size == s.inodes[j].size;
    }
  }

  lemma GrownSparesOthers(s: State, t: State, i: nat)
    requires Owned(s) && Owned(t) && Grown(s, t)
    ensures OthersSame(s, t, i)
  {
    forall j | 0 <= j < |s.inodes| && j != i && Backed(s, j, s.inodes[j].size)
      ensures Backed(t, j, s.inodes[j].size) && Bytes(t, j, s.inodes[j].size) == Bytes(s, j, s.inodes[j].size)
    {
      GrownKeepsBytes(s, t, j, s.inodes[j].size);
    }
  }

  /** One turn of writei()'s loop: bmap() took `s` to `t`, then `w` is copied into the block it named. */
  lemma WriteTurn(s: State, t: State, u: State, i: nat, n: nat, off: nat, w: seq<byte>)
    requires Owned(s) && Owned(t) && Grown(s, t) && i < |s.inodes| && Backed(s, i, n) && off <= n
    requires 0 < |w| && off % BSIZE + |w| <= BSIZE && off + |w| <= MAXFILE * BSIZE
    requires 0 != SlotAddr(t, i, off / BSIZE) < |t.blocks|
    requires u == Patched(t, SlotAddr(t, i, off / BSIZE), off % BSIZE, w)
    ensures Owned(u) && OthersSame(s, u, i) && u.inodes[i].size == s.inodes[i].size
    ensures Backed(u, i, Max(n, off + |w|)) && Bytes(u, i, Max(n, off + |w|)) == Overlay(Bytes(s, i, n), off, w)
  {
    GrownKeepsBytes(s, t, i, n);
    PatchOverlays(t, i, n, off, w);
    forall j | 0 <= j < |s.inodes| && j != i && Backed(s, j, s.inodes[j].size)
      ensures Backed(u, j, s.inodes[j].size) && Bytes(u, j, s.inodes[j].size) == Bytes(s, j, s.inodes[j].size)
    {
      GrownKeepsBytes(s, t, j, s.inodes[j].size);
      PatchSpares(t, i, off / BSIZE, off % BSIZE, w, j, s.inodes[j].size);
    }
  }

  /** Setting the size of an inode whose bytes are backed. */
  lemma Resize(s: State, i: nat, n: nat)
    requires Owned(s) && i < |s.inodes| && Backed(s, i, n)
    ensures var s' := s.(inodes := s.inodes[i := s.inodes[i].(size := n)]);
            Owned(s') && OthersSame(s, s', i) && Backed(s', i, n) && Bytes(s', i, n) == Bytes(s, i, n)
  {
    var s' := s.(inodes := s.inodes[i := s.inodes[i].(size := n)]);
    assert forall j, k {:trigger SlotAddr(s', j, k)} :: 0 <= j < |s.inodes| && 0 <= k <= INDEX ==>
             SlotAddr(s', j, k) == SlotAddr(s, j, k);
    ResizeOwned(s, s');
    forall x | 0 <= x < n ensures ByteAt(s', i, n, x) == ByteAt(s, i, n, x) {
      assert SlotAddr(s', i, x / BSIZE) == SlotAddr(s, i, x / BSIZE);
    }
    forall j | 0 <= j < |s.inodes| && j != i && Backed(s, j, s.inodes[j].size)
      ensures Backed(s', j, s.inodes[j].size) && Bytes(s', j, s.inodes[j].size) == Bytes(s, j, s.inodes[j].size)
    {
      assert forall x :: 0 <= x < s.inodes[j].size ==>
        ByteAt(s', j, s.inodes[j].size, x) == ByteAt(s, j, s.inodes[j].size, x);
    }
  }

  lemma ResizeOwned(s: State, s': State)
    requires Owned(s) && s'.sb == s.sb && s'.blocks == s.blocks && s'.own == s.own && s'.pending == s.pending
    requires |s'.inodes| == |s.inodes| && InodesFit(s'.inodes)
    requires forall j, k {:trigger SlotAddr(s', j, k)} :: 0 <= j < |s.inodes| && 0 <= k <= INDEX ==>
               SlotAddr(s', j, k) == SlotAddr(s, j, k)
    ensures Owned(s')
  {
    forall b | b in s.own ensures SlotAddr(s', s.own[b].inum, s.own[b].k) == b {
      assert SlotAddr(s', s.own[b].inum, s.own[b].k) == SlotAddr(s, s.own[b].inum, s.own[b].k);
    }
    forall i, k | 0 <= i < |s.inodes| && 0 <= k <= INDEX && SlotAddr(s', i, k) != 0
      ensures SlotAddr(s', i, k) in s'.own && s'.own[SlotAddr(s', i, k)] == Slot(i, k)
    {
      assert SlotAddr(s', i, k) == SlotAddr(s, i, k);
    }
  }

  /** A stretch of a file inside one block is a slice of that block. */
  lemma BlockSlice(s: State, i: nat, n: nat, off: nat, m: nat)
    requires Owned(s) && i < |s.inodes| && Backed(s, i, n) && 0 < m && off + m <= n && off % BSIZE + m <= BSIZE
    ensures var a := SlotAddr(s, i, off / BSIZE);
            a < |s.blocks| && s.blocks[a][off % BSIZE..off % BSIZE + m] == Bytes(s, i, n)[off..off + m]
  {
    var a := SlotAddr(s, i, off / BSIZE);
    assert a != 0;
    var slice := s.blocks[a][off % BSIZE..off % BSIZE + m];
    forall x | 0 <= x < m ensures slice[x] == Bytes(s, i, n)[off..off + m][x] {
      assert (off + x) / BSIZE == off / BSIZE && (off + x) % BSIZE == off % BSIZE + x;
    }
  }

  /** Giving up every slot and setting the size to 0 leaves a valid file system with an empty file and
      every other file as it was. */
  lemma TrimSpares(s0: State, s: State, i: nat)
    requires Valid(s0) && i < |s0.inodes| && Trimmed(s0, s, i, INDEX + 1)
    ensures var s' := s.(inodes := s.inodes[i := s.inodes[i].(size := 0)]);
            && Valid(s') && Content(s', i) == []
            && forall j :: 0 <= j < |s0.inodes| && j != i ==> Content(s', j) == Content(s0, j)
  {
    var s' := s.(inodes := s.inodes[i := s.inodes[i].(size := 0)]);
    Resize(s, i, 0);
    TrimSame(s0, s, i);
    OthersSameTrans(s0, s, s', i);
    forall j | 0 <= j < |s'.inodes| ensures Backed(s', j, s'.inodes[j].size) {
      assert j != i ==> Backed(s0, j, s0.inodes[j].size);
    }
  }

  lemma TrimSame(s0: State, s: State, i: nat)
    requires Valid(s0) && i < |s0.inodes| && Trimmed(s0, s, i, INDEX + 1)
    ensures OthersSame(s0, s, i)
  {
    forall j, k | 0 <= j < |s0.inodes| && j != i && 0 <= k <= INDEX ensures SlotAddr(s, j, k) == SlotAddr(s0, j, k) {
      IndexBlock(s0, j);
    }
    forall j | 0 <= j < |s0.inodes| && j != i && Backed(s0, j, s0.inodes[j].size)
      ensures Backed(s, j, s0.inodes[j].size) && Bytes(s, j, s0.inodes[j].size) == Bytes(s0, j, s0.inodes[j].size)
    {
      var n := s0.inodes[j].size;
      forall x | 0 <= x < n ensures ByteAt(s, j, n, x) == ByteAt(s0, j, n, x) {
        assert SlotAddr(s, j, x / BSIZE) == SlotAddr(s0, j, x / BSIZE);
      }
    }
  }

  // -------- what is handed to the log --------

  /** From `before` to `after`, exactly the blocks of `wrote` were handed to the log, and every block that is not as it
      was is among them; `l` and `l'` are all the blocks logged before and after. */
  ghost predicate Logs(before: seq<Block>, l: set<nat>, after: seq<Block>, l': set<nat>, wrote: set<nat>) {
    && l' == l + wrote && |after| == |before|
    && forall b {:trigger after[b]} :: 0 <= b < |before| && after[b] != before[b] ==> b in wrote
  }

  lemma LogsNothing(blocks: seq<Block>, l: set<nat>)
    ensures Logs(blocks, l, blocks, l, {})
  {
  }

  lemma LogsMore(a: seq<Block>, l: set<nat>, b: seq<Block>, l': set<nat>, c: seq<Block>, l'': set<nat>, x: set<nat>, y: set<nat>)
    requires Logs(a, l, b, l', x) && Logs(b, l', c, l'', y)
    ensures Logs(a, l, c, l'', x + y)
  {
    forall i | 0 <= i < |a| && c[i] != a[i] ensures i in x + y {
      assert b[i] == b[i];
    }
  }

  // -------- how many blocks one writei() logs --------

  predicate FewTurns(off0: nat, n: nat, turns: nat) {
    turns > 0 ==> (turns - 1) * BSIZE < off0 % BSIZE + n
  }

  /** After `turns` turns of writei()'s loop over `n` bytes from `off0`, `tot` bytes are done: every turn but
      the last ends at a block boundary. */
  predicate Paced(off0: nat, n: nat, tot: nat, turns: nat) {
    && (turns == 0 ==> tot == 0)
    && FewTurns(off0, n, turns)
    && (turns > 0 ==> (tot == n || tot == turns * BSIZE - off0 % BSIZE))
  }

  /** The most data blocks that the turns can have allocated: an unaligned write starts in a block that the
      file already has. */
  function NewBlocks(off0: nat, turns: nat): nat {
    if turns > 0 && off0 % BSIZE != 0 then turns - 1 else turns
  }

  /** Inside the file, a position that is not on a block boundary lies in an allocated block. */
  lemma StartsBacked(s: State, i: nat, off: nat)
    requires Owned(s) && i < |s.inodes| && off <= s.inodes[i].size && Backed(s, i, s.inodes[i].size) && off % BSIZE != 0
    ensures SlotAddr(s, i, off / BSIZE) != 0
  {
  }

  lemma PaceStart(off0: nat, n: nat)
    ensures Paced(off0, n, 0, 0) && FewTurns(off0, n, 0)
  {
  }

  lemma PaceBound(off0: nat, n: nat, tot: nat, turns: nat)
    requires Paced(off0, n, tot, turns)
    ensures FewTurns(off0, n, turns)
  {
  }

  lemma PaceTurn(off0: nat, n: nat, tot: nat, turns: nat, m: nat)
    requires Paced(off0, n, tot, turns) && tot < n && m == Piece(off0 + tot, n - tot)
    ensures Paced(off0, n, tot + m, turns + 1) && (turns == 0 ==> tot == 0)
  {
    var q := off0 / BSIZE;
    assert turns > 0 ==> off0 + tot == (q + turns) * BSIZE;
  }

  /** What `turns` turns logged: data blocks and free-map blocks, and the index block, which was `index` at
      the start. */
  datatype Account = Account(index: set<nat>, data: set<nat>, bits: set<nat>, turns: nat)

  predicate Charged(c: Account, wrote: set<nat>, index: set<nat>, off0: nat) {
    && wrote <= c.data + c.bits + index && (c.index == index || c.index == {})
    && |c.data| <= c.turns && |c.bits| <= NewBlocks(off0, c.turns) + if index != c.index then 1 else 0
  }

  function Add(c: Account, data: set<nat>, bits: set<nat>): Account {
    c.(data := c.data + data, bits := c.bits + bits, turns := c.turns + 1)
  }

  lemma ChargeStart(c: Account, off0: nat)
    requires c.data == {} && c.bits == {} && c.turns == 0
    ensures Charged(c, {}, c.index, off0)
  {
  }

  lemma ChargeTurn(c: Account, l: set<nat>, more: set<nat>, ix: set<nat>, ix': set<nat>, d: set<nat>, e: set<nat>, off0: nat)
    requires Charged(c, l, ix, off0)
    requires more <= d + e + ix' && (ix == ix' || ix == {}) && |d| <= 1 && |e| <= 1 + if ix' != ix then 1 else 0
    requires c.turns == 0 && off0 % BSIZE != 0 ==> e == {}
    ensures Charged(Add(c, d, e), l + more, ix', off0)
  {
    SizeOfUnion(c.data, d);
    SizeOfUnion(c.bits, e);
  }

  /** At most three blocks' worth of bytes: at most four data blocks, four free-map blocks and the index. */
  lemma ChargeCovers(c: Account, l: set<nat>, ix: set<nat>, off0: nat)
    requires Charged(c, l, ix, off0)
    ensures l <= c.data + c.bits + ix
  {
  }

  lemma ChargeTotal(c: Account, l: set<nat>, ix: set<nat>, off0: nat, n: nat)
    requires Charged(c, l, ix, off0) && |ix| <= 1 && n <= 3 * BSIZE
    requires FewTurns(off0, n, c.turns)
    ensures |c.data + c.bits + ix| <= MAXOPBLOCKS - 1
  {
    SizeOfUnion(c.data, c.bits);
    SizeOfUnion(c.data + c.bits, ix);
  }

  lemma SizeOfUnion(a: set<nat>, b: set<nat>)
    ensures |a + b| <= |a| + |b|
  {
    assert a + b == a + (b - a);
    assert |b - a| <= |b| by { SizeOfSubset(b - a, b); }
  }

  lemma {:induction false} SizeOfSubset(a: set<nat>, b: set<nat>)
    requires a <= b
    ensures |a| <= |b|
  {
    assert b == a + (b - a);
  }

  // -------- writei, as a relation between file systems --------

  /** From `s0` to `s`, `w` has been copied into inode `i` from `off0` on; its size is not yet updated. */
  ghost predicate Wrote(s0: State, s: State, i: nat, off0: nat, w: seq<byte>)
    requires Valid(s0) && i < |s0.inodes| && off0 <= s0.inodes[i].size
  {
    && Owned(s) && |s.inodes| == |s0.inodes| && s.inodes[i].size == s0.inodes[i].size && OthersSame(s0, s, i)
    && var n := Max(s.inodes[i].size, off0 + |w|);
       Backed(s, i, n) && Bytes(s, i, n) == Overlay(Content(s0, i), off0, w)
  }

  lemma WroteNothing(s0: State, i: nat, off0: nat)
    requires Valid(s0) && i < |s0.inodes| && off0 <= s0.inodes[i].size
    ensures Wrote(s0, s0, i, off0, [])
  {
    var c := Content(s0, i);
    assert Overlay(c, off0, []) == c;
  }

  /** A failed bmap() may still have allocated the index block; the file is the same. */
  lemma WroteAndGrew(s0: State, s: State, t: State, i: nat, off0: nat, w: seq<byte>)
    requires Valid(s0) && i < |s0.inodes| && off0 <= s0.inodes[i].size && Wrote(s0, s, i, off0, w)
    requires Owned(t) && Grown(s, t)
    ensures Wrote(s0, t, i, off0, w)
  {
    GrownSparesOthers(s, t, i);
    OthersSameTrans(s0, s, t, i);
    GrownKeepsBytes(s, t, i, Max(s.inodes[i].size, off0 + |w|));
  }

  /** A further piece written on inode `i` after `w`. */
  lemma WroteOn(s0: State, s: State, u: State, i: nat, off0: nat, w: seq<byte>, v: seq<byte>)
    requires Valid(s0) && i < |s0.inodes| && off0 <= s0.inodes[i].size && Wrote(s0, s, i, off0, w)
    requires Owned(u) && OthersSame(s, u, i) && u.inodes[i].size == s.inodes[i].size
    requires var n, off := Max(s.inodes[i].size, off0 + |w|), off0 + |w|;
             Backed(u, i, Max(n, off + |v|)) && Bytes(u, i, Max(n, off + |v|)) == Overlay(Bytes(s, i, n), off, v)
    ensures Wrote(s0, u, i, off0, w + v)
  {
    OverlayMore(Content(s0, i), off0, w, v);
    OthersSameTrans(s0, s, u, i);
  }

  lemma WroteFits(s0: State, s: State, i: nat, off0: nat, w: seq<byte>)
    requires Valid(s0) && i < |s0.inodes| && off0 <= s0.inodes[i].size && Wrote(s0, s, i, off0, w)
    ensures Owned(s) && Fits(s.sb, s.blocks) && InodesFit(s.inodes) && i < |s.inodes| && |s.inodes[i].addrs| == NDIRECT + 1
    ensures w == [] && off0 % BSIZE != 0 ==> off0 / BSIZE < MAXFILE && SlotAddr(s, i, off0 / BSIZE) != 0
  {
    hide Overlay, Bytes, Addr, SlotAddr, OthersSame;
    if w == [] && off0 % BSIZE != 0 {
      StartsBacked(s, i, off0);
    }
  }

  lemma WroteMore(s0: State, s: State, t: State, u: State, i: nat, off0: nat, w: seq<byte>, v: seq<byte>)
    requires Valid(s0) && i < |s0.inodes| && off0 <= s0.inodes[i].size && Wrote(s0, s, i, off0, w)
    requires Owned(t) && Grown(s, t) && 0 < |v| && (off0 + |w|) % BSIZE + |v| <= BSIZE
    requires off0 + |w| + |v| <= MAXFILE * BSIZE && 0 != SlotAddr(t, i, (off0 + |w|) / BSIZE) < |t.blocks|
    requires u == Patched(t, SlotAddr(t, i, (off0 + |w|) / BSIZE), (off0 + |w|) % BSIZE, v)
    ensures Wrote(s0, u, i, off0, w + v)
  {
    hide Owned, Grown, Backed, Bytes, Overlay, Content, OthersSame, Patched, SlotAddr;
    WroteFits(s0, s, i, off0, w);
    var off := off0 + |w|;
    WriteTurn(s, t, u, i, Max(s.inodes[i].size, off), off, v);
    WroteOn(s0, s, u, i, off0, w, v);
  }

  /** Once the size is set the file system is valid again and only the one file has changed. */
  lemma WroteAll(s0: State, s: State, s': State, i: nat, off0: nat, w: seq<byte>)
    requires Valid(s0) && i < |s0.inodes| && off0 <= s0.inodes[i].size && Wrote(s0, s, i, off0, w)
    requires s' == s.(inodes := s.inodes[i := s.inodes[i].(size := Max(s.inodes[i].size, off0 + |w|))])
    ensures Valid(s') && Content(s', i) == Overlay(Content(s0, i), off0, w)
    ensures forall j :: 0 <= j < |s0.inodes| && j != i ==> Content(s', j) == Content(s0, j)
  {
    Resize(s, i, Max(s.inodes[i].size, off0 + |w|));
    OthersSameTrans(s0, s, s', i);
    forall j | 0 <= j < |s'.inodes| ensures Backed(s', j, s'.inodes[j].size) {
      assert j != i ==> Backed(s0, j, s0.inodes[j].size);
    }
  }
}
