/**
  What user code sees of a page table: the pages below the size of the process, as Lazy has them, read off the
  entries and the frames they name.
*/
module UserImage {
  import Lazy
  import opened Sv39

  /** Byte `k` of a little-endian word. */
  function ByteOf(w: nat, k: nat): Lazy.byte {
    if k == 0 then w % 256 else ByteOf(w / 256, k - 1)
  }

  function BytesOf(g: Page): seq<Lazy.byte> {
    seq(4096, i requires 0 <= i < 4096 => if i / 8 < |g.word| then ByteOf(g.word[i / 8], i % 8) else 0)
  }

  /** The PTE_W and PTE_U bits, and the contents of the frame. */
  ghost function Shown(mem: map<nat, Page>, e: nat): Lazy.UPage {
    Lazy.UPage(Flags(e) / PTE_W % 2 == 1, Flags(e) / PTE_U % 2 == 1, if Frame(e) in mem then BytesOf(mem[Frame(e)]) else [])
  }

  ghost function Image(mem: map<nat, Page>, r: nat, sz: nat): Lazy.Proc {
    Lazy.Proc(sz, map v | 0 <= v < MAXPAGE && v < Pages(sz) && Lookup(mem, LeafSpot(r, v)) != 0 ::
      Shown(mem, Lookup(mem, LeafSpot(r, v))))
  }

  /** An entry made with the flags of another shows the same page when the frames hold the same. */
  lemma SameFlags(mem: map<nat, Page>, e: nat, mem': map<nat, Page>, e': nat)
    requires Present(e) && e' == MakePte(Frame(e'), Flags(e))
    requires Frame(e) in mem && Frame(e') in mem' && mem'[Frame(e')] == mem[Frame(e)]
    ensures Shown(mem', e') == Shown(mem, e)
  {
    hide Frame;
    FlagsKept(Frame(e'), e);
  }

  lemma OddFlags(e: nat)
    requires e % 2 == 1
    ensures e % 1024 % 2 == 1
  {
    assert e == 2 * (e / 1024 * 512) + e % 1024;
  }

  lemma LowBits(f: nat, x: nat)
    requires x < 1024
    ensures (f * 1024 + x) % 1024 == x
  {
  }

  lemma FlagsKept(f: nat, e: nat)
    requires Present(e)
    ensures Flags(MakePte(f, Flags(e))) == Flags(e)
  {
    OddFlags(e);
    var x := Flags(e);
    assert x / 2 * 2 + 1 == x;
    LowBits(f, x);
  }

  lemma {:induction false} NoBytes(k: nat)
    ensures ByteOf(0, k) == 0
  {
    if k > 0 { NoBytes(k - 1); }
  }

  lemma ZeroBytes(g: Page)
    requires forall i :: 0 <= i < |g.word| ==> g.word[i] == 0
    ensures BytesOf(g) == seq(4096, _ => 0)
  {
    forall i | 0 <= i < 4096 ensures BytesOf(g)[i] == 0 {
      NoBytes(i % 8);
    }
  }

  /** A readable and writable user page of zeroes. */
  lemma ShowsZeroes(mem: map<nat, Page>, e: nat)
    requires e == MakePte(Frame(e), 22) && Frame(e) in mem && forall i :: 0 <= i < |mem[Frame(e)].word| ==> mem[Frame(e)].word[i] == 0
    ensures Shown(mem, e) == Lazy.Zeroed()
  {
    hide Frame;
    ZeroBytes(mem[Frame(e)]);
    LowBits(Frame(e), 23);
  }
}
