/**
  Sv39 page tables over physical frames, as kernel/vm.c builds them: what the three levels of tables in
  memory map each page to, who holds each frame, and what every change must keep.
*/
module Sv39 {
  const ENTRIES := 512
  const WORD64 := 0x1_0000_0000_0000_0000
  /** One beyond the last frame number a page-table entry can hold. */
  const MAXFRAME := 0x1000_0000_0000
  const MAXVA := 0x40_0000_0000

  /** How many pages `sz` bytes take. */
  function Pages(sz: nat): nat {
    (sz + 4096 - 1) / 4096
  }
  const MAXPAGE := 0x400_0000

  // -------- page-table entries --------

  const PTE_V := 1
  const PTE_R := 2
  const PTE_W := 4
  const PTE_U := 16

  /** a << k */
  function Shl(a: nat, k: nat): nat {
    if k == 0 then a else 2 * Shl(a, k - 1)
  }

  /** x | y */
  function Or(x: nat, y: nat): nat
    decreases x + y
  {
    if x == 0 then y else if y == 0 then x
    else 2 * Or(x / 2, y / 2) + if x % 2 == 1 || y % 2 == 1 then 1 else 0
  }

  lemma {:induction false} OrApart(a: nat, b: nat, k: nat)
    requires b < Shl(1, k)
    ensures Or(Shl(a, k), b) == Shl(a, k) + b
  {
    if k > 0 {
      OrApart(a, b / 2, k - 1);
    }
  }

  lemma {:induction false} OrBound(x: nat, y: nat, k: nat)
    requires x < Shl(1, k) && y < Shl(1, k)
    ensures Or(x, y) < Shl(1, k)
  {
    if k > 0 {
      OrBound(x / 2, y / 2, k - 1);
    }
  }

  lemma ShlTen(a: nat)
    ensures Shl(a, 10) == a * 1024
  {
    assert Shl(a, 1) == a * 2;
    assert Shl(a, 3) == a * 8 by { assert Shl(a, 2) == a * 4; }
    assert Shl(a, 5) == a * 32 by { assert Shl(a, 4) == a * 16; }
    assert Shl(a, 7) == a * 128 by { assert Shl(a, 6) == a * 64; }
    assert Shl(a, 9) == a * 512 by { assert Shl(a, 8) == a * 256; }
  }

  lemma OrOne(x: nat)
    ensures Or(x, 1) == x / 2 * 2 + 1
  {
    assert Or(x / 2, 0) == x / 2;
  }

  function PA2PTE(pa: nat): nat {
    pa / 4096 * 1024
  }

  function PTE2PA(pte: nat): nat {
    pte / 1024 * 4096 % WORD64
  }

  function Flags(pte: nat): nat {
    pte % 1024
  }

  predicate Present(pte: nat) {
    pte % 2 == 1
  }

  /** (pte & (PTE_R | PTE_W | PTE_X)) == 0 */
  predicate Pointer(pte: nat) {
    pte / 2 % 8 == 0
  }

  /** An entry that refers to frame `f`. */
  function MakePte(f: nat, perm: nat): nat {
    f * 1024 + perm / 2 * 2 + 1
  }

  /** The word mappages() and walk() store for the page at `pa`. */
  function PteWord(pa: nat, perm: nat): nat {
    Or(Or(PA2PTE(pa), perm), PTE_V)
  }

  /** The frame an entry refers to. */
  function Frame(pte: nat): nat {
    PTE2PA(pte) / 4096
  }

  /** The address bits and the permission bits of an entry do not overlap. */
  lemma PteForm(f: nat, perm: nat)
    requires perm < 1024
    ensures PteWord(f * 4096, perm) == MakePte(f, perm)
  {
    ShlTen(f);
    ShlTen(1);
    OrApart(f, perm, 10);
    OrOne(f * 1024 + perm);
  }

  lemma PteParts(e: nat, f: nat, flags: nat)
    requires f < MAXFRAME && flags < 1024 && e == f * 1024 + flags
    ensures PTE2PA(e) == f * 4096 && Flags(e) == flags && e < WORD64
  {
  }

  /** A frame and its permissions survive being packed into an entry. */
  lemma PteRoundTrip(f: nat, perm: nat)
    requires f < MAXFRAME && perm < 1024
    ensures PTE2PA(MakePte(f, perm)) == f * 4096 && Frame(MakePte(f, perm)) == f
    ensures Flags(MakePte(f, perm)) == Or(perm, PTE_V) && Present(MakePte(f, perm)) && MakePte(f, perm) < WORD64
  {
    PteParts(MakePte(f, perm), f, perm / 2 * 2 + 1);
    OrOne(perm);
  }

  // -------- indices --------

  /** PX(level, va), the index that `va` selects in a table of that level. */
  function PX(level: nat, va: nat): (k: nat)
    ensures k < ENTRIES
  {
    va / (if level == 0 then 4096 else if level == 1 then 2097152 else 1073741824) % 512
  }

  /** The same in terms of the page number. */
  function Px(level: nat, v: nat): (k: nat)
    ensures k < ENTRIES
  {
    v / (if level == 0 then 1 else if level == 1 then 512 else 262144) % 512
  }

  lemma PxOfPage(va: nat)
    ensures PX(0, va) == Px(0, va / 4096) && PX(1, va) == Px(1, va / 4096) && PX(2, va) == Px(2, va / 4096)
  {
  }

  // -------- places in the tree --------

  /** A place in a page table: the root table, or what entry `k` of the table at `up` refers to. */
  datatype Spot = Root(r: nat) | Child(up: Spot, k: nat)

  /** Tables whose entries refer to tables, tables whose entries refer to pages, and pages. */
  predicate Upper(p: Spot) {
    p.Root? || p.up.Root?
  }

  predicate Last(p: Spot) {
    p.Child? && p.up.Child? && p.up.up.Root?
  }

  predicate IsLeaf(p: Spot) {
    && p.Child? && p.up.Child? && p.up.up.Child? && p.up.up.up.Root?
    && p.k < ENTRIES && p.up.k < ENTRIES && p.up.up.k < 256
  }

  function RootOf(p: Spot): nat {
    if p.Root? then p.r else if p.up.Root? then p.up.r else if p.up.up.Root? then p.up.up.r
    else if p.up.up.up.Root? then p.up.up.up.r else 0
  }

  /** The page number of a place. */
  function PageOf(p: Spot): nat
    requires IsLeaf(p)
  {
    (p.up.up.k * 512 + p.up.k) * 512 + p.k
  }

  /** Page `v` of page table `r`. */
  function LeafSpot(r: nat, v: nat): (p: Spot)
    requires v < MAXPAGE
    ensures IsLeaf(p) && RootOf(p) == r
  {
    Child(Child(Child(Root(r), Px(2, v)), Px(1, v)), Px(0, v))
  }

  /** The three indices of a page determine it. */
  lemma PageRoundTrip(r: nat, v: nat)
    requires v < MAXPAGE
    ensures PageOf(LeafSpot(r, v)) == v
  {
    var q := v / 512;
    assert v == q * 512 + v % 512 && q == q / 512 * 512 + q % 512;
    assert v / 262144 == q / 512 && q / 512 < 256;
  }

  /** Every place of a page is the place of its page number. */
  lemma SpotRoundTrip(p: Spot)
    requires IsLeaf(p)
    ensures PageOf(p) < MAXPAGE && LeafSpot(RootOf(p), PageOf(p)) == p
  {
    var v := PageOf(p);
    assert Px(0, v) == p.k && Px(1, v) == p.up.k && Px(2, v) == p.up.up.k;
  }

  // -------- what the hardware finds --------

  /** A frame of memory, or a table of entries. */
  datatype Page = Page(word: seq<nat>)

  type Memory = map<nat, Page>

  /** The table that entry `k` of the table in frame `t` points to; 0 for none. */
  function Next(mem: Memory, t: nat, k: nat): nat {
    if t in mem && k < |mem[t].word| && Present(mem[t].word[k]) then Frame(mem[t].word[k]) else 0
  }

  /** The entry that maps the page at `p`, found through the three levels of tables; 0 when the page is not
      mapped. */
  function Lookup(mem: Memory, p: Spot): nat
    requires IsLeaf(p)
  {
    var t := Next(mem, Next(mem, RootOf(p), p.up.up.k), p.up.k);
    if t in mem && p.k < |mem[t].word| && Present(mem[t].word[p.k]) then mem[t].word[p.k] else 0
  }

  // -------- who holds each frame --------

  /** A frame is on the free list, at a place in some page table, or held by other kernel code. */
  datatype Role = Free | At(spot: Spot) | Held

  /** `free` is the free list whose first frame is at address `head`; `at` is the frame at each place.
      `stale` are places whose frame is already freed while their parent still points to it. */
  datatype State = State(mem: Memory, head: nat, free: seq<nat>, role: map<nat, Role>, at: map<Spot, nat>, stale: set<Spot>)

  function Link(free: seq<nat>, i: nat): nat {
    if i < |free| then free[i] * 4096 else 0
  }

  ghost predicate Frames(s: State) {
    && s.mem.Keys == s.role.Keys
    && forall f :: f in s.mem ==> 0 < f < MAXFRAME && |s.mem[f].word| == ENTRIES
  }

  /** The free list runs through the first words of its frames, and holds exactly the free frames. */
  ghost predicate Listed(s: State)
    requires Frames(s)
  {
    && s.head == Link(s.free, 0)
    && (forall i :: 0 <= i < |s.free| ==> s.free[i] in s.mem && s.role[s.free[i]] == Free)
    && (forall i {:trigger s.mem[s.free[i]]} :: 0 <= i < |s.free| ==> s.mem[s.free[i]].word[0] == Link(s.free, i + 1))
    && (forall i, j :: 0 <= i < j < |s.free| ==> s.free[i] != s.free[j])
    && (forall f {:trigger f in s.free} :: f in s.role && s.role[f] == Free ==> f in s.free)
  }

  function Entry(s: State, p: Spot, k: nat): nat {
    if p in s.at && s.at[p] in s.mem && k < |s.mem[s.at[p]].word| then s.mem[s.at[p]].word[k] else 0
  }

  /** A place that is not a root hangs below a table, and below index 256 of a root. */
  predicate Hung(s: State, p: Spot) {
    p.Child? ==> p.up in s.at && p.k < ENTRIES && (p.up.Root? ==> p.k < 256)
  }

  /** `at` and `role` are inverse; every place has its table above it. */
  ghost predicate Placed(s: State)
    requires Frames(s)
  {
    && (forall p :: p in s.at ==> s.at[p] in s.role && s.role[s.at[p]] == At(p) && (Upper(p) || Last(p) || IsLeaf(p)))
    && (forall f {:trigger s.role[f].spot} :: f in s.role && s.role[f].At? ==> s.role[f].spot in s.at && s.at[s.role[f].spot] == f)
    && (forall p :: p in s.at && p.Root? ==> s.at[p] == p.r)
    && (forall p {:trigger Hung(s, p)} :: p in s.at ==> Hung(s, p))
    && (forall p :: p in s.stale ==> p !in s.at)
  }

  /** An entry of an upper table is present exactly when there is a table below it, and refers to it with
      no permission bits; a frame held by a page is what its entry refers to. */
  ghost predicate Pointed(s: State)
    requires Frames(s)
  {
    && (forall p, k {:trigger Entry(s, p, k)} :: p in s.at && Upper(p) && 0 <= k < ENTRIES && Child(p, k) !in s.stale ==>
          (Present(Entry(s, p, k)) <==> Child(p, k) in s.at))
    && (forall p, k {:trigger Entry(s, p, k)} :: p in s.at && Upper(p) && 0 <= k < ENTRIES && Child(p, k) in s.at ==>
          Entry(s, p, k) == MakePte(s.at[Child(p, k)], 0))
    && (forall p, k {:trigger Entry(s, p, k)} :: p in s.at && Last(p) && 0 <= k < ENTRIES && Child(p, k) in s.at ==>
          Present(Entry(s, p, k)) && Frame(Entry(s, p, k)) == s.at[Child(p, k)])
  }

  ghost predicate Inv(s: State) {
    Frames(s) && Listed(s) && Placed(s) && Pointed(s)
  }

  /** The three-level walk reads the entry of the page's last-level table. */
  lemma LookupMeets(s: State, p: Spot)
    requires Inv(s) && IsLeaf(p) && Root(RootOf(p)) in s.at && p.up !in s.stale && p.up.up !in s.stale
    ensures Lookup(s.mem, p) == if Present(Entry(s, p.up, p.k)) then Entry(s, p.up, p.k) else 0
  {
    var mid, last := p.up.up, p.up;
    assert (last in s.at ==> Hung(s, last)) && (mid in s.at ==> Hung(s, mid));
    var e := Entry(s, mid.up, mid.k);
    if mid in s.at {
      PteRoundTrip(s.at[mid], 0);
      var d := Entry(s, mid, last.k);
      if last in s.at {
        PteRoundTrip(s.at[last], 0);
      }
    }
  }
}
