/**
  The changes kernel/vm.c and kernel/kalloc.c make to page tables and frames, one at a time, and the
  relation that every operation on some pages of one page table keeps with the state it started from.
*/
module VmModel {
  import opened Sv39

  function ZeroPage(): Page {
    Page(seq(ENTRIES, _ => 0))
  }

  function Junk(b: nat): (page: Page)
    ensures |page.word| == ENTRIES
  {
    Page(seq(ENTRIES, _ => b * 0x0101_0101_0101_0101))
  }

  function Stored(page: Page, k: nat, w: nat): Page
    requires k < |page.word|
  {
    Page(page.word[k := w])
  }

  // -------- the free list --------

  /** kalloc() took the first free frame. */
  function Taken(s: State): State
    requires s.free != [] && s.free[0] in s.mem && |s.mem[s.free[0]].word| == ENTRIES
  {
    var f := s.free[0];
    s.(mem := s.mem[f := Junk(5)], head := s.mem[f].word[0], free := s.free[1..], role := s.role[f := Held])
  }

  /** kfree(f) */
  function Given(s: State, f: nat): State {
    s.(mem := s.mem[f := Stored(Junk(1), 0, s.head)], head := f * 4096, free := [f] + s.free, role := s.role[f := Free])
  }

  /** Overwriting a held frame. */
  function Filled(s: State, f: nat, page: Page): State {
    s.(mem := s.mem[f := page])
  }

  lemma TakenListed(s: State)
    requires Inv(s) && s.free != []
    ensures Listed(Taken(s))
  {
    hide Pointed, Placed;
    var s' := Taken(s);
    forall g | g in s'.role && s'.role[g] == Free ensures g in s'.free {
      assert g in s.free;
      var i :| 0 <= i < |s.free| && s.free[i] == g;
      assert g != s.free[0] ==> s'.free[i - 1] == g;
    }
    forall i | 0 <= i < |s'.free| ensures s'.mem[s'.free[i]].word[0] == Link(s'.free, i + 1) {
      assert s'.free[i] == s.free[i + 1] && s.mem[s.free[i + 1]].word[0] == Link(s.free, i + 2);
    }
    assert s.mem[s.free[0]].word[0] == Link(s.free, 1);
  }

  lemma TakenKeeps(s: State)
    requires Inv(s) && s.free != []
    ensures Inv(Taken(s))
  {
    TakenListed(s);
    SamePlaced(s, Taken(s));
    SamePointed(s, Taken(s));
  }

  lemma GivenListed(s: State, f: nat)
    requires Inv(s) && f in s.role && s.role[f] == Held
    ensures Frames(Given(s, f)) && Listed(Given(s, f))
  {
    hide Pointed, Placed;
    var s' := Given(s, f);
    forall i | 0 <= i < |s'.free| ensures s'.free[i] in s'.mem && s'.mem[s'.free[i]].word[0] == Link(s'.free, i + 1) {
      if i > 0 {
        assert s'.free[i] == s.free[i - 1] && s.mem[s.free[i - 1]].word[0] == Link(s.free, i);
      }
    }
    forall g | g in s'.role && s'.role[g] == Free ensures g in s'.free {
      assert g != f ==> g in s.free;
    }
  }

  lemma GivenKeeps(s: State, f: nat)
    requires Inv(s) && f in s.role && s.role[f] == Held
    ensures Inv(Given(s, f))
  {
    hide Listed;
    GivenListed(s, f);
    SamePlaced(s, Given(s, f));
    SamePointed(s, Given(s, f));
  }

  lemma FilledKeeps(s: State, f: nat, page: Page)
    requires Inv(s) && f in s.role && s.role[f] == Held && |page.word| == ENTRIES
    ensures Inv(Filled(s, f, page))
  {
    SameListed(s, Filled(s, f, page));
    SamePlaced(s, Filled(s, f, page));
    SamePointed(s, Filled(s, f, page));
  }

  /** The free list is as it was. */
  lemma SameListed(s: State, s': State)
    requires Frames(s) && Frames(s') && Listed(s) && s'.free == s.free && s'.head == s.head && s'.role.Keys == s.role.Keys
    requires forall f :: f in s.role && s.role[f] == Free ==> s'.mem[f] == s.mem[f] && s'.role[f] == Free
    requires forall f :: f in s.role && s'.role[f] == Free ==> s.role[f] == Free
    ensures Listed(s')
  {
    forall i | 0 <= i < |s.free| ensures s'.mem[s.free[i]].word[0] == Link(s.free, i + 1) {
      assert s.mem[s.free[i]].word[0] == Link(s.free, i + 1);
    }
    forall f | f in s'.role && s'.role[f] == Free ensures f in s'.free { assert f in s.free; }
  }

  lemma SamePlaced(s: State, s': State)
    requires Frames(s) && Frames(s') && Placed(s) && s'.at == s.at && s'.stale == s.stale && s'.role.Keys == s.role.Keys
    requires forall f :: f in s.role && s.role[f].At? ==> s'.role[f] == s.role[f]
    requires forall f :: f in s.role && s'.role[f].At? ==> s'.role[f] == s.role[f]
    ensures Placed(s')
  {
    forall p | p in s'.at ensures Hung(s', p) {
      assert Hung(s, p);
    }
  }

  /** The tables are as they were. */
  lemma SamePointed(s: State, s': State)
    requires Frames(s) && Frames(s') && Placed(s) && Pointed(s) && s'.at == s.at && s'.stale == s.stale
    requires s'.mem.Keys == s.mem.Keys && forall p :: p in s.at && !IsLeaf(p) ==> s'.mem[s.at[p]] == s.mem[s.at[p]]
    ensures Pointed(s')
    ensures forall p, k {:trigger Entry(s', p, k)} :: !IsLeaf(p) ==> Entry(s', p, k) == Entry(s, p, k)
  {
    forall p, k | !IsLeaf(p) ensures Entry(s', p, k) == Entry(s, p, k) {
      assert p in s.at ==> s'.mem[s.at[p]] == s.mem[s.at[p]];
    }
  }

  // -------- tables and leaf entries --------

  /** Entry `k` of the table at `p` set to `e`. */
  function Put(s: State, p: Spot, k: nat, e: nat): State
    requires p in s.at && s.at[p] in s.mem && k < |s.mem[s.at[p]].word|
  {
    s.(mem := s.mem[s.at[p] := Stored(s.mem[s.at[p]], k, e)])
  }

  /** A held frame takes its place in a page table. */
  function Seated(s: State, p: Spot, f: nat): State {
    s.(role := s.role[f := At(p)], at := s.at[p := f])
  }

  /** The frame at place `p` is held by whoever is about to free or keep it. */
  function Unseated(s: State, p: Spot): State
    requires p in s.at
  {
    s.(role := s.role[s.at[p] := Held], at := s.at - {p})
  }

  lemma PutEntry(s: State, p: Spot, k: nat, e: nat)
    requires Inv(s) && p in s.at && k < ENTRIES
    ensures forall q, l {:trigger Entry(Put(s, p, k, e), q, l)} ::
              Entry(Put(s, p, k, e), q, l) == if q == p && l == k then e else Entry(s, q, l)
  {
    var s' := Put(s, p, k, e);
    forall q, l ensures Entry(s', q, l) == if q == p && l == k then e else Entry(s, q, l) {
      if q in s.at && q != p {
        assert s.role[s.at[q]] == At(q) && s.role[s.at[p]] == At(p);
      }
    }
  }

  lemma PutListed(s: State, p: Spot, k: nat, e: nat)
    requires Inv(s) && p in s.at && k < ENTRIES
    ensures Frames(Put(s, p, k, e)) && Listed(Put(s, p, k, e)) && Placed(Put(s, p, k, e))
  {
    var s' := Put(s, p, k, e);
    assert s.role[s.at[p]] == At(p);
    SameListed(s, s');
    SamePlaced(s, s');
  }

  /** walk() links a zeroed frame in as the table below entry `k`. */
  function Grown(s: State, p: Spot, k: nat, f: nat): State
    requires p in s.at && s.at[p] in s.mem && k < |s.mem[s.at[p]].word|
  {
    Seated(Put(s, p, k, MakePte(f, 0)), Child(p, k), f)
  }

  ghost predicate CanGrow(s: State, p: Spot, k: nat, f: nat) {
    && Inv(s) && p in s.at && Upper(p) && k < ENTRIES && (p.Root? ==> k < 256)
    && Child(p, k) !in s.at && Child(p, k) !in s.stale
    && f in s.role && s.role[f] == Held && s.mem[f] == ZeroPage()
  }

  lemma GrownEntry(s: State, p: Spot, k: nat, f: nat, q: Spot, l: nat)
    requires CanGrow(s, p, k, f)
    ensures var e := Entry(Grown(s, p, k, f), q, l);
            e == if q == p && l == k then MakePte(f, 0) else if q == Child(p, k) then 0 else Entry(s, q, l)
  {
    PutEntry(s, p, k, MakePte(f, 0));
    assert Entry(Grown(s, p, k, f), q, l) == if q == Child(p, k) then 0 else Entry(Put(s, p, k, MakePte(f, 0)), q, l);
  }

  lemma GrownPlaced(s: State, p: Spot, k: nat, f: nat)
    requires CanGrow(s, p, k, f)
    ensures Frames(Grown(s, p, k, f)) && Listed(Grown(s, p, k, f)) && Placed(Grown(s, p, k, f))
  {
    hide Listed, Pointed, MakePte;
    var s', t := Grown(s, p, k, f), Put(s, p, k, MakePte(f, 0));
    PutListed(s, p, k, MakePte(f, 0));
    assert t.role[f] == Held;
    SameListed(t, s');
    hide Put;
    TablePlaced(t, p, k, f);
  }

  lemma TablePlaced(t: State, p: Spot, k: nat, f: nat)
    requires Frames(t) && Placed(t) && p in t.at && Upper(p) && k < ENTRIES && (p.Root? ==> k < 256)
    requires Child(p, k) !in t.at && Child(p, k) !in t.stale && f in t.role && t.role[f] == Held
    ensures Frames(Seated(t, Child(p, k), f)) && Placed(Seated(t, Child(p, k), f))
  {
    var s' := Seated(t, Child(p, k), f);
    forall q | q in s'.at ensures Hung(s', q) { assert q in t.at ==> Hung(t, q); }
  }

  lemma GrownKeeps(s: State, p: Spot, k: nat, f: nat)
    requires CanGrow(s, p, k, f)
    ensures Inv(Grown(s, p, k, f))
  {
    var s' := Grown(s, p, k, f);
    GrownPlaced(s, p, k, f);
    PteRoundTrip(f, 0);
    forall q, l | q in s'.at && Upper(q) && 0 <= l < ENTRIES
      ensures Child(q, l) !in s'.stale ==> (Present(Entry(s', q, l)) <==> Child(q, l) in s'.at)
      ensures Child(q, l) in s'.at ==> Entry(s', q, l) == MakePte(s'.at[Child(q, l)], 0)
    {
      GrownEntry(s, p, k, f, q, l);
      assert q == Child(p, k) && Child(q, l) in s.at ==> Hung(s, Child(q, l));
    }
    forall q, l | q in s'.at && Last(q) && 0 <= l < ENTRIES && Child(q, l) in s'.at
      ensures Present(Entry(s', q, l)) && Frame(Entry(s', q, l)) == s'.at[Child(q, l)]
    {
      GrownEntry(s, p, k, f, q, l);
      assert Child(q, l) in s.at ==> Hung(s, Child(q, l));
    }
  }

  /** A last-level entry may be set to anything where no frame is seated. */
  lemma PutKeeps(s: State, p: Spot, k: nat, e: nat)
    requires Inv(s) && p in s.at && Last(p) && k < ENTRIES && Child(p, k) !in s.at
    ensures Inv(Put(s, p, k, e))
  {
    PutEntry(s, p, k, e);
    PutListed(s, p, k, e);
  }

  lemma SeatedListed(s: State, p: Spot, f: nat)
    requires Inv(s) && IsLeaf(p) && p.up in s.at && p !in s.at && p !in s.stale && f in s.role && s.role[f] == Held
    ensures Frames(Seated(s, p, f)) && Listed(Seated(s, p, f)) && Placed(Seated(s, p, f))
  {
    hide Pointed, Listed;
    var s' := Seated(s, p, f);
    SameListed(s, s');
    forall q | q in s'.at ensures Hung(s', q) { assert q in s.at ==> Hung(s, q); }
  }

  lemma SeatedKeeps(s: State, p: Spot, f: nat)
    requires Inv(s) && IsLeaf(p) && p.up in s.at && p !in s.at && p !in s.stale
    requires f in s.role && s.role[f] == Held && Present(Entry(s, p.up, p.k)) && Frame(Entry(s, p.up, p.k)) == f
    ensures Inv(Seated(s, p, f))
  {
    hide Listed, Frame, MakePte;
    var s' := Seated(s, p, f);
    SeatedListed(s, p, f);
    forall q, l | true ensures !IsLeaf(q) ==> Entry(s', q, l) == Entry(s, q, l) {}
  }

  lemma UnseatedPlaced(s: State, p: Spot)
    requires Inv(s) && p in s.at && IsLeaf(p)
    ensures Frames(Unseated(s, p)) && Listed(Unseated(s, p)) && Placed(Unseated(s, p))
  {
    hide Listed, Pointed;
    var s' := Unseated(s, p);
    SameListed(s, s');
    forall q | q in s'.at ensures Hung(s', q) {
      assert Hung(s, q);
      assert q.Child? && q.up == p ==> !Upper(q) && !Last(q) && !IsLeaf(q);
    }
  }

  lemma UnseatedKeeps(s: State, p: Spot)
    requires Inv(s) && p in s.at && IsLeaf(p)
    ensures Inv(Unseated(s, p))
  {
    hide Listed, MakePte, Frame;
    var s' := Unseated(s, p);
    UnseatedPlaced(s, p);
    forall q, l | true ensures !IsLeaf(q) ==> Entry(s', q, l) == Entry(s, q, l) {}
  }

  // -------- what an operation on some pages of one page table may change --------

  ghost predicate Good(s: State) {
    Inv(s) && s.stale == {}
  }

  /** The pages from `lo` to `hi` of page table `r`. */
  function Area(r: nat, lo: nat, hi: nat): set<Spot>
    requires hi <= MAXPAGE
  {
    if hi <= lo then {} else Area(r, lo, hi - 1) + {LeafSpot(r, hi - 1)}
  }

  lemma {:induction false} AreaMeets(r: nat, lo: nat, hi: nat, p: Spot)
    requires hi <= MAXPAGE
    ensures p in Area(r, lo, hi) <==> IsLeaf(p) && RootOf(p) == r && lo <= PageOf(p) < hi
    decreases hi
  {
    if lo < hi {
      AreaMeets(r, lo, hi - 1, p);
      PageRoundTrip(r, hi - 1);
      if IsLeaf(p) && RootOf(p) == r && PageOf(p) == hi - 1 {
        SpotRoundTrip(p);
      }
    }
  }

  lemma AreaLeaves(r: nat, lo: nat, hi: nat)
    requires hi <= MAXPAGE
    ensures forall p :: p in Area(r, lo, hi) ==> IsLeaf(p) && RootOf(p) == r && lo <= PageOf(p) < hi
  {
    forall p | p in Area(r, lo, hi) ensures IsLeaf(p) && RootOf(p) == r && lo <= PageOf(p) < hi {
      AreaMeets(r, lo, hi, p);
    }
  }

  predicate IsTable(x: Role, r: nat) {
    x.At? && !IsLeaf(x.spot) && RootOf(x.spot) == r
  }

  predicate IsPage(x: Role, a: set<Spot>) {
    x.At? && IsLeaf(x.spot) && x.spot in a
  }

  /** A frame stays what it is, or a free frame or one of the pages becomes a table, a page or free. */
  predicate RoleStep(x: Role, y: Role, r: nat, a: set<Spot>) {
    x == y || ((x == Free || IsPage(x, a)) && (y == Free || IsPage(y, a) || IsTable(y, r)))
  }

  /** Frames whose contents the operation must leave alone. */
  predicate Bystander(x: Role, a: set<Spot>) {
    x == Held || (x.At? && IsLeaf(x.spot) && x.spot !in a)
  }

  /** Pages outside `a`, of every page table, are mapped as before. */
  ghost predicate Looks(s: State, s': State, a: set<Spot>) {
    forall p {:trigger Lookup(s'.mem, p)} :: IsLeaf(p) && Root(RootOf(p)) in s.at && p !in a ==>
      Lookup(s'.mem, p) == Lookup(s.mem, p)
  }

  ghost predicate Roles(s: State, s': State, r: nat, a: set<Spot>) {
    && s'.role.Keys == s.role.Keys && s'.mem.Keys == s.role.Keys == s.mem.Keys
    && (forall q :: Root(q) in s.at ==> Root(q) in s'.at)
    && (forall f {:trigger s'.role[f]} :: f in s.role ==> RoleStep(s.role[f], s'.role[f], r, a))
    && (forall f {:trigger s'.mem[f]} :: f in s.role && Bystander(s.role[f], a) ==> s'.mem[f] == s.mem[f])
  }

  ghost predicate Delta(s: State, s': State, r: nat, a: set<Spot>) {
    Good(s') && Looks(s, s', a) && Roles(s, s', r, a)
  }

  lemma LooksTrans(s: State, t: State, u: State, a: set<Spot>)
    requires Looks(s, t, a) && Looks(t, u, a) && forall q :: Root(q) in s.at ==> Root(q) in t.at
    ensures Looks(s, u, a)
  {
    forall p | IsLeaf(p) && Root(RootOf(p)) in s.at && p !in a ensures Lookup(u.mem, p) == Lookup(s.mem, p) {
      assert Lookup(t.mem, p) == Lookup(s.mem, p);
    }
  }

  lemma RolesTrans(s: State, t: State, u: State, r: nat, a: set<Spot>)
    requires Roles(s, t, r, a) && Roles(t, u, r, a)
    ensures Roles(s, u, r, a)
  {
    forall f | f in s.role
      ensures RoleStep(s.role[f], u.role[f], r, a)
      ensures Bystander(s.role[f], a) ==> u.mem[f] == s.mem[f]
    {
      assert RoleStep(s.role[f], t.role[f], r, a) && RoleStep(t.role[f], u.role[f], r, a);
      if Bystander(s.role[f], a) {
        assert t.mem[f] == s.mem[f];
      }
    }
  }

  lemma DeltaTrans(s: State, t: State, u: State, r: nat, a: set<Spot>)
    requires Delta(s, t, r, a) && Delta(t, u, r, a)
    ensures Delta(s, u, r, a)
  {
    LooksTrans(s, t, u, a);
    RolesTrans(s, t, u, r, a);
  }

  lemma DeltaNothing(s: State, r: nat)
    requires Good(s)
    ensures Delta(s, s, r, {})
  {
  }

  /** Adding tables moves no page. */
  lemma Unmoved(s: State, t: State, r: nat, p: Spot)
    requires Delta(s, t, r, {}) && IsLeaf(p) && Root(RootOf(p)) in s.at
    ensures Lookup(t.mem, p) == Lookup(s.mem, p) && Root(RootOf(p)) in t.at
  {
  }

  lemma RolesWider(s: State, s': State, r: nat, a: set<Spot>, b: set<Spot>)
    requires Roles(s, s', r, a) && a <= b
    ensures Roles(s, s', r, b)
  {
    forall f | f in s.role
      ensures RoleStep(s.role[f], s'.role[f], r, b)
      ensures Bystander(s.role[f], b) ==> s'.mem[f] == s.mem[f]
    {
      assert RoleStep(s.role[f], s'.role[f], r, a);
      assert Bystander(s.role[f], b) ==> Bystander(s.role[f], a);
    }
  }

  lemma DeltaWider(s: State, s': State, r: nat, a: set<Spot>, b: set<Spot>)
    requires Delta(s, s', r, a) && a <= b
    ensures Delta(s, s', r, b)
  {
    RolesWider(s, s', r, a, b);
  }

  /** Equal last-level entries mean equal mappings. */
  lemma LooksBy(s: State, s': State, a: set<Spot>)
    requires Good(s) && Good(s') && forall q :: Root(q) in s.at ==> Root(q) in s'.at
    requires forall p {:trigger Lookup(s'.mem, p)} :: IsLeaf(p) && p !in a ==> Entry(s', p.up, p.k) == Entry(s, p.up, p.k)
    ensures Looks(s, s', a)
  {
    forall p | IsLeaf(p) && Root(RootOf(p)) in s.at && p !in a ensures Lookup(s'.mem, p) == Lookup(s.mem, p) {
      LookupMeets(s, p);
      LookupMeets(s', p);
    }
  }

  /** walk() with a free frame to spare: a table is added below entry `k`, and no mapping changes. */
  function Extended(s: State, p: Spot, k: nat): State
    requires Inv(s) && s.free != [] && p in s.at && k < ENTRIES
  {
    Grown(Filled(Taken(s), s.free[0], ZeroPage()), p, k, s.free[0])
  }

  ghost predicate CanExtend(s: State, p: Spot, k: nat) {
    Good(s) && s.free != [] && p in s.at && Upper(p) && k < ENTRIES && (p.Root? ==> k < 256) && Child(p, k) !in s.at
  }

  lemma ExtendedEntry(s: State, p: Spot, k: nat, q: Spot, l: nat)
    requires CanExtend(s, p, k)
    ensures Good(Extended(s, p, k))
    ensures Last(q) ==> Entry(Extended(s, p, k), q, l) == Entry(s, q, l)
  {
    var f := s.free[0];
    var t := Filled(Taken(s), f, ZeroPage());
    TakenKeeps(s);
    FilledKeeps(Taken(s), f, ZeroPage());
    GrownKeeps(t, p, k, f);
    GrownEntry(t, p, k, f, q, l);
  }

  lemma ExtendedRoles(s: State, p: Spot, k: nat)
    requires CanExtend(s, p, k)
    ensures Roles(s, Extended(s, p, k), RootOf(p), {})
  {
    assert s.role[s.at[p]] == At(p) && s.role[s.free[0]] == Free;
    assert IsTable(At(Child(p, k)), RootOf(p));
  }

  lemma ExtendedKeeps(s: State, p: Spot, k: nat)
    requires CanExtend(s, p, k)
    ensures Delta(s, Extended(s, p, k), RootOf(p), {})
  {
    var s' := Extended(s, p, k);
    ExtendedRoles(s, p, k);
    ExtendedEntry(s, p, k, p, k);
    forall q | IsLeaf(q) ensures Entry(s', q.up, q.k) == Entry(s, q.up, q.k) {
      ExtendedEntry(s, p, k, q.up, q.k);
    }
    LooksBy(s, s', {});
  }

  // -------- one page --------

  /** A mapped page has a last-level table; a seated frame is mapped. */
  lemma Mapped(s: State, p: Spot)
    requires Good(s) && IsLeaf(p) && Root(RootOf(p)) in s.at
    ensures Lookup(s.mem, p) == if Present(Entry(s, p.up, p.k)) then Entry(s, p.up, p.k) else 0
    ensures Lookup(s.mem, p) != 0 ==> p.up in s.at
    ensures p in s.at ==> Lookup(s.mem, p) != 0 && Frame(Lookup(s.mem, p)) == s.at[p] && s.role[s.at[p]] == At(p)
  {
    LookupMeets(s, p);
    assert p in s.at ==> Hung(s, p);
  }

  lemma TableFits(s: State, p: Spot, k: nat)
    requires Good(s) && k < ENTRIES
    ensures p in s.at ==> s.at[p] in s.mem && |s.mem[s.at[p]].word| == ENTRIES && Entry(s, p, k) == s.mem[s.at[p]].word[k]
    ensures p !in s.at ==> !Present(Entry(s, p, k))
  {
  }

  lemma FlagsBound(pte: nat)
    ensures Flags(pte) < 1024
  {
  }

  /** Setting the entry of one page changes the mapping of that page and of no other. */
  lemma PageSet(s: State, p: Spot, e: nat)
    requires Good(s) && IsLeaf(p) && Root(RootOf(p)) in s.at && p.up in s.at && p !in s.at
    ensures var s' := Put(s, p.up, p.k, e);
            && Good(s') && Looks(s, s', {p}) && Roles(s, s', RootOf(p), {})
            && Lookup(s'.mem, p) == if Present(e) then e else 0
  {
    var s' := Put(s, p.up, p.k, e);
    PutKeeps(s, p.up, p.k, e);
    PutEntry(s, p.up, p.k, e);
    assert s.role[s.at[p.up]] == At(p.up);
    LookupMeets(s', p);
    forall q | IsLeaf(q) && q != p ensures Entry(s', q.up, q.k) == Entry(s, q.up, q.k) {
      assert q == Child(q.up, q.k) && p == Child(p.up, p.k);
    }
    LooksBy(s, s', {p});
  }

  /** No frame is newly seated where nothing was mapped. */
  lemma SpotFacts(s: State, p: Spot)
    requires Inv(s) && p in s.at
    ensures s.mem.Keys == s.role.Keys && s.at[p] in s.role && s.role[s.at[p]] == At(p) && |s.mem[s.at[p]].word| == ENTRIES
    ensures p.Child? ==> p.up in s.at
  {
    assert Hung(s, p);
  }

  lemma RoleSpot(s: State, f: nat)
    requires Inv(s) && f in s.role && s.role[f].At?
    ensures s.role[f].spot in s.at
  {
    hide Listed, Pointed;
  }

  lemma NotSeated(s: State, t: State, p: Spot)
    requires Good(s) && Good(t) && IsLeaf(p) && Root(RootOf(p)) in s.at && Lookup(s.mem, p) == 0 && Roles(s, t, RootOf(p), {})
    ensures p !in t.at
  {
    hide Inv, Lookup;
    Mapped(s, p);
    if p in t.at {
      SpotFacts(t, p);
      assert RoleStep(s.role[t.at[p]], t.role[t.at[p]], RootOf(p), {});
      RoleSpot(s, t.at[p]);
    }
  }

  /** mappages() after walk() found or made the last-level table. */
  lemma PageMapped(s: State, t: State, u: State, p: Spot, f: nat, perm: nat)
    requires Good(s) && IsLeaf(p) && Root(RootOf(p)) in s.at && Lookup(s.mem, p) == 0 && f < MAXFRAME && perm < 1024
    requires Delta(s, t, RootOf(p), {}) && p.up in t.at && u == Put(t, p.up, p.k, MakePte(f, perm))
    ensures Good(u) && Looks(s, u, {p}) && Roles(s, u, RootOf(p), {}) && Lookup(u.mem, p) == MakePte(f, perm)
  {
    NotSeated(s, t, p);
    PageSet(t, p, MakePte(f, perm));
    PteRoundTrip(f, perm);
    LooksTrans(s, t, u, {p});
    RolesTrans(s, t, u, RootOf(p), {});
  }

  /** A page is mapped with `perm` to a frame of its own that holds `page`. */
  ghost predicate Holds(s: State, p: Spot, perm: nat, page: Page)
    requires IsLeaf(p)
  {
    var e := Lookup(s.mem, p);
    && Frame(e) in s.role && Frame(e) in s.mem
    && e == MakePte(Frame(e), perm) && s.role[Frame(e)] == At(p) && s.mem[Frame(e)] == page
  }

  lemma TakenLooks(s: State, page: Page)
    requires Good(s) && s.free != [] && |page.word| == ENTRIES && s.free[0] in s.mem
    ensures var t := Filled(Taken(s), s.free[0], page); Good(t) && Looks(s, t, {})
  {
    var t := Filled(Taken(s), s.free[0], page);
    TakenKeeps(s);
    FilledKeeps(Taken(s), s.free[0], page);
    SamePointed(s, t);
    forall p | IsLeaf(p) ensures Entry(t, p.up, p.k) == Entry(s, p.up, p.k) { assert !IsLeaf(p.up); }
    LooksBy(s, t, {});
  }

  lemma GivenLooks(s: State, f: nat)
    requires Good(s) && f in s.role && s.role[f] == Held
    ensures Good(Given(s, f)) && Looks(s, Given(s, f), {})
  {
    GivenKeeps(s, f);
    SamePointed(s, Given(s, f));
    forall p | IsLeaf(p) ensures Entry(Given(s, f), p.up, p.k) == Entry(s, p.up, p.k) { assert !IsLeaf(p.up); }
    LooksBy(s, Given(s, f), {});
  }

  /** The fresh frame goes from free to the page at `p`, or back to free; the others are as walk() left
      them. */
  lemma StepWider(x: Role, y: Role, r: nat, p: Spot)
    requires IsLeaf(p)
    ensures RoleStep(x, y, r, {}) ==> RoleStep(x, y, r, {p})
    ensures Bystander(x, {p}) ==> Bystander(x, {})
    ensures x == Free && (y == Free || y == At(p)) ==> RoleStep(x, y, r, {p}) && !Bystander(x, {p})
  {
  }

  lemma RolesThrough(s: State, t0: State, t: State, u: State, p: Spot, f: nat)
    requires Good(s) && f in s.role && s.role[f] == Free && t0.mem.Keys == s.mem.Keys && IsLeaf(p)
    requires t0.at == s.at && t0.role == s.role[f := Held] && (forall g :: g in s.mem && g != f ==> t0.mem[g] == s.mem[g])
    requires Roles(t0, t, RootOf(p), {}) && u.role.Keys == s.role.Keys == u.mem.Keys
    requires forall q :: Root(q) in t.at ==> Root(q) in u.at
    requires forall g :: g in s.mem && g != f ==> u.mem[g] == t.mem[g] && u.role[g] == t.role[g]
    requires u.role[f] == Free || u.role[f] == At(p)
    ensures Roles(s, u, RootOf(p), {p})
  {
    hide Inv, RoleStep, Bystander, IsLeaf;
    forall g | g in s.role
      ensures RoleStep(s.role[g], u.role[g], RootOf(p), {p})
      ensures Bystander(s.role[g], {p}) ==> u.mem[g] == s.mem[g]
    {
      StepWider(s.role[g], u.role[g], RootOf(p), p);
      if g != f {
        assert t0.role[g] == s.role[g] && t.role[g] == u.role[g];
        assert t.mem[g] == u.mem[g];
      }
    }
  }

  ghost predicate CanAdd(s: State, p: Spot, f: nat, page: Page) {
    && Good(s) && IsLeaf(p) && Root(RootOf(p)) in s.at && Lookup(s.mem, p) == 0
    && s.free != [] && f == s.free[0] && f in s.mem && |page.word| == ENTRIES
  }

  lemma AddedGood(s: State, t: State, p: Spot, f: nat, page: Page)
    requires CanAdd(s, p, f, page) && Roles(Filled(Taken(s), f, page), t, RootOf(p), {})
    requires Good(t) && f in t.role && t.role[f] == Held && Lookup(t.mem, p) != 0 && Frame(Lookup(t.mem, p)) == f
    ensures Good(Seated(t, p, f))
  {
    TakenLooks(s, page);
    assert Lookup(Filled(Taken(s), f, page).mem, p) == 0;
    NotSeated(Filled(Taken(s), f, page), t, p);
    Mapped(t, p);
    SeatedKeeps(t, p, f);
  }

  /** A fresh frame, filled, mapped at a page and seated there. */
  lemma PageAdded(s: State, t: State, p: Spot, f: nat, page: Page, perm: nat)
    requires CanAdd(s, p, f, page) && perm < 1024
    requires var t0 := Filled(Taken(s), f, page); Looks(t0, t, {p}) && Roles(t0, t, RootOf(p), {})
    requires Good(t) && Lookup(t.mem, p) == MakePte(f, perm)
    ensures Delta(s, Seated(t, p, f), RootOf(p), {p}) && Holds(Seated(t, p, f), p, perm, page)
  {
    hide Lookup, Pointed, Placed;
    var t0 := Filled(Taken(s), f, page);
    assert RoleStep(t0.role[f], t.role[f], RootOf(p), {}) && Bystander(t0.role[f], {});
    PteRoundTrip(f, perm);
    TakenLooks(s, page);
    AddedGood(s, t, p, f, page);
    LooksTrans(s, t0, t, {p});
    RolesThrough(s, t0, t, Seated(t, p, f), p, f);
  }

  /** A fresh frame that could not be mapped is given back. */
  lemma PageRefused(s: State, t: State, p: Spot, f: nat, page: Page)
    requires CanAdd(s, p, f, page) && Delta(Filled(Taken(s), f, page), t, RootOf(p), {})
    ensures Delta(s, Given(t, f), RootOf(p), {p}) && Lookup(Given(t, f).mem, p) == 0
  {
    hide Lookup, Pointed, Placed;
    var t0 := Filled(Taken(s), f, page);
    assert RoleStep(t0.role[f], t.role[f], RootOf(p), {});
    TakenLooks(s, page);
    GivenLooks(t, f);
    LooksTrans(s, t0, t, {});
    LooksTrans(s, t, Given(t, f), {});
    RolesThrough(s, t0, t, Given(t, f), p, f);
  }

  /** uvmunmap() of a page that owns its frame: the frame is freed, then the entry cleared. */
  function Dropped(s: State, p: Spot): State
    requires Inv(s) && IsLeaf(p) && p in s.at && p.up in s.at
  {
    Put(Given(Unseated(s, p), s.at[p]), p.up, p.k, 0)
  }

  lemma UnseatedLooks(s: State, p: Spot)
    requires Good(s) && IsLeaf(p) && p in s.at
    ensures var t, f := Unseated(s, p), s.at[p];
            Good(t) && f in t.role && t.role[f] == Held && Good(Given(t, f)) && Looks(s, Given(t, f), {})
  {
    var t, f := Unseated(s, p), s.at[p];
    UnseatedKeeps(s, p);
    GivenLooks(t, f);
    assert Looks(s, t, {});
    LooksTrans(s, t, Given(t, f), {});
  }

  // -------- stretches of pages --------

  ghost predicate Bare(s: State, a: set<Spot>) {
    forall p {:trigger Lookup(s.mem, p)} :: IsLeaf(p) && p in a ==> Lookup(s.mem, p) == 0
  }

  /** From `s` to `s'`, exactly the mappings of the pages in `a` are gone and exactly their frames freed. */
  ghost predicate Unmapped(s: State, s': State, a: set<Spot>) {
    && Good(s') && Looks(s, s', a) && Bare(s', a)
    && (forall q :: Root(q) in s.at ==> Root(q) in s'.at)
    && s'.role.Keys == s.role.Keys && s'.mem.Keys == s.role.Keys == s.mem.Keys
    && (forall f {:trigger s'.role[f]} :: f in s.role ==> s'.role[f] == if IsPage(s.role[f], a) then Free else s.role[f])
    && (forall f {:trigger s'.mem[f]} :: f in s.role && Bystander(s.role[f], a) ==> s'.mem[f] == s.mem[f])
  }

  lemma UnmappedNothing(s: State)
    requires Good(s)
    ensures Unmapped(s, s, {})
  {
  }

  /** Clearing the entry of a page that has no frame of its own. */
  lemma UnmapEntry(s: State, s': State, p: Spot)
    requires Good(s) && IsLeaf(p) && Root(RootOf(p)) in s.at && p !in s.at
    requires s' == s || (p.up in s.at && s' == Put(s, p.up, p.k, 0))
    requires s' == s ==> Lookup(s.mem, p) == 0
    ensures Unmapped(s, s', {p})
  {
    if s' != s {
      PageSet(s, p, 0);
    }
    forall f | f in s.role ensures !IsPage(s.role[f], {p}) {}
  }

  lemma DroppedRoles(s: State, p: Spot)
    requires Good(s) && IsLeaf(p) && p in s.at && p.up in s.at
    ensures var u := Dropped(s, p);
            && u.role == s.role[s.at[p] := Free] && u.mem.Keys == s.mem.Keys
            && (forall f {:trigger u.mem[f]} :: f in s.role && Bystander(s.role[f], {p}) ==> u.mem[f] == s.mem[f])
            && (forall f :: f in s.role && IsPage(s.role[f], {p}) ==> f == s.at[p])
  {
    assert s.role[s.at[p]] == At(p) && s.role[s.at[p.up]] == At(p.up);
  }

  lemma UnmapPage(s: State, p: Spot)
    requires Good(s) && IsLeaf(p) && Root(RootOf(p)) in s.at && p in s.at
    ensures p.up in s.at && Unmapped(s, Dropped(s, p), {p})
  {
    hide Inv, Lookup, Looks, RoleStep, Put;
    SpotFacts(s, p);
    SpotFacts(s, p.up);
    UnseatedLooks(s, p);
    var t := Given(Unseated(s, p), s.at[p]);
    PageSet(t, p, 0);
    LooksWider(s, t, p);
    LooksTrans(s, t, Dropped(s, p), {p});
    DroppedRoles(s, p);
  }

  lemma LooksWider(s: State, t: State, p: Spot)
    requires Looks(s, t, {})
    ensures Looks(s, t, {p})
  {
  }

  lemma UnmapMore(s: State, t: State, u: State, a: set<Spot>, p: Spot)
    requires Unmapped(s, t, a) && Unmapped(t, u, {p}) && IsLeaf(p) && Root(RootOf(p)) in s.at && p !in a
    requires forall q :: q in a ==> IsLeaf(q) && RootOf(q) == RootOf(p)
    ensures Unmapped(s, u, a + {p})
  {
    hide Good, Lookup;
    forall q | IsLeaf(q) && q in a + {p} ensures Lookup(u.mem, q) == 0 {
      assert q != p ==> Lookup(u.mem, q) == Lookup(t.mem, q);
    }
    LooksTrans(s, t, u, a + {p});
    forall f | f in s.role
      ensures u.role[f] == if IsPage(s.role[f], a + {p}) then Free else s.role[f]
      ensures Bystander(s.role[f], a + {p}) ==> u.mem[f] == s.mem[f]
    {
      assert t.role[f] == if IsPage(s.role[f], a) then Free else s.role[f];
      assert Bystander(s.role[f], a + {p}) ==> t.mem[f] == s.mem[f];
    }
  }

  lemma UnmappedDelta(s: State, s': State, r: nat, a: set<Spot>)
    requires Good(s) && Unmapped(s, s', a)
    ensures Delta(s, s', r, a)
  {
  }

  /** A page that was not unmapped is still seated. */
  lemma StillSeated(s: State, t: State, a: set<Spot>, p: Spot)
    requires Good(s) && Unmapped(s, t, a) && p !in a
    ensures p in s.at <==> p in t.at
  {
    assert p in s.at ==> t.role[s.at[p]] == At(p);
    assert p in t.at ==> t.role[t.at[p]] == s.role[t.at[p]];
  }

  /** What happens to some pages leaves the others as they are. */
  lemma HoldsKept(s: State, s': State, r: nat, a: set<Spot>, p: Spot, perm: nat, page: Page)
    requires IsLeaf(p) && Holds(s, p, perm, page) && Delta(s, s', r, a) && Root(RootOf(p)) in s.at && p !in a
    ensures Holds(s', p, perm, page)
  {
    var f := Frame(Lookup(s.mem, p));
    assert RoleStep(s.role[f], s'.role[f], r, a) && Bystander(s.role[f], a);
    assert s'.mem[f] == s.mem[f];
  }

  /** When the pages were unmapped before and are unmapped after, every data frame is back where it was:
      only tables may have been added. */
  lemma Restored(s: State, s': State, r: nat, a: set<Spot>)
    requires Good(s) && Root(r) in s.at && Delta(s, s', r, a) && Bare(s, a) && Bare(s', a)
    requires forall q :: q in a ==> IsLeaf(q) && RootOf(q) == r
    ensures Delta(s, s', r, {})
  {
    forall f | f in s.role
      ensures RoleStep(s.role[f], s'.role[f], r, {})
      ensures Bystander(s.role[f], {}) ==> s'.mem[f] == s.mem[f]
    {
      NoPage(s, r, a, f);
      NoPage(s', r, a, f);
      assert RoleStep(s.role[f], s'.role[f], r, a);
      assert Bystander(s.role[f], {}) ==> Bystander(s.role[f], a);
    }
    forall p | IsLeaf(p) && Root(RootOf(p)) in s.at ensures Lookup(s'.mem, p) == Lookup(s.mem, p) {
      assert p in a ==> Lookup(s.mem, p) == 0 && Lookup(s'.mem, p) == 0;
    }
  }

  lemma NoPage(s: State, r: nat, a: set<Spot>, f: nat)
    requires Good(s) && Root(r) in s.at && f in s.role && Bare(s, a) && forall q :: q in a ==> IsLeaf(q) && RootOf(q) == r
    ensures !IsPage(s.role[f], a)
  {
    if IsPage(s.role[f], a) {
      Mapped(s, s.role[f].spot);
    }
  }

  /** The pages from `lo` are mapped to the `n` frames from `f`. */
  ghost predicate MapsTo(s: State, r: nat, lo: nat, n: nat, f: nat, perm: nat)
    requires lo + n <= MAXPAGE
  {
    forall p {:trigger Lookup(s.mem, p)} :: IsLeaf(p) && p in Area(r, lo, lo + n) ==>
      PageOf(p) >= lo && Lookup(s.mem, p) == MakePte(f + (PageOf(p) - lo), perm)
  }

  // -------- growing and copying --------

  /** What a page is to be mapped to. */
  datatype Want = Want(perm: nat, page: Page)

  /** The pages of `a` are mapped to frames of their own as `plan` says, and the others of them not at all. */
  ghost predicate Follows(s: State, a: set<Spot>, plan: map<Spot, Want>) {
    forall p {:trigger Lookup(s.mem, p)} :: IsLeaf(p) && p in a ==>
      if p in plan then Holds(s, p, plan[p].perm, plan[p].page) else Lookup(s.mem, p) == 0
  }

  /** From `s` to `t`, the pages `done` of `all` follow the plan, `rest` are still unmapped, and nothing else
      has changed but that tables may be added. */
  ghost predicate Growing(s: State, t: State, r: nat, all: set<Spot>, done: set<Spot>, rest: set<Spot>, plan: map<Spot, Want>) {
    Delta(s, t, r, all) && Follows(t, done, plan) && Bare(t, rest)
  }

  ghost predicate PagesOf(a: set<Spot>, r: nat) {
    forall q :: q in a ==> IsLeaf(q) && RootOf(q) == r
  }

  lemma GrowMore(s: State, t: State, u: State, r: nat, all: set<Spot>, done: set<Spot>, p: Spot, rest: set<Spot>, plan: map<Spot, Want>)
    requires Growing(s, t, r, all, done, rest + {p}, plan) && Root(r) in s.at && Delta(t, u, r, {p}) && IsLeaf(p) && p in all
    requires p in plan && Holds(u, p, plan[p].perm, plan[p].page) && p !in done && p !in rest && PagesOf(done, r) && PagesOf(rest, r)
    ensures Growing(s, u, r, all, done + {p}, rest, plan)
  {
    hide Inv, Lookup;
    DeltaWider(t, u, r, {p}, all);
    DeltaTrans(s, t, u, r, all);
    forall q | IsLeaf(q) && q in done + {p}
      ensures if q in plan then Holds(u, q, plan[q].perm, plan[q].page) else Lookup(u.mem, q) == 0
    {
      if q != p {
        assert Lookup(u.mem, q) == Lookup(t.mem, q);
        if q in plan { HoldsKept(t, u, r, {p}, q, plan[q].perm, plan[q].page); }
      }
    }
  }

  /** One page could not be added: what was mapped is still mapped, what was not is not. */
  lemma GrowStops(s: State, t: State, u: State, r: nat, all: set<Spot>, done: set<Spot>, p: Spot, rest: set<Spot>, plan: map<Spot, Want>)
    requires Growing(s, t, r, all, done, rest + {p}, plan) && Root(r) in s.at && Delta(t, u, r, {p}) && IsLeaf(p) && p in all
    requires Lookup(u.mem, p) == 0 && p !in done && p !in rest && PagesOf(done, r) && PagesOf(rest, r)
    ensures Growing(s, u, r, all, done, rest + {p}, plan)
  {
    hide Inv, Lookup;
    DeltaWider(t, u, r, {p}, all);
    DeltaTrans(s, t, u, r, all);
    forall q | IsLeaf(q) && q in done
      ensures if q in plan then Holds(u, q, plan[q].perm, plan[q].page) else Lookup(u.mem, q) == 0
    {
      assert Lookup(u.mem, q) == Lookup(t.mem, q);
      if q in plan { HoldsKept(t, u, r, {p}, q, plan[q].perm, plan[q].page); }
    }
  }

  /** A page that is not to be mapped is left alone. */
  lemma GrowSkip(s: State, t: State, r: nat, all: set<Spot>, done: set<Spot>, p: Spot, rest: set<Spot>, plan: map<Spot, Want>)
    requires Growing(s, t, r, all, done, rest + {p}, plan) && p !in plan
    ensures Growing(s, t, r, all, done + {p}, rest, plan)
  {
    forall q | IsLeaf(q) && q in done + {p}
      ensures if q in plan then Holds(t, q, plan[q].perm, plan[q].page) else Lookup(t.mem, q) == 0
    {
      var e := Lookup(t.mem, q);
      assert q == p ==> e == 0;
    }
  }

  lemma GrowNothing(s: State, r: nat, all: set<Spot>, plan: map<Spot, Want>)
    requires Good(s) && Bare(s, all)
    ensures Growing(s, s, r, all, {}, all, plan)
  {
    DeltaNothing(s, r);
    DeltaWider(s, s, r, {}, all);
  }

  /** After a failed operation has unmapped what it had mapped, no page and no data frame has changed. */
  lemma GrowUndone(s: State, t: State, u: State, r: nat, all: set<Spot>, done: set<Spot>, rest: set<Spot>, plan: map<Spot, Want>)
    requires Good(s) && Root(r) in s.at && Growing(s, t, r, all, done, rest, plan) && Unmapped(t, u, done)
    requires all == done + rest && done !! rest && Bare(s, all) && PagesOf(all, r)
    ensures Delta(s, u, r, {})
  {
    hide Inv, Lookup;
    UnmappedDelta(t, u, r, done);
    DeltaWider(t, u, r, done, all);
    DeltaTrans(s, t, u, r, all);
    forall q | IsLeaf(q) && q in all ensures Lookup(u.mem, q) == 0 {
      assert q in rest ==> Lookup(u.mem, q) == Lookup(t.mem, q);
    }
    Restored(s, u, r, all);
  }
}
