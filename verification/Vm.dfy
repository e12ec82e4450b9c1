/**
  The frame allocator of kernel/kalloc.c and the page-table operations of kernel/vm.c, on a memory of
  frames of 512 words. A physical address of a page is 4096 times its frame number.
*/
module Vm {
  import Lazy
  import opened Options
  import opened Sv39
  import opened UserImage
  import opened VmFree
  import opened VmModel
  import opened VmSpace

  function PgRoundUp(sz: nat): nat {
    (sz + 4096 - 1) / 4096 * 4096
  }

  /** The table of `level` on the way to the page at `p`. */
  function Above(p: Spot, level: nat): (q: Spot)
    requires IsLeaf(p)
    ensures level > 0 ==> Upper(q)
    ensures RootOf(q) == RootOf(p)
  {
    if level == 0 then p.up else if level == 1 then p.up.up else p.up.up.up
  }

  /** Without a table on the way there is no last-level table. */
  lemma NoTable(s: State, p: Spot, level: nat)
    requires Good(s) && IsLeaf(p) && 0 < level <= 2 && Above(p, level - 1) !in s.at
    ensures p.up !in s.at
  {
    assert p.up in s.at ==> Hung(s, p.up);
  }

  lemma FrameAt(s: State, q: Spot)
    requires Inv(s) && q in s.at
    ensures 0 < s.at[q] && (q.Root? ==> s.at[q] == q.r)
  {
  }

  /** From `s` to `t`, the first `n` of the pages from `lo` to `hi` have become mapped to the frames from
      `f`, the others of them are unmapped, and nothing else has changed but that tables may be added. */
  ghost predicate Mapping(s: State, t: State, r: nat, lo: nat, hi: nat, n: nat, f: nat, perm: nat)
    requires lo + n <= hi <= MAXPAGE
  {
    && Good(t) && Looks(s, t, Area(r, lo, hi)) && Roles(s, t, r, {})
    && MapsTo(t, r, lo, n, f, perm) && Bare(t, Area(r, lo + n, hi))
  }

  /** The first page of a stretch and the rest. */
  lemma AreaFront(r: nat, lo: nat, hi: nat)
    requires lo < hi <= MAXPAGE
    ensures LeafSpot(r, lo) in Area(r, lo, hi) && LeafSpot(r, lo) !in Area(r, lo + 1, hi) && Area(r, lo + 1, hi) <= Area(r, lo, hi)
  {
    PageRoundTrip(r, lo);
    AreaMeets(r, lo, hi, LeafSpot(r, lo));
    AreaMeets(r, lo + 1, hi, LeafSpot(r, lo));
    forall p | p in Area(r, lo + 1, hi) ensures p in Area(r, lo, hi) {
      AreaMeets(r, lo + 1, hi, p);
      AreaMeets(r, lo, hi, p);
    }
  }

  /** The pages before `v` and page `v` itself. */
  lemma AreaBack(r: nat, lo: nat, v: nat, hi: nat)
    requires lo <= v < hi <= MAXPAGE
    ensures Area(r, lo, v + 1) == Area(r, lo, v) + {LeafSpot(r, v)}
    ensures LeafSpot(r, v) !in Area(r, lo, v) && LeafSpot(r, v) in Area(r, lo, hi)
    ensures forall p :: p in Area(r, lo, v) ==> IsLeaf(p) && RootOf(p) == r
  {
    PageRoundTrip(r, v);
    AreaMeets(r, lo, v, LeafSpot(r, v));
    AreaMeets(r, lo, hi, LeafSpot(r, v));
    AreaLeaves(r, lo, v);
  }

  lemma MappingNothing(s: State, r: nat, lo: nat, hi: nat, f: nat, perm: nat)
    requires Good(s) && lo <= hi <= MAXPAGE && Bare(s, Area(r, lo, hi))
    ensures Mapping(s, s, r, lo, hi, 0, f, perm)
  {
  }

  lemma OnePage(r: nat, v: nat)
    requires v < MAXPAGE
    ensures Area(r, v, v + 1) == {LeafSpot(r, v)} && Area(r, v, v) == Area(r, v + 1, v + 1) == {}
  {
    assert Area(r, v, v) == {};
  }

  /** mappages() of a single page maps it, or changes no page at all. */
  lemma OneMapped(s: State, t: State, r: nat, v: nat, n: nat, f: nat, perm: nat, p: Spot)
    requires v < MAXPAGE && n <= 1 && Mapping(s, t, r, v, v + 1, n, f, perm) && p == LeafSpot(r, v) && Lookup(s.mem, p) == 0
    ensures Good(t) && Roles(s, t, r, {})
    ensures n == 1 ==> Looks(s, t, {p}) && Lookup(t.mem, p) == MakePte(f, perm)
    ensures n == 0 ==> Delta(s, t, r, {})
  {
    hide Inv, Lookup, LeafSpot, PageOf, RootOf, IsLeaf, RoleStep, Bystander;
    OnePage(r, v);
    PageRoundTrip(r, v);
    if n == 0 {
      forall q | IsLeaf(q) && Root(RootOf(q)) in s.at ensures Lookup(t.mem, q) == Lookup(s.mem, q) {
        assert q == p ==> Lookup(t.mem, p) == 0;
      }
    }
  }

  lemma CanAddNow(s: State, p: Spot, f: nat, page: Page)
    requires Good(s) && IsLeaf(p) && Root(RootOf(p)) in s.at && Lookup(s.mem, p) == 0
    requires s.free != [] && f == s.free[0] && |page.word| == ENTRIES
    ensures f in s.mem && f < MAXFRAME && CanAdd(s, p, f, page)
  {
  }

  lemma Unlooked(s: State, t: State, p: Spot)
    requires Looks(s, t, {}) && IsLeaf(p) && Root(RootOf(p)) in s.at
    ensures Lookup(t.mem, p) == Lookup(s.mem, p)
  {
  }

  lemma StillHeld(s: State, t: State, r: nat, f: nat)
    requires Roles(s, t, r, {}) && f in s.role && s.role[f] == Held
    ensures f in t.role && t.role[f] == Held
  {
    assert RoleStep(s.role[f], t.role[f], r, {});
  }

  lemma MapTurn(s: State, t: State, u: State, r: nat, lo: nat, hi: nat, n: nat, f: nat, perm: nat)
    requires lo <= lo + n < hi <= MAXPAGE && Root(r) in t.at && Mapping(s, t, r, lo, hi, n, f, perm)
    requires Good(u) && Roles(t, u, r, {})
    requires Looks(t, u, {LeafSpot(r, lo + n)}) && Lookup(u.mem, LeafSpot(r, lo + n)) == MakePte(f + n, perm)
    ensures Mapping(s, u, r, lo, hi, n + 1, f, perm)
  {
    hide Good, Lookup, PageOf, MakePte, LeafSpot, RootOf, IsLeaf, RoleStep, Bystander;
    var p := LeafSpot(r, lo + n);
    PageRoundTrip(r, lo + n);
    AreaBack(r, lo, lo + n, hi);
    AreaFront(r, lo + n, hi);
    AreaLeaves(r, lo + n, hi);
    forall q | IsLeaf(q) && q in Area(r, lo, lo + n) + {p}
      ensures PageOf(q) >= lo && Lookup(u.mem, q) == MakePte(f + (PageOf(q) - lo), perm)
    {
      assert q != p ==> Lookup(u.mem, q) == Lookup(t.mem, q);
    }
    forall q | IsLeaf(q) && q in Area(r, lo + n + 1, hi) ensures Lookup(u.mem, q) == 0 {
      assert q != p && Lookup(u.mem, q) == Lookup(t.mem, q);
    }
    LooksTrans(s, t, u, Area(r, lo, hi));
    RolesTrans(s, t, u, r, {});
  }

  lemma MapStops(s: State, t: State, u: State, r: nat, lo: nat, hi: nat, n: nat, f: nat, perm: nat)
    requires lo <= lo + n < hi <= MAXPAGE && Root(r) in t.at && Mapping(s, t, r, lo, hi, n, f, perm)
    requires Good(u) && Roles(t, u, r, {}) && Looks(t, u, {})
    ensures Mapping(s, u, r, lo, hi, n, f, perm)
  {
    hide Good, Lookup, PageOf, MakePte, LeafSpot, RootOf, IsLeaf, RoleStep, Bystander;
    AreaLeaves(r, lo, lo + n);
    AreaLeaves(r, lo + n, hi);
    LooksTrans(s, t, u, Area(r, lo, hi));
    RolesTrans(s, t, u, r, {});
  }

  /** The mapped pages of `a` own the frames they are mapped to; or none of them does. */
  ghost predicate Owns(s: State, a: set<Spot>, own: bool) {
    forall p {:trigger Lookup(s.mem, p)} :: IsLeaf(p) && p in a && Lookup(s.mem, p) != 0 ==> (own <==> p in s.at)
  }

  lemma OwnsStill(s: State, t: State, a: set<Spot>, b: set<Spot>, own: bool, p: Spot)
    requires Good(s) && Owns(s, a, own) && Unmapped(s, t, b) && IsLeaf(p) && p in a && p !in b && Root(RootOf(p)) in s.at
    ensures Lookup(t.mem, p) != 0 ==> (own <==> p in t.at)
  {
    StillSeated(s, t, b, p);
    assert Lookup(t.mem, p) == Lookup(s.mem, p);
  }

  lemma FollowersOwn(s: State, a: set<Spot>, plan: map<Spot, Want>)
    requires Good(s) && Follows(s, a, plan)
    ensures Owns(s, a, true)
  {
    forall p | IsLeaf(p) && p in a && Lookup(s.mem, p) != 0 ensures p in s.at {
      assert Holds(s, p, plan[p].perm, plan[p].page);
    }
  }

  /** Page `v` splits the pages from `lo` to `hi`. */
  lemma AreaSplit(r: nat, lo: nat, v: nat, hi: nat)
    requires lo <= v <= hi <= MAXPAGE
    ensures Area(r, lo, hi) == Area(r, lo, v) + Area(r, v, hi) && Area(r, lo, v) !! Area(r, v, hi)
    ensures PagesOf(Area(r, lo, hi), r) && PagesOf(Area(r, lo, v), r) && PagesOf(Area(r, v, hi), r)
  {
    forall p | true ensures p in Area(r, lo, hi) <==> p in Area(r, lo, v) || p in Area(r, v, hi)
      ensures !(p in Area(r, lo, v) && p in Area(r, v, hi))
    {
      AreaMeets(r, lo, hi, p);
      AreaMeets(r, lo, v, p);
      AreaMeets(r, v, hi, p);
    }
    AreaLeaves(r, lo, hi);
    AreaLeaves(r, lo, v);
    AreaLeaves(r, v, hi);
  }

  lemma AreaTurn(r: nat, lo: nat, v: nat, hi: nat)
    requires lo <= v < hi <= MAXPAGE
    ensures var p := LeafSpot(r, v);
            && Area(r, lo, v + 1) == Area(r, lo, v) + {p} && Area(r, v, hi) == Area(r, v + 1, hi) + {p}
            && p !in Area(r, lo, v) && p !in Area(r, v + 1, hi) && p in Area(r, lo, hi)
            && PagesOf(Area(r, lo, v), r) && PagesOf(Area(r, v + 1, hi), r)
  {
    AreaSplit(r, lo, v, hi);
    AreaSplit(r, lo, v + 1, hi);
    OnePage(r, v);
    AreaSplit(r, v, v + 1, hi);
  }

  lemma PagesMeet(sz: nat, v: nat)
    ensures v * 4096 < sz <==> v < Pages(sz)
    ensures Pages(v * 4096) == v && PgRoundUp(sz) == Pages(sz) * 4096
  {
  }

  lemma PagesUpTo(oldsz: nat, newsz: nat)
    requires oldsz <= newsz <= MAXVA
    ensures Pages(oldsz) <= Pages(newsz) <= MAXPAGE
  {
  }

  lemma EmptyArea(r: nat, lo: nat, hi: nat)
    requires lo <= hi <= MAXPAGE
    ensures Area(r, lo, lo) == {} && Area(r, hi, hi) == {}
  {
  }

  lemma PermBound(xperm: nat)
    requires xperm < 1024
    ensures Or(Or(PTE_R, PTE_U), xperm) < 1024
  {
    assert Shl(1, 10) == 1024;
    OrBound(PTE_R, PTE_U, 10);
    OrBound(Or(PTE_R, PTE_U), xperm, 10);
  }

  lemma GrownAll(s: State, t: State, r: nat, lo: nat, hi: nat, perm: nat)
    requires lo <= hi <= MAXPAGE
    requires Growing(s, t, r, Area(r, lo, hi), Area(r, lo, hi), Area(r, hi, hi), ZeroPlan(Area(r, lo, hi), perm))
    ensures Delta(s, t, r, Area(r, lo, hi)) && Follows(t, Area(r, lo, hi), ZeroPlan(Area(r, lo, hi), perm))
  {
  }

  /** Every page from `lo` to `hi` is to hold zeroes. */
  function ZeroPlan(a: set<Spot>, perm: nat): map<Spot, Want> {
    map p | p in a :: Want(perm, ZeroPage())
  }

  /** The same page of another page table. */
  function Twin(p: Spot, o: nat): (q: Spot)
    requires IsLeaf(p)
    ensures IsLeaf(q) && RootOf(q) == o
  {
    Child(Child(Child(Root(o), p.up.up.k), p.up.k), p.k)
  }

  /** The child's pages are to be mapped as the parent's are, to copies of their contents. */
  ghost function CopyPlan(s: State, o: nat, n: nat, hi: nat): map<Spot, Want>
    requires hi <= MAXPAGE
  {
    map p | p in Area(n, 0, hi) && IsLeaf(p) && Lookup(s.mem, Twin(p, o)) != 0 && Frame(Lookup(s.mem, Twin(p, o))) in s.mem ::
      Want(Flags(Lookup(s.mem, Twin(p, o))), s.mem[Frame(Lookup(s.mem, Twin(p, o)))])
  }

  /** Two different page tables; the parent's pages below `hi` own their frames, the child has none. */
  ghost predicate CanCopy(s: State, o: nat, n: nat, hi: nat) {
    hi <= MAXPAGE && o != n && Root(o) in s.at && Root(n) in s.at && Owns(s, Area(o, 0, hi), true) && Bare(s, Area(n, 0, hi))
  }

  lemma CopyStart(s: State, o: nat, n: nat, hi: nat)
    requires Good(s) && CanCopy(s, o, n, hi)
    ensures Growing(s, s, n, Area(n, 0, hi), Area(n, 0, 0), Area(n, 0, hi), CopyPlan(s, o, n, hi))
  {
    EmptyArea(n, 0, hi);
    GrowNothing(s, n, Area(n, 0, hi), CopyPlan(s, o, n, hi));
  }

  lemma CopyDone(s: State, t: State, n: nat, hi: nat, plan: map<Spot, Want>)
    requires hi <= MAXPAGE && Growing(s, t, n, Area(n, 0, hi), Area(n, 0, hi), Area(n, hi, hi), plan)
    ensures Delta(s, t, n, Area(n, 0, hi)) && Follows(t, Area(n, 0, hi), plan)
  {
  }

  lemma PlanMeets(s: State, o: nat, n: nat, hi: nat, v: nat)
    requires v < hi <= MAXPAGE
    ensures var e, p := Lookup(s.mem, LeafSpot(o, v)), LeafSpot(n, v);
            && (p in CopyPlan(s, o, n, hi) <==> e != 0 && Frame(e) in s.mem)
            && (p in CopyPlan(s, o, n, hi) ==> CopyPlan(s, o, n, hi)[p] == Want(Flags(e), s.mem[Frame(e)]))
  {
    hide Lookup, Px, Frame, Flags;
    PageRoundTrip(n, v);
    AreaMeets(n, 0, hi, LeafSpot(n, v));
    assert Twin(LeafSpot(n, v), o) == LeafSpot(o, v);
  }

  /** While the child grows, the parent's page is mapped as before, to the same contents, and the child's page
      is not yet mapped. */
  lemma CopySource(s: State, t: State, o: nat, n: nat, v: nat, hi: nat)
    requires v < hi && Good(s) && CanCopy(s, o, n, hi)
    requires Growing(s, t, n, Area(n, 0, hi), Area(n, 0, v), Area(n, v, hi), CopyPlan(s, o, n, hi))
    ensures Root(o) in t.at && Root(n) in t.at && Lookup(t.mem, LeafSpot(n, v)) == 0
    ensures var e, p := Lookup(t.mem, LeafSpot(o, v)), LeafSpot(n, v);
            && (p in CopyPlan(s, o, n, hi) <==> e != 0)
            && (e != 0 ==> Frame(e) in t.mem && |t.mem[Frame(e)].word| == ENTRIES)
            && (e != 0 ==> CopyPlan(s, o, n, hi)[p] == Want(Flags(e), t.mem[Frame(e)]))
            && e == Lookup(s.mem, LeafSpot(o, v))
  {
    hide Lookup, LeafSpot, PageOf, Frame, Flags, CopyPlan, Listed, Placed, Pointed, Follows;
    var q, p := LeafSpot(o, v), LeafSpot(n, v);
    PageRoundTrip(n, v);
    PageRoundTrip(o, v);
    AreaMeets(n, v, hi, p);
    AreaMeets(n, 0, hi, q);
    AreaMeets(o, 0, hi, q);
    CopyFrame(s, t, o, n, q, hi);
    PlanMeets(s, o, n, hi, v);
  }

  lemma CopyFrame(s: State, t: State, o: nat, n: nat, q: Spot, hi: nat)
    requires Good(s) && CanCopy(s, o, n, hi) && Delta(s, t, n, Area(n, 0, hi)) && IsLeaf(q) && q in Area(o, 0, hi)
    requires RootOf(q) == o && q !in Area(n, 0, hi)
    ensures Lookup(t.mem, q) == Lookup(s.mem, q)
    ensures Lookup(t.mem, q) != 0 ==> var f := Frame(Lookup(t.mem, q)); f in s.mem && f in t.mem && t.mem[f] == s.mem[f]
  {
    Mapped(s, q);
    if Lookup(s.mem, q) != 0 {
      assert Bystander(s.role[s.at[q]], Area(n, 0, hi));
    }
  }

  /** One page of the child after the copy, and of the parent. */
  lemma PageCopied(s: State, t: State, o: nat, n: nat, hi: nat, v: nat)
    requires Good(s) && CanCopy(s, o, n, hi) && Delta(s, t, n, Area(n, 0, hi)) && v < hi
    requires Follows(t, Area(n, 0, hi), CopyPlan(s, o, n, hi))
    ensures var e, eo, en := Lookup(s.mem, LeafSpot(o, v)), Lookup(t.mem, LeafSpot(o, v)), Lookup(t.mem, LeafSpot(n, v));
            && eo == e && (en != 0 <==> e != 0)
            && (e != 0 ==> Shown(t.mem, eo) == Shown(s.mem, e) && Shown(t.mem, en) == Shown(s.mem, e))
  {
    hide Inv, Lookup, LeafSpot, PageOf, Frame, Flags, CopyPlan, Shown, Area;
    var q, p := LeafSpot(o, v), LeafSpot(n, v);
    PageRoundTrip(n, v);
    PageRoundTrip(o, v);
    AreaMeets(n, 0, hi, p);
    AreaMeets(n, 0, hi, q);
    AreaMeets(o, 0, hi, q);
    CopyFrame(s, t, o, n, q, hi);
    PlanMeets(s, o, n, hi, v);
    var e, en := Lookup(s.mem, q), Lookup(t.mem, p);
    if e != 0 {
      MappedPresent(s, q);
      assert Holds(t, p, Flags(e), s.mem[Frame(e)]);
      PteNonzero(Frame(en), Flags(e));
      SameFlags(s.mem, e, t.mem, en);
      SameShown(s.mem, t.mem, e);
    }
  }

  lemma MappedPresent(s: State, p: Spot)
    requires Good(s) && IsLeaf(p) && Root(RootOf(p)) in s.at && Lookup(s.mem, p) != 0
    ensures Present(Lookup(s.mem, p))
  {
    Mapped(s, p);
  }

  lemma PteNonzero(f: nat, perm: nat)
    ensures MakePte(f, perm) != 0
  {
  }

  lemma SameShown(mem: map<nat, Page>, mem': map<nat, Page>, e: nat)
    requires Frame(e) in mem && Frame(e) in mem' && mem'[Frame(e)] == mem[Frame(e)]
    ensures Shown(mem', e) == Shown(mem, e)
  {
  }

  /** To user code the child of a copy is its parent, and the parent is as it was. */
  lemma CopyImages(s: State, t: State, o: nat, n: nat, sz: nat)
    requires Good(s) && CanCopy(s, o, n, Pages(sz)) && Delta(s, t, n, Area(n, 0, Pages(sz)))
    requires Follows(t, Area(n, 0, Pages(sz)), CopyPlan(s, o, n, Pages(sz)))
    ensures Image(t.mem, n, sz) == Image(s.mem, o, sz) == Image(t.mem, o, sz)
  {
    hide Good, Delta, Follows, Shown, Lookup, LeafSpot, Pages, Area, CopyPlan;
    forall v | 0 <= v < MAXPAGE && v < Pages(sz)
      ensures var e, eo, en := Lookup(s.mem, LeafSpot(o, v)), Lookup(t.mem, LeafSpot(o, v)), Lookup(t.mem, LeafSpot(n, v));
              && eo == e && (en != 0 <==> e != 0)
              && (e != 0 ==> Shown(t.mem, eo) == Shown(s.mem, e) && Shown(t.mem, en) == Shown(s.mem, e))
    {
      PageCopied(s, t, o, n, Pages(sz), v);
    }
  }

  lemma FreeStart(s: State, r: nat, hi: nat)
    requires Good(s) && hi <= MAXPAGE && Root(r) in s.at
    requires forall p {:trigger Lookup(s.mem, p)} :: IsLeaf(p) && RootOf(p) == r && Lookup(s.mem, p) != 0 ==>
               p in s.at && p in Area(r, 0, hi)
    ensures Owns(s, Area(r, 0, hi), true) && PagesOf(Area(r, 0, hi), r)
    ensures forall p :: IsLeaf(p) && RootOf(p) == r && p in s.at ==> p in Area(r, 0, hi)
    ensures hi == 0 ==> Unmapped(s, s, Area(r, 0, hi))
    ensures forall p {:trigger Lookup(s.mem, p)} :: IsLeaf(p) && RootOf(p) == r && p !in Area(r, 0, hi) ==> Lookup(s.mem, p) == 0
  {
    hide Inv, Lookup, PageOf, LeafSpot;
    AreaLeaves(r, 0, hi);
    UnmappedNothing(s);
    forall p | IsLeaf(p) && RootOf(p) == r && p in s.at ensures p in Area(r, 0, hi) {
      Mapped(s, p);
    }
  }

  /** With every page unmapped the tables may be freed. */
  lemma FreeTables(s: State, t: State, r: nat, a: set<Spot>)
    requires Good(s) && Root(r) in s.at && Unmapped(s, t, a) && PagesOf(a, r)
    requires forall p {:trigger Lookup(s.mem, p)} :: IsLeaf(p) && RootOf(p) == r && p !in a ==> Lookup(s.mem, p) == 0
    ensures Good(t) && Root(r) in t.at && t.at[Root(r)] == r && NoLeaf(t, Root(r))
  {
    hide Listed, Pointed, Lookup;
    forall p | IsLeaf(p) && RootOf(p) == r ensures Lookup(t.mem, p) == 0 {
      assert p !in a ==> Lookup(t.mem, p) == Lookup(s.mem, p);
    }
    BareNoLeaf(t, r);
  }

  lemma RootBare(s: State, r: nat)
    requires Good(s) && Root(r) in s.at && s.mem[s.at[Root(r)]] == ZeroPage()
    ensures forall p {:trigger Lookup(s.mem, p)} :: IsLeaf(p) && RootOf(p) == r ==> Lookup(s.mem, p) == 0
  {
    hide Listed;
    forall p | IsLeaf(p) && RootOf(p) == r ensures Lookup(s.mem, p) == 0 {
      assert !Present(0);
      assert Next(s.mem, r, p.up.up.k) == 0;
    }
  }

  /** The finite map from pages to entries that a page table stands for. */
  ghost function PageMap(mem: map<nat, Page>, r: nat): map<nat, nat> {
    map v | 0 <= v < MAXPAGE && Lookup(mem, LeafSpot(r, v)) != 0 :: Lookup(mem, LeafSpot(r, v))
  }

  /** `n` pages from `lo` mapped to the frames from `f`. */
  ghost function Stretch(lo: nat, n: nat, f: nat, perm: nat): map<nat, nat> {
    if n == 0 then map[] else Stretch(lo, n - 1, f, perm)[lo + n - 1 := MakePte(f + n - 1, perm)]
  }

  lemma {:induction false} StretchMeets(lo: nat, n: nat, f: nat, perm: nat, v: nat)
    ensures v in Stretch(lo, n, f, perm) <==> lo <= v < lo + n
    ensures lo <= v < lo + n ==> Stretch(lo, n, f, perm)[v] == MakePte(f + (v - lo), perm)
  {
    if n > 0 { StretchMeets(lo, n - 1, f, perm, v); }
  }

  lemma AreaHas(r: nat, lo: nat, hi: nat, v: nat)
    requires lo <= hi <= MAXPAGE && v < MAXPAGE
    ensures LeafSpot(r, v) in Area(r, lo, hi) <==> lo <= v < hi
  {
    AreaMeets(r, lo, hi, LeafSpot(r, v));
    PageRoundTrip(r, v);
  }

  lemma AreaElsewhere(r: nat, lo: nat, hi: nat, q: nat, v: nat)
    requires hi <= MAXPAGE && v < MAXPAGE && q != r
    ensures LeafSpot(q, v) !in Area(r, lo, hi)
  {
    AreaLeaves(r, lo, hi);
  }

  /** On the maps: mapping pages adds exactly those pages to one map. */
  lemma MappingRefines(s: State, t: State, r: nat, lo: nat, hi: nat, n: nat, f: nat, perm: nat)
    requires lo + n <= hi <= MAXPAGE && Root(r) in s.at && Mapping(s, t, r, lo, hi, n, f, perm) && Bare(s, Area(r, lo, hi))
    requires perm < 1024 && f + n <= MAXFRAME
    ensures PageMap(t.mem, r) == PageMap(s.mem, r) + Stretch(lo, n, f, perm)
    ensures forall q :: Root(q) in s.at && q != r ==> PageMap(t.mem, q) == PageMap(s.mem, q)
  {
    hide Good, Lookup, LeafSpot, MakePte, Area, Roles, Stretch, Frame, Flags, Or, PTE2PA;
    var more := Stretch(lo, n, f, perm);
    forall v | 0 <= v < MAXPAGE
      ensures Lookup(t.mem, LeafSpot(r, v)) == if v in more then more[v] else Lookup(s.mem, LeafSpot(r, v))
      ensures v in more ==> more[v] != 0
    {
      StretchMeets(lo, n, f, perm, v);
      if v in more {
        PteRoundTrip(f + (v - lo), perm);
      }
      var e := Lookup(t.mem, LeafSpot(r, v));
      AreaHas(r, lo, hi, v);
      AreaHas(r, lo, lo + n, v);
      AreaHas(r, lo + n, hi, v);
      PageRoundTrip(r, v);
    }
    forall v | v in more ensures v < MAXPAGE {
      StretchMeets(lo, n, f, perm, v);
    }
    forall q, v | Root(q) in s.at && q != r && 0 <= v < MAXPAGE ensures Lookup(t.mem, LeafSpot(q, v)) == Lookup(s.mem, LeafSpot(q, v)) {
      AreaElsewhere(r, lo, hi, q, v);
    }
  }

  ghost function Span(lo: nat, hi: nat): set<nat> {
    if hi <= lo then {} else Span(lo, hi - 1) + {hi - 1}
  }

  lemma {:induction false} SpanMeets(lo: nat, hi: nat, v: nat)
    ensures v in Span(lo, hi) <==> lo <= v < hi
    decreases hi
  {
    if lo < hi { SpanMeets(lo, hi - 1, v); }
  }

  /** On the maps: unmapping pages removes exactly those pages from one map. */
  lemma UnmappedRefines(s: State, t: State, r: nat, lo: nat, hi: nat)
    requires lo <= hi <= MAXPAGE && Root(r) in s.at && Unmapped(s, t, Area(r, lo, hi))
    ensures PageMap(t.mem, r) == PageMap(s.mem, r) - Span(lo, hi)
    ensures forall q :: Root(q) in s.at && q != r ==> PageMap(t.mem, q) == PageMap(s.mem, q)
  {
    hide Good, Lookup, LeafSpot, Area, Span;
    forall v | 0 <= v < MAXPAGE
      ensures Lookup(t.mem, LeafSpot(r, v)) == if v in Span(lo, hi) then 0 else Lookup(s.mem, LeafSpot(r, v))
    {
      SpanMeets(lo, hi, v);
      var e := Lookup(t.mem, LeafSpot(r, v));
      AreaHas(r, lo, hi, v);
    }
    forall q, v | Root(q) in s.at && q != r && 0 <= v < MAXPAGE ensures Lookup(t.mem, LeafSpot(q, v)) == Lookup(s.mem, LeafSpot(q, v)) {
      AreaElsewhere(r, lo, hi, q, v);
    }
  }

  // -------- what user code sees --------

  /** The contents of the frames that an operation on the pages `a` must leave alone. */
  ghost predicate Spares(s: State, t: State, a: set<Spot>) {
    && t.mem.Keys == s.mem.Keys == s.role.Keys
    && forall f {:trigger t.mem[f]} :: f in s.role && Bystander(s.role[f], a) ==> t.mem[f] == s.mem[f]
  }

  /** A page outside `a` that owns its frame looks as before. */
  lemma PageKept(s: State, t: State, a: set<Spot>, p: Spot)
    requires Good(s) && IsLeaf(p) && Root(RootOf(p)) in s.at && p !in a && Looks(s, t, a) && Spares(s, t, a)
    requires Lookup(s.mem, p) != 0 ==> p in s.at
    ensures Lookup(t.mem, p) == Lookup(s.mem, p)
    ensures Lookup(s.mem, p) != 0 ==> Shown(t.mem, Lookup(t.mem, p)) == Shown(s.mem, Lookup(s.mem, p))
  {
    hide Inv, Lookup, Shown, Frame;
    if Lookup(s.mem, p) != 0 {
      MappedAt(s, p);
      var f := s.at[p];
      assert t.mem[f] == s.mem[f];
      SameShown(s.mem, t.mem, Lookup(s.mem, p));
    }
  }

  lemma MappedAt(s: State, p: Spot)
    requires Good(s) && IsLeaf(p) && Root(RootOf(p)) in s.at && p in s.at
    ensures Frame(Lookup(s.mem, p)) == s.at[p] && s.at[p] in s.role && s.role[s.at[p]] == At(p) && s.at[p] in s.mem
  {
    Mapped(s, p);
  }

  lemma RangeKept(s: State, t: State, r: nat, lo: nat, hi: nat, v: nat)
    requires lo <= hi <= MAXPAGE && v < lo && Good(s) && Root(r) in s.at && Owns(s, Area(r, 0, lo), true)
    requires Looks(s, t, Area(r, lo, hi)) && Spares(s, t, Area(r, lo, hi))
    ensures Lookup(t.mem, LeafSpot(r, v)) == Lookup(s.mem, LeafSpot(r, v))
    ensures Lookup(s.mem, LeafSpot(r, v)) != 0 ==>
              Shown(t.mem, Lookup(t.mem, LeafSpot(r, v))) == Shown(s.mem, Lookup(s.mem, LeafSpot(r, v)))
  {
    hide Good, Looks, Spares, Lookup, LeafSpot, Shown, Area;
    var p := LeafSpot(r, v);
    AreaHas(r, lo, hi, v);
    AreaHas(r, 0, lo, v);
    SpotOf(r, v);
    PageKept(s, t, Area(r, lo, hi), p);
  }

  lemma SpotOf(r: nat, v: nat)
    requires v < MAXPAGE
    ensures IsLeaf(LeafSpot(r, v)) && RootOf(LeafSpot(r, v)) == r
  {
  }

  lemma UserWrite()
    ensures Or(Or(PTE_R, PTE_U), PTE_W) == 22
  {
    assert Or(1, 8) == 9 && Or(2, 16) == 18;
    assert Or(9, 2) == 11 && Or(18, 4) == 22;
  }

  /** A page of zeroes that user code may write. */
  lemma HoldsZeroes(t: State, p: Spot)
    requires IsLeaf(p) && Holds(t, p, 22, ZeroPage())
    ensures Lookup(t.mem, p) != 0 && Shown(t.mem, Lookup(t.mem, p)) == Lazy.Zeroed()
  {
    hide Lookup, Frame, Shown;
    var e := Lookup(t.mem, p);
    PteNonzero(Frame(e), 22);
    ShowsZeroes(t.mem, e);
  }

  /** To user code, uvmalloc() with PTE_W is eager growth. */
  lemma GrownImage(s: State, t: State, r: nat, oldsz: nat, newsz: nat)
    requires oldsz <= newsz && Pages(oldsz) <= Pages(newsz) <= MAXPAGE && Good(s) && Root(r) in s.at
    requires Owns(s, Area(r, 0, Pages(oldsz)), true) && Delta(s, t, r, Area(r, Pages(oldsz), Pages(newsz)))
    requires Follows(t, Area(r, Pages(oldsz), Pages(newsz)), ZeroPlan(Area(r, Pages(oldsz), Pages(newsz)), 22))
    ensures Image(t.mem, r, newsz) == Lazy.Grown(Image(s.mem, r, oldsz), newsz)
  {
    hide Good, Looks, Spares, Roles, Lookup, LeafSpot, Shown, Area, Pages, Follows, Owns, ZeroPlan;
    var lo, hi := Pages(oldsz), Pages(newsz);
    var p := Image(s.mem, r, oldsz);
    DeltaSpares(s, t, r, Area(r, lo, hi));
    Lazy.GrownMeets(p, newsz);
    forall v | 0 <= v < MAXPAGE && v < hi
      ensures v < lo ==> Lookup(t.mem, LeafSpot(r, v)) == Lookup(s.mem, LeafSpot(r, v))
      ensures v < lo && Lookup(s.mem, LeafSpot(r, v)) != 0 ==>
                Shown(t.mem, Lookup(t.mem, LeafSpot(r, v))) == Shown(s.mem, Lookup(s.mem, LeafSpot(r, v)))
      ensures lo <= v ==> Lookup(t.mem, LeafSpot(r, v)) != 0 && Shown(t.mem, Lookup(t.mem, LeafSpot(r, v))) == Lazy.Zeroed()
    {
      if v < lo {
        RangeKept(s, t, r, lo, hi, v);
      } else {
        FollowsAt(t, r, lo, hi, v);
        SpotOf(r, v);
        HoldsZeroes(t, LeafSpot(r, v));
      }
    }
  }

  lemma FollowsAt(t: State, r: nat, lo: nat, hi: nat, v: nat)
    requires lo <= v < hi <= MAXPAGE && Follows(t, Area(r, lo, hi), ZeroPlan(Area(r, lo, hi), 22))
    ensures Holds(t, LeafSpot(r, v), 22, ZeroPage())
  {
    hide Lookup, Holds, Area;
    AreaHas(r, lo, hi, v);
    var e := Lookup(t.mem, LeafSpot(r, v));
  }

  lemma DeltaSpares(s: State, t: State, r: nat, a: set<Spot>)
    requires Delta(s, t, r, a)
    ensures Looks(s, t, a) && Spares(s, t, a)
  {
  }

  /** To user code, uvmdealloc() is shrinking. */
  lemma ShrunkImage(s: State, t: State, r: nat, oldsz: nat, newsz: nat)
    requires newsz <= oldsz && Pages(newsz) <= Pages(oldsz) <= MAXPAGE && Good(s) && Root(r) in s.at
    requires Owns(s, Area(r, 0, Pages(newsz)), true) && Unmapped(s, t, Area(r, Pages(newsz), Pages(oldsz)))
    ensures Image(t.mem, r, newsz) == Lazy.Shrunk(Image(s.mem, r, oldsz), newsz)
  {
    hide Good, Looks, Lookup, LeafSpot, Shown, Area, Pages, Owns;
    var lo, hi := Pages(newsz), Pages(oldsz);
    assert Spares(s, t, Area(r, lo, hi));
    hide Spares;
    forall v | 0 <= v < MAXPAGE && v < lo
      ensures Lookup(t.mem, LeafSpot(r, v)) == Lookup(s.mem, LeafSpot(r, v))
      ensures Lookup(s.mem, LeafSpot(r, v)) != 0 ==>
                Shown(t.mem, Lookup(t.mem, LeafSpot(r, v))) == Shown(s.mem, Lookup(s.mem, LeafSpot(r, v)))
    {
      RangeKept(s, t, r, lo, hi, v);
    }
  }

  /** A fault is in order below the size where nothing is mapped. */
  lemma FaultMeets(mem: map<nat, Page>, r: nat, sz: nat, va: nat)
    requires sz <= MAXVA
    ensures va < sz ==> va / 4096 < Pages(sz) <= MAXPAGE
    ensures Lazy.Fault(Image(mem, r, sz), va).Some? <==> va < sz && Lookup(mem, LeafSpot(r, va / 4096)) == 0
    ensures va < sz && Lookup(mem, LeafSpot(r, va / 4096)) == 0 ==>
              Lazy.Fault(Image(mem, r, sz), va).value == Lazy.Proc(sz, Image(mem, r, sz).pages[va / 4096 := Lazy.Zeroed()])
  {
    hide Lookup, LeafSpot, Shown;
    PagesUpTo(0, sz);
    PagesMeet(sz, va / 4096);
  }

  lemma PageOwned(s: State, r: nat, hi: nat, w: nat)
    requires w < hi <= MAXPAGE && Owns(s, Area(r, 0, hi), true)
    ensures Lookup(s.mem, LeafSpot(r, w)) != 0 ==> LeafSpot(r, w) in s.at
  {
    hide Lookup, Area;
    AreaHas(r, 0, hi, w);
    SpotOf(r, w);
  }

  /** To user code, a frame added at page `v` is a page of zeroes there and nothing else. */
  lemma FaultImage(s: State, t: State, r: nat, sz: nat, v: nat)
    requires Good(s) && Root(r) in s.at && v < Pages(sz) <= MAXPAGE && Owns(s, Area(r, 0, Pages(sz)), true)
    requires Delta(s, t, r, {LeafSpot(r, v)}) && Holds(t, LeafSpot(r, v), 22, ZeroPage())
    ensures Image(t.mem, r, sz) == Lazy.Proc(sz, Image(s.mem, r, sz).pages[v := Lazy.Zeroed()])
  {
    hide Good, Roles, Lookup, LeafSpot, Shown, Area, Pages, Owns, Holds;
    SpotOf(r, v);
    HoldsZeroes(t, LeafSpot(r, v));
    DeltaSpares(s, t, r, {LeafSpot(r, v)});
    hide Spares, Looks;
    forall w | 0 <= w < MAXPAGE && w < Pages(sz) && w != v
      ensures Lookup(t.mem, LeafSpot(r, w)) == Lookup(s.mem, LeafSpot(r, w))
      ensures Lookup(s.mem, LeafSpot(r, w)) != 0 ==>
                Shown(t.mem, Lookup(t.mem, LeafSpot(r, w))) == Shown(s.mem, Lookup(s.mem, LeafSpot(r, w)))
    {
      SpotOf(r, w);
      PageRoundTrip(r, w);
      PageRoundTrip(r, v);
      PageOwned(s, r, Pages(sz), w);
      PageKept(s, t, {LeafSpot(r, v)}, LeafSpot(r, w));
    }
  }

  lemma RefusedImage(s: State, t: State, r: nat, sz: nat, v: nat)
    requires Good(s) && Root(r) in s.at && Pages(sz) <= MAXPAGE && v < MAXPAGE && Owns(s, Area(r, 0, Pages(sz)), true)
    requires Delta(s, t, r, {LeafSpot(r, v)}) && Lookup(t.mem, LeafSpot(r, v)) == 0 == Lookup(s.mem, LeafSpot(r, v))
    ensures Image(t.mem, r, sz) == Image(s.mem, r, sz)
  {
    hide Good, Roles, Lookup, LeafSpot, Shown, Area, Pages, Owns;
    DeltaSpares(s, t, r, {LeafSpot(r, v)});
    hide Spares, Looks;
    forall w | 0 <= w < MAXPAGE && w < Pages(sz) && w != v
      ensures Lookup(t.mem, LeafSpot(r, w)) == Lookup(s.mem, LeafSpot(r, w))
      ensures Lookup(s.mem, LeafSpot(r, w)) != 0 ==>
                Shown(t.mem, Lookup(t.mem, LeafSpot(r, w))) == Shown(s.mem, Lookup(s.mem, LeafSpot(r, w)))
    {
      SpotOf(r, w);
      PageRoundTrip(r, w);
      PageRoundTrip(r, v);
      PageOwned(s, r, Pages(sz), w);
      PageKept(s, t, {LeafSpot(r, v)}, LeafSpot(r, w));
    }
  }

  /** A page mapped neither before nor after has no part in what changed. */
  lemma DeltaNarrow(s: State, t: State, r: nat, p: Spot)
    requires Good(s) && IsLeaf(p) && RootOf(p) == r && Root(r) in s.at && Delta(s, t, r, {p})
    requires Lookup(s.mem, p) == 0 == Lookup(t.mem, p)
    ensures Delta(s, t, r, {})
  {
    hide Inv, Lookup;
    NoFrameYet(s, p);
    NoFrameYet(t, p);
    forall f | f in s.role ensures s.role[f] != At(p) && t.role[f] != At(p) {
      if s.role[f] == At(p) { RoleSpot(s, f); }
      if t.role[f] == At(p) { RoleSpot(t, f); }
    }
    forall f | f in s.role
      ensures RoleStep(s.role[f], t.role[f], r, {})
      ensures Bystander(s.role[f], {}) ==> t.mem[f] == s.mem[f]
    {
      assert RoleStep(s.role[f], t.role[f], r, {p});
      assert Bystander(s.role[f], {p}) ==> t.mem[f] == s.mem[f];
    }
  }

  lemma NoFrameYet(s: State, p: Spot)
    requires Good(s) && IsLeaf(p) && Root(RootOf(p)) in s.at && Lookup(s.mem, p) == 0
    ensures p !in s.at && p !in Tables(p)
  {
    Mapped(s, p);
  }

  lemma OneCost(r: nat, v: nat)
    requires v < MAXPAGE
    ensures TablesOf(r, v, v + 1) == Tables(LeafSpot(r, v))
  {
    TablesStep(r, v, v);
  }

  class Memory {
    var mem: map<nat, Page>
    /** The address of the first free frame, 0 for none. */
    var freelist: nat
    ghost var free: seq<nat>
    ghost var role: map<nat, Role>
    ghost var at: map<Spot, nat>
    ghost var stale: set<Spot>

    ghost function S(): State
      reads this
    {
      State(mem, freelist, free, role, at, stale)
    }

    /** kalloc(): take the first free frame; 0 when there is none. */
    method Kalloc() returns (f: nat)
      requires Inv(S())
      modifies this`mem, this`freelist, this`free, this`role
      ensures f == 0 <==> old(free) == []
      ensures f == 0 ==> S() == old(S())
      ensures f != 0 ==> f == old(free)[0] && S() == Taken(old(S()))
    {
      var r := freelist;
      if r == 0 {
        return 0;
      }
      f := r / 4096;
      assert f == free[0];
      freelist := mem[f].word[0];
      mem := mem[f := Junk(5)];
      free, role := free[1..], role[f := Held];
    }

    /** kfree(): put a held frame at the front of the free list. */
    method Kfree(f: nat)
      requires Inv(S()) && f in role && role[f] == Held
      modifies this`mem, this`freelist, this`free, this`role
      ensures S() == Given(old(S()), f)
    {
      var page := Stored(Junk(1), 0, freelist);
      mem := mem[f := page];
      freelist := f * 4096;
      free, role := [f] + free, role[f := Free];
    }

    /** The allocating step of walk(): hang a zeroed table below entry `k` of table `t`. */
    method AddTable(t: nat, k: nat, ghost p: Spot) returns (f: nat)
      requires Good(S()) && p in at && at[p] == t && Upper(p) && k < ENTRIES && (p.Root? ==> k < 256) && Child(p, k) !in at
      modifies this`mem, this`freelist, this`free, this`role, this`at
      ensures f == 0 ==> S() == old(S()) && free == []
      ensures f != 0 ==> Delta(old(S()), S(), RootOf(p), {}) && Child(p, k) in at && at[Child(p, k)] == f
      ensures f != 0 ==> at.Keys == old(at).Keys + {Child(p, k)} && |free| + 1 == |old(free)|
    {
      hide Delta;
      f := Kalloc();
      if f != 0 {
        mem := mem[f := ZeroPage()];
        PteForm(f, 0);
        mem := mem[t := Stored(mem[t], k, PteWord(f * 4096, 0))];
        role, at := role[f := At(Child(p, k))], at[Child(p, k) := f];
        assert S() == Extended(old(S()), p, k);
        ExtendedKeeps(old(S()), p, k);
      }
    }

    /** One level of walk(): the table below entry `k` of table `t`. */
    method Step(t: nat, k: nat, alloc: bool, ghost p: Spot) returns (f: nat)
      requires Good(S()) && p in at && at[p] == t && Upper(p) && k < ENTRIES && (p.Root? ==> k < 256)
      modifies this`mem, this`freelist, this`free, this`role, this`at
      ensures f == 0 ==> S() == old(S()) && Child(p, k) !in at && (alloc ==> free == [])
      ensures f != 0 ==> Delta(old(S()), S(), RootOf(p), {}) && Child(p, k) in at && at[Child(p, k)] == f
      ensures !alloc ==> S() == old(S())
      ensures alloc ==> Costs(old(S()), S(), {Child(p, k)}, f != 0)
    {
      hide Costs;
      ghost var s := S();
      assert Entry(S(), p, k) == mem[t].word[k];
      if Present(mem[t].word[k]) {
        CostsHere(s, Child(p, k));
        PteRoundTrip(at[Child(p, k)], 0);
        f := Frame(mem[t].word[k]);
      } else if alloc {
        f := AddTable(t, k, p);
        CostsOne(s, S(), Child(p, k), f != 0);
      } else {
        f := 0;
      }
    }

    /** walk(): the frame of the last-level table for `va`, which lies in the page at `p`. Without `alloc`
        nothing changes and 0 means there is no such table; with `alloc` the missing tables are added, no
        mapping changes, and 0 means there was no frame left for one. */
    method Walk(r: nat, va: nat, alloc: bool, ghost p: Spot) returns (t: nat)
      requires Good(S()) && Root(r) in at && va < MAXVA && p == LeafSpot(r, va / 4096)
      modifies this`mem, this`freelist, this`free, this`role, this`at
      ensures Delta(old(S()), S(), r, {})
      ensures !alloc ==> S() == old(S())
      ensures t != 0 ==> p.up in at && at[p.up] == t && p.k == PX(0, va)
      ensures t == 0 ==> p.up !in at && (alloc ==> free == [])
      ensures alloc ==> Costs(old(S()), S(), Tables(p), t != 0)
    {
      hide Inv, Looks, Roles, Costs;
      PxOfPage(va);
      DeltaNothing(S(), r);
      CostsNothing(S(), S());
      FrameAt(S(), Root(r));
      ghost var taken: set<Spot> := {};
      t := r;
      var level := 2;
      while level > 0
        invariant 0 <= level <= 2
        invariant Delta(old(S()), S(), r, {})
        invariant !alloc ==> S() == old(S())
        invariant Above(p, level) in at && at[Above(p, level)] == t
        invariant taken == (if level < 2 then {p.up.up} else {}) + (if level < 1 then {p.up} else {})
        invariant alloc ==> Costs(old(S()), S(), taken, true)
      {
        ghost var s, q := S(), Above(p, level);
        var k := PX(level, va);
        assert Child(q, k) == Above(p, level - 1);
        t := Step(t, k, alloc, q);
        if alloc {
          CostsMore(old(S()), s, S(), taken, {Child(q, k)}, t != 0);
        }
        taken := taken + {Child(q, k)};
        if t == 0 {
          NoTable(s, p, level);
          if alloc {
            CostsWider(old(S()), S(), S(), taken, Tables(p));
          }
          return;
        }
        DeltaTrans(old(S()), s, S(), r, {});
        level := level - 1;
      }
      FrameAt(S(), p.up);
      assert taken == Tables(p);
    }

    /** walkaddr(): the physical address of a page that user code may access; 0 for none. */
    method Walkaddr(r: nat, va: nat) returns (pa: nat)
      requires Good(S()) && Root(r) in at
      modifies this`mem, this`freelist, this`free, this`role, this`at
      ensures S() == old(S())
      ensures va >= MAXVA ==> pa == 0
      ensures va < MAXVA ==> var e := Lookup(mem, LeafSpot(r, va / 4096)); pa == if e / PTE_U % 2 == 1 then PTE2PA(e) else 0
    {
      if va >= MAXVA {
        return 0;
      }
      ghost var p := LeafSpot(r, va / 4096);
      Mapped(S(), p);
      var t := Walk(r, va, false, p);
      if t == 0 {
        return 0;
      }
      var pte := mem[t].word[PX(0, va)];
      if !Present(pte) {
        return 0;
      }
      if pte / PTE_U % 2 == 0 {
        return 0;
      }
      return PTE2PA(pte);
    }

    /** One turn of mappages(): the page at `p` becomes mapped to frame `f`, and no other page changes. */
    method MapPage(r: nat, a: nat, f: nat, perm: nat, ghost p: Spot) returns (ok: bool)
      requires Good(S()) && Root(r) in at && a < MAXVA && p == LeafSpot(r, a / 4096)
      requires perm < 1024 && f < MAXFRAME && Lookup(mem, p) == 0
      modifies this`mem, this`freelist, this`free, this`role, this`at
      ensures Good(S()) && Roles(old(S()), S(), r, {})
      ensures ok ==> Looks(old(S()), S(), {p}) && Lookup(mem, p) == MakePte(f, perm)
      ensures !ok ==> Looks(old(S()), S(), {}) && free == []
      ensures Costs(old(S()), S(), Tables(p), ok)
    {
      hide Looks, Roles, Costs;
      ghost var s := S();
      var t := Walk(r, a, true, p);
      if t == 0 {
        return false;
      }
      ghost var s1 := S();
      Unmoved(s, s1, r, p);
      Mapped(s1, p);
      assert !Present(mem[t].word[PX(0, a)]);
      PteForm(f, perm);
      mem := mem[t := Stored(mem[t], PX(0, a), PteWord(f * 4096, perm))];
      PageMapped(s, s1, S(), p, f, perm);
      CostsSame(s, s1, S(), Tables(p), true);
      return true;
    }

    /** The same after the first `n` pages from `lo` have been mapped. */
    method MapNext(r: nat, a: nat, pa: nat, perm: nat, ghost s: State, ghost lo: nat, ghost hi: nat, ghost n: nat, ghost f: nat)
      returns (ok: bool)
      requires Root(r) in s.at && lo <= lo + n < hi <= MAXPAGE && a == (lo + n) * 4096 && pa == (f + n) * 4096
      requires Mapping(s, S(), r, lo, hi, n, f, perm) && perm < 1024 && f + n < MAXFRAME
      modifies this`mem, this`freelist, this`free, this`role, this`at
      ensures ok ==> Mapping(s, S(), r, lo, hi, n + 1, f, perm)
      ensures !ok ==> Mapping(s, S(), r, lo, hi, n, f, perm) && free == []
      ensures Costs(old(S()), S(), Tables(LeafSpot(r, lo + n)), ok)
    {
      hide Good, Looks, Costs, MapsTo, Lookup, LeafSpot, MakePte, RootOf, IsLeaf;
      ghost var t, p := S(), LeafSpot(r, lo + n);
      AreaFront(r, lo + n, hi);
      ok := MapPage(r, a, pa / 4096, perm, p);
      if ok {
        MapTurn(s, t, S(), r, lo, hi, n, f, perm);
      } else {
        MapStops(s, t, S(), r, lo, hi, n, f, perm);
      }
    }

    /** mappages(): the pages from `va` become mapped to the frames from `pa` with `perm`; when a table
        cannot be allocated, only the first `n` of them. No other page changes, and no frame changes hands
        but those that become tables. */
    method Mappages(r: nat, va: nat, size: nat, pa: nat, perm: nat) returns (result: int, ghost n: nat)
      requires Good(S()) && Root(r) in at && perm < 1024
      requires va % 4096 == 0 && size % 4096 == 0 && size > 0 && va + size <= MAXVA
      requires pa % 4096 == 0 && (pa + size) / 4096 <= MAXFRAME
      requires Bare(S(), Area(r, va / 4096, (va + size) / 4096))
      modifies this`mem, this`freelist, this`free, this`role, this`at
      ensures n <= size / 4096 && Mapping(old(S()), S(), r, va / 4096, (va + size) / 4096, n, pa / 4096, perm)
      ensures PageMap(mem, r) == PageMap(old(mem), r) + Stretch(va / 4096, n, pa / 4096, perm)
      ensures forall q :: Root(q) in old(at) && q != r ==> PageMap(mem, q) == PageMap(old(mem), q)
      ensures result == 0 ==> n == size / 4096
      ensures result != 0 ==> result == -1 && n < size / 4096 && free == []
      ensures Costs(old(S()), S(), TablesOf(r, va / 4096, (va + size) / 4096), result == 0)
      ensures result == 0 <==> Affords(old(S()), TablesOf(r, va / 4096, (va + size) / 4096))
    {
      hide Affords, Mapping, Good, Bare, PageMap, Stretch, Costs, Tables, TablesOf, LeafSpot;
      ghost var s, lo, count, f := S(), va / 4096, size / 4096, pa / 4096;
      ghost var hi := lo + count;
      assert va == lo * 4096 && size == count * 4096 && pa == f * 4096 && (va + size) / 4096 == hi;
      MappingNothing(s, r, lo, hi, f, perm);
      CostsNothing(s, s);
      TablesStep(r, lo, lo);
      var a, p := va, pa;
      var last := va + size - 4096;
      n := 0;
      while true
        invariant a == (lo + n) * 4096 && p == (f + n) * 4096 && 0 <= n < count
        invariant Mapping(s, S(), r, lo, hi, n, f, perm)
        invariant Costs(s, S(), TablesOf(r, lo, lo + n), true)
        decreases count - n
      {
        ghost var t := S();
        var ok := MapNext(r, a, p, perm, s, lo, hi, n, f);
        CostsMore(s, t, S(), TablesOf(r, lo, lo + n), Tables(LeafSpot(r, lo + n)), ok);
        TablesStep(r, lo, lo + n);
        if !ok {
          TablesGrow(r, lo, lo + n + 1, hi);
          CostsWider(s, S(), S(), TablesOf(r, lo, lo + n + 1), TablesOf(r, lo, hi));
          CostsExactly(s, S(), TablesOf(r, lo, hi), false);
          MappingRefines(s, S(), r, lo, hi, n, f, perm);
          return -1, n;
        }
        n := n + 1;
        if a == last {
          break;
        }
        a, p := a + 4096, p + 4096;
      }
      MappingRefines(s, S(), r, lo, hi, n, f, perm);
      CostsExactly(s, S(), TablesOf(r, lo, hi), true);
      return 0, n;
    }

    /** Free the frame of the page at `p` and clear its entry. */
    method DropPage(t: nat, k: nat, ghost p: Spot)
      requires Good(S()) && IsLeaf(p) && Root(RootOf(p)) in at && p in at && k == p.k && p.up in at && at[p.up] == t
      modifies this`mem, this`freelist, this`free, this`role, this`at
      ensures Unmapped(old(S()), S(), {p})
    {
      hide Listed, Pointed, Lookup, Looks, Bare, Hung;
      ghost var s := S();
      UnmapPage(s, p);
      UnseatedLooks(s, p);
      Mapped(s, p);
      role, at := role[at[p] := Held], at - {p};
      Kfree(Frame(mem[t].word[k]));
      mem := mem[t := Stored(mem[t], k, 0)];
      assert S() == Dropped(s, p);
    }

    /** One turn of uvmunmap(), on the page at `p`. */
    method ClearPage(r: nat, a: nat, doFree: bool, ghost p: Spot)
      requires Good(S()) && Root(r) in at && a < MAXVA && p == LeafSpot(r, a / 4096)
      requires Lookup(mem, p) != 0 ==> (doFree <==> p in at)
      modifies this`mem, this`freelist, this`free, this`role, this`at
      ensures Unmapped(old(S()), S(), {p})
    {
      ghost var s := S();
      Mapped(s, p);
      var t := Walk(r, a, false, p);
      if t != 0 && Present(mem[t].word[PX(0, a)]) {
        if doFree {
          DropPage(t, PX(0, a), p);
        } else {
          mem := mem[t := Stored(mem[t], PX(0, a), 0)];
          UnmapEntry(s, S(), p);
        }
      } else {
        UnmapEntry(s, s, p);
      }
    }

    /** The same after the pages from `lo` to `v` have been cleared. */
    method ClearNext(r: nat, a: nat, doFree: bool, ghost s: State, ghost lo: nat, ghost hi: nat, ghost v: nat)
      requires lo <= v < hi <= MAXPAGE && a == v * 4096 && Good(s) && Root(r) in s.at && Unmapped(s, S(), Area(r, lo, v))
      requires Owns(s, Area(r, lo, hi), doFree)
      modifies this`mem, this`freelist, this`free, this`role, this`at
      ensures Unmapped(s, S(), Area(r, lo, v + 1))
    {
      hide Good, Looks, Bare, Owns, Lookup, LeafSpot, RootOf, IsLeaf;
      ghost var t, p := S(), LeafSpot(r, v);
      AreaBack(r, lo, v, hi);
      OwnsStill(s, t, Area(r, lo, hi), Area(r, lo, v), doFree, p);
      ClearPage(r, a, doFree, p);
      UnmapMore(s, t, S(), Area(r, lo, v), p);
    }

    /** uvmunmap(): exactly the `npages` pages from page `lo` stop being mapped, and with `doFree` exactly
        their frames are freed. `doFree` says whether the mapped pages own their frames. */
    method Uvmunmap(r: nat, va: nat, npages: nat, doFree: bool, ghost lo: nat)
      requires Good(S()) && Root(r) in at && va == lo * 4096 && lo + npages <= MAXPAGE
      requires Owns(S(), Area(r, lo, lo + npages), doFree)
      modifies this`mem, this`freelist, this`free, this`role, this`at
      ensures Unmapped(old(S()), S(), Area(r, lo, lo + npages))
      ensures PageMap(mem, r) == PageMap(old(mem), r) - Span(lo, lo + npages)
      ensures forall q :: Root(q) in old(at) && q != r ==> PageMap(mem, q) == PageMap(old(mem), q)
    {
      hide Unmapped, Good, Owns, PageMap, Span;
      ghost var s, v := S(), lo;
      UnmappedNothing(s);
      var a := va;
      while a < va + npages * 4096
        invariant a == v * 4096 && lo <= v <= lo + npages
        invariant Unmapped(s, S(), Area(r, lo, v))
        decreases lo + npages - v
      {
        ClearNext(r, a, doFree, s, lo, lo + npages, v);
        a := a + 4096;
        v := v + 1;
      }
      assert v == lo + npages;
      UnmappedRefines(s, S(), r, lo, lo + npages);
    }

    /** uvmdealloc(): the pages from `newsz` up to `oldsz` are unmapped and their frames freed. */
    method Uvmdealloc(r: nat, oldsz: nat, newsz: nat) returns (sz: nat)
      requires Good(S()) && Root(r) in at && oldsz <= MAXVA && Owns(S(), Area(r, Pages(newsz), Pages(oldsz)), true)
      modifies this`mem, this`freelist, this`free, this`role, this`at
      ensures sz == if newsz >= oldsz then oldsz else newsz
      ensures Unmapped(old(S()), S(), Area(r, Pages(newsz), Pages(oldsz)))
      ensures newsz <= oldsz && Owns(old(S()), Area(r, 0, Pages(newsz)), true) ==>
                Image(mem, r, newsz) == Lazy.Shrunk(Image(old(mem), r, oldsz), newsz)
    {
      hide Good, Unmapped, Owns, Image;
      ghost var s := S();
      UnmappedNothing(S());
      if newsz <= oldsz {
        PagesUpTo(newsz, oldsz);
      }
      if newsz >= oldsz {
        if newsz == oldsz && Owns(s, Area(r, 0, Pages(newsz)), true) {
          ShrunkImage(s, s, r, oldsz, newsz);
        }
        return oldsz;
      }
      if PgRoundUp(newsz) < PgRoundUp(oldsz) {
        var npages := (PgRoundUp(oldsz) - PgRoundUp(newsz)) / 4096;
        assert Pages(newsz) + npages == Pages(oldsz);
        Uvmunmap(r, PgRoundUp(newsz), npages, true, Pages(newsz));
      }
      if Owns(s, Area(r, 0, Pages(newsz)), true) {
        ShrunkImage(s, S(), r, oldsz, newsz);
      }
      return newsz;
    }

    /** The body of the loops of uvmalloc() and uvmcopy(): a fresh frame, filled with `page`, becomes mapped
        at the page at `p`; when there is no frame for it or for a table, it is given back. */
    method AddPage(r: nat, a: nat, page: Page, perm: nat, ghost p: Spot) returns (ok: bool)
      requires Good(S()) && Root(r) in at && a < MAXVA && a % 4096 == 0 && p == LeafSpot(r, a / 4096)
      requires perm < 1024 && Lookup(mem, p) == 0 && |page.word| == ENTRIES
      modifies this`mem, this`freelist, this`free, this`role, this`at
      ensures Delta(old(S()), S(), r, {p})
      ensures if ok then Holds(S(), p, perm, page) else Lookup(mem, p) == 0 && |free| <= 1
      ensures Costs(old(S()), S(), {p} + Tables(p), ok)
    {
      hide Inv, Lookup, Mapping, Roles, Looks, Holds, Costs, Tables, TablesOf, Affords, PageMap, Stretch, LeafSpot, Area;
      ghost var s := S();
      NoFrameYet(s, p);
      DeltaNothing(s, r);
      DeltaWider(s, s, r, {}, {p});
      var f := Kalloc();
      if f == 0 {
        CostsNoFrame(s, s, p, {p} + Tables(p));
        return false;
      }
      mem := mem[f := page];
      ghost var t := S();
      CanAddNow(s, p, f, page);
      TakenLooks(s, page);
      Unlooked(s, t, p);
      OnePage(r, a / 4096);
      assert (a + 4096) / 4096 == a / 4096 + 1 && f * 4096 / 4096 == f && (f * 4096 + 4096) / 4096 == f + 1;
      var result, n := Mappages(r, a, 4096, f * 4096, perm);
      ghost var u := S();
      OneMapped(t, u, r, a / 4096, n, f, perm, p);
      OneCost(r, a / 4096);
      if result != 0 {
        StillHeld(t, u, r, f);
        Kfree(f);
        PageRefused(s, u, p, f, page);
        CostsPage(s, t, u, S(), p, Tables(p), false);
        return false;
      }
      role, at := role[f := At(p)], at[p := f];
      PageAdded(s, u, p, f, page, perm);
      CostsPage(s, t, u, S(), p, Tables(p), true);
      return true;
    }

    /** One turn of uvmalloc()'s loop. */
    method GrowNext(r: nat, a: nat, perm: nat, ghost s: State, ghost lo: nat, ghost v: nat, ghost hi: nat) returns (ok: bool)
      requires lo <= v < hi <= MAXPAGE && a == v * 4096 && perm < 1024 && Root(r) in s.at
      requires Growing(s, S(), r, Area(r, lo, hi), Area(r, lo, v), Area(r, v, hi), ZeroPlan(Area(r, lo, hi), perm))
      modifies this`mem, this`freelist, this`free, this`role, this`at
      ensures ok ==> Growing(s, S(), r, Area(r, lo, hi), Area(r, lo, v + 1), Area(r, v + 1, hi), ZeroPlan(Area(r, lo, hi), perm))
      ensures !ok ==> Growing(s, S(), r, Area(r, lo, hi), Area(r, lo, v), Area(r, v, hi), ZeroPlan(Area(r, lo, hi), perm))
      ensures Costs(old(S()), S(), {LeafSpot(r, v)} + Tables(LeafSpot(r, v)), ok)
    {
      hide Costs, Tables, Inv, Lookup, LeafSpot, Looks, Follows, Holds, PagesOf;
      ghost var t, p, plan := S(), LeafSpot(r, v), ZeroPlan(Area(r, lo, hi), perm);
      AreaTurn(r, lo, v, hi);
      assert Root(r) in t.at;
      ok := AddPage(r, a, ZeroPage(), perm, p);
      if ok {
        GrowMore(s, t, S(), r, Area(r, lo, hi), Area(r, lo, v), p, Area(r, v + 1, hi), plan);
      } else {
        GrowStops(s, t, S(), r, Area(r, lo, hi), Area(r, lo, v), p, Area(r, v + 1, hi), plan);
      }
    }

    /** uvmalloc(): the pages from `oldsz` up to `newsz` become mapped to frames of their own that hold
        zeroes. On failure every page is mapped as before and every data frame is back where it was; page-table
        pages that were added stay. */
    method Uvmalloc(r: nat, oldsz: nat, newsz: nat, xperm: nat) returns (sz: nat, ghost ok: bool)
      requires Good(S()) && Root(r) in at && newsz <= MAXVA && xperm < 1024
      requires Bare(S(), Area(r, Pages(oldsz), Pages(newsz)))
      modifies this`mem, this`freelist, this`free, this`role, this`at
      ensures newsz < oldsz ==> ok && sz == oldsz && S() == old(S())
      ensures newsz >= oldsz && ok ==>
                var all := Area(r, Pages(oldsz), Pages(newsz));
                && sz == newsz && Delta(old(S()), S(), r, all)
                && Follows(S(), all, ZeroPlan(all, Or(Or(PTE_R, PTE_U), xperm)))
      ensures !ok ==> sz == 0 && Delta(old(S()), S(), r, {})
      ensures newsz >= oldsz ==> (ok <==> Affords(old(S()), PlacesOf(r, Pages(oldsz), Pages(newsz))))
      ensures newsz >= oldsz && ok && xperm == PTE_W && Owns(old(S()), Area(r, 0, Pages(oldsz)), true) ==>
                Image(mem, r, newsz) == Lazy.Grown(Image(old(mem), r, oldsz), newsz)
    {
      hide Image, Owns, Affords, Costs, PlacesOf, Tables, LeafSpot, Good, Growing, Bare, Area, Delta, Follows, PgRoundUp, Pages, Or, ZeroPlan;
      if newsz < oldsz {
        return oldsz, true;
      }
      var perm := Or(Or(PTE_R, PTE_U), xperm);
      PermBound(xperm);
      ghost var s, lo, hi, v := S(), Pages(oldsz), Pages(newsz), Pages(oldsz);
      PagesUpTo(oldsz, newsz);
      PagesMeet(oldsz, v);
      ghost var all := Area(r, lo, hi);
      AreaSplit(r, lo, lo, hi);
      GrowNothing(s, r, all, ZeroPlan(all, perm));
      EmptyArea(r, lo, hi);
      CostsNothing(s, s);
      PlacesNone(r, lo);
      var start := PgRoundUp(oldsz);
      var a := start;
      while a < newsz
        invariant a == v * 4096 && lo <= v <= hi
        invariant Growing(s, S(), r, all, Area(r, lo, v), Area(r, v, hi), ZeroPlan(all, perm))
        invariant Costs(s, S(), PlacesOf(r, lo, v), true)
        decreases hi - v
      {
        PagesMeet(newsz, v);
        ghost var t := S();
        var added := GrowNext(r, a, perm, s, lo, v, hi);
        CostsMore(s, t, S(), PlacesOf(r, lo, v), {LeafSpot(r, v)} + Tables(LeafSpot(r, v)), added);
        PlacesStep(r, lo, v);
        if !added {
          PlacesGrow(r, lo, v + 1, hi);
          CostsWider(s, S(), S(), PlacesOf(r, lo, v + 1), PlacesOf(r, lo, hi));
          CostsExactly(s, S(), PlacesOf(r, lo, hi), false);
          GrowRollback(r, a, start, s, lo, v, hi, perm);
          return 0, false;
        }
        a := a + 4096;
        v := v + 1;
      }
      PagesMeet(newsz, v);
      GrownAll(s, S(), r, lo, hi, perm);
      CostsExactly(s, S(), PlacesOf(r, lo, hi), true);
      if xperm == PTE_W && Owns(s, Area(r, 0, lo), true) {
        UserWrite();
        GrownImage(s, S(), r, oldsz, newsz);
      }
      return newsz, true;
    }

    /** The failure path of uvmalloc(). */
    method GrowRollback(r: nat, a: nat, start: nat, ghost s: State, ghost lo: nat, ghost v: nat, ghost hi: nat, ghost perm: nat)
      requires Good(s) && Root(r) in s.at && lo <= v <= hi <= MAXPAGE && a == v * 4096 && start == lo * 4096
      requires Bare(s, Area(r, lo, hi))
      requires Growing(s, S(), r, Area(r, lo, hi), Area(r, lo, v), Area(r, v, hi), ZeroPlan(Area(r, lo, hi), perm))
      modifies this`mem, this`freelist, this`free, this`role, this`at
      ensures Delta(s, S(), r, {})
    {
      hide Inv, Lookup, Looks, Follows, Bare, PagesOf;
      ghost var t, plan := S(), ZeroPlan(Area(r, lo, hi), perm);
      AreaSplit(r, lo, v, hi);
      PagesMeet(a, v);
      PagesMeet(start, lo);
      FollowersOwn(t, Area(r, lo, v), plan);
      assert Root(r) in t.at;
      var sz := Uvmdealloc(r, a, start);
      GrowUndone(s, t, S(), r, Area(r, lo, hi), Area(r, lo, v), Area(r, v, hi), plan);
    }

    /** vmfault(), for a process of size `sz`: a page of zeroes where there is none below the size, when there are
        frames for it and its tables. To user code it is the fault of the lazily grown process. */
    method Vmfault(r: nat, sz: nat, va: nat) returns (ok: bool)
      requires Good(S()) && Root(r) in at && sz <= MAXVA && Owns(S(), Area(r, 0, Pages(sz)), true)
      modifies this`mem, this`freelist, this`free, this`role, this`at
      ensures var fault := Lazy.Fault(Image(old(mem), r, sz), va);
        && (ok <==> fault.Some? && Affords(old(S()), {LeafSpot(r, va / 4096)} + Tables(LeafSpot(r, va / 4096))))
        && Image(mem, r, sz) == if ok then fault.value else Image(old(mem), r, sz)
      ensures Delta(old(S()), S(), r, if ok then {LeafSpot(r, va / 4096)} else {})
    {
      hide Inv, Lookup, LeafSpot, Image, Costs, Affords, Tables, Delta, Area, Pages;
      ghost var s := S();
      DeltaNothing(s, r);
      FaultMeets(s.mem, r, sz, va);
      if va >= sz {
        return false;
      }
      var va0 := va / 4096 * 4096;
      ghost var v := va / 4096;
      assert va0 / 4096 == v;
      ghost var p := LeafSpot(r, v);
      SpotOf(r, v);
      Mapped(s, p);
      TableFits(s, p.up, p.k);
      var t := Walk(r, va0, false, p);
      if t != 0 && Present(mem[t].word[PX(0, va0)]) {
        return false;
      }
      ok := AddPage(r, va0, ZeroPage(), 22, p);
      CostsExactly(s, S(), {p} + Tables(p), ok);
      if ok {
        FaultImage(s, S(), r, sz, v);
      } else {
        RefusedImage(s, S(), r, sz, v);
        DeltaNarrow(s, S(), r, p);
      }
    }

    /** One turn of uvmcopy()'s loop, on page `v` of page tables `o` and `n`. */
    method CopyNext(o: nat, n: nat, i: nat, ghost s: State, ghost v: nat, ghost hi: nat) returns (ok: bool)
      requires v < hi <= MAXPAGE && i == v * 4096 && Good(s) && CanCopy(s, o, n, hi)
      requires Growing(s, S(), n, Area(n, 0, hi), Area(n, 0, v), Area(n, v, hi), CopyPlan(s, o, n, hi))
      modifies this`mem, this`freelist, this`free, this`role, this`at
      ensures ok ==> Growing(s, S(), n, Area(n, 0, hi), Area(n, 0, v + 1), Area(n, v + 1, hi), CopyPlan(s, o, n, hi))
      ensures !ok ==> Growing(s, S(), n, Area(n, 0, hi), Area(n, 0, v), Area(n, v, hi), CopyPlan(s, o, n, hi))
      ensures Costs(old(S()), S(), CopyOf(s.mem, o, n, v), ok)
    {
      hide Costs, Tables, Inv, Lookup, LeafSpot, Looks, Follows, Holds, PagesOf, Area, CopyPlan, Owns, Bare, RoleStep, Bystander, Frame, Flags;
      ghost var t, q, p, plan := S(), LeafSpot(o, v), LeafSpot(n, v), CopyPlan(s, o, n, hi);
      AreaTurn(n, 0, v, hi);
      CopySource(s, t, o, n, v, hi);
      Mapped(t, q);
      TableFits(t, q.up, q.k);
      var f := Walk(o, i, false, q);
      CostsNothing(t, t);
      if f == 0 {
        GrowSkip(s, t, n, Area(n, 0, hi), Area(n, 0, v), p, Area(n, v + 1, hi), plan);
        return true;
      }
      var pte := mem[f].word[PX(0, i)];
      if !Present(pte) {
        GrowSkip(s, t, n, Area(n, 0, hi), Area(n, 0, v), p, Area(n, v + 1, hi), plan);
        return true;
      }
      FlagsBound(pte);
      ok := AddPage(n, i, mem[Frame(pte)], Flags(pte), p);
      if ok {
        GrowMore(s, t, S(), n, Area(n, 0, hi), Area(n, 0, v), p, Area(n, v + 1, hi), plan);
      } else {
        GrowStops(s, t, S(), n, Area(n, 0, hi), Area(n, 0, v), p, Area(n, v + 1, hi), plan);
      }
    }

    /** uvmcopy(): every page below `sz` that is mapped in `o` becomes mapped in `n`, with the same
        permissions, to a frame of its own with the same contents, and the pages that are not stay unmapped.
        On failure no page and no data frame has changed. */
    method Uvmcopy(o: nat, n: nat, sz: nat) returns (result: int)
      requires Good(S()) && sz <= MAXVA && CanCopy(S(), o, n, Pages(sz))
      modifies this`mem, this`freelist, this`free, this`role, this`at
      ensures result == 0 || result == -1
      ensures result == 0 ==>
                Delta(old(S()), S(), n, Area(n, 0, Pages(sz))) && Follows(S(), Area(n, 0, Pages(sz)), CopyPlan(old(S()), o, n, Pages(sz)))
      ensures result == 0 ==> Image(mem, n, sz) == Image(old(mem), o, sz) == Image(mem, o, sz)
      ensures result == -1 ==> Delta(old(S()), S(), n, {})
      ensures result == 0 <==> Affords(old(S()), CopiesOf(old(mem), o, n, Pages(sz)))
    {
      hide Affords, Costs, CopiesOf, CopyOf, Image, Inv, Growing, Bare, Area, Delta, Follows, Pages, CopyPlan, CanCopy;
      ghost var s, hi, v := S(), Pages(sz), 0;
      PagesUpTo(0, sz);
      CopyStart(s, o, n, hi);
      CostsNothing(s, s);
      CopiesNone(s.mem, o, n);
      var i := 0;
      while i < sz
        invariant i == v * 4096 && 0 <= v <= hi
        invariant Growing(s, S(), n, Area(n, 0, hi), Area(n, 0, v), Area(n, v, hi), CopyPlan(s, o, n, hi))
        invariant Costs(s, S(), CopiesOf(s.mem, o, n, v), true)
        decreases hi - v
      {
        PagesMeet(sz, v);
        ghost var t := S();
        var ok := CopyNext(o, n, i, s, v, hi);
        CostsMore(s, t, S(), CopiesOf(s.mem, o, n, v), CopyOf(s.mem, o, n, v), ok);
        CopiesStep(s.mem, o, n, v);
        if !ok {
          CopiesGrow(s.mem, o, n, v + 1, hi);
          CostsWider(s, S(), S(), CopiesOf(s.mem, o, n, v + 1), CopiesOf(s.mem, o, n, hi));
          CostsExactly(s, S(), CopiesOf(s.mem, o, n, hi), false);
          CopyRollback(o, n, i, s, v, hi);
          return -1;
        }
        i := i + 4096;
        v := v + 1;
      }
      PagesMeet(sz, v);
      CopyDone(s, S(), n, hi, CopyPlan(s, o, n, hi));
      CopyImages(s, S(), o, n, sz);
      CostsExactly(s, S(), CopiesOf(s.mem, o, n, hi), true);
      return 0;
    }

    /** The failure path of uvmcopy(). */
    method CopyRollback(o: nat, n: nat, i: nat, ghost s: State, ghost v: nat, ghost hi: nat)
      requires Good(s) && v <= hi <= MAXPAGE && i == v * 4096 && CanCopy(s, o, n, hi)
      requires Growing(s, S(), n, Area(n, 0, hi), Area(n, 0, v), Area(n, v, hi), CopyPlan(s, o, n, hi))
      modifies this`mem, this`freelist, this`free, this`role, this`at
      ensures Delta(s, S(), n, {})
    {
      hide Inv, Lookup, Looks, Follows, Bare, PagesOf, Area, CopyPlan;
      ghost var t, plan := S(), CopyPlan(s, o, n, hi);
      AreaSplit(n, 0, v, hi);
      FollowersOwn(t, Area(n, 0, v), plan);
      assert Root(n) in t.at;
      Uvmunmap(n, 0, i / 4096, true, 0);
      GrowUndone(s, t, S(), n, Area(n, 0, hi), Area(n, 0, v), Area(n, v, hi), plan);
    }

    /** freewalk(): free the table `t` at `p` and every table below it. No leaf may be mapped there: freewalk()
        panics on one. */
    method Freewalk(t: nat, ghost p: Spot)
      requires Inv(S()) && p in at && at[p] == t && !IsLeaf(p) && NoLeaf(S(), p) && forall q :: q in stale ==> !Under(p, q)
      modifies this
      ensures Razed(old(S()), S(), p)
      decreases 3 - Size(p)
    {
      hide Listed, Placed, Pointed, Pruned, Razed, NoLeaf, Gone, Under, Pointer, Frame, Present;
      ghost var s := S();
      PruneStart(s, p);
      TableSize(s, p);
      for i := 0 to ENTRIES
        invariant Pruned(s, S(), p, i)
      {
        ghost var u := S();
        PruneNext(s, u, p, i);
        var pte := mem[t].word[i];
        if Present(pte) && Pointer(pte) {
          Freewalk(Frame(pte), Child(p, i));
          PruneCleared(s, u, S(), p, i);
          mem := mem[t := Stored(mem[t], i, 0)];
          stale := stale - {Child(p, i)};
        } else if Present(pte) {
          assert false;
        }
      }
      RazeEnd(s, S(), p);
      role, at, stale := role[t := Held], at - {p}, stale + if p.Child? then {p} else {};
      Kfree(t);
    }

    /** uvmfree(): when every mapped page of `r` lies below `sz` and owns its frame, exactly the frames of that
        page table and its pages become free; no other page table changes. */
    method Uvmfree(r: nat, sz: nat)
      requires Good(S()) && Root(r) in at && sz <= MAXVA
      requires forall p {:trigger Lookup(mem, p)} :: IsLeaf(p) && RootOf(p) == r && Lookup(mem, p) != 0 ==>
                 p in at && p in Area(r, 0, Pages(sz))
      modifies this
      ensures Freed(old(S()), S(), r)
    {
      hide Inv, Unmapped, Razed, NoLeaf, Under, Freed, Lookup;
      ghost var s, a := S(), Area(r, 0, Pages(sz));
      FreeStart(s, r, Pages(sz));
      PagesMeet(sz, 0);
      if sz > 0 {
        Uvmunmap(r, 0, PgRoundUp(sz) / 4096, true, 0);
      }
      ghost var t := S();
      FreeTables(s, t, r, a);
      Freewalk(r, Root(r));
      FreedAll(s, t, S(), r, a);
    }

    /** uvmcreate(): the root of an empty page table; 0 when there is no frame. */
    method Uvmcreate() returns (r: nat)
      requires Good(S())
      modifies this`mem, this`freelist, this`free, this`role, this`at
      ensures Good(S()) && Looks(old(S()), S(), {})
      ensures r == 0 ==> S() == old(S()) && free == []
      ensures r != 0 ==> Root(r) in at && Root(r) !in old(at) && old(free) != [] && r == old(free)[0]
      ensures r != 0 ==> forall p {:trigger Lookup(mem, p)} :: IsLeaf(p) && RootOf(p) == r ==> Lookup(mem, p) == 0
    {
      ghost var s := S();
      r := Kalloc();
      if r == 0 {
        return;
      }
      hide Pointed, Placed, Lookup;
      mem := mem[r := ZeroPage()];
      TakenLooks(s, ZeroPage());
      RootKeeps(S(), r);
      ghost var t := S();
      role, at := role[r := At(Root(r))], at[Root(r) := r];
      RootBare(S(), r);
      LooksTrans(s, t, S(), {});
    }

    /** freerange(): the held frames that lie wholly between two addresses become free. */
    method Freerange(start: nat, end: nat)
      requires Inv(S()) && forall f :: Pages(start) <= f < end / 4096 ==> f in role && role[f] == Held
      modifies this`mem, this`freelist, this`free, this`role
      ensures Inv(S()) && at == old(at) && role.Keys == old(role.Keys)
      ensures forall f :: f in role ==> role[f] == if Pages(start) <= f < end / 4096 then Free else old(role)[f]
    {
      hide Inv, Pages, PgRoundUp;
      var p := PgRoundUp(start);
      ghost var f := Pages(start);
      PagesMeet(start, f);
      while p + 4096 <= end
        invariant p == f * 4096 && Pages(start) <= f && Inv(S()) && at == old(at) && role.Keys == old(role.Keys)
        invariant f <= end / 4096 || f == Pages(start)
        invariant forall g :: g in role ==> role[g] == if Pages(start) <= g < f then Free else old(role)[g]
      {
        GivenKeeps(S(), f);
        Kfree(p / 4096);
        p := p + 4096;
        f := f + 1;
      }
    }

    /** Memory as kinit() finds it: no frame is free yet. */
    constructor (frames: map<nat, Page>)
      requires forall f :: f in frames ==> 0 < f < MAXFRAME && |frames[f].word| == ENTRIES
      ensures Good(S()) && mem == frames && role.Keys == frames.Keys && forall f :: f in role ==> role[f] == Held
    {
      mem, freelist, free, at, stale := frames, 0, [], map[], {};
      role := map f | f in frames :: Held;
    }
  }
}
