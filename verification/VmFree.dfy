/**
  Taking a page table apart: what freewalk() of kernel/vm.c does to the tables, one entry at a time.
*/
module VmFree {
  import opened Sv39
  import opened VmModel

  /** `q` is `p` or lies below it. */
  predicate Under(p: Spot, q: Spot) {
    q == p || (q.Child? && Under(p, q.up))
  }

  /** `q` lies below one of the first `i` entries of the table at `p`. */
  predicate Gone(p: Spot, i: nat, q: Spot) {
    q.Child? && ((q.up == p && q.k < i) || Gone(p, i, q.up))
  }

  function Size(p: Spot): nat {
    if p.Root? then 0 else Size(p.up) + 1
  }

  lemma {:induction false} UnderSize(p: Spot, q: Spot)
    requires Under(p, q)
    ensures q == p || Size(p) < Size(q)
  {
    if q != p {
      UnderSize(p, q.up);
    }
  }

  lemma {:induction false} GoneUnder(p: Spot, i: nat, q: Spot)
    ensures Gone(p, i, q) ==> Under(p, q) && q != p
  {
    if q.Child? {
      GoneUnder(p, i, q.up);
      if Gone(p, i, q) {
        UnderSize(p, q.up);
        assert Size(p) <= Size(q.up);
      }
    }
  }

  lemma {:induction false} GoneStep(p: Spot, i: nat, q: Spot)
    ensures Gone(p, i + 1, q) <==> Gone(p, i, q) || Under(Child(p, i), q)
  {
    if q.Child? {
      GoneStep(p, i, q.up);
      UnderUp(p, i, q);
    }
  }

  lemma {:induction false} UnderUp(p: Spot, i: nat, q: Spot)
    ensures Under(Child(p, i), q) ==> Under(p, q)
  {
    if q.Child? && q != Child(p, i) {
      UnderUp(p, i, q.up);
    }
  }

  /** A place is only in use when the places above it are. */
  lemma {:induction false} AboveInUse(s: State, p: Spot, q: Spot)
    requires Inv(s) && q in s.at && Under(p, q)
    ensures p in s.at
  {
    if q != p {
      assert Hung(s, q);
      AboveInUse(s, p, q.up);
    }
  }

  /** Below `p` is below one of its entries. */
  lemma {:induction false} GoneAll(s: State, p: Spot, q: Spot)
    requires Inv(s) && q in s.at
    ensures Under(p, q) <==> q == p || Gone(p, ENTRIES, q)
  {
    GoneUnder(p, ENTRIES, q);
    if q.Child? && q != p && Under(p, q) {
      assert Hung(s, q);
      GoneAll(s, p, q.up);
    }
  }

  lemma {:induction false} UnderRoot(r: nat, q: Spot)
    requires Upper(q) || Last(q) || IsLeaf(q)
    ensures Under(Root(r), q) <==> RootOf(q) == r
  {
    if q.Child? {
      if q.up.Child? {
        assert q.up.up.Child? ==> (Under(Root(r), q.up.up) <==> q.up.up.up == Root(r));
        assert Under(Root(r), q.up) <==> Under(Root(r), q.up.up);
      }
      assert Under(Root(r), q) <==> Under(Root(r), q.up);
    }
  }

  /** No entry of a last-level table below `p` is present: all leaf mappings have been removed. */
  ghost predicate NoLeaf(s: State, p: Spot) {
    forall q, k {:trigger Entry(s, q, k)} :: q in s.at && Last(q) && Under(p, q) && 0 <= k < ENTRIES ==> !Present(Entry(s, q, k))
  }

  // -------- single steps --------

  /** The frame of table `p`, which nothing hangs below any more, is about to be freed; the entry above
      still refers to it. */
  function Cut(s: State, p: Spot): State
    requires p in s.at
  {
    s.(role := s.role[s.at[p] := Held], at := s.at - {p}, stale := s.stale + if p.Child? then {p} else {})
  }

  lemma CutKeeps(s: State, p: Spot)
    requires Inv(s) && p in s.at && !IsLeaf(p) && forall q :: q in s.at && q.Child? ==> q.up != p
    ensures Inv(Cut(s, p))
  {
    var s' := Cut(s, p);
    CutListed(s, p);
    hide Listed, MakePte, Frame;
    forall q, l | q in s'.at ensures Entry(s', q, l) == Entry(s, q, l) {}
  }

  lemma CutListed(s: State, p: Spot)
    requires Inv(s) && p in s.at && !IsLeaf(p) && forall q :: q in s.at && q.Child? ==> q.up != p
    ensures Frames(Cut(s, p)) && Listed(Cut(s, p)) && Placed(Cut(s, p))
  {
    hide Pointed, Listed;
    var s' := Cut(s, p);
    SameListed(s, s');
    forall q | q in s'.at ensures Hung(s', q) { assert Hung(s, q); }
  }

  /** The entry above a freed table is cleared. */
  function Cleared(s: State, p: Spot, k: nat): State
    requires p in s.at && s.at[p] in s.mem && k < |s.mem[s.at[p]].word|
  {
    Put(s, p, k, 0).(stale := s.stale - {Child(p, k)})
  }

  lemma ClearedKeeps(s: State, p: Spot, k: nat)
    requires Inv(s) && p in s.at && Upper(p) && k < ENTRIES && Child(p, k) in s.stale
    ensures Inv(Cleared(s, p, k))
  {
    var s', t := Cleared(s, p, k), Put(s, p, k, 0);
    PutListed(s, p, k, 0);
    PutEntry(s, p, k, 0);
    hide Listed, MakePte, Frame;
    ClearedListed(s, p, k);
    forall q, l | true ensures Entry(s', q, l) == if q == p && l == k then 0 else Entry(s, q, l) {
      assert Entry(s', q, l) == Entry(t, q, l);
    }
  }

  lemma ClearedListed(s: State, p: Spot, k: nat)
    requires Inv(s) && p in s.at && k < ENTRIES && Listed(Put(s, p, k, 0)) && Placed(Put(s, p, k, 0))
    ensures Frames(Cleared(s, p, k)) && Listed(Cleared(s, p, k)) && Placed(Cleared(s, p, k))
  {
    hide Pointed, Listed;
    var s', t := Cleared(s, p, k), Put(s, p, k, 0);
    SameListed(t, s');
    forall q | q in s'.at ensures Hung(s', q) { assert Hung(t, q); }
  }

  // -------- the walk --------

  /** The first `i` entries of the table at `p` are done: exactly the frames below them have become free, and
      nothing else has changed but those entries. */
  ghost predicate Pruned(s: State, t: State, p: Spot, i: nat)
    requires p in s.at
  {
    && Inv(t) && t.stale == s.stale && t.role.Keys == s.role.Keys && t.mem.Keys == s.mem.Keys
    && (forall f {:trigger t.role[f]} :: f in s.role ==>
          t.role[f] == if s.role[f].At? && Gone(p, i, s.role[f].spot) then Free else s.role[f])
    && (forall f {:trigger t.mem[f]} :: f in s.role && f != s.at[p] && !(s.role[f].At? && Gone(p, i, s.role[f].spot)) ==>
          t.mem[f] == s.mem[f])
    && (forall k {:trigger Entry(t, p, k)} :: i <= k < ENTRIES ==> Entry(t, p, k) == Entry(s, p, k))
  }

  /** The table at `p` and everything below it are gone: exactly their frames have become free. */
  ghost predicate Razed(s: State, t: State, p: Spot) {
    && Inv(t) && t.stale == s.stale + (if p.Child? then {p} else {}) && t.role.Keys == s.role.Keys && t.mem.Keys == s.mem.Keys
    && (forall f {:trigger t.role[f]} :: f in s.role ==>
          t.role[f] == if s.role[f].At? && Under(p, s.role[f].spot) then Free else s.role[f])
    && (forall f {:trigger t.mem[f]} :: f in s.role && !(s.role[f].At? && Under(p, s.role[f].spot)) ==> t.mem[f] == s.mem[f])
  }

  /** What is not yet pruned is still in use, at the same frame. */
  lemma StillThere(s: State, t: State, p: Spot, i: nat, q: Spot)
    requires Inv(s) && p in s.at && Pruned(s, t, p, i)
    ensures q in t.at <==> q in s.at && !Gone(p, i, q)
    ensures q in t.at ==> t.at[q] == s.at[q]
  {
    hide Listed, Pointed;
    if q in t.at {
      assert t.role[t.at[q]] == At(q);
    }
    if q in s.at && !Gone(p, i, q) {
      assert s.role[s.at[q]] == At(q) && t.role[s.at[q]].spot == q;
    }
  }

  lemma PruneStart(s: State, p: Spot)
    requires Inv(s) && p in s.at
    ensures Pruned(s, s, p, 0)
  {
    forall f | f in s.role && s.role[f].At? ensures !Gone(p, 0, s.role[f].spot) { NotGone(p, s.role[f].spot); }
  }

  lemma {:induction false} NotGone(p: Spot, q: Spot)
    ensures !Gone(p, 0, q)
  {
    if q.Child? { NotGone(p, q.up); }
  }

  /** An entry with nothing below it. */
  lemma PruneSkip(s: State, t: State, p: Spot, i: nat)
    requires Inv(s) && p in s.at && Pruned(s, t, p, i) && i < ENTRIES && Child(p, i) !in t.at
    ensures Pruned(s, t, p, i + 1)
  {
    hide Listed, Pointed;
    StillThere(s, t, p, i, Child(p, i));
    forall f | f in s.role && s.role[f].At? ensures Gone(p, i, s.role[f].spot) <==> Gone(p, i + 1, s.role[f].spot) {
      var q := s.role[f].spot;
      GoneStep(p, i, q);
      if Under(Child(p, i), q) {
        AboveInUse(s, Child(p, i), q);
        GoneUnder(p, i, Child(p, i));
        assert Gone(p, i, Child(p, i));
        GoneBelow(p, i, Child(p, i), q);
      }
    }
  }

  lemma {:induction false} GoneBelow(p: Spot, i: nat, x: Spot, q: Spot)
    requires Gone(p, i, x) && Under(x, q)
    ensures Gone(p, i, q)
  {
    if q != x { GoneBelow(p, i, x, q.up); }
  }

  /** An entry whose table has been razed and which has been cleared. */
  lemma PruneMore(s: State, t: State, u: State, p: Spot, i: nat)
    requires Inv(s) && p in s.at && Pruned(s, t, p, i) && i < ENTRIES && Razed(t, u, Child(p, i))
    requires Upper(p) && Child(p, i) !in s.stale && p in u.at && u.at[p] == s.at[p]
    ensures u.at[p] in u.mem && |u.mem[u.at[p]].word| == ENTRIES && Pruned(s, Cleared(u, p, i), p, i + 1)
  {
    hide Inv, Gone, Under, Entry;
    PruneEntries(s, t, u, p, i);
    SpotFacts(s, p);
    var v := Cleared(u, p, i);
    ClearedKeeps(u, p, i);
    forall f | f in s.role
      ensures v.role[f] == if s.role[f].At? && Gone(p, i + 1, s.role[f].spot) then Free else s.role[f]
      ensures f != s.at[p] && !(s.role[f].At? && Gone(p, i + 1, s.role[f].spot)) ==> v.mem[f] == s.mem[f]
    {
      PruneOne(s, t, u, p, i, f);
    }
  }

  lemma PruneOne(s: State, t: State, u: State, p: Spot, i: nat, f: nat)
    requires p in s.at && Pruned(s, t, p, i) && Razed(t, u, Child(p, i)) && f in s.role
    ensures u.role[f] == if s.role[f].At? && Gone(p, i + 1, s.role[f].spot) then Free else s.role[f]
    ensures f != s.at[p] && !(s.role[f].At? && Gone(p, i + 1, s.role[f].spot)) ==> u.mem[f] == s.mem[f]
  {
    hide Inv, Gone, Under;
    if s.role[f].At? { GoneStep(p, i, s.role[f].spot); }
    assert t.role[f] == if s.role[f].At? && Gone(p, i, s.role[f].spot) then Free else s.role[f];
    assert u.role[f] == if t.role[f].At? && Under(Child(p, i), t.role[f].spot) then Free else t.role[f];
  }

  lemma PruneEntries(s: State, t: State, u: State, p: Spot, i: nat)
    requires Inv(s) && p in s.at && Pruned(s, t, p, i) && i < ENTRIES && Razed(t, u, Child(p, i)) && p in u.at && u.at[p] == s.at[p]
    ensures u.at[p] in u.mem && |u.mem[u.at[p]].word| == ENTRIES
    ensures forall k {:trigger Entry(Cleared(u, p, i), p, k)} :: i + 1 <= k < ENTRIES ==> Entry(Cleared(u, p, i), p, k) == Entry(s, p, k)
  {
    hide Inv, Gone, Under;
    NotUnderChild(p, i);
    EntryKept(s, t, p, i);
    SpotFacts(s, p);
    SpotFacts(t, p);
    SpotFacts(u, p);
    assert u.mem[s.at[p]] == t.mem[s.at[p]];
    forall k | i + 1 <= k < ENTRIES ensures Entry(Cleared(u, p, i), p, k) == Entry(s, p, k) {
      assert Entry(t, p, k) == Entry(s, p, k);
    }
  }

  lemma NotUnderChild(p: Spot, i: nat)
    ensures !Under(Child(p, i), p)
  {
    assert Size(Child(p, i)) == Size(p) + 1;
    if Under(Child(p, i), p) { UnderSize(Child(p, i), p); }
  }

  /** All entries done: the table itself can be freed. */
  lemma RazeCut(s: State, t: State, p: Spot)
    requires Inv(s) && p in s.at && !IsLeaf(p) && Pruned(s, t, p, ENTRIES)
    ensures p in t.at && t.at[p] == s.at[p] && Inv(Cut(t, p)) && Cut(t, p).role[t.at[p]] == Held
  {
    hide Listed, Pointed;
    StillThere(s, t, p, ENTRIES, p);
    GoneUnder(p, ENTRIES, p);
    forall q | q in t.at && q.Child? ensures q.up != p {
      StillThere(s, t, p, ENTRIES, q);
      assert Hung(t, q);
    }
    CutKeeps(t, p);
  }

  lemma RazeEnd(s: State, t: State, p: Spot)
    requires Inv(s) && p in s.at && !IsLeaf(p) && Pruned(s, t, p, ENTRIES)
    ensures p in t.at && t.at[p] == s.at[p] && Inv(Cut(t, p)) && Cut(t, p).role[t.at[p]] == Held
    ensures Razed(s, Given(Cut(t, p), t.at[p]), p)
  {
    hide Listed, Pointed, Gone, Under;
    RazeCut(s, t, p);
    GivenKeeps(Cut(t, p), t.at[p]);
    var u := Given(Cut(t, p), t.at[p]);
    forall f | f in s.role
      ensures u.role[f] == if s.role[f].At? && Under(p, s.role[f].spot) then Free else s.role[f]
      ensures !(s.role[f].At? && Under(p, s.role[f].spot)) ==> u.mem[f] == s.mem[f]
    {
      if s.role[f].At? {
        assert s.role[f].spot in s.at;
        GoneAll(s, p, s.role[f].spot);
      }
      assert t.role[f] == if s.role[f].At? && Gone(p, ENTRIES, s.role[f].spot) then Free else s.role[f];
    }
  }

  lemma TableSize(s: State, p: Spot)
    requires Inv(s) && p in s.at && !IsLeaf(p)
    ensures Size(p) <= 2 && (Upper(p) ==> Size(p) <= 1)
  {
    if p.Child? && p.up.Child? { assert Size(p.up) == 1; }
  }

  /** What freewalk() may find at entry `i` of the table at `p`: nothing, or a table below. */
  ghost predicate Prunable(s: State, t: State, p: Spot, i: nat)
    requires p in s.at
  {
    && i < ENTRIES && p in t.at && t.at[p] == s.at[p] && s.at[p] in t.mem && |t.mem[s.at[p]].word| == ENTRIES
    && var e, c := t.mem[s.at[p]].word[i], Child(p, i);
       && (!Present(e) ==> Pruned(s, t, p, i + 1))
       && (Present(e) ==> Pointer(e) && Upper(p) && c in t.at && t.at[c] == Frame(e) && !IsLeaf(c) && NoLeaf(t, c))
       && (Present(e) ==> forall q :: q in t.stale ==> !Under(c, q))
  }

  lemma ChildFacts(t: State, p: Spot, i: nat)
    requires Inv(t) && p in t.at && Upper(p) && i < ENTRIES && Child(p, i) !in t.stale
    ensures Present(Entry(t, p, i)) <==> Child(p, i) in t.at
    ensures Child(p, i) in t.at ==> Pointer(Entry(t, p, i)) && Frame(Entry(t, p, i)) == t.at[Child(p, i)]
  {
    hide Listed, MakePte;
    if Child(p, i) in t.at {
      PteRoundTrip(t.at[Child(p, i)], 0);
    }
  }

  lemma InnerSpot(t: State, p: Spot)
    requires Inv(t) && p in t.at && !IsLeaf(p)
    ensures Last(p) || Upper(p)
  {
  }

  lemma PruneNext(s: State, t: State, p: Spot, i: nat)
    requires Inv(s) && p in s.at && !IsLeaf(p) && NoLeaf(s, p) && Pruned(s, t, p, i) && i < ENTRIES
    requires forall q :: q in s.stale ==> !Under(p, q)
    ensures Inv(t) && Prunable(s, t, p, i)
  {
    hide Inv, NoLeaf, Gone, Under, Present, Pointer, Frame;
    EntryKept(s, t, p, i);
    UnderDirect(p, i);
    InnerSpot(s, p);
    if Last(p) {
      LastEmpty(s, t, p, i);
      PruneSkip(s, t, p, i);
    } else {
      ChildFacts(t, p, i);
      if Present(Entry(t, p, i)) {
        NoLeafBelow(s, t, p, i);
        forall q | q in t.stale ensures !Under(Child(p, i), q) { UnderUp(p, i, q); }
      } else {
        PruneSkip(s, t, p, i);
      }
    }
  }

  lemma UnderDirect(p: Spot, i: nat)
    ensures Under(p, Child(p, i))
  {
  }

  lemma EntryKept(s: State, t: State, p: Spot, i: nat)
    requires Inv(s) && p in s.at && Pruned(s, t, p, i) && i < ENTRIES
    ensures p in t.at && t.at[p] == s.at[p] && s.at[p] in t.mem && |t.mem[s.at[p]].word| == ENTRIES
    ensures Entry(t, p, i) == Entry(s, p, i) == t.mem[s.at[p]].word[i]
  {
    hide Listed, Pointed;
    StillThere(s, t, p, i, p);
    GoneUnder(p, i, p);
  }

  lemma LastEmpty(s: State, t: State, p: Spot, i: nat)
    requires Inv(s) && p in s.at && Last(p) && NoLeaf(s, p) && Pruned(s, t, p, i) && i < ENTRIES
    ensures !Present(Entry(t, p, i)) && Child(p, i) !in t.at
  {
    hide Listed;
    EntryKept(s, t, p, i);
    assert Under(p, p) && !Present(Entry(s, p, i));
  }

  lemma NoLeafBelow(s: State, t: State, p: Spot, i: nat)
    requires Inv(s) && p in s.at && NoLeaf(s, p) && Pruned(s, t, p, i)
    ensures NoLeaf(t, Child(p, i))
  {
    hide Listed, Pointed;
    forall q, k | q in t.at && Last(q) && Under(Child(p, i), q) && 0 <= k < ENTRIES ensures !Present(Entry(t, q, k)) {
      StillThere(s, t, p, i, q);
      UnderUp(p, i, q);
      NotUnderChild(p, i);
      assert t.mem[s.at[q]] == s.mem[s.at[q]] by { assert s.role[s.at[q]] == At(q) && s.role[s.at[p]] == At(p); }
      assert Entry(t, q, k) == Entry(s, q, k);
    }
  }

  lemma PruneCleared(s: State, t: State, u: State, p: Spot, i: nat)
    requires Inv(s) && p in s.at && Upper(p) && Pruned(s, t, p, i) && i < ENTRIES && Razed(t, u, Child(p, i))
    requires forall q :: q in s.stale ==> !Under(p, q)
    ensures p in u.at && u.at[p] == s.at[p] && s.at[p] in u.mem && |u.mem[s.at[p]].word| == ENTRIES
    ensures Pruned(s, Cleared(u, p, i), p, i + 1)
  {
    hide Listed, Pointed;
    StillThere(s, t, p, i, p);
    GoneUnder(p, i, p);
    NotUnderChild(p, i);
    assert t.role[s.at[p]] == At(p) && u.role[s.at[p]].spot == p;
    assert Under(p, Child(p, i));
    PruneMore(s, t, u, p, i);
  }

  // -------- a whole page table --------

  /** When no page is mapped, no last-level table has an entry. */
  lemma BareNoLeaf(s: State, r: nat)
    requires Good(s) && Root(r) in s.at
    requires forall p {:trigger Lookup(s.mem, p)} :: IsLeaf(p) && RootOf(p) == r ==> Lookup(s.mem, p) == 0
    ensures NoLeaf(s, Root(r))
  {
    hide Listed, Pointed, Lookup;
    forall q, k | q in s.at && Last(q) && Under(Root(r), q) && 0 <= k < ENTRIES ensures !Present(Entry(s, q, k)) {
      UnderRoot(r, q);
      assert Hung(s, q);
      assert Hung(s, q.up);
      var p := Child(q, k);
      assert IsLeaf(p) && Lookup(s.mem, p) == 0;
      Mapped(s, p);
    }
  }

  /** Razing one page table leaves the mappings of the others. */
  lemma RazedLooks(s: State, t: State, r: nat, p: Spot)
    requires Good(s) && Root(r) in s.at && Razed(s, t, Root(r)) && IsLeaf(p) && RootOf(p) != r && Root(RootOf(p)) in s.at
    ensures Root(RootOf(p)) in t.at && Lookup(t.mem, p) == Lookup(s.mem, p)
  {
    hide Listed, Pointed, Lookup;
    KeptSpot(s, t, r, Root(RootOf(p)));
    KeptSpot(s, t, r, p.up);
    LookupMeets(s, p);
    LookupMeets(t, p);
  }

  lemma KeptSpot(s: State, t: State, r: nat, q: Spot)
    requires Good(s) && Razed(s, t, Root(r)) && !IsLeaf(q) && RootOf(q) != r && (Upper(q) || Last(q))
    ensures q in t.at <==> q in s.at
    ensures q in s.at ==> t.at[q] == s.at[q] && t.mem[t.at[q]] == s.mem[s.at[q]]
  {
    hide Listed, Pointed;
    UnderRoot(r, q);
    if q in s.at { assert s.role[s.at[q]] == At(q) && t.role[s.at[q]].spot == q; }
    if q in t.at { assert t.role[t.at[q]] == At(q); }
  }

  /** uvmfree() as a whole: exactly the frames of page table `r` have become free, and the other page tables
      are as they were. */
  ghost predicate Freed(s: State, t: State, r: nat) {
    && Good(t) && t.role.Keys == s.role.Keys && t.mem.Keys == s.mem.Keys == s.role.Keys
    && (forall f {:trigger t.role[f]} :: f in s.role ==>
          t.role[f] == if s.role[f].At? && RootOf(s.role[f].spot) == r then Free else s.role[f])
    && (forall f {:trigger t.mem[f]} :: f in s.role && (s.role[f] == Held || (s.role[f].At? && IsLeaf(s.role[f].spot) && RootOf(s.role[f].spot) != r)) ==>
          t.mem[f] == s.mem[f])
    && (forall p {:trigger Lookup(t.mem, p)} :: IsLeaf(p) && RootOf(p) != r && Root(RootOf(p)) in s.at ==>
          Lookup(t.mem, p) == Lookup(s.mem, p))
  }

  lemma FreedAll(s: State, t: State, u: State, r: nat, a: set<Spot>)
    requires Good(s) && Root(r) in s.at && Unmapped(s, t, a) && Razed(t, u, Root(r)) && PagesOf(a, r)
    requires forall p :: IsLeaf(p) && RootOf(p) == r && p in s.at ==> p in a
    ensures Freed(s, u, r)
  {
    hide Listed, Pointed, Placed, Lookup, Under;
    forall f | f in s.role
      ensures u.role[f] == if s.role[f].At? && RootOf(s.role[f].spot) == r then Free else s.role[f]
      ensures (s.role[f] == Held || (s.role[f].At? && IsLeaf(s.role[f].spot) && RootOf(s.role[f].spot) != r)) ==> u.mem[f] == s.mem[f]
    {
      FreedOne(s, t, u, r, a, f);
    }
    forall p | IsLeaf(p) && RootOf(p) != r && Root(RootOf(p)) in s.at ensures Lookup(u.mem, p) == Lookup(s.mem, p) {
      assert Lookup(t.mem, p) == Lookup(s.mem, p);
      RazedLooks(t, u, r, p);
    }
  }

  lemma FreedOne(s: State, t: State, u: State, r: nat, a: set<Spot>, f: nat)
    requires Good(s) && Root(r) in s.at && Unmapped(s, t, a) && Razed(t, u, Root(r)) && PagesOf(a, r) && f in s.role
    requires forall p :: IsLeaf(p) && RootOf(p) == r && p in s.at ==> p in a
    ensures u.role[f] == if s.role[f].At? && RootOf(s.role[f].spot) == r then Free else s.role[f]
    ensures (s.role[f] == Held || (s.role[f].At? && IsLeaf(s.role[f].spot) && RootOf(s.role[f].spot) != r)) ==> u.mem[f] == s.mem[f]
  {
    hide Listed, Pointed, Lookup, Looks, Bare, Under;
    assert t.role[f] == if IsPage(s.role[f], a) then Free else s.role[f];
    assert u.role[f] == if t.role[f].At? && Under(Root(r), t.role[f].spot) then Free else t.role[f];
    if s.role[f].At? {
      assert s.role[f].spot in s.at;
      UnderRoot(r, s.role[f].spot);
    }
  }

  /** uvmcreate(): a zeroed frame becomes the root of an empty page table. */
  lemma RootKeeps(s: State, f: nat)
    requires Good(s) && f in s.role && s.role[f] == Held && s.mem[f] == ZeroPage()
    ensures Good(Seated(s, Root(f), f)) && Looks(s, Seated(s, Root(f), f), {}) && Root(f) !in s.at
  {
    hide Lookup, Listed, Pointed;
    var s' := Seated(s, Root(f), f);
    RootInv(s, f);
    forall p | IsLeaf(p) ensures Entry(s', p.up, p.k) == Entry(s, p.up, p.k) { assert p.up != Root(f); }
    LooksBy(s, s', {});
  }

  lemma RootEntries(s: State, f: nat)
    requires Inv(s) && f in s.role && s.role[f] == Held && s.mem[f] == ZeroPage() && Root(f) !in s.at
    ensures forall q, l {:trigger Entry(Seated(s, Root(f), f), q, l)} ::
      Entry(Seated(s, Root(f), f), q, l) == if q == Root(f) then 0 else Entry(s, q, l)
    ensures forall k :: 0 <= k < ENTRIES ==> Child(Root(f), k) !in s.at
  {
    hide Listed, Pointed;
    forall k | 0 <= k < ENTRIES ensures Child(Root(f), k) !in s.at {
      assert Child(Root(f), k) in s.at ==> Hung(s, Child(Root(f), k));
    }
  }

  lemma RootPlaced(s: State, f: nat)
    requires Inv(s) && f in s.role && s.role[f] == Held && s.mem[f] == ZeroPage() && Root(f) !in s.at && s.stale == {}
    ensures Frames(Seated(s, Root(f), f)) && Placed(Seated(s, Root(f), f))
  {
    hide Listed, Pointed;
    RootEntries(s, f);
    var s' := Seated(s, Root(f), f);
    forall q | q in s'.at ensures Hung(s', q) {
      assert q in s.at ==> Hung(s, q);
    }
  }

  lemma RootInv(s: State, f: nat)
    requires Inv(s) && f in s.role && s.role[f] == Held && s.mem[f] == ZeroPage() && Root(f) !in s.at && s.stale == {}
    ensures Inv(Seated(s, Root(f), f))
  {
    RootListed(s, f);
    RootEntries(s, f);
    RootPlaced(s, f);
    hide Listed, Placed, Entry, MakePte, Frame;
  }

  lemma RootListed(s: State, f: nat)
    requires Inv(s) && f in s.role && s.role[f] == Held && s.mem[f] == ZeroPage() && Root(f) !in s.at && s.stale == {}
    ensures Frames(Seated(s, Root(f), f)) && Listed(Seated(s, Root(f), f)) && Placed(Seated(s, Root(f), f))
  {
    hide Pointed, Listed;
    var s' := Seated(s, Root(f), f);
    SameListed(s, s');
    forall q | q in s'.at ensures Hung(s', q) { assert q in s.at ==> Hung(s, q); }
  }
}
