/**
  How many frames the page-table operations take: one for each table and each page of its own that is not there yet.
*/
module VmSpace {
  import opened Sv39

  /** The tables above the page at `p`, without the root. */
  function Tables(p: Spot): set<Spot> {
    if IsLeaf(p) then {p.up, p.up.up} else {}
  }

  /** The tables above the pages from `lo` to `hi` of page table `r`. */
  function TablesOf(r: nat, lo: nat, hi: nat): set<Spot>
    requires hi <= MAXPAGE
  {
    if hi <= lo then {} else TablesOf(r, lo, hi - 1) + Tables(LeafSpot(r, hi - 1))
  }

  /** The tables and the pages. */
  function PlacesOf(r: nat, lo: nat, hi: nat): set<Spot>
    requires hi <= MAXPAGE
  {
    if hi <= lo then {} else PlacesOf(r, lo, hi - 1) + ({LeafSpot(r, hi - 1)} + Tables(LeafSpot(r, hi - 1)))
  }

  /** The places a copy of the pages of `o` below `hi` takes in `n`. */
  ghost function CopiesOf(mem: map<nat, Page>, o: nat, n: nat, hi: nat): set<Spot>
    requires hi <= MAXPAGE
  {
    if hi == 0 then {} else CopiesOf(mem, o, n, hi - 1) + CopyOf(mem, o, n, hi - 1)
  }

  ghost function CopyOf(mem: map<nat, Page>, o: nat, n: nat, v: nat): set<Spot>
    requires v < MAXPAGE
  {
    if Lookup(mem, LeafSpot(o, v)) == 0 then {} else {LeafSpot(n, v)} + Tables(LeafSpot(n, v))
  }

  /** With `before` frames free, the places of `need` that were not among `was` have taken one each; or there were too
      few for them. */
  ghost predicate Spent(was: set<Spot>, before: nat, now: set<Spot>, after: nat, need: set<Spot>, ok: bool) {
    if ok then now == was + need && after + |need - was| == before
    else before < |need - was|
  }

  ghost predicate Costs(s: State, t: State, need: set<Spot>, ok: bool) {
    Spent(s.at.Keys, |s.free|, t.at.Keys, |t.free|, need, ok)
  }

  /** There is a free frame for every place of `need` that has none. */
  ghost predicate Affords(s: State, need: set<Spot>) {
    |need - s.at.Keys| <= |s.free|
  }

  lemma CostsNothing(s: State, t: State)
    requires t.at.Keys == s.at.Keys && |t.free| == |s.free|
    ensures Costs(s, t, {}, true)
  {
    SpentNothing(s.at.Keys, |s.free|);
  }

  lemma CostsMore(s: State, t: State, u: State, x: set<Spot>, y: set<Spot>, ok: bool)
    requires Costs(s, t, x, true) && Costs(t, u, y, ok)
    ensures Costs(s, u, x + y, ok)
  {
    SpentMore(s.at.Keys, |s.free|, t.at.Keys, |t.free|, u.at.Keys, |u.free|, x, y, ok);
  }

  lemma CostsWider(s: State, t: State, u: State, x: set<Spot>, y: set<Spot>)
    requires Costs(s, t, x, false) && x <= y
    ensures Costs(s, u, y, false)
  {
    SpentWider(s.at.Keys, |s.free|, t.at.Keys, |t.free|, x, y);
  }

  lemma CostsSame(s: State, t: State, u: State, need: set<Spot>, ok: bool)
    requires Costs(s, t, need, ok) && u.at == t.at && u.free == t.free
    ensures Costs(s, u, need, ok)
  {
  }

  /** A frame for a place that has none. */
  lemma CostsOne(s: State, t: State, q: Spot, ok: bool)
    requires q !in s.at && if ok then t.at.Keys == s.at.Keys + {q} && |t.free| + 1 == |s.free| else s.free == []
    ensures Costs(s, t, {q}, ok)
  {
    assert {q} - s.at.Keys == {q};
  }

  lemma CostsHere(s: State, q: Spot)
    requires q in s.at
    ensures Costs(s, s, {q}, true)
  {
    assert {q} - s.at.Keys == {} && s.at.Keys + {q} == s.at.Keys;
  }

  /** Exactly enough frames. */
  lemma CostsExactly(s: State, t: State, need: set<Spot>, ok: bool)
    requires Costs(s, t, need, ok)
    ensures ok <==> Affords(s, need)
  {
  }

  lemma SpentNothing(was: set<Spot>, before: nat)
    ensures Spent(was, before, was, before, {}, true)
  {
    assert was + {} == was && {} - was == {};
  }

  lemma SpentMore(was: set<Spot>, before: nat, mid: set<Spot>, between: nat, now: set<Spot>, after: nat, x: set<Spot>, y: set<Spot>, ok: bool)
    requires Spent(was, before, mid, between, x, true) && Spent(mid, between, now, after, y, ok)
    ensures Spent(was, before, now, after, x + y, ok)
  {
    assert x + y - was == (x - was) + (y - mid) && (x - was) !! (y - mid);
    assert was + (x + y) == was + x + y;
  }

  lemma SpentWider(was: set<Spot>, before: nat, now: set<Spot>, after: nat, x: set<Spot>, y: set<Spot>)
    requires Spent(was, before, now, after, x, false) && x <= y
    ensures Spent(was, before, now, after, y, false)
  {
    Larger(x - was, y - was);
  }

  lemma Larger(x: set<Spot>, y: set<Spot>)
    requires x <= y
    ensures |x| <= |y|
  {
    assert y == x + (y - x);
  }

  lemma TablesStep(r: nat, lo: nat, v: nat)
    requires lo <= v < MAXPAGE
    ensures TablesOf(r, lo, lo) == {} && TablesOf(r, lo, v + 1) == TablesOf(r, lo, v) + Tables(LeafSpot(r, v))
  {
  }

  lemma {:induction false} TablesGrow(r: nat, lo: nat, v: nat, hi: nat)
    requires lo <= v <= hi <= MAXPAGE
    ensures TablesOf(r, lo, v) <= TablesOf(r, lo, hi)
    decreases hi
  {
    if v < hi { TablesGrow(r, lo, v, hi - 1); }
  }

  lemma PlacesNone(r: nat, lo: nat)
    requires lo <= MAXPAGE
    ensures PlacesOf(r, lo, lo) == {}
  {
  }

  lemma CopiesNone(mem: map<nat, Page>, o: nat, n: nat)
    ensures CopiesOf(mem, o, n, 0) == {}
  {
  }

  lemma PlacesStep(r: nat, lo: nat, v: nat)
    requires lo <= v < MAXPAGE
    ensures PlacesOf(r, lo, v + 1) == PlacesOf(r, lo, v) + ({LeafSpot(r, v)} + Tables(LeafSpot(r, v)))
  {
  }

  lemma CopiesStep(mem: map<nat, Page>, o: nat, n: nat, v: nat)
    requires v < MAXPAGE
    ensures CopiesOf(mem, o, n, v + 1) == CopiesOf(mem, o, n, v) + CopyOf(mem, o, n, v)
  {
  }

  lemma {:induction false} PlacesGrow(r: nat, lo: nat, v: nat, hi: nat)
    requires lo <= v <= hi <= MAXPAGE
    ensures PlacesOf(r, lo, v) <= PlacesOf(r, lo, hi)
    decreases hi
  {
    if v < hi { PlacesGrow(r, lo, v, hi - 1); }
  }

  lemma {:induction false} CopiesGrow(mem: map<nat, Page>, o: nat, n: nat, v: nat, hi: nat)
    requires v <= hi <= MAXPAGE
    ensures CopiesOf(mem, o, n, v) <= CopiesOf(mem, o, n, hi)
    decreases hi
  {
    hide Lookup;
    if v < hi { CopiesGrow(mem, o, n, v, hi - 1); }
  }

  lemma CostsPage(s: State, t: State, u: State, v: State, p: Spot, need: set<Spot>, ok: bool)
    requires p !in s.at && p !in need && t.at.Keys == s.at.Keys && |t.free| + 1 == |s.free| && Costs(t, u, need, ok)
    requires ok ==> v.at.Keys == u.at.Keys + {p} && |v.free| == |u.free|
    ensures Costs(s, v, {p} + need, ok)
  {
    PageSpent(s.at.Keys, |s.free|, u.at.Keys, |u.free|, p, need, ok);
  }

  lemma CostsNoFrame(s: State, t: State, p: Spot, need: set<Spot>)
    requires p !in s.at && p in need && s.free == []
    ensures Costs(s, t, need, false)
  {
    NoFrame(s.at.Keys, t.at.Keys, |t.free|, p, need);
  }

  /** A page and its tables: the tables after the page's frame has been taken, then the page. */
  lemma PageSpent(was: set<Spot>, before: nat, now: set<Spot>, after: nat, p: Spot, need: set<Spot>, ok: bool)
    requires 0 < before && p !in was && p !in need && Spent(was, before - 1, now, after, need, ok)
    ensures Spent(was, before, now + {p}, after, {p} + need, ok)
  {
    assert {p} + need - was == {p} + (need - was);
    assert was + ({p} + need) == was + need + {p};
  }

  lemma NoFrame(was: set<Spot>, now: set<Spot>, after: nat, p: Spot, need: set<Spot>)
    requires p !in was && p in need
    ensures Spent(was, 0, now, after, need, false)
  {
    assert p in need - was;
  }
}
