/**
  The storage allocator of user/umalloc.c. Addresses and sizes count header-sized units of 16 bytes; a
  pointer that malloc() returns is one unit past the header of its block.
*/
module Umalloc {
  import Lazy
  import opened Options
  import Sv39

  datatype Block = Block(addr: nat, size: nat)

  predicate Holds(b: Block, u: nat) {
    b.addr <= u < b.addr + b.size
  }

  /** Unit `u` lies in one of the blocks. */
  ghost predicate Covers(bs: seq<Block>, u: nat) {
    exists i :: 0 <= i < |bs| && Holds(bs[i], u)
  }

  ghost predicate CoversLive(live: map<nat, nat>, u: nat) {
    exists a :: a in live && a <= u < a + live[a]
  }

  /** The free list from `base` on: in address order, with no empty block but `base`, and no two blocks that
      overlap or touch. */
  ghost predicate Ring(bs: seq<Block>, base: nat) {
    && 0 < |bs| && bs[0] == Block(base, 0)
    && (forall i :: 0 < i < |bs| ==> 0 < bs[i].size)
    && (forall i, j :: 0 <= i < j < |bs| ==> bs[i].addr + bs[i].size < bs[j].addr)
  }

  /** The address that follows block `i` around the circle. */
  function After(bs: seq<Block>, i: nat): nat
    requires i < |bs|
  {
    if i + 1 < |bs| then bs[i + 1].addr else bs[0].addr
  }

  ghost predicate Sized(bs: seq<Block>, size: map<nat, nat>) {
    forall i :: 0 <= i < |bs| ==> bs[i].addr in size && size[bs[i].addr] == bs[i].size
  }

  ghost predicate Linked(bs: seq<Block>, ptr: map<nat, nat>) {
    forall i {:trigger After(bs, i)} :: 0 <= i < |bs| ==> bs[i].addr in ptr && ptr[bs[i].addr] == After(bs, i)
  }

  // -------- freeing --------

  /** Block `b` belongs between blocks `t` and `t + 1`, or after the last. */
  ghost predicate Between(bs: seq<Block>, t: nat, b: Block) {
    && t < |bs| && 0 < b.size && bs[t].addr + bs[t].size <= b.addr && bs[t].addr < b.addr
    && (t + 1 < |bs| ==> b.addr + b.size <= bs[t + 1].addr)
  }

  predicate JoinsNext(bs: seq<Block>, t: nat, b: Block) {
    t + 1 < |bs| && b.addr + b.size == bs[t + 1].addr
  }

  /** `b` put in after block `t`, joined to the block that follows when they touch. */
  function Put(bs: seq<Block>, t: nat, b: Block): (r: seq<Block>)
    requires t < |bs|
    ensures t + 1 < |r|
  {
    if JoinsNext(bs, t, b) then bs[t + 1 := Block(b.addr, b.size + bs[t + 1].size)]
    else bs[..t + 1] + [b] + bs[t + 1..]
  }

  /** Blocks `t` and `t + 1` joined when they touch. */
  function Join(bs: seq<Block>, t: nat): seq<Block>
    requires t + 1 < |bs|
  {
    if bs[t].addr + bs[t].size == bs[t + 1].addr
    then bs[..t] + [Block(bs[t].addr, bs[t].size + bs[t + 1].size)] + bs[t + 2..]
    else bs
  }

  /** The free list with `b` put in and joined to its neighbours. */
  function Insert(bs: seq<Block>, t: nat, b: Block): seq<Block>
    requires t < |bs|
  {
    Join(Put(bs, t, b), t)
  }

  /** A free list in which only blocks `t` and `t + 1` may touch. */
  ghost predicate RingBut(bs: seq<Block>, base: nat, t: nat) {
    && t + 1 < |bs| && bs[0] == Block(base, 0)
    && (forall i :: 0 < i < |bs| ==> 0 < bs[i].size)
    && (forall i, j :: 0 <= i < j < |bs| && !(i == t && j == t + 1) ==> bs[i].addr + bs[i].size < bs[j].addr)
    && bs[t].addr + bs[t].size <= bs[t + 1].addr && bs[t].addr < bs[t + 1].addr
  }

  lemma PutKeeps(bs: seq<Block>, base: nat, t: nat, b: Block)
    requires Ring(bs, base) && Between(bs, t, b)
    ensures RingBut(Put(bs, t, b), base, t)
  {
    var r, joins := Put(bs, t, b), JoinsNext(bs, t, b);
    forall i | 0 <= i < |r| && i != t + 1 ensures r[i] == bs[if i <= t || joins then i else i - 1] {}
    forall i, j | 0 <= i < j < |r| && !(i == t && j == t + 1) ensures r[i].addr + r[i].size < r[j].addr {
      var x, y := if i <= t || joins then i else i - 1, if j <= t || joins then j else j - 1;
      assert i != t + 1 && j != t + 1 ==> r[i] == bs[x] && r[j] == bs[y] && x < y;
      assert j == t + 1 ==> r[i] == bs[i] && bs[i].addr + bs[i].size < bs[t].addr;
      assert i == t + 1 ==> r[j] == bs[y] && y >= t + 1;
    }
  }

  lemma JoinKeeps(bs: seq<Block>, base: nat, t: nat)
    requires RingBut(bs, base, t)
    ensures Ring(Join(bs, t), base)
  {
    var r := Join(bs, t);
    if bs[t].addr + bs[t].size == bs[t + 1].addr {
      assert forall i :: 0 <= i < |r| ==>
        r[i] == if i < t then bs[i] else if i == t then Block(bs[t].addr, bs[t].size + bs[t + 1].size) else bs[i + 1];
    }
  }

  lemma PutCovers(bs: seq<Block>, t: nat, b: Block, u: nat)
    requires t < |bs|
    ensures Covers(Put(bs, t, b), u) <==> Covers(bs, u) || Holds(b, u)
  {
    var r := Put(bs, t, b);
    if Covers(bs, u) {
      var i :| 0 <= i < |bs| && Holds(bs[i], u);
      assert Holds(r[if i <= t || JoinsNext(bs, t, b) then i else i + 1], u);
    }
    if Holds(b, u) {
      assert Holds(r[t + 1], u);
    }
    if Covers(r, u) {
      var i :| 0 <= i < |r| && Holds(r[i], u);
      if !Holds(b, u) {
        assert Holds(bs[if i <= t || JoinsNext(bs, t, b) then i else i - 1], u);
      }
    }
  }

  lemma JoinCovers(bs: seq<Block>, t: nat, u: nat)
    requires t + 1 < |bs|
    ensures Covers(Join(bs, t), u) <==> Covers(bs, u)
  {
    var r := Join(bs, t);
    if bs[t].addr + bs[t].size == bs[t + 1].addr {
      if Covers(bs, u) {
        var i :| 0 <= i < |bs| && Holds(bs[i], u);
        assert Holds(r[if i <= t then i else i - 1], u);
      }
      if Covers(r, u) {
        var i :| 0 <= i < |r| && Holds(r[i], u);
        assert Holds(bs[if i < t || (i == t && u < bs[t + 1].addr) then i else i + 1], u);
      }
    }
  }

  /** Freeing a block keeps the list in order and coalesced, and adds exactly the units of the block. */
  lemma InsertMeets(bs: seq<Block>, base: nat, t: nat, b: Block)
    requires Ring(bs, base) && Between(bs, t, b)
    ensures Ring(Insert(bs, t, b), base)
    ensures forall u :: Covers(Insert(bs, t, b), u) <==> Covers(bs, u) || Holds(b, u)
  {
    hide Ring, RingBut, Covers, Put, Join;
    PutKeeps(bs, base, t, b);
    JoinKeeps(Put(bs, t, b), base, t);
    forall u: nat | true ensures Covers(Insert(bs, t, b), u) <==> Covers(bs, u) || Holds(b, u) {
      PutCovers(bs, t, b, u);
      JoinCovers(Put(bs, t, b), t, u);
    }
  }

  // -------- allocating --------

  /** The free list after `n` units were taken from the end of block `i`. */
  function Take(bs: seq<Block>, i: nat, n: nat): seq<Block>
    requires i < |bs| && n <= bs[i].size
  {
    if bs[i].size == n then bs[..i] + bs[i + 1..] else bs[i := Block(bs[i].addr, bs[i].size - n)]
  }

  function Taken(bs: seq<Block>, i: nat, n: nat): Block
    requires i < |bs| && n <= bs[i].size
  {
    Block(bs[i].addr + bs[i].size - n, n)
  }

  lemma TakeKeeps(bs: seq<Block>, base: nat, i: nat, n: nat)
    requires Ring(bs, base) && i < |bs| && 0 < n <= bs[i].size
    ensures Ring(Take(bs, i, n), base)
  {
  }

  lemma TakeSplits(bs: seq<Block>, i: nat, n: nat, u: nat)
    requires i < |bs| && 0 < n <= bs[i].size
    ensures Covers(bs, u) <==> Covers(Take(bs, i, n), u) || Holds(Taken(bs, i, n), u)
  {
    var r := Take(bs, i, n);
    if Covers(bs, u) && !Holds(Taken(bs, i, n), u) {
      var j :| 0 <= j < |bs| && Holds(bs[j], u);
      assert Holds(r[if j <= i || bs[i].size != n then j else j - 1], u);
    }
    if Covers(r, u) {
      var j :| 0 <= j < |r| && Holds(r[j], u);
      assert Holds(bs[if j < i || bs[i].size != n then j else j + 1], u);
    }
    if Holds(Taken(bs, i, n), u) {
      assert Holds(bs[i], u);
    }
  }

  /** Allocating keeps the list in order and coalesced, and removes exactly the units of the block. */
  lemma TakeMeets(bs: seq<Block>, base: nat, i: nat, n: nat)
    requires Ring(bs, base) && i < |bs| && 0 < n <= bs[i].size
    ensures Ring(Take(bs, i, n), base)
    ensures forall u :: Covers(bs, u) <==> Covers(Take(bs, i, n), u) || Holds(Taken(bs, i, n), u)
  {
    TakeKeeps(bs, base, i, n);
    hide Ring, Covers, Take;
    forall u: nat | true ensures Covers(bs, u) <==> Covers(Take(bs, i, n), u) || Holds(Taken(bs, i, n), u) {
      TakeSplits(bs, i, n, u);
    }
  }

  // -------- links --------

  /** All links are right, except perhaps that of block `t`. */
  ghost predicate LinkedBut(bs: seq<Block>, ptr: map<nat, nat>, t: nat) {
    forall i {:trigger After(bs, i)} :: 0 <= i < |bs| && i != t ==> bs[i].addr in ptr && ptr[bs[i].addr] == After(bs, i)
  }

  lemma PutLinked(bs: seq<Block>, base: nat, ptr: map<nat, nat>, t: nat, b: Block)
    requires Ring(bs, base) && Between(bs, t, b) && Linked(bs, ptr)
    ensures LinkedBut(Put(bs, t, b), ptr[b.addr := if JoinsNext(bs, t, b) then After(bs, t + 1) else After(bs, t)], t)
  {
    var r, joins := Put(bs, t, b), JoinsNext(bs, t, b);
    var ptr' := ptr[b.addr := if joins then After(bs, t + 1) else After(bs, t)];
    forall i | 0 <= i < |r| && i != t ensures r[i].addr in ptr' && ptr'[r[i].addr] == After(r, i) {
      if i != t + 1 {
        var j := if i <= t || joins then i else i - 1;
        var next := After(bs, j);
        assert r[i] == bs[j] && ptr[bs[j].addr] == next;
      }
    }
  }

  lemma PutSized(bs: seq<Block>, base: nat, size: map<nat, nat>, t: nat, b: Block)
    requires Ring(bs, base) && Between(bs, t, b) && Sized(bs, size)
    ensures Sized(Put(bs, t, b), size[b.addr := if JoinsNext(bs, t, b) then b.size + bs[t + 1].size else b.size])
  {
    var r, joins := Put(bs, t, b), JoinsNext(bs, t, b);
    forall i | 0 <= i < |r| && i != t + 1 ensures r[i] == bs[if i <= t || joins then i else i - 1] {}
  }

  lemma JoinLinked(bs: seq<Block>, base: nat, ptr: map<nat, nat>, t: nat)
    requires RingBut(bs, base, t) && LinkedBut(bs, ptr, t) && bs[t + 1].addr in ptr
    ensures var p, b := bs[t], bs[t + 1];
            Linked(Join(bs, t), ptr[p.addr := if p.addr + p.size == b.addr then ptr[b.addr] else b.addr])
  {
    var r, p, b := Join(bs, t), bs[t], bs[t + 1];
    var joins := p.addr + p.size == b.addr;
    var ptr' := ptr[p.addr := if joins then ptr[b.addr] else b.addr];
    forall i | 0 <= i < |r| ensures r[i].addr in ptr' && ptr'[r[i].addr] == After(r, i) {
      var j := if i <= t || !joins then i else i + 1;
      assert r[i].addr == bs[j].addr;
      if i == t {
        assert joins ==> ptr[b.addr] == After(bs, t + 1);
      } else {
        var next := After(bs, j);
        assert ptr[bs[j].addr] == next;
      }
    }
  }

  lemma JoinSized(bs: seq<Block>, base: nat, size: map<nat, nat>, t: nat)
    requires RingBut(bs, base, t) && Sized(bs, size)
    ensures var p, b := bs[t], bs[t + 1];
            Sized(Join(bs, t), if p.addr + p.size == b.addr then size[p.addr := p.size + b.size] else size)
  {
    var r := Join(bs, t);
    if bs[t].addr + bs[t].size == bs[t + 1].addr {
      forall i | 0 <= i < |r| && i != t ensures r[i] == bs[if i < t then i else i + 1] {}
    }
  }

  /** Taking a whole block out of the circle, or the end of one. */
  lemma TakeLinked(bs: seq<Block>, base: nat, ptr: map<nat, nat>, i: nat, n: nat)
    requires Ring(bs, base) && Linked(bs, ptr) && 0 < i < |bs| && 0 < n <= bs[i].size
    ensures Linked(Take(bs, i, n), if bs[i].size == n then ptr[bs[i - 1].addr := After(bs, i)] else ptr)
  {
    var r, whole := Take(bs, i, n), bs[i].size == n;
    var ptr' := if whole then ptr[bs[i - 1].addr := After(bs, i)] else ptr;
    forall j | 0 <= j < |r| ensures r[j].addr in ptr' && ptr'[r[j].addr] == After(r, j) {
      var k := if j < i || !whole then j else j + 1;
      var next := After(bs, k);
      assert r[j].addr == bs[k].addr && ptr[bs[k].addr] == next;
    }
  }

  lemma TakeSized(bs: seq<Block>, base: nat, size: map<nat, nat>, i: nat, n: nat)
    requires Ring(bs, base) && Sized(bs, size) && i < |bs| && 0 < n <= bs[i].size
    ensures bs[i].size == n ==> Sized(Take(bs, i, n), size)
    ensures bs[i].size != n ==> Sized(Take(bs, i, n), size[bs[i].addr := bs[i].size - n][bs[i].addr + bs[i].size - n := n])
  {
    var r := Take(bs, i, n);
    if bs[i].size == n {
      forall j | 0 <= j < |r| ensures r[j] == bs[if j < i then j else j + 1] {}
    } else {
      forall j | 0 <= j < |r| ensures r[j].addr == bs[j].addr && bs[j].addr != bs[i].addr + bs[i].size - n {}
    }
  }

  // -------- where a block goes --------

  /** Units `a` to `a + n` overlap no free block, and lie above `base`. */
  ghost predicate Apart(bs: seq<Block>, base: nat, a: nat, n: nat) {
    base < a && 0 < n && forall i :: 0 <= i < |bs| ==> bs[i].addr + bs[i].size <= a || a + n <= bs[i].addr
  }

  lemma {:induction false} Spot(bs: seq<Block>, base: nat, a: nat, n: nat, i: nat) returns (t: nat)
    requires Ring(bs, base) && Apart(bs, base, a, n) && i < |bs| && bs[i].addr < a
    ensures i <= t < |bs| && Between(bs, t, Block(a, n))
    decreases |bs| - i
  {
    if i + 1 < |bs| && bs[i + 1].addr < a {
      t := Spot(bs, base, a, n, i + 1);
    } else {
      t := i;
    }
  }

  /** How many steps around a circle of `n` from `j` to `g`. */
  function Dist(j: nat, g: nat, n: nat): nat
    requires j < n && g < n
  {
    if j <= g then g - j else g + n - j
  }

  function Succ(j: nat, n: nat): nat
    requires j < n
  {
    if j + 1 < n then j + 1 else 0
  }

  lemma InsertHas(bs: seq<Block>, t: nat, b: Block) returns (i: nat)
    requires t < |bs|
    ensures i < |Insert(bs, t, b)| && Insert(bs, t, b)[i].size >= b.size
  {
    var r := Put(bs, t, b);
    i := if r[t].addr + r[t].size == r[t + 1].addr then t else t + 1;
  }

  // -------- the allocator --------

  /** Live blocks have their sizes in their headers, lie below the break, and overlap neither each other nor
      a free block. */
  ghost predicate Separate(bs: seq<Block>, base: nat, live: map<nat, nat>, size: map<nat, nat>, brk: nat) {
    && (forall a :: a in live ==> a in size && size[a] == live[a] && a + live[a] <= brk && Apart(bs, base, a, live[a]))
    && (forall a, b :: a in live && b in live && a < b ==> a + live[a] <= b)
    && (forall i :: 0 <= i < |bs| ==> bs[i].addr + bs[i].size <= brk)
  }

  /** The units obtained from the kernel are the free ones and the live ones. */
  ghost predicate Accounted(got: seq<Block>, bs: seq<Block>, live: map<nat, nat>) {
    forall u {:trigger Covers(bs, u)} {:trigger Covers(got, u)} :: Covers(got, u) <==> Covers(bs, u) || CoversLive(live, u)
  }

  /** No unit is both free and live. */
  lemma NeverBoth(bs: seq<Block>, base: nat, live: map<nat, nat>, size: map<nat, nat>, brk: nat, u: nat)
    requires Separate(bs, base, live, size, brk)
    ensures !(Covers(bs, u) && CoversLive(live, u))
  {
  }

  lemma LiveWithout(live: map<nat, nat>, a: nat, u: nat)
    requires a in live
    ensures CoversLive(live, u) <==> CoversLive(live - {a}, u) || Holds(Block(a, live[a]), u)
  {
    if CoversLive(live, u) {
      var c :| c in live && c <= u < c + live[c];
      assert c != a ==> c in live - {a} && (live - {a})[c] == live[c];
    }
    if CoversLive(live - {a}, u) {
      var c :| c in live - {a} && c <= u < c + (live - {a})[c];
      assert c in live;
    }
  }

  lemma LiveWith(live: map<nat, nat>, a: nat, n: nat, u: nat)
    requires a !in live
    ensures CoversLive(live[a := n], u) <==> CoversLive(live, u) || Holds(Block(a, n), u)
  {
    assert live[a := n] - {a} == live;
    LiveWithout(live[a := n], a, u);
  }

  /** Freeing a live block accounts for the same units. */
  lemma FreeAccounts(got: seq<Block>, bs: seq<Block>, r: seq<Block>, live: map<nat, nat>, a: nat)
    requires Accounted(got, bs, live) && a in live
    requires forall u :: Covers(r, u) <==> Covers(bs, u) || Holds(Block(a, live[a]), u)
    ensures Accounted(got, r, live - {a})
  {
    hide Covers, CoversLive, Holds;
    forall u: nat | true ensures Covers(got, u) <==> Covers(r, u) || CoversLive(live - {a}, u) {
      LiveWithout(live, a, u);
      assert Covers(got, u) <==> Covers(bs, u) || CoversLive(live, u);
    }
  }

  lemma TakeAccounts(got: seq<Block>, bs: seq<Block>, r: seq<Block>, live: map<nat, nat>, b: Block)
    requires Accounted(got, bs, live) && b.addr !in live
    requires forall u :: Covers(bs, u) <==> Covers(r, u) || Holds(b, u)
    ensures Accounted(got, r, live[b.addr := b.size])
  {
    hide Covers, CoversLive, Holds;
    forall u: nat | true ensures Covers(got, u) <==> Covers(r, u) || CoversLive(live[b.addr := b.size], u) {
      LiveWith(live, b.addr, b.size, u);
      assert Covers(got, u) <==> Covers(bs, u) || CoversLive(live, u);
    }
  }

  lemma GotAccounts(got: seq<Block>, bs: seq<Block>, live: map<nat, nat>, b: Block)
    requires Accounted(got, bs, live) && b.addr !in live
    ensures Accounted(got + [b], bs, live[b.addr := b.size])
  {
    forall u: nat | true ensures Covers(got + [b], u) <==> Covers(bs, u) || CoversLive(live[b.addr := b.size], u) {
      LiveWith(live, b.addr, b.size, u);
      if Covers(got, u) {
        var i :| 0 <= i < |got| && Holds(got[i], u);
        assert Holds((got + [b])[i], u);
      }
      assert Holds(b, u) ==> Holds((got + [b])[|got|], u);
      assert Covers(got, u) <==> Covers(bs, u) || CoversLive(live, u);
    }
  }

  lemma FreeSeparate(bs: seq<Block>, base: nat, live: map<nat, nat>, size: map<nat, nat>, brk: nat, t: nat, a: nat, size': map<nat, nat>)
    requires Ring(bs, base) && Separate(bs, base, live, size, brk) && a in live && Between(bs, t, Block(a, live[a]))
    requires forall c :: c in live && c != a ==> c in size' && size'[c] == size[c]
    ensures Separate(Insert(bs, t, Block(a, live[a])), base, live - {a}, size', brk)
  {
    var b := Block(a, live[a]);
    var r := Insert(bs, t, b);
    forall c | c in live - {a} ensures Apart(r, base, c, live[c]) {
      InsertApart(bs, base, t, b, c, live[c]);
    }
    forall i | 0 <= i < |r| ensures r[i].addr + r[i].size <= brk {
      InsertBelow(bs, t, b, brk, i);
    }
  }

  lemma InsertApart(bs: seq<Block>, base: nat, t: nat, b: Block, c: nat, n: nat)
    requires Between(bs, t, b) && Apart(bs, base, c, n) && (b.addr + b.size <= c || c + n <= b.addr)
    ensures Apart(Insert(bs, t, b), base, c, n)
  {
    var p, r := Put(bs, t, b), Insert(bs, t, b);
    forall i | 0 <= i < |p| ensures p[i].addr + p[i].size <= c || c + n <= p[i].addr {
      if i != t + 1 { assert p[i] == bs[if i <= t || JoinsNext(bs, t, b) then i else i - 1]; }
    }
    forall i | 0 <= i < |r| ensures r[i].addr + r[i].size <= c || c + n <= r[i].addr {
      if r != p && i != t { assert r[i] == p[if i < t then i else i + 1]; }
    }
  }

  lemma InsertBelow(bs: seq<Block>, t: nat, b: Block, brk: nat, i: nat)
    requires t < |bs| && b.addr + b.size <= brk && (forall j :: 0 <= j < |bs| ==> bs[j].addr + bs[j].size <= brk) && i < |Insert(bs, t, b)|
    ensures Insert(bs, t, b)[i].addr + Insert(bs, t, b)[i].size <= brk
  {
    var p, r := Put(bs, t, b), Insert(bs, t, b);
    forall j | 0 <= j < |p| ensures p[j].addr + p[j].size <= brk {
      if j != t + 1 { assert p[j] == bs[if j <= t || JoinsNext(bs, t, b) then j else j - 1]; }
    }
    if r != p && i != t { assert r[i] == p[if i < t then i else i + 1]; }
  }

  /** What overlaps no free block overlaps neither what is taken nor what is left. */
  lemma TakeApart(bs: seq<Block>, base: nat, i: nat, n: nat, c: nat, m: nat)
    requires 0 < i < |bs| && 0 < n <= bs[i].size && Apart(bs, base, c, m)
    ensures Apart(Take(bs, i, n), base, c, m)
    ensures var b := Taken(bs, i, n); c + m <= b.addr || b.addr + n <= c
  {
    var r := Take(bs, i, n);
    forall j | 0 <= j < |r| ensures r[j].addr + r[j].size <= c || c + m <= r[j].addr {
      var k := if j < i || bs[i].size != n then j else j + 1;
      assert r[j].addr == bs[k].addr && r[j].size <= bs[k].size;
    }
  }

  lemma TakeBelow(bs: seq<Block>, i: nat, n: nat, brk: nat)
    requires i < |bs| && n <= bs[i].size && forall j :: 0 <= j < |bs| ==> bs[j].addr + bs[j].size <= brk
    ensures forall j :: 0 <= j < |Take(bs, i, n)| ==> Take(bs, i, n)[j].addr + Take(bs, i, n)[j].size <= brk
  {
    var r := Take(bs, i, n);
    forall j | 0 <= j < |r| ensures r[j].addr + r[j].size <= brk {
      var k := if j < i || bs[i].size != n then j else j + 1;
      assert r[j].addr == bs[k].addr && r[j].size <= bs[k].size;
    }
  }

  lemma TakenApart(bs: seq<Block>, base: nat, i: nat, n: nat)
    requires Ring(bs, base) && 0 < i < |bs| && 0 < n <= bs[i].size
    ensures var b := Taken(bs, i, n); Apart(Take(bs, i, n), base, b.addr, n)
  {
    var b, r := Taken(bs, i, n), Take(bs, i, n);
    assert base < bs[i].addr;
    forall j | 0 <= j < |r| ensures r[j].addr + r[j].size <= b.addr || b.addr + n <= r[j].addr {
      var k := if j < i || bs[i].size != n then j else j + 1;
      assert r[j].addr == bs[k].addr && r[j].size <= bs[k].size;
      assert k == i ==> r[j].size == bs[i].size - n;
    }
  }

  lemma TakeSeparate(bs: seq<Block>, base: nat, live: map<nat, nat>, size: map<nat, nat>, brk: nat, i: nat, n: nat, size': map<nat, nat>)
    requires Ring(bs, base) && Separate(bs, base, live, size, brk) && 0 < i < |bs| && 0 < n <= bs[i].size
    requires var b := Taken(bs, i, n); b.addr in size' && size'[b.addr] == n && forall c :: c in live && c != b.addr ==> c in size' && size'[c] == size[c]
    ensures Taken(bs, i, n).addr !in live && Separate(Take(bs, i, n), base, live[Taken(bs, i, n).addr := n], size', brk)
  {
    hide Ring, Take, Apart;
    TakenApart(bs, base, i, n);
    TakeBelow(bs, i, n, brk);
    var b := Taken(bs, i, n);
    forall c | c in live
      ensures 0 < live[c] && Apart(Take(bs, i, n), base, c, live[c]) && (c + live[c] <= b.addr || b.addr + n <= c)
    {
      TakeApart(bs, base, i, n, c, live[c]);
      Nonempty(bs, base, c, live[c]);
    }
  }

  lemma Nonempty(bs: seq<Block>, base: nat, c: nat, m: nat)
    requires Apart(bs, base, c, m)
    ensures 0 < m
  {
  }

  const MORE := 4096

  /** The number of units for a request, and what morecore() passes to sbrk(), whose argument is a signed
      32-bit number. */
  function Units(nbytes: nat): nat {
    (nbytes + 15) / 16 + 1
  }

  /** morecore() asks for at least this much at a time. */
  function Chunk(nu: nat): nat {
    if nu < MORE then MORE else nu
  }

  function SbrkArgument(nu: nat): int {
    var bytes := nu * 16 % 0x1_0000_0000;
    if bytes < 0x8000_0000 then bytes else bytes - 0x1_0000_0000
  }

  /** sbrk() of a signed number of bytes, on a break counted in units of 16 bytes: a lower break when the argument
      is negative, unless that would be below 0; none when the kernel refuses. */
  function Sbrk(brk: nat, limit: nat, n: int): Option<nat> {
    if n < 0 then Some(if brk * 16 + n < 0 then brk else (brk * 16 + n) / 16)
    else if brk * 16 + n > limit * 16 then None
    else Some((brk * 16 + n) / 16)
  }

  /** For a request of a 32-bit size, what sbrk() is asked for is the number of bytes needed exactly when the
      request is at most 0x7FFFFFE0 bytes; beyond that the argument turns negative, or is 0 or 16. */
  lemma BoundedRequest(nbytes: nat)
    requires nbytes < 0x1_0000_0000
    ensures SbrkArgument(Units(nbytes)) == Units(nbytes) * 16 <==> nbytes <= 0x7FFF_FFE0
  {
  }

  /** When malloc() has to ask for more and is not refused, the block that morecore() goes on with is memory it
      obtained exactly when the request is at most 0x7FFFFFE0 bytes. */
  lemma ObtainedExactly(nbytes: nat, brk: nat, limit: nat)
    requires nbytes < 0x1_0000_0000
    ensures var n := Chunk(Units(nbytes));
      var grown := Sbrk(brk, limit, SbrkArgument(n));
      grown.Some? ==> (brk + n <= grown.value <==> nbytes <= 0x7FFF_FFE0)
  {
    BoundedRequest(nbytes);
    var n := Chunk(Units(nbytes));
    if nbytes <= 0x7FFF_FFE0 {
      assert SbrkArgument(n) == n * 16;
    } else {
      assert n == Units(nbytes) && 0x8000_0000 <= n * 16 <= 0x1_0000_0010;
      assert SbrkArgument(n) <= 16;
    }
  }

  /** malloc(0x7FFFFFE1) with nothing suitable on the list is never refused and the break does not rise: morecore()
      goes on to write the header of 2^27 units that it did not obtain. */
  lemma LargeRequestUnbacked(brk: nat, limit: nat)
    ensures var n := Chunk(Units(0x7FFF_FFE1));
      var grown := Sbrk(brk, limit, SbrkArgument(n));
      n == 0x800_0000 && grown.Some? && grown.value <= brk
  {
    assert Units(0x7FFF_FFE1) == 0x800_0000 && SbrkArgument(0x800_0000) == -0x8000_0000;
  }

  /** Whether morecore() gets as far as listing units it did not obtain: with the break not raised, the store to the
      header faults, and the process is killed, unless the old break lies in a page that is mapped for writing and
      stays mapped; with the break raised by 16 bytes it faults only on a page that is not. */
  lemma HeaderStored(p: Lazy.Proc, nbytes: nat)
    requires Lazy.Fits(p) && 0x7FFF_FFE0 < nbytes < 0x1_0000_0000
    ensures var arg := SbrkArgument(Chunk(Units(nbytes)));
      var q := Lazy.Sbrk(p, arg, false).0;
      var v := p.sz / 4096;
      && -0x8000_0000 <= arg <= 16
      && (arg <= 0 ==> (Lazy.Touch(q, p.sz, true).Some? <==>
            v in p.pages && p.pages[v].user && p.pages[v].write && (p.sz + arg < 0 || v < Sv39.Pages(p.sz + arg))))
      && (arg == 16 && p.sz + 16 <= Lazy.TRAPFRAME ==> (Lazy.Touch(q, p.sz, true).Some? <==>
            v !in p.pages || (p.pages[v].user && p.pages[v].write)))
  {
    var n := Chunk(Units(nbytes));
    assert n == Units(nbytes) && 0x8000_0000 <= n * 16 <= 0x1_0000_0010;
    var arg := SbrkArgument(n);
  }

  /** The headers after free() put `bp` behind `p`. */
  function JoinedSize(size: map<nat, nat>, ptr: map<nat, nat>, p: nat, bp: nat): map<nat, nat>
    requires bp in size && p in ptr && (bp + size[bp] == ptr[p] ==> ptr[p] in size)
  {
    if bp + size[bp] == ptr[p] then size[bp := size[bp] + size[ptr[p]]] else size
  }

  function JoinedPtr(size: map<nat, nat>, ptr: map<nat, nat>, p: nat, bp: nat): map<nat, nat>
    requires bp in size && p in ptr && (bp + size[bp] == ptr[p] ==> ptr[p] in ptr)
  {
    ptr[bp := if bp + size[bp] == ptr[p] then ptr[ptr[p]] else ptr[p]]
  }

  /** The first half of free() puts the block in after block `t` and joins it to the next one. */
  lemma FreePut(bs: seq<Block>, base: nat, ptr: map<nat, nat>, size: map<nat, nat>, t: nat, b: Block)
    requires Ring(bs, base) && Linked(bs, ptr) && Sized(bs, size) && Between(bs, t, b)
    requires b.addr in size && size[b.addr] == b.size
    ensures var p := bs[t].addr;
            && p in ptr && p in size && p != b.addr && size[p] == bs[t].size
            && (b.addr + size[b.addr] == ptr[p] ==> ptr[p] in size && ptr[p] in ptr)
            && Sized(Put(bs, t, b), JoinedSize(size, ptr, p, b.addr))
            && LinkedBut(Put(bs, t, b), JoinedPtr(size, ptr, p, b.addr), t)
            && Put(bs, t, b)[t] == bs[t] && Put(bs, t, b)[t + 1].addr == b.addr
            && JoinedSize(size, ptr, p, b.addr)[p] == bs[t].size
            && JoinedSize(size, ptr, p, b.addr)[b.addr] == Put(bs, t, b)[t + 1].size
  {
    var p, next := bs[t].addr, After(bs, t);
    assert bs[0].addr <= p;
    assert b.addr + b.size == next <==> JoinsNext(bs, t, b);
    if JoinsNext(bs, t, b) {
      var beyond := After(bs, t + 1);
      assert ptr[bs[t + 1].addr] == beyond;
    }
    assert size[b.addr := b.size] == size;
    PutSized(bs, base, size, t, b);
    PutLinked(bs, base, ptr, t, b);
  }

  class Heap {
    const base: nat
    /** The break may not be raised beyond this. */
    const limit: nat
    var ptr: map<nat, nat>
    var size: map<nat, nat>
    var freep: nat
    var brk: nat
    ghost var free: seq<Block>
    ghost var live: map<nat, nat>
    ghost var got: seq<Block>

    ghost predicate Good()
      reads this
    {
      && Ring(free, base) && Linked(free, ptr) && Sized(free, size)
      && (exists i :: 0 <= i < |free| && free[i].addr == freep)
      && Separate(free, base, live, size, brk) && Accounted(got, free, live)
    }

    ghost predicate Valid()
      reads this
    {
      && 0 < base < brk
      && (freep == 0 ==> free == [] && live == map[] && got == [])
      && (freep != 0 ==> Good())
    }

    constructor (base: nat, brk: nat, limit: nat)
      requires 0 < base < brk
      ensures Valid() && live == map[] && got == []
    {
      this.base, this.brk, this.limit := base, brk, limit;
      ptr, size, freep := map[], map[], 0;
      free, live, got := [], map[], [];
    }

    /** The search of free(): the block after which `bp` belongs. It ends because the circle is in address
        order with one wrap. */
    method FindSpot(bp: nat, ghost n: nat) returns (p: nat, ghost t: nat)
      requires Ring(free, base) && Linked(free, ptr) && (exists i :: 0 <= i < |free| && free[i].addr == freep)
      requires Apart(free, base, bp, n)
      ensures Between(free, t, Block(bp, n)) && p == free[t].addr && p in ptr && ptr[p] == After(free, t)
    {
      t := Spot(free, base, bp, n, 0);
      ghost var k :| 0 <= k < |free| && free[k].addr == freep;
      p := freep;
      ghost var next := After(free, k);
      while !(bp > p && bp < ptr[p])
        invariant 0 <= k < |free| && p == free[k].addr && p in ptr && ptr[p] == After(free, k)
        decreases Dist(k, t, |free|)
      {
        if p >= ptr[p] && (bp > p || bp < ptr[p]) {
          break;
        }
        p := ptr[p];
        k := Succ(k, |free|);
        next := After(free, k);
      }
      assert k == t;
    }

    /** The headers of free(): the block at `bp` joins the circle after block `p`, and its neighbours. */
    method Splice(bp: nat, p: nat, ghost t: nat, ghost b: Block)
      requires Ring(free, base) && Linked(free, ptr) && Sized(free, size) && Between(free, t, b)
      requires p == free[t].addr && b.addr == bp && bp in size && size[bp] == b.size
      modifies this`ptr, this`size
      ensures Linked(Insert(free, t, b), ptr) && Sized(Insert(free, t, b), size)
      ensures forall c :: c in old(size) && c != bp && c != p ==> c in size && size[c] == old(size)[c]
    {
      hide Ring, RingBut, Put, Join, Linked, LinkedBut, Sized;
      ghost var bs := free;
      FreePut(bs, base, ptr, size, t, b);
      PutKeeps(bs, base, t, b);
      if bp + size[bp] == ptr[p] {
        size, ptr := size[bp := size[bp] + size[ptr[p]]], ptr[bp := ptr[ptr[p]]];
      } else {
        ptr := ptr[bp := ptr[p]];
      }
      JoinLinked(Put(bs, t, b), base, ptr, t);
      JoinSized(Put(bs, t, b), base, size, t);
      if p + size[p] == bp {
        size, ptr := size[p := size[p] + size[bp]], ptr[p := ptr[bp]];
      } else {
        ptr := ptr[p := bp];
      }
    }

    /** free(): the block goes back on the list, which stays in address order and fully coalesced; exactly its
        units become free. */
    method Free(ap: nat)
      requires Valid() && freep != 0 && ap > 0 && ap - 1 in live
      modifies this
      ensures Valid() && freep != 0 && live == old(live) - {ap - 1} && got == old(got) && brk == old(brk)
      ensures forall u :: Covers(free, u) <==> Covers(old(free), u) || Holds(Block(ap - 1, old(live)[ap - 1]), u)
      ensures exists i :: 0 <= i < |free| && free[i].size >= old(live)[ap - 1]
    {
      hide Ring, Separate, Accounted, Apart, Covers, CoversLive, Insert, Holds, Linked, Sized;
      var bp := ap - 1;
      ghost var b, bs, size0 := Block(bp, live[bp]), free, size;
      LiveApart(bs, base, live, size, brk, bp);
      var p, t := FindSpot(bp, live[bp]);
      LiveElsewhere(bs, base, live, size, brk, t);
      RingFacts(bs, base, ptr, size, t);
      Splice(bp, p, t, b);
      InsertMeets(bs, base, t, b);
      FreeAccounts(got, bs, Insert(bs, t, b), live, bp);
      FreeSeparate(bs, base, live, size0, brk, t, bp, size);
      InsertWhere(bs, t, b);
      freep := p;
      free, live := Insert(bs, t, b), live - {bp};
    }

    /** morecore(): at least `nu` units more on the free list, or 0 when sbrk() refuses. */
    method Morecore(nu: nat) returns (p: nat)
      requires Valid() && freep != 0 && 0 < nu && nu * 16 < 0x8000_0000
      modifies this
      ensures Valid() && freep != 0 && live == old(live)
      ensures p == 0 ==> free == old(free) && got == old(got) && brk == old(brk) && freep == old(freep) && brk + Chunk(nu) > limit
      ensures p == 0 ==> ptr == old(ptr) && size == old(size)
      ensures p != 0 ==> p == freep && exists i :: 0 <= i < |free| && free[i].size >= nu
      ensures p != 0 ==> exists n :: n >= nu && got == old(got) + [Block(old(brk), n)]
    {
      hide Ring, Linked, Sized, Covers, CoversLive, Accounted, Separate;
      var n := Chunk(nu);
      var grown := Sbrk(brk, limit, SbrkArgument(n));
      if grown.None? {
        return 0;
      }
      var hp := brk;
      assert grown.value == hp + n;
      FreshSeparate(free, base, live, size, brk, n);
      GotAccounts(got, free, live, Block(hp, n));
      SizedStill(free, base, live, size, brk, n);
      brk := grown.value;
      size := size[hp := n];
      live, got := live[hp := n], got + [Block(hp, n)];
      Free(hp + 1);
      assert live == old(live);
      return freep;
    }

    /** The end of block `p`, or all of it, leaves the free list and becomes live. */
    method Carve(prevp: nat, p: nat, nunits: nat, ghost k: nat) returns (r: nat)
      requires Valid() && freep != 0 && 0 < nunits && k + 1 < |free| && free[k + 1].size >= nunits
      requires prevp == free[k].addr && p == free[k + 1].addr
      modifies this
      ensures Valid() && freep != 0 && got == old(got) && brk == old(brk)
      ensures r > 0 && r - 1 !in old(live) && live == old(live)[r - 1 := nunits]
      ensures forall u :: Covers(old(free), u) <==> Covers(free, u) || Holds(Block(r - 1, nunits), u)
    {
      hide Ring, Linked, Sized, Covers, CoversLive, Accounted, Separate, Holds, Take;
      ghost var bs, i, b, size0 := free, k + 1, Taken(free, k + 1, nunits), size;
      RingFacts(bs, base, ptr, size, k);
      RingFacts(bs, base, ptr, size, i);
      LiveElsewhere(bs, base, live, size, brk, i);
      TakeMeets(bs, base, i, nunits);
      TakeLinked(bs, base, ptr, i, nunits);
      TakeSized(bs, base, size, i, nunits);
      TakeKeepsPrev(bs, i, nunits);
      var q := p;
      if size[p] == nunits {
        ptr := ptr[prevp := ptr[p]];
      } else {
        size := size[p := size[p] - nunits];
        q := p + size[p];
        size := size[q := nunits];
      }
      assert Block(q, nunits) == b && q in size && size[q] == nunits;
      TakeSeparate(bs, base, live, size0, brk, i, nunits, size);
      TakeAccounts(got, bs, Take(bs, i, nunits), live, b);
      freep := prevp;
      free, live := Take(bs, i, nunits), live[q := nunits];
      return q + 1;
    }

    /** malloc() with the free list set up. The search goes around the circle at most twice. */
    method Allocate(nunits: nat) returns (r: nat)
      requires Valid() && freep != 0 && 0 < nunits && nunits * 16 < 0x8000_0000
      modifies this
      ensures Valid() && freep != 0
      ensures r == 0 ==> live == old(live) && got == old(got) && old(brk) + Chunk(nunits) > limit
      ensures r != 0 ==> r - 1 !in old(live) && live == old(live)[r - 1 := nunits]
    {
      hide Ring, Linked, Sized, Covers, CoversLive, Accounted, Separate;
      var prevp := freep;
      ghost var k :| 0 <= k < |free| && free[k].addr == freep;
      ghost var more, f, g := false, k, k;
      RingFacts(free, base, ptr, size, k);
      var p := ptr[prevp];
      while true
        invariant Valid() && freep != 0 && live == old(live)
        invariant 0 <= k < |free| && prevp == free[k].addr && p == After(free, k)
        invariant 0 <= f < |free| && free[f].addr == freep && 0 <= g < |free|
        invariant if more then free[g].size >= nunits else g == f && got == old(got) && brk == old(brk)
        invariant Dist(Succ(k, |free|), g, |free|) <= Dist(Succ(k, |free|), f, |free|)
        decreases !more, Dist(Succ(k, |free|), g, |free|)
      {
        ghost var j := Succ(k, |free|);
        RingFacts(free, base, ptr, size, k);
        RingFacts(free, base, ptr, size, j);
        if size[p] >= nunits {
          r := Carve(prevp, p, nunits, k);
          return;
        }
        if p == freep {
          p := Morecore(nunits);
          if p == 0 {
            return 0;
          }
          more := true;
          g :| 0 <= g < |free| && free[g].size >= nunits;
          k :| 0 <= k < |free| && free[k].addr == freep;
          f := k;
          RingFacts(free, base, ptr, size, k);
        } else {
          k := j;
        }
        prevp := p;
        p := ptr[p];
      }
    }

    /** malloc(): a pointer past the header of a new live block that holds the request, overlapping no live
        block; 0 when the kernel refuses more memory, and then no block has changed. */
    method Malloc(nbytes: nat) returns (r: nat)
      requires Valid() && nbytes <= 0x7FFF_FFE0
      modifies this
      ensures Valid() && freep != 0
      ensures r == 0 ==> live == old(live) && got == old(got) && old(brk) + Chunk(Units(nbytes)) > limit
      ensures r != 0 ==> r - 1 !in old(live) && live == old(live)[r - 1 := Units(nbytes)] && (Units(nbytes) - 1) * 16 >= nbytes
    {
      var nunits := Units(nbytes);
      if freep == 0 {
        ptr, freep := ptr[base := base], base;
        size := size[base := 0];
        free := [Block(base, 0)];
        assert After(free, 0) == base;
        assert Accounted(got, free, live);
      }
      r := Allocate(nunits);
    }
  }

  lemma TakeKeepsPrev(bs: seq<Block>, i: nat, n: nat)
    requires 0 < i < |bs| && n <= bs[i].size
    ensures exists j :: 0 <= j < |Take(bs, i, n)| && Take(bs, i, n)[j].addr == bs[i - 1].addr
  {
    assert Take(bs, i, n)[i - 1] == bs[i - 1];
  }

  /** What the code may read of block `k`. */
  lemma RingFacts(bs: seq<Block>, base: nat, ptr: map<nat, nat>, size: map<nat, nat>, k: nat)
    requires Ring(bs, base) && Linked(bs, ptr) && Sized(bs, size) && k < |bs|
    ensures bs[k].addr in ptr && ptr[bs[k].addr] == After(bs, k) && bs[k].addr in size && size[bs[k].addr] == bs[k].size
    ensures After(bs, k) == bs[Succ(k, |bs|)].addr && (bs[k].size > 0 ==> k > 0)
    ensures base <= bs[k].addr && forall i :: 0 <= i < |bs| && bs[i].addr == bs[k].addr ==> i == k
  {
    var next := After(bs, k);
  }

  /** Units above the old break overlap nothing. */
  lemma FreshSeparate(bs: seq<Block>, base: nat, live: map<nat, nat>, size: map<nat, nat>, brk: nat, n: nat)
    requires Separate(bs, base, live, size, brk) && base < brk && 0 < n
    ensures brk !in live && Separate(bs, base, live[brk := n], size[brk := n], brk + n)
  {
    assert brk in live ==> Apart(bs, base, brk, live[brk]);
    var more := live[brk := n];
    forall a | a in more ensures Apart(bs, base, a, more[a]) {}
  }

  lemma SizedStill(bs: seq<Block>, base: nat, live: map<nat, nat>, size: map<nat, nat>, brk: nat, n: nat)
    requires Ring(bs, base) && Sized(bs, size) && Separate(bs, base, live, size, brk) && base < brk
    ensures Sized(bs, size[brk := n])
  {
    forall i | 0 <= i < |bs| ensures bs[i].addr < brk {}
  }

  lemma InsertWhere(bs: seq<Block>, t: nat, b: Block)
    requires t < |bs|
    ensures exists i :: 0 <= i < |Insert(bs, t, b)| && Insert(bs, t, b)[i].size >= b.size
    ensures exists i :: 0 <= i < |Insert(bs, t, b)| && Insert(bs, t, b)[i].addr == bs[t].addr
  {
    var i := InsertHas(bs, t, b);
    assert Put(bs, t, b)[t] == bs[t] && Insert(bs, t, b)[t].addr == bs[t].addr;
  }

  /** No live block starts where a free block does. */
  lemma LiveElsewhere(bs: seq<Block>, base: nat, live: map<nat, nat>, size: map<nat, nat>, brk: nat, t: nat)
    requires Ring(bs, base) && Separate(bs, base, live, size, brk) && t < |bs|
    ensures bs[t].addr !in live && forall c :: c in live ==> c in size && size[c] == live[c]
  {
    assert bs[t].addr in live ==> Apart(bs, base, bs[t].addr, live[bs[t].addr]);
  }

  lemma LiveApart(bs: seq<Block>, base: nat, live: map<nat, nat>, size: map<nat, nat>, brk: nat, a: nat)
    requires Separate(bs, base, live, size, brk) && a in live
    ensures Apart(bs, base, a, live[a]) && a in size && size[a] == live[a]
  {
  }
}
