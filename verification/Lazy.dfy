/**
  Growing a process eagerly or lazily: sys_sbrk(), growproc(), vmfault(), copyin(), copyout() and the
  copy made by fork, on the pages of each process, when there is memory enough. Growth that only raises the
  size and lets faults fill in zeroed pages cannot be told from growth that maps the pages at once.
*/
module Lazy {
  import opened Options
  import opened Sv39

  const TRAPFRAME := MAXVA - 8192

  type byte = x: int | 0 <= x < 256

  /** A mapped page: may user code write it, may user code access it, and its 4096 bytes. */
  datatype UPage = UPage(write: bool, user: bool, data: seq<byte>)

  /** The size of a process and its mapped pages. */
  datatype Proc = Proc(sz: nat, pages: map<nat, UPage>)

  function Zeroed(): UPage {
    UPage(true, true, seq(4096, _ => 0))
  }

  /** Pages hold 4096 bytes each, and lie below the size. */
  ghost predicate Fits(p: Proc) {
    && p.sz <= TRAPFRAME
    && forall v :: v in p.pages ==> |p.pages[v].data| == 4096 && v * 4096 < p.sz
  }

  // -------- the operations as functions --------

  /** vmfault(): map a zeroed page, unless the address is outside the process or already mapped. */
  function Fault(p: Proc, va: nat): Option<Proc> {
    if va >= p.sz || va / 4096 in p.pages then None
    else Some(p.(pages := p.pages[va / 4096 := Zeroed()]))
  }

  /** walkaddr(), and vmfault() when it finds nothing: afterwards the page is mapped for user code. */
  function Reach(p: Proc, va: nat): Option<Proc> {
    if va < MAXVA && va / 4096 in p.pages && p.pages[va / 4096].user then Some(p) else Fault(p, va)
  }

  function Down(va: nat): nat {
    va / 4096 * 4096
  }

  /** How many of `len` bytes from `va` lie in one page. */
  function Piece(va: nat, len: nat): (n: nat)
    ensures n <= len && va - Down(va) + n <= 4096 && (0 < len ==> 0 < n)
  {
    if 4096 - (va - Down(va)) > len then len else 4096 - (va - Down(va))
  }

  /** The `n` bytes of the page that holds `va`, from there on. */
  function Slice(p: Proc, va: nat, n: nat): seq<byte>
    requires va / 4096 in p.pages && |p.pages[va / 4096].data| == 4096 && va % 4096 + n <= 4096
  {
    p.pages[va / 4096].data[va % 4096..va % 4096 + n]
  }

  function Patch(p: Proc, va: nat, src: seq<byte>): Proc
    requires va / 4096 in p.pages && |p.pages[va / 4096].data| == 4096 && va % 4096 + |src| <= 4096
  {
    var g := p.pages[va / 4096];
    p.(pages := p.pages[va / 4096 := g.(data := g.data[..va % 4096] + src + g.data[va % 4096 + |src|..])])
  }

  lemma ReachFits(p: Proc, va: nat)
    requires Fits(p)
    ensures Reach(p, va).Some? ==> Fits(Reach(p, va).value) && va / 4096 in Reach(p, va).value.pages
    ensures Reach(p, Down(va)).Some? ==> va / 4096 in Reach(p, Down(va)).value.pages
  {
  }

  /** copyin(): `len` bytes of user memory from `va`, or nothing when some page of them is not accessible. */
  ghost function CopyIn(p: Proc, va: nat, len: nat): (r: (Proc, Option<seq<byte>>))
    requires Fits(p)
    ensures Fits(r.0)
    decreases len
  {
    if len == 0 then (p, Some([])) else
    match Reach(p, Down(va))
    case None => (p, None)
    case Some(q) =>
      ReachFits(p, Down(va));
      var n := Piece(va, len);
      var rest := CopyIn(q, Down(va) + 4096, len - n);
      Prepend(Slice(q, va, n), rest)
  }

  /** copyout(): the bytes written from `va` on, page by page, as far as the pages are accessible and
      writable. */
  ghost function CopyOut(p: Proc, va: nat, src: seq<byte>): (r: (Proc, bool))
    requires Fits(p)
    ensures Fits(r.0)
    decreases |src|
  {
    if src == [] then (p, true) else
    if Down(va) >= MAXVA then (p, false) else
    match Reach(p, Down(va))
    case None => (p, false)
    case Some(q) =>
      ReachFits(p, Down(va));
      var n := Piece(va, |src|);
      if !q.pages[va / 4096].write then (q, false)
      else CopyOut(Patch(q, va, src[..n]), Down(va) + 4096, src[n..])
  }

  // -------- what copying computes --------

  /** User code may access address `a`, at once or after a fault. */
  predicate Open(p: Proc, a: nat) {
    if a / 4096 in p.pages then p.pages[a / 4096].user else Down(a) < p.sz
  }

  predicate OpenToWrite(p: Proc, a: nat) {
    Open(p, a) && (a / 4096 in p.pages ==> p.pages[a / 4096].write)
  }

  /** The byte at address `a`; a page not yet mapped reads as zeroes. */
  function Seen(p: Proc, a: nat): byte {
    if a / 4096 in p.pages && a % 4096 < |p.pages[a / 4096].data| then p.pages[a / 4096].data[a % 4096] else 0
  }

  /** The same size, permissions and bytes, to whoever looks at addresses. */
  ghost predicate SameAccess(p: Proc, q: Proc) {
    && q.sz == p.sz
    && (forall a :: Open(q, a) <==> Open(p, a))
    && (forall a :: OpenToWrite(q, a) <==> OpenToWrite(p, a))
  }

  ghost predicate SameBytes(p: Proc, q: Proc) {
    forall a :: Seen(q, a) == Seen(p, a)
  }

  lemma ReachMeets(p: Proc, va: nat)
    requires Fits(p)
    ensures Reach(p, Down(va)).Some? <==> Open(p, va)
    ensures Reach(p, Down(va)).Some? ==>
              SameAccess(p, Reach(p, Down(va)).value) && SameBytes(p, Reach(p, Down(va)).value)
  {
    DownMeets(va);
    if Reach(p, Down(va)).Some? {
      var q := Reach(p, Down(va)).value;
      forall a: nat | true
        ensures Open(q, a) <==> Open(p, a)
        ensures OpenToWrite(q, a) <==> OpenToWrite(p, a)
        ensures Seen(q, a) == Seen(p, a)
      {
        DownMeets(a);
      }
    }
  }

  lemma DownMeets(va: nat)
    ensures Down(va) / 4096 == va / 4096 && Down(va) <= va < Down(va) + 4096 && va % 4096 == va - Down(va)
    ensures forall a: nat {:trigger a / 4096} :: a / 4096 == va / 4096 ==> Down(a) == Down(va)
  {
  }

  /** The addresses of the piece lie in one page, and the next piece begins the next page. */
  lemma PieceMeets(va: nat, len: nat, a: nat)
    requires va <= a < va + Piece(va, len)
    ensures a / 4096 == va / 4096 && a % 4096 == va % 4096 + (a - va)
  {
    var q, r := va / 4096, va % 4096;
    assert a == q * 4096 + (r + (a - va)) && r + (a - va) < 4096;
  }

  lemma PieceEnds(va: nat, len: nat)
    ensures Piece(va, len) < len ==> va + Piece(va, len) == Down(va) + 4096
  {
  }

  /** copyin() succeeds exactly when every address is open, gives the bytes seen there, and changes nothing that
      can be seen. */
  lemma {:induction false} CopyInMeets(p: Proc, va: nat, len: nat)
    requires Fits(p)
    ensures CopyIn(p, va, len).1.Some? <==> forall a :: va <= a < va + len ==> Open(p, a)
    ensures CopyIn(p, va, len).1.Some? ==>
              && |CopyIn(p, va, len).1.value| == len
              && forall a :: va <= a < va + len ==> Seen(p, a) == CopyIn(p, va, len).1.value[a - va]
    ensures SameAccess(p, CopyIn(p, va, len).0) && SameBytes(p, CopyIn(p, va, len).0)
    decreases len
  {
    if len > 0 {
      ReachMeets(p, va);
      DownMeets(va);
      if Open(p, va) {
        var q, n := Reach(p, Down(va)).value, Piece(va, len);
        ReachFits(p, Down(va));
        PieceEnds(va, len);
        CopyInMeets(q, Down(va) + 4096, len - n);
        InMore(p, q, va, len);
      }
    }
  }

  lemma InMore(p: Proc, q: Proc, va: nat, len: nat)
    requires Fits(p) && 0 < len && Reach(p, Down(va)) == Some(q) && Open(p, va) && SameAccess(p, q) && SameBytes(p, q) && Fits(q)
    requires va / 4096 in q.pages
    ensures |Slice(q, va, Piece(va, len))| == Piece(va, len)
    ensures forall a :: va <= a < va + Piece(va, len) ==> Open(p, a) && Seen(p, a) == Slice(q, va, Piece(va, len))[a - va]
  {
    forall a | va <= a < va + Piece(va, len) ensures Open(p, a) && Seen(p, a) == Slice(q, va, Piece(va, len))[a - va] {
      PieceMeets(va, len, a);
      assert Seen(q, a) == Seen(p, a);
      assert Open(q, a) <==> Open(p, a);
    }
  }

  lemma PatchMeets(p: Proc, va: nat, w: seq<byte>)
    requires va / 4096 in p.pages && |p.pages[va / 4096].data| == 4096 && va % 4096 + |w| <= 4096
    ensures SameAccess(p, Patch(p, va, w)) && (Fits(p) ==> Fits(Patch(p, va, w)))
    ensures forall a: nat :: Seen(Patch(p, va, w), a) == if va <= a < va + |w| then w[a - va] else Seen(p, a)
  {
    var q := Patch(p, va, w);
    forall a: nat | true
      ensures Open(q, a) <==> Open(p, a)
      ensures OpenToWrite(q, a) <==> OpenToWrite(p, a)
      ensures Seen(q, a) == if va <= a < va + |w| then w[a - va] else Seen(p, a)
    {
      SamePage(va, |w|, a);
    }
  }

  lemma SamePage(va: nat, n: nat, a: nat)
    requires va % 4096 + n <= 4096
    ensures va <= a < va + n <==> a / 4096 == va / 4096 && va % 4096 <= a % 4096 < va % 4096 + n
    ensures a / 4096 == va / 4096 ==> a - va == a % 4096 - va % 4096
  {
    var q, r, x, y := va / 4096, va % 4096, a / 4096, a % 4096;
    assert va == q * 4096 + r && a == x * 4096 + y;
    assert x < q ==> x * 4096 <= q * 4096 - 4096;
    assert x > q ==> x * 4096 >= q * 4096 + 4096;
  }

  /** copyout() writes exactly the bytes before the first address that is not open to writing, and succeeds exactly
      when there is none; no other byte and no permission changes. */
  lemma {:induction false} CopyOutMeets(p: Proc, va: nat, src: seq<byte>) returns (m: nat)
    requires Fits(p)
    ensures m <= |src| && (CopyOut(p, va, src).1 <==> m == |src|)
    ensures forall a :: va <= a < va + m ==> OpenToWrite(p, a)
    ensures m < |src| ==> !OpenToWrite(p, va + m)
    ensures SameAccess(p, CopyOut(p, va, src).0)
    ensures forall a: nat :: Seen(CopyOut(p, va, src).0, a) == if va <= a < va + m then src[a - va] else Seen(p, a)
    decreases |src|
  {
    hide Open, OpenToWrite, Seen, Patch, Reach, Piece;
    if src == [] || !OpenToWrite(p, va) {
      m := 0;
      OutStops(p, va, src);
    } else {
      ReachMeets(p, va);
      WriteIsOpen(p, va);
      ReachFits(p, Down(va));
      DownMeets(va);
      var q, n := Reach(p, Down(va)).value, Piece(va, |src|);
      OutMore(p, q, va, src, n);
      var w := src[..n];
      PatchMeets(q, va, w);
      PieceEnds(va, |src|);
      m := CopyOutMeets(Patch(q, va, w), Down(va) + 4096, src[n..]);
      if n == |src| {
        m := |src|;
      } else {
        m := n + m;
      }
    }
  }

  lemma WriteIsOpen(p: Proc, a: nat)
    requires OpenToWrite(p, a)
    ensures Open(p, a)
  {
  }

  lemma OutStops(p: Proc, va: nat, src: seq<byte>)
    requires Fits(p) && (src == [] || !OpenToWrite(p, va))
    ensures CopyOut(p, va, src).1 <==> src == []
    ensures SameAccess(p, CopyOut(p, va, src).0) && SameBytes(p, CopyOut(p, va, src).0)
  {
    ReachMeets(p, va);
    ReachFits(p, Down(va));
    DownMeets(va);
    if src != [] && Reach(p, Down(va)).Some? {
      assert OpenToWrite(Reach(p, Down(va)).value, va) <==> OpenToWrite(p, va);
    }
  }

  lemma OutMore(p: Proc, q: Proc, va: nat, src: seq<byte>, n: nat)
    requires Fits(p) && SameAccess(p, q) && OpenToWrite(p, va) && n == Piece(va, |src|) && va / 4096 in q.pages
    ensures Down(va) < MAXVA && q.pages[va / 4096].write && Open(p, va)
    ensures forall a :: va <= a < va + n ==> OpenToWrite(p, a)
  {
    assert OpenToWrite(q, va);
    DownMeets(va);
    forall a | va <= a < va + n ensures OpenToWrite(p, a) {
      PieceMeets(va, |src|, a);
      DownMeets(va);
    }
  }

  /** The pages from `lo` to `hi` become mapped and zeroed. */
  function AddZeroed(pages: map<nat, UPage>, lo: nat, hi: nat): map<nat, UPage> {
    if hi <= lo then pages else AddZeroed(pages, lo, hi - 1)[hi - 1 := Zeroed()]
  }

  lemma {:induction false} AddZeroedMeets(pages: map<nat, UPage>, lo: nat, hi: nat, v: nat)
    ensures var g := AddZeroed(pages, lo, hi);
            && (v in g <==> v in pages || lo <= v < hi)
            && (v in g ==> g[v] == if lo <= v < hi then Zeroed() else pages[v])
  {
    if lo < hi { AddZeroedMeets(pages, lo, hi - 1, v); }
  }

  /** uvmalloc() and uvmdealloc() on the pages. */
  function Grown(p: Proc, newsz: nat): Proc {
    Proc(newsz, AddZeroed(p.pages, Pages(p.sz), Pages(newsz)))
  }

  lemma GrownMeets(p: Proc, newsz: nat)
    requires p.sz <= newsz
    ensures forall v :: v in Grown(p, newsz).pages <==> v in p.pages || Pages(p.sz) <= v < Pages(newsz)
    ensures forall v :: v in Grown(p, newsz).pages ==>
              Grown(p, newsz).pages[v] == if Pages(p.sz) <= v < Pages(newsz) then Zeroed() else p.pages[v]
  {
    forall v: nat | true
      ensures v in Grown(p, newsz).pages <==> v in p.pages || Pages(p.sz) <= v < Pages(newsz)
      ensures v in Grown(p, newsz).pages ==>
                Grown(p, newsz).pages[v] == if Pages(p.sz) <= v < Pages(newsz) then Zeroed() else p.pages[v]
    {
      AddZeroedMeets(p.pages, Pages(p.sz), Pages(newsz), v);
    }
  }

  function Shrunk(p: Proc, newsz: nat): Proc {
    Proc(newsz, map v | v in p.pages && !(Pages(newsz) <= v < Pages(p.sz)) :: p.pages[v])
  }

  /** A 64-bit sum of a size and a signed 32-bit number. */
  function Wrap(x: int): nat
    requires -0x8000_0000 <= x
  {
    if x < 0 then x + 0x1_0000_0000_0000_0000 else x
  }

  /** sys_sbrk(n, t): the new process and the result. A shrink by more than the size wraps around to a large
      new size, and uvmdealloc() then leaves the size as it is. */
  function Sbrk(p: Proc, n: int, eager: bool): (r: (Proc, int))
    requires Fits(p) && -0x8000_0000 <= n < 0x8000_0000
    ensures Fits(r.0)
  {
    var addr: int := p.sz;
    if n < 0 then
      var newsz := Wrap(p.sz + n);
      (if newsz >= p.sz then p else Shrunk(p, newsz), addr)
    else if p.sz + n > TRAPFRAME then (p, -1)
    else if eager then GrownMeets(p, p.sz + n); (Grown(p, p.sz + n), addr)
    else (p.(sz := p.sz + n), addr)
  }

  /** sbrk() gives the old size, or -1 exactly when the new one is beyond TRAPFRAME; no address below both sizes
      changes, and the new pages are open and zero. */
  lemma SbrkMeets(p: Proc, n: int, eager: bool)
    requires Fits(p) && -0x8000_0000 <= n < 0x8000_0000
    ensures var (q, addr) := Sbrk(p, n, eager);
      && (addr == -1 || addr == p.sz) && (addr == -1 <==> n >= 0 && p.sz + n > TRAPFRAME)
      && q.sz == (if addr == -1 || p.sz + n < 0 then p.sz else p.sz + n)
    ensures var q := Sbrk(p, n, eager).0;
      forall a :: 0 <= a < q.sz && a < p.sz ==>
        Seen(q, a) == Seen(p, a) && (Open(q, a) <==> Open(p, a)) && (OpenToWrite(q, a) <==> OpenToWrite(p, a))
    ensures var q := Sbrk(p, n, eager).0;
      forall a :: p.sz <= a < q.sz && a / 4096 >= Pages(p.sz) ==> OpenToWrite(q, a) && Seen(q, a) == 0
  {
    var q := Sbrk(p, n, eager).0;
    if n >= 0 && p.sz + n <= TRAPFRAME {
      GrownMeets(p, p.sz + n);
    }
    forall a | 0 <= a < q.sz && a < p.sz
      ensures Seen(q, a) == Seen(p, a) && (Open(q, a) <==> Open(p, a)) && (OpenToWrite(q, a) <==> OpenToWrite(p, a))
    {
      PageBelow(a, p.sz);
      PageBelow(a, q.sz);
    }
    forall a | p.sz <= a < q.sz && a / 4096 >= Pages(p.sz) ensures OpenToWrite(q, a) && Seen(q, a) == 0 {
      PageBelow(a, q.sz);
    }
  }

  lemma PageBelow(a: nat, sz: nat)
    requires a < sz
    ensures a / 4096 < Pages(sz) && Down(a) < sz
  {
  }

  // -------- a system of processes --------

  type Pid = nat

  datatype Action =
    | DoSbrk(pid: Pid, n: int, eager: bool)
    | DoCopyIn(pid: Pid, va: nat, len: nat)
    | DoCopyOut(pid: Pid, va: nat, src: seq<byte>)
    | DoLoad(pid: Pid, va: nat)
    | DoStore(pid: Pid, va: nat, b: byte)
    | DoFork(pid: Pid, child: Pid)

  /** What the process, or the kernel on its behalf, gets to see. */
  datatype Result = Nothing | Number(n: int) | Bytes(bytes: Option<seq<byte>>) | Done(ok: bool) | Killed

  ghost predicate AllFit(s: map<Pid, Proc>) {
    forall i :: i in s ==> Fits(s[i])
  }

  predicate Legal(a: Action) {
    a.DoSbrk? ==> -0x8000_0000 <= a.n < 0x8000_0000
  }

  /** A load or store by user code: the page is mapped with the permission it needs, or a fault maps it, or
      the process is killed. */
  function Touch(p: Proc, va: nat, write: bool): Option<Proc> {
    if va < MAXVA && va / 4096 in p.pages && p.pages[va / 4096].user && (write ==> p.pages[va / 4096].write) then Some(p)
    else Fault(p, va)
  }

  ghost function Step(s: map<Pid, Proc>, a: Action): (r: (map<Pid, Proc>, Result))
    requires AllFit(s) && Legal(a)
    ensures AllFit(r.0)
  {
    if a.pid !in s then (s, Nothing) else
    var p := s[a.pid];
    match a
    case DoSbrk(i, n, eager) => var r := Sbrk(p, n, eager); (s[i := r.0], Number(r.1))
    case DoCopyIn(i, va, len) => var r := CopyIn(p, va, len); (s[i := r.0], Bytes(r.1))
    case DoCopyOut(i, va, src) => var r := CopyOut(p, va, src); (s[i := r.0], Done(r.1))
    case DoLoad(i, va) =>
      (match Touch(p, va, false)
       case None => (s - {i}, Killed)
       case Some(q) => (s[i := q], Bytes(Some(Slice(q, va, 1)))))
    case DoStore(i, va, b) =>
      (match Touch(p, va, true)
       case None => (s - {i}, Killed)
       case Some(q) => (s[i := Patch(q, va, [b])], Done(true)))
    case DoFork(i, child) => if child in s then (s, Nothing) else (s[child := p], Number(child))
  }

  /** A load gives the byte at its address and a store changes that byte only; the process is killed exactly when its
      page is there without the permission, or is not there and the address is not below the size. */
  lemma AccessMeets(s: map<Pid, Proc>, a: Action)
    requires AllFit(s) && (a.DoLoad? || a.DoStore?) && a.pid in s
    ensures var p, v := s[a.pid], a.va / 4096;
      var ok := if v in p.pages then p.pages[v].user && (a.DoStore? ==> p.pages[v].write) else a.va < p.sz;
      var (s', r) := Step(s, a);
      && (r == Killed <==> !ok) && (!ok ==> s' == s - {a.pid})
      && (ok && a.DoLoad? ==> r == Bytes(Some([Seen(p, a.va)])))
      && (ok ==> s'.Keys == s.Keys && SameAccess(p, s'[a.pid]) && forall j :: j in s && j != a.pid ==> s'[j] == s[j])
      && (ok ==> forall x: nat :: Seen(s'[a.pid], x) == if a.DoStore? && x == a.va then a.b else Seen(p, x))
  {
    var p := s[a.pid];
    DownMeets(a.va);
    var touched := Touch(p, a.va, a.DoStore?);
    if touched.Some? {
      var q := touched.value;
      FilledSame(p, q, a.va);
      assert Slice(q, a.va, 1) == [Seen(q, a.va)];
      if a.DoStore? {
        PatchMeets(q, a.va, [a.b]);
      }
    }
  }

  /** Filling in a page of zeroes below the size changes nothing that can be seen. */
  lemma FilledSame(p: Proc, q: Proc, va: nat)
    requires Fits(p) && (q == p || (va < p.sz && va / 4096 !in p.pages && q == p.(pages := p.pages[va / 4096 := Zeroed()])))
    ensures SameAccess(p, q) && SameBytes(p, q) && Fits(q)
  {
    DownMeets(va);
    forall a: nat | true
      ensures Open(q, a) <==> Open(p, a)
      ensures OpenToWrite(q, a) <==> OpenToWrite(p, a)
      ensures Seen(q, a) == Seen(p, a)
    {
      DownMeets(a);
    }
  }

  function Eagerly(a: Action): Action {
    if a.DoSbrk? then a.(eager := true) else a
  }

  ghost predicate AllLegal(acts: seq<Action>) {
    forall i :: 0 <= i < |acts| ==> Legal(acts[i])
  }

  /** The results of a sequence of actions, and where they lead. */
  ghost function Run(s: map<Pid, Proc>, acts: seq<Action>): (r: (map<Pid, Proc>, seq<Result>))
    requires AllFit(s) && AllLegal(acts)
    ensures AllFit(r.0)
    decreases |acts|
  {
    if acts == [] then (s, []) else
    var first := Step(s, acts[0]);
    var rest := Run(first.0, acts[1..]);
    (rest.0, [first.1] + rest.1)
  }

  ghost function EagerRun(s: map<Pid, Proc>, acts: seq<Action>): (r: (map<Pid, Proc>, seq<Result>))
    requires AllFit(s) && AllLegal(acts)
    ensures AllFit(r.0)
    decreases |acts|
  {
    if acts == [] then (s, []) else
    var first := Step(s, Eagerly(acts[0]));
    var rest := EagerRun(first.0, acts[1..]);
    (rest.0, [first.1] + rest.1)
  }

  // -------- the simulation --------

  /** `e` has every page of `l`, and otherwise only zeroed pages below the size, which a fault would map. */
  ghost predicate Sim(e: Proc, l: Proc) {
    && e.sz == l.sz
    && (forall v :: v in l.pages ==> v in e.pages && e.pages[v] == l.pages[v])
    && (forall v :: v in e.pages && v !in l.pages ==> e.pages[v] == Zeroed() && v * 4096 < e.sz)
  }

  ghost predicate SimAll(e: map<Pid, Proc>, l: map<Pid, Proc>) {
    e.Keys == l.Keys && forall i :: i in e ==> Sim(e[i], l[i])
  }

  lemma SimFault(e: Proc, l: Proc, va: nat)
    requires Sim(e, l) && va / 4096 !in e.pages
    ensures Fault(e, va).None? <==> Fault(l, va).None?
    ensures Fault(l, va).Some? ==> Sim(Fault(e, va).value, Fault(l, va).value)
  {
  }

  /** A page that only the eager process has is mapped by a fault in the lazy one, with the same bytes. */
  lemma SimFill(e: Proc, l: Proc, va: nat)
    requires Fits(e) && Sim(e, l) && va / 4096 in e.pages && va / 4096 !in l.pages && Down(va) == va
    ensures Fault(l, va).Some? && Sim(e, Fault(l, va).value)
  {
  }

  lemma SimReach(e: Proc, l: Proc, va: nat)
    requires Fits(e) && Fits(l) && Sim(e, l) && Down(va) == va
    ensures Reach(e, va).None? <==> Reach(l, va).None?
    ensures Reach(l, va).Some? ==> Sim(Reach(e, va).value, Reach(l, va).value)
  {
    var v := va / 4096;
    if v in l.pages {
      assert e.pages[v] == l.pages[v];
    } else if v in e.pages {
      SimFill(e, l, va);
    } else {
      SimFault(e, l, va);
    }
  }

  lemma SimPatch(e: Proc, l: Proc, va: nat, src: seq<byte>)
    requires Sim(e, l) && va / 4096 in l.pages && |l.pages[va / 4096].data| == 4096 && va % 4096 + |src| <= 4096
    ensures Sim(Patch(e, va, src), Patch(l, va, src))
  {
  }

  lemma SimSlice(e: Proc, l: Proc, va: nat, n: nat)
    requires Fits(l) && Sim(e, l) && va / 4096 in l.pages && va % 4096 + n <= 4096
    ensures va / 4096 in e.pages && |e.pages[va / 4096].data| == 4096 && Slice(e, va, n) == Slice(l, va, n)
  {
  }

  lemma {:induction false} SimCopyIn(e: Proc, l: Proc, va: nat, len: nat)
    requires Fits(e) && Fits(l) && Sim(e, l)
    ensures Sim(CopyIn(e, va, len).0, CopyIn(l, va, len).0) && CopyIn(e, va, len).1 == CopyIn(l, va, len).1
    decreases len
  {
    hide Reach, Sim, Fits, Slice;
    if len > 0 {
      DownMeets(va);
      SimReach(e, l, Down(va));
      if Reach(l, Down(va)).Some? {
        ReachFits(e, Down(va));
        ReachFits(l, Down(va));
        var f, m, n := Reach(e, Down(va)).value, Reach(l, Down(va)).value, Piece(va, len);
        SimSlice(f, m, va, n);
        SimCopyIn(f, m, Down(va) + 4096, len - n);
      }
    }
  }

  lemma {:induction false} SimCopyOut(e: Proc, l: Proc, va: nat, src: seq<byte>)
    requires Fits(e) && Fits(l) && Sim(e, l)
    ensures Sim(CopyOut(e, va, src).0, CopyOut(l, va, src).0) && CopyOut(e, va, src).1 == CopyOut(l, va, src).1
    decreases |src|
  {
    if src != [] && Down(va) < MAXVA {
      SimReach(e, l, Down(va));
      if Reach(l, Down(va)).Some? {
        ReachFits(e, Down(va));
        ReachFits(l, Down(va));
        var f, m := Reach(e, Down(va)).value, Reach(l, Down(va)).value;
        var n := Piece(va, |src|);
        SimPatch(f, m, va, src[..n]);
        if m.pages[va / 4096].write {
          SimCopyOut(Patch(f, va, src[..n]), Patch(m, va, src[..n]), Down(va) + 4096, src[n..]);
        }
      }
    }
  }

  /** Growing lazily or eagerly, or shrinking, has the same result. */
  lemma SimSbrk(e: Proc, l: Proc, n: int, eager: bool)
    requires Fits(e) && Fits(l) && Sim(e, l) && -0x8000_0000 <= n < 0x8000_0000
    ensures Sim(Sbrk(e, n, true).0, Sbrk(l, n, eager).0) && Sbrk(e, n, true).1 == Sbrk(l, n, eager).1
  {
    if n >= 0 {
      GrownMeets(e, e.sz + n);
      GrownMeets(l, l.sz + n);
    }
  }

  /** A load or store tells the two apart exactly when it lies past the size but in the last page, and only
      the eager process has that page: vmfault() refuses an address past the size. */
  lemma TouchAgrees(e: Proc, l: Proc, va: nat, write: bool)
    requires Fits(e) && Fits(l) && Sim(e, l)
    ensures (Touch(e, va, write).None? <==> Touch(l, va, write).None?) <==>
            !(va >= l.sz && va / 4096 in e.pages && va / 4096 !in l.pages)
    ensures (Touch(e, va, write).None? <==> Touch(l, va, write).None?) && Touch(l, va, write).Some? ==>
              Sim(Touch(e, va, write).value, Touch(l, va, write).value)
  {
    var v := va / 4096;
    if v in l.pages {
      assert e.pages[v] == l.pages[v];
    }
  }

  /** One byte asked for lazily: the next byte of the same page can be read after eager growth only. */
  lemma LastPageDiffers()
    ensures var p := Proc(0, map[]);
            Touch(Sbrk(p, 1, true).0, 1, false).Some? && Touch(Sbrk(p, 1, false).0, 1, false).None?
  {
    GrownMeets(Proc(0, map[]), 1);
  }

  /** Every load and store of the run is below the size of its process at that time. */
  ghost predicate InBounds(s: map<Pid, Proc>, acts: seq<Action>)
    requires AllFit(s) && AllLegal(acts)
    decreases |acts|
  {
    acts != [] ==>
      && ((acts[0].DoLoad? || acts[0].DoStore?) && acts[0].pid in s ==> acts[0].va < s[acts[0].pid].sz)
      && InBounds(Step(s, acts[0]).0, acts[1..])
  }

  lemma SimStep(e: map<Pid, Proc>, l: map<Pid, Proc>, a: Action)
    requires AllFit(e) && AllFit(l) && SimAll(e, l) && Legal(a)
    requires (a.DoLoad? || a.DoStore?) && a.pid in l ==> a.va < l[a.pid].sz
    ensures SimAll(Step(e, Eagerly(a)).0, Step(l, a).0) && Step(e, Eagerly(a)).1 == Step(l, a).1
  {
    if a.pid in l {
      var f, m := e[a.pid], l[a.pid];
      match a
      case DoSbrk(i, n, eager) => SimSbrk(f, m, n, eager);
      case DoCopyIn(i, va, len) => SimCopyIn(f, m, va, len);
      case DoCopyOut(i, va, src) => SimCopyOut(f, m, va, src);
      case DoLoad(i, va) => TouchAgrees(f, m, va, false);
      case DoStore(i, va, b) =>
        TouchAgrees(f, m, va, true);
        if Touch(m, va, true).Some? {
          SimPatch(Touch(f, va, true).value, Touch(m, va, true).value, va, [b]);
        }
      case DoFork(i, child) =>
    }
  }

  /** Every sequence of growing, shrinking, copying in and out, forking, and loading and storing below the size
      has the same results whether each growth is done as asked or eagerly. */
  lemma {:induction false} LazyEqualsEager(e: map<Pid, Proc>, l: map<Pid, Proc>, acts: seq<Action>)
    requires AllFit(e) && AllFit(l) && SimAll(e, l) && AllLegal(acts) && InBounds(l, acts)
    ensures EagerRun(e, acts).1 == Run(l, acts).1 && SimAll(EagerRun(e, acts).0, Run(l, acts).0)
    decreases |acts|
  {
    if acts != [] {
      SimStep(e, l, acts[0]);
      LazyEqualsEager(Step(e, Eagerly(acts[0])).0, Step(l, acts[0]).0, acts[1..]);
    }
  }

  // -------- the code --------

  function Prepend(got: seq<byte>, r: (Proc, Option<seq<byte>>)): (Proc, Option<seq<byte>>) {
    (r.0, if r.1.None? then None else Some(got + r.1.value))
  }

  lemma PrependMore(got: seq<byte>, piece: seq<byte>, r: (Proc, Option<seq<byte>>))
    ensures Prepend(got, Prepend(piece, r)) == Prepend(got + piece, r)
  {
    assert r.1.Some? ==> got + (piece + r.1.value) == got + piece + r.1.value;
  }

  class Process {
    var sz: nat
    var pages: map<nat, UPage>

    ghost function Now(): Proc
      reads this
    {
      Proc(sz, pages)
    }

    /** vmfault() */
    method Vmfault(va: nat) returns (ok: bool)
      modifies this`pages
      ensures ok <==> Fault(old(Now()), va).Some?
      ensures Now() == if ok then Fault(old(Now()), va).value else old(Now())
    {
      if va >= sz {
        return false;
      }
      var va0 := va / 4096 * 4096;
      if va0 / 4096 in pages {
        return false;
      }
      pages := pages[va0 / 4096 := Zeroed()];
      return true;
    }

    /** walkaddr(), and vmfault() when it finds nothing. */
    method Reachable(va0: nat) returns (ok: bool)
      requires Fits(Now())
      modifies this`pages
      ensures ok <==> Reach(old(Now()), va0).Some?
      ensures Now() == if ok then Reach(old(Now()), va0).value else old(Now())
      ensures Fits(Now()) && (ok ==> va0 / 4096 in pages)
    {
      ReachFits(Now(), va0);
      if va0 < MAXVA && va0 / 4096 in pages && pages[va0 / 4096].user {
        return true;
      }
      ok := Vmfault(va0);
    }

    /** copyin(): refines CopyIn. */
    method Copyin(va: nat, len: nat) returns (got: seq<byte>, ok: bool)
      requires Fits(Now())
      modifies this`pages
      ensures Now() == CopyIn(old(Now()), va, len).0 && ok == CopyIn(old(Now()), va, len).1.Some?
      ensures ok ==> got == CopyIn(old(Now()), va, len).1.value
    {
      hide Reach;
      got := [];
      var srcva: nat, left: nat := va, len;
      ghost var whole := CopyIn(Now(), va, len);
      assert whole.1.Some? ==> got + whole.1.value == whole.1.value;
      while left > 0
        invariant Fits(Now()) && whole == Prepend(got, CopyIn(Now(), srcva, left))
      {
        var va0 := srcva / 4096 * 4096;
        ghost var before := Now();
        var found := Reachable(va0);
        if !found {
          return got, false;
        }
        var n := 4096 - (srcva - va0);
        if n > left {
          n := left;
        }
        var piece := pages[va0 / 4096].data[srcva - va0..srcva - va0 + n];
        assert CopyIn(before, srcva, left) == Prepend(piece, CopyIn(Now(), va0 + 4096, left - n));
        hide CopyIn, Prepend;
        PrependMore(got, piece, CopyIn(Now(), va0 + 4096, left - n));
        got := got + piece;
        left := left - n;
        srcva := va0 + 4096;
      }
      return got, true;
    }

    /** copyout(): refines CopyOut. */
    method Copyout(va: nat, src: seq<byte>) returns (ok: bool)
      requires Fits(Now())
      modifies this`pages
      ensures Now() == CopyOut(old(Now()), va, src).0 && ok == CopyOut(old(Now()), va, src).1
    {
      hide Reach;
      var dstva: nat, i: nat := va, 0;
      ghost var whole := CopyOut(Now(), va, src);
      assert src[0..] == src;
      while i < |src|
        invariant i <= |src| && Fits(Now()) && whole == CopyOut(Now(), dstva, src[i..])
      {
        var va0 := dstva / 4096 * 4096;
        if va0 >= MAXVA {
          return false;
        }
        var found := Reachable(va0);
        if !found {
          return false;
        }
        var g := pages[va0 / 4096];
        if !g.write {
          return false;
        }
        var n := 4096 - (dstva - va0);
        if n > |src| - i {
          n := |src| - i;
        }
        ghost var rest := src[i..];
        assert rest[..n] == src[i..i + n] && rest[n..] == src[i + n..];
        var o := dstva - va0;
        pages := pages[va0 / 4096 := g.(data := g.data[..o] + src[i..i + n] + g.data[o + n..])];
        i := i + n;
        dstva := va0 + 4096;
      }
      return true;
    }

    /** growproc() by `n` bytes, with the 64-bit wrap-around of the new size. */
    method Growproc(n: int) returns (result: int)
      requires Fits(Now()) && -0x8000_0000 <= n < 0x8000_0000
      modifies this
      ensures Now() == Sbrk(old(Now()), n, true).0
      ensures result == if Sbrk(old(Now()), n, true).1 == -1 then -1 else 0
    {
      if n > 0 {
        if sz + n > TRAPFRAME {
          return -1;
        }
        MapZeroed(sz + n);
      } else if n < 0 {
        var newsz := Wrap(sz + n);
        if newsz < sz {
          pages := map v | v in pages && !(Pages(newsz) <= v < Pages(sz)) :: pages[v];
          sz := newsz;
        }
      }
      return 0;
    }

    /** uvmalloc(): map zeroed pages one by one. */
    method MapZeroed(newsz: nat)
      requires sz <= newsz
      modifies this
      ensures Now() == Grown(old(Now()), newsz)
    {
      var v := Pages(sz);
      while v * 4096 < newsz
        invariant sz == old(sz) && Pages(sz) <= v <= Pages(newsz) && pages == AddZeroed(old(pages), Pages(sz), v)
        decreases Pages(newsz) - v
      {
        pages := pages[v := Zeroed()];
        v := v + 1;
      }
      sz := newsz;
    }

    /** sys_sbrk(): the old size, or -1. */
    method SysSbrk(n: int, eager: bool) returns (addr: int)
      requires Fits(Now()) && -0x8000_0000 <= n < 0x8000_0000
      modifies this
      ensures Now() == Sbrk(old(Now()), n, eager).0 && addr == Sbrk(old(Now()), n, eager).1
      ensures addr == -1 || addr == old(sz)
      ensures addr == -1 <==> n >= 0 && old(sz) + n > TRAPFRAME
      ensures sz == if addr == -1 || old(sz) + n < 0 then old(sz) else old(sz) + n
      ensures forall a :: 0 <= a < sz && a < old(sz) ==>
                Seen(Now(), a) == Seen(old(Now()), a) && (Open(Now(), a) <==> Open(old(Now()), a)) &&
                (OpenToWrite(Now(), a) <==> OpenToWrite(old(Now()), a))
      ensures forall a :: old(sz) <= a < sz && a / 4096 >= Pages(old(sz)) ==> OpenToWrite(Now(), a) && Seen(Now(), a) == 0
    {
      SbrkMeets(Now(), n, eager);
      addr := sz;
      if eager || n < 0 {
        var result := Growproc(n);
        if result < 0 {
          return -1;
        }
      } else {
        if Wrap(sz + n) < sz {
          return -1;
        }
        if Wrap(sz + n) > TRAPFRAME {
          return -1;
        }
        sz := sz + n;
      }
    }
  }
}
