/**
  The virtio disk driver of kernel/virtio_disk.c and the device it talks to: three-descriptor chains, the
  available ring and the used ring (section 2.6, Split Virtqueues, of VIRTIO v1.1), with 16-bit ring indices
  that wrap around. A request is named by the buffer it is for; the caller holds the lock of that buffer.
*/
module Virtio {
  import opened Options

  const NUM := 8

  type Buffer = nat
  type Data = nat

  /** What a descriptor points to: a command header, the data of a buffer, or a status byte. */
  datatype Addr = Null | Command(i: nat) | DataOf(b: Buffer) | Status(i: nat)

  datatype Desc = Desc(addr: Addr, more: bool, next: nat)

  datatype Op = Op(write: bool, sector: nat)

  datatype Info = Info(b: Option<Buffer>, status: nat)

  /** Where a request stands: in the available ring, with the device, in the used ring, or handled. */
  datatype Stage = Queued | Taken | Used | Seen

  /** A request: its descriptors, what it asks for, where it stands, and what its buffer held at the start. */
  datatype Req = Req(d0: nat, d1: nat, d2: nat, op: Op, stage: Stage, given: Data)

  /** The driver's memory, what the device keeps for itself (`taken`, `inside`), the disk and the data of the
      buffers; then the requests in flight and the two rings' contents as queues. `availN`, `takenN`, `usedN`
      and `seenN` count without wrapping. */
  datatype State = State(
    desc: seq<Desc>, ops: seq<Op>, free: seq<bool>, info: seq<Info>,
    avail: seq<nat>, availIdx: nat, used: seq<nat>, usedIdx: nat, seenIdx: nat,
    takenIdx: nat, inside: set<nat>, disk: map<nat, Data>, data: map<Buffer, Data>, busy: map<Buffer, bool>,
    reqs: map<Buffer, Req>, availQ: seq<Buffer>, usedQ: seq<Buffer>,
    availN: nat, takenN: nat, usedN: nat, seenN: nat)

  function Inc(idx: nat): nat {
    (idx + 1) % 65536
  }

  /** The slot of a ring of NUM entries that an index selects. */
  function Slot(idx: nat): (k: nat)
    ensures k < NUM
  {
    idx % 8
  }

  function Read(disk: map<nat, Data>, sector: nat): Data {
    if sector in disk then disk[sector] else 0
  }

  // -------- descriptors --------

  /** alloc_desc(): the first free descriptor at `i` or later. */
  function FindFree(free: seq<bool>, i: nat): (r: Option<nat>)
    requires i <= |free|
    ensures r.Some? ==> i <= r.value < |free| && free[r.value]
    ensures r.None? ==> forall j :: i <= j < |free| ==> !free[j]
    decreases |free| - i
  {
    if i == |free| then None else if free[i] then Some(i) else FindFree(free, i + 1)
  }

  /** alloc3_desc(): three descriptors, or none at all. */
  function Alloc3(free: seq<bool>): (r: Option<(nat, nat, nat)>)
    ensures r.Some? ==> var (a, b, c) := r.value; a < |free| && b < |free| && c < |free| && free[a] && free[b] && free[c] && a < b < c
  {
    var a := FindFree(free, 0);
    if a.None? then None else
    var free1 := free[a.value := false];
    var b := FindFree(free1, 0);
    if b.None? then None else
    var c := FindFree(free1[b.value := false], 0);
    if c.None? then None else
    FirstIsFirst(free, 0);
    FirstIsFirst(free1, 0);
    Some((a.value, b.value, c.value))
  }

  lemma {:induction false} FirstIsFirst(free: seq<bool>, i: nat)
    requires i <= |free|
    ensures FindFree(free, i).Some? ==> forall j :: i <= j < FindFree(free, i).value ==> !free[j]
    decreases |free| - i
  {
    if i < |free| && !free[i] { FirstIsFirst(free, i + 1); }
  }

  // -------- steps --------

  datatype Action =
    | Modify(b: Buffer, d: Data)
    | Submit(b: Buffer, op: Op)
    | Take
    | Complete(head: nat)
    | Handle
    | Finish(b: Buffer)

  ghost predicate Shape(s: State) {
    && |s.desc| == |s.ops| == |s.free| == |s.info| == |s.avail| == |s.used| == NUM
    && s.data.Keys == s.busy.Keys
  }

  /** A buffer changes only between requests, and there is one buffer for a block, so no two requests in
      flight are for the same sector. */
  ghost predicate Enabled(s: State, a: Action)
    requires Shape(s)
  {
    match a
    case Modify(b, d) => b !in s.reqs && b in s.data
    case Submit(b, op) =>
      && b !in s.reqs && b in s.data && Alloc3(s.free).Some?
      && forall c :: c in s.reqs ==> s.reqs[c].op.sector != op.sector
    case Take => s.takenIdx != s.availIdx
    case Complete(head) => head in s.inside
    case Handle => s.seenIdx != s.usedIdx
    case Finish(b) => b in s.reqs && b in s.busy && !s.busy[b]
  }

  /** What the device does with a chain: follow the descriptors from the head. */
  function Transfer(s: State, head: nat): State
    requires head < |s.desc| == |s.ops| == |s.info|
  {
    var d0 := s.desc[head];
    if !d0.addr.Command? || d0.addr.i >= |s.ops| || d0.next >= |s.desc| then s else
    var op, d1 := s.ops[d0.addr.i], s.desc[d0.next];
    if !d1.addr.DataOf? || d1.addr.b !in s.data || d1.next >= |s.desc| then s else
    var b, d2 := d1.addr.b, s.desc[d1.next];
    if !d2.addr.Status? || d2.addr.i >= |s.info| then s else
    s.(disk := if op.write then s.disk[op.sector := s.data[b]] else s.disk,
       data := if op.write then s.data else s.data[b := Read(s.disk, op.sector)],
       info := s.info[d2.addr.i := s.info[d2.addr.i].(status := 0)])
  }

  /** free_chain(): the descriptors of a chain, as free_chain() meets them, become free. */
  function Chain(desc: seq<Desc>, i: nat, n: nat): seq<nat>
    decreases n
  {
    if n == 0 || i >= |desc| then [] else
    if desc[i].more then [i] + Chain(desc, desc[i].next, n - 1) else [i]
  }

  /** free_desc() */
  function Freed(s: State, d: nat): State
    requires d < |s.desc| == |s.free|
  {
    s.(desc := s.desc[d := Desc(Null, false, 0)], free := s.free[d := true])
  }

  function FreeAll(s: State, chain: seq<nat>): State
    decreases |chain|
  {
    if chain == [] || chain[0] >= |s.desc| || |s.free| != |s.desc| then s else FreeAll(Freed(s, chain[0]), chain[1..])
  }

  ghost function Next(s: State, a: Action): State
    requires Shape(s) && Enabled(s, a)
  {
    match a
    case Modify(b, d) => s.(data := s.data[b := d])
    case Submit(b, op) =>
      var (x, y, z) := Alloc3(s.free).value;
      s.(desc := s.desc[x := Desc(Command(x), true, y)][y := Desc(DataOf(b), true, z)][z := Desc(Status(x), false, 0)],
         ops := s.ops[x := op], free := s.free[x := false][y := false][z := false],
         info := s.info[x := Info(Some(b), 255)], busy := s.busy[b := true],
         avail := s.avail[Slot(s.availIdx) := x], availIdx := Inc(s.availIdx), availN := s.availN + 1,
         reqs := s.reqs[b := Req(x, y, z, op, Queued, s.data[b])], availQ := s.availQ + [b])
    case Take =>
      var head := s.avail[Slot(s.takenIdx)];
      s.(takenIdx := Inc(s.takenIdx), takenN := s.takenN + 1, inside := s.inside + {head},
         availQ := if s.availQ == [] then [] else s.availQ[1..],
         reqs := if s.availQ == [] || s.availQ[0] !in s.reqs then s.reqs
                 else s.reqs[s.availQ[0] := s.reqs[s.availQ[0]].(stage := Taken)])
    case Complete(head) =>
      var t := if head < NUM then Transfer(s, head) else s;
      var owner := if head < NUM then s.info[head].b else None;
      t.(inside := s.inside - {head}, used := s.used[Slot(s.usedIdx) := head], usedIdx := Inc(s.usedIdx), usedN := s.usedN + 1,
         usedQ := if owner.None? then s.usedQ else s.usedQ + [owner.value],
         reqs := if owner.None? || owner.value !in s.reqs then s.reqs
                 else s.reqs[owner.value := s.reqs[owner.value].(stage := Used)])
    case Handle =>
      var id := s.used[Slot(s.seenIdx)];
      var owner := if id < NUM then s.info[id].b else None;
      s.(seenIdx := Inc(s.seenIdx), seenN := s.seenN + 1, usedQ := if s.usedQ == [] then [] else s.usedQ[1..],
         busy := if owner.None? || owner.value !in s.busy then s.busy else s.busy[owner.value := false],
         reqs := if owner.None? || owner.value !in s.reqs then s.reqs
                 else s.reqs[owner.value := s.reqs[owner.value].(stage := Seen)])
    case Finish(b) =>
      var d0 := s.reqs[b].d0;
      var t := FreeAll(s, Chain(s.desc, d0, NUM));
      t.(info := if d0 < NUM then s.info[d0 := s.info[d0].(b := None)] else s.info, reqs := s.reqs - {b})
  }

  ghost predicate Init(s: State) {
    && Shape(s) && (forall d :: 0 <= d < NUM ==> s.free[d]) && s.inside == {} && s.reqs == map[]
    && s.availQ == [] && s.usedQ == []
    && s.availIdx == s.takenIdx == s.usedIdx == s.seenIdx == 0
    && s.availN == s.takenN == s.usedN == s.seenN == 0
    && (forall b :: b in s.busy ==> !s.busy[b])
  }

  ghost predicate IsRun(run: seq<State>, acts: seq<Action>) {
    && |run| == |acts| + 1 && Init(run[0])
    && forall i :: 0 <= i < |acts| ==> Shape(run[i]) && Enabled(run[i], acts[i]) && run[i + 1] == Next(run[i], acts[i])
  }

  // -------- what every step keeps --------

  predicate Mine(q: Req, d: nat) {
    d == q.d0 || d == q.d1 || d == q.d2
  }

  /** The chain of a request in flight, its record in `info`, and its buffer's flag. */
  ghost predicate ReqOk(s: State, b: Buffer)
    requires Shape(s) && b in s.reqs
  {
    var q := s.reqs[b];
    && q.d0 < q.d1 < q.d2 < NUM && !s.free[q.d0] && !s.free[q.d1] && !s.free[q.d2]
    && s.desc[q.d0] == Desc(Command(q.d0), true, q.d1) && s.ops[q.d0] == q.op
    && s.desc[q.d1] == Desc(DataOf(b), true, q.d2)
    && s.desc[q.d2] == Desc(Status(q.d0), false, 0)
    && s.info[q.d0].b == Some(b) && b in s.busy && s.busy[b] == (q.stage != Seen)
    && (s.info[q.d0].status == 0 <==> q.stage == Used || q.stage == Seen)
    && (q.d0 in s.inside <==> q.stage == Taken)
    && (q.stage == Queued <==> b in s.availQ)
    && (q.stage == Used <==> b in s.usedQ)
    && Delivered(s, b)
  }

  /** A write takes what its buffer held at the start; once completed, the disk holds it, and the buffer of a
      completed read holds what the disk does. */
  ghost predicate Delivered(s: State, b: Buffer)
    requires b in s.reqs
  {
    var q := s.reqs[b];
    && b in s.data && (q.op.write ==> s.data[b] == q.given)
    && (q.stage == Used || q.stage == Seen ==> s.data[b] == Read(s.disk, q.op.sector))
  }

  /** Different requests have no descriptor in common. */
  ghost predicate Apart(reqs: map<Buffer, Req>) {
    forall b, c, d :: b in reqs && c in reqs && b != c && Mine(reqs[b], d) ==> !Mine(reqs[c], d)
  }

  /** Requests in flight are for different sectors. */
  ghost predicate Sectors(reqs: map<Buffer, Req>) {
    forall b, c :: b in reqs && c in reqs && b != c ==> reqs[b].op.sector != reqs[c].op.sector
  }

  /** `free` marks exactly the descriptors that no request owns. */
  ghost predicate FreeOk(s: State)
    requires Shape(s)
  {
    forall d :: 0 <= d < NUM ==> (s.free[d] <==> forall b :: b in s.reqs ==> !Mine(s.reqs[b], d))
  }

  /** A ring holds the heads of the requests in its queue, in order; the indices are the counts modulo 2^16,
      and the queue is no longer than the ring. */
  ghost predicate RingOk(s: State, ring: seq<nat>, q: seq<Buffer>, from: nat, to: nat)
  {
    && |ring| == NUM && to == from + |q| && |q| <= NUM
    && (forall i :: 0 <= i < |q| ==> q[i] in s.reqs && ring[Slot(from + i)] == s.reqs[q[i]].d0)
    && (forall i, j :: 0 <= i < j < |q| ==> q[i] != q[j])
  }

  ghost predicate Inv(s: State) {
    && Shape(s) && Apart(s.reqs) && Sectors(s.reqs) && FreeOk(s)
    && (forall b {:trigger s.reqs[b]} :: b in s.reqs ==> ReqOk(s, b))
    && (forall h :: h in s.inside ==> exists b :: b in s.reqs && s.reqs[b].d0 == h)
    && s.availIdx == s.availN % 65536 && s.takenIdx == s.takenN % 65536
    && s.usedIdx == s.usedN % 65536 && s.seenIdx == s.seenN % 65536
    && RingOk(s, s.avail, s.availQ, s.takenN, s.availN) && RingOk(s, s.used, s.usedQ, s.seenN, s.usedN)
  }

  // -------- counting --------

  function UpTo(n: nat): (r: set<nat>)
    ensures |r| == n && forall x :: x in r <==> 0 <= x < n
  {
    if n == 0 then {} else UpTo(n - 1) + {n - 1}
  }

  function Elements(c: seq<nat>): (r: set<nat>)
    ensures forall x :: x in r <==> x in c
  {
    if c == [] then {} else Elements(c[..|c| - 1]) + {c[|c| - 1]}
  }

  lemma {:induction false} CountDistinct(c: seq<nat>)
    requires forall i, j :: 0 <= i < j < |c| ==> c[i] != c[j]
    ensures |Elements(c)| == |c|
  {
    if c != [] { CountDistinct(c[..|c| - 1]); }
  }

  /** There are no more than `n` different numbers below `n`. */
  lemma Pigeonhole(c: seq<nat>, n: nat)
    requires (forall i, j :: 0 <= i < j < |c| ==> c[i] != c[j]) && forall i :: 0 <= i < |c| ==> c[i] < n
    ensures |c| <= n
  {
    CountDistinct(c);
    assert Elements(c) <= UpTo(n);
    assert UpTo(n) == Elements(c) + (UpTo(n) - Elements(c));
  }

  function Heads(reqs: map<Buffer, Req>, q: seq<Buffer>): (r: seq<nat>)
    requires forall i :: 0 <= i < |q| ==> q[i] in reqs
    ensures |r| == |q| && forall i :: 0 <= i < |q| ==> r[i] == reqs[q[i]].d0
  {
    if q == [] then [] else Heads(reqs, q[..|q| - 1]) + [reqs[q[|q| - 1]].d0]
  }

  /** A queue has room for one more head that is not in it. */
  lemma RoomForOne(s: State, ring: seq<nat>, q: seq<Buffer>, from: nat, to: nat, x: nat)
    requires Inv(s) && RingOk(s, ring, q, from, to) && x < NUM
    requires forall i :: 0 <= i < |q| ==> s.reqs[q[i]].d0 != x
    ensures |q| < NUM
  {
    var h := Heads(s.reqs, q) + [x];
    forall i, j | 0 <= i < j < |h| ensures h[i] != h[j] {
      if j < |q| {
        assert Mine(s.reqs[q[i]], h[i]) && Mine(s.reqs[q[j]], h[j]);
      }
    }
    forall i | 0 <= i < |h| ensures h[i] < NUM {
      if i < |q| { assert ReqOk(s, q[i]); }
    }
    Pigeonhole(h, NUM);
  }

  // -------- each step --------

  /** Putting a head into a ring with room leaves the entries already there. */
  lemma RingAdd(s: State, s': State, ring: seq<nat>, q: seq<Buffer>, from: nat, to: nat, b: Buffer)
    requires RingOk(s, ring, q, from, to) && |q| < NUM && b !in q && b in s'.reqs
    requires forall i :: 0 <= i < |q| ==> q[i] in s'.reqs && s'.reqs[q[i]].d0 == s.reqs[q[i]].d0
    ensures RingOk(s', ring[Slot(to) := s'.reqs[b].d0], q + [b], from, to + 1)
  {
    var ring' := ring[Slot(to) := s'.reqs[b].d0];
    forall i | 0 <= i < |q| ensures ring'[Slot(from + i)] == s.reqs[q[i]].d0 {
      assert Slot(from + i) != Slot(to);
    }
  }

  lemma RingSame(s: State, s': State, ring: seq<nat>, q: seq<Buffer>, from: nat, to: nat)
    requires RingOk(s, ring, q, from, to)
    requires forall i :: 0 <= i < |q| ==> q[i] in s'.reqs && s'.reqs[q[i]].d0 == s.reqs[q[i]].d0
    ensures RingOk(s', ring, q, from, to)
  {
  }

  lemma RingTake(s: State, s': State, ring: seq<nat>, q: seq<Buffer>, from: nat, to: nat)
    requires RingOk(s, ring, q, from, to) && q != []
    requires forall i :: 0 <= i < |q| ==> q[i] in s'.reqs && s'.reqs[q[i]].d0 == s.reqs[q[i]].d0
    ensures RingOk(s', ring, q[1..], from + 1, to) && ring[Slot(from)] == s.reqs[q[0]].d0 && q[0] !in q[1..]
    ensures forall b :: b in q[1..] <==> b in q && b != q[0]
  {
    forall i | 0 <= i < |q[1..]| ensures ring[Slot(from + 1 + i)] == s'.reqs[q[1..][i]].d0 {
      assert q[1..][i] == q[i + 1] && ring[Slot(from + (i + 1))] == s.reqs[q[i + 1]].d0;
    }
  }

  /** The 16-bit index and the count select the same slot. */
  lemma SameSlot(n: nat)
    ensures Slot(n % 65536) == Slot(n) && Inc(n % 65536) == (n + 1) % 65536
  {
    var q, r := n / 65536, n % 65536;
    assert n == q * 65536 + r;
    assert n + 1 == q * 65536 + (r + 1);
  }

  /** A request keeps its chain when none of its descriptors and queue entries changes. */
  lemma OtherReq(s: State, s': State, c: Buffer)
    requires Shape(s) && Shape(s') && c in s.reqs && c in s'.reqs && s'.reqs[c] == s.reqs[c] && ReqOk(s, c)
    requires forall d: nat :: d < NUM && Mine(s.reqs[c], d) ==> s'.desc[d] == s.desc[d] && s'.free[d] == s.free[d]
    requires var d := s.reqs[c].d0; d < NUM ==> s'.ops[d] == s.ops[d] && s'.info[d] == s.info[d] && (d in s'.inside <==> d in s.inside)
    requires c in s'.busy && c in s.busy && s'.busy[c] == s.busy[c]
    requires (c in s'.availQ <==> c in s.availQ) && (c in s'.usedQ <==> c in s.usedQ)
    requires c in s.data ==> c in s'.data && s'.data[c] == s.data[c]
    requires Read(s'.disk, s.reqs[c].op.sector) == Read(s.disk, s.reqs[c].op.sector)
    ensures ReqOk(s', c)
  {
    var q := s.reqs[c];
    assert Mine(q, q.d0) && Mine(q, q.d1) && Mine(q, q.d2);
  }

  /** What the allocated descriptors of a new request are: in no other request. */
  lemma SubmitFresh(s: State, c: Buffer)
    requires Inv(s) && Alloc3(s.free).Some? && c in s.reqs
    ensures var (x, y, z) := Alloc3(s.free).value; !Mine(s.reqs[c], x) && !Mine(s.reqs[c], y) && !Mine(s.reqs[c], z)
  {
    hide ReqOk, RingOk, Alloc3;
  }

  lemma SubmitOwn(s: State, a: Action)
    requires Inv(s) && Enabled(s, a) && a.Submit?
    ensures ReqOk(Next(s, a), a.b)
  {
    hide Alloc3, RingOk, Apart, FreeOk;
    var (x, y, z) := Alloc3(s.free).value;
    forall c | c in s.reqs ensures s.reqs[c].d0 != x { SubmitFresh(s, c); }
    assert a.b !in s.usedQ by {
      if a.b in s.usedQ { QueuedIsIn(s, s.used, s.usedQ, s.seenN, s.usedN, a.b); }
    }
  }

  lemma QueuedIsIn(s: State, ring: seq<nat>, q: seq<Buffer>, from: nat, to: nat, b: Buffer)
    requires RingOk(s, ring, q, from, to) && b in q
    ensures b in s.reqs
  {
  }

  lemma SubmitFree(s: State, a: Action)
    requires Inv(s) && Enabled(s, a) && a.Submit?
    ensures FreeOk(Next(s, a)) && Apart(Next(s, a).reqs) && Sectors(Next(s, a).reqs)
    ensures forall h :: h in Next(s, a).inside ==> exists c :: c in Next(s, a).reqs && Next(s, a).reqs[c].d0 == h
  {
    hide ReqOk, RingOk, Alloc3;
    var s', b := Next(s, a), a.b;
    var (x, y, z) := Alloc3(s.free).value;
    forall c | c in s.reqs ensures !Mine(s.reqs[c], x) && !Mine(s.reqs[c], y) && !Mine(s.reqs[c], z) { SubmitFresh(s, c); }
    forall d | 0 <= d < NUM ensures s'.free[d] <==> forall c :: c in s'.reqs ==> !Mine(s'.reqs[c], d) {
      assert Mine(s'.reqs[b], d) <==> d == x || d == y || d == z;
      if s'.free[d] {
        forall c | c in s'.reqs ensures !Mine(s'.reqs[c], d) {}
      } else if !Mine(s'.reqs[b], d) {
        var c :| c in s.reqs && Mine(s.reqs[c], d);
        assert Mine(s'.reqs[c], d);
      }
    }
    forall h | h in s'.inside ensures exists c :: c in s'.reqs && s'.reqs[c].d0 == h {
      var c :| c in s.reqs && s.reqs[c].d0 == h;
      assert s'.reqs[c].d0 == h;
    }
  }

  lemma SubmitKeeps(s: State, a: Action)
    requires Inv(s) && Enabled(s, a) && a.Submit?
    ensures Inv(Next(s, a))
  {
    hide FindFree, RingOk, FreeOk, Apart, ReqOk;
    var s' := Next(s, a);
    SubmitRings(s, a);
    SubmitFree(s, a);
    SubmitOwn(s, a);
    forall c | c in s'.reqs ensures ReqOk(s', c) {
      if c != a.b {
        SubmitFresh(s, c);
        assert ReqOk(s, c);
        ReqBasics(s, c);
        OtherReq(s, s', c);
      }
    }
  }

  lemma ReqBasics(s: State, c: Buffer)
    requires Shape(s) && c in s.reqs && ReqOk(s, c)
    ensures s.reqs[c].d0 < s.reqs[c].d1 < s.reqs[c].d2 < NUM && c in s.busy && s.info[s.reqs[c].d0].b == Some(c)
    ensures Mine(s.reqs[c], s.reqs[c].d0) && Mine(s.reqs[c], s.reqs[c].d1) && Mine(s.reqs[c], s.reqs[c].d2)
  {
  }

  lemma SubmitRings(s: State, a: Action)
    requires Inv(s) && Enabled(s, a) && a.Submit?
    ensures var s' := Next(s, a);
            && RingOk(s', s'.avail, s'.availQ, s'.takenN, s'.availN) && RingOk(s', s'.used, s'.usedQ, s'.seenN, s'.usedN)
            && s'.availIdx == s'.availN % 65536
  {
    hide ReqOk;
    var s', b := Next(s, a), a.b;
    var x := Alloc3(s.free).value.0;
    forall i | 0 <= i < |s.availQ| ensures s.reqs[s.availQ[i]].d0 != x { assert Mine(s.reqs[s.availQ[i]], s.reqs[s.availQ[i]].d0); }
    RoomForOne(s, s.avail, s.availQ, s.takenN, s.availN, x);
    SameSlot(s.availN);
    RingAdd(s, s', s.avail, s.availQ, s.takenN, s.availN, b);
    RingSame(s, s', s.used, s.usedQ, s.seenN, s.usedN);
  }

  /** A step that changes the stage of one request, and nothing of the others' chains. */
  lemma StageKeeps(s: State, s': State, b: Buffer)
    requires Inv(s) && Shape(s') && b in s.reqs && s'.reqs.Keys == s.reqs.Keys && s'.free == s.free && s'.desc == s.desc && s'.ops == s.ops
    requires forall c :: c in s.reqs ==> s'.reqs[c] == s.reqs[c].(stage := s'.reqs[c].stage)
    requires forall c :: c in s.reqs && c != b ==> s'.reqs[c] == s.reqs[c]
    requires forall d :: 0 <= d < NUM && d != s.reqs[b].d0 ==> s'.info[d] == s.info[d] && (d in s'.inside <==> d in s.inside)
    requires forall c :: c in s.reqs && c != b && c in s.busy ==> c in s'.busy && s'.busy[c] == s.busy[c]
    requires forall c :: c in s.reqs && c != b ==> (c in s'.availQ <==> c in s.availQ) && (c in s'.usedQ <==> c in s.usedQ)
    requires forall h :: h in s'.inside ==> h in s.inside || h == s.reqs[b].d0
    requires forall c :: c in s.reqs && c != b && c in s.data ==> c in s'.data && s'.data[c] == s.data[c]
    requires forall x :: x != s.reqs[b].op.sector ==> Read(s'.disk, x) == Read(s.disk, x)
    requires ReqOk(s', b)
    requires s'.availIdx == s'.availN % 65536 && s'.takenIdx == s'.takenN % 65536
    requires s'.usedIdx == s'.usedN % 65536 && s'.seenIdx == s'.seenN % 65536
    requires RingOk(s', s'.avail, s'.availQ, s'.takenN, s'.availN) && RingOk(s', s'.used, s'.usedQ, s'.seenN, s'.usedN)
    ensures Inv(s')
  {
    hide RingOk, ReqOk;
    assert ReqOk(s, b);
    ReqBasics(s, b);
    forall c | c in s'.reqs ensures ReqOk(s', c) {
      if c != b {
        assert ReqOk(s, c);
        ReqBasics(s, c);
        assert s.reqs[c].d0 != s.reqs[b].d0;
        OtherReq(s, s', c);
      }
    }
    forall c, d | c in s.reqs ensures Mine(s'.reqs[c], d) <==> Mine(s.reqs[c], d) {}
    forall h | h in s'.inside ensures exists c :: c in s'.reqs && s'.reqs[c].d0 == h {
      if h == s.reqs[b].d0 {
        assert s'.reqs[b].d0 == h;
      } else {
        var c :| c in s.reqs && s.reqs[c].d0 == h;
        assert s'.reqs[c].d0 == h;
      }
    }
    forall d | 0 <= d < NUM ensures s'.free[d] <==> forall c :: c in s'.reqs ==> !Mine(s'.reqs[c], d) {
      if forall c :: c in s'.reqs ==> !Mine(s'.reqs[c], d) {
        forall c | c in s.reqs ensures !Mine(s.reqs[c], d) { assert !Mine(s'.reqs[c], d); }
      }
    }
  }

  lemma TakeRings(s: State, s': State)
    requires Shape(s) && s.takenIdx != s.availIdx && s' == Next(s, Take)
    requires Inv(s)
    ensures s.availQ != [] && s.availQ[0] in s.reqs && s.avail[Slot(s.takenIdx)] == s.reqs[s.availQ[0]].d0
    ensures RingOk(s', s'.avail, s'.availQ, s'.takenN, s'.availN) && RingOk(s', s'.used, s'.usedQ, s'.seenN, s'.usedN)
    ensures s'.takenIdx == s'.takenN % 65536 && forall b :: b in s'.availQ <==> b in s.availQ && b != s.availQ[0]
  {
    hide FreeOk, Apart, Sectors, ReqOk;
    assert s.availQ != [] by { assert s.takenN != s.availN; }
    SameSlot(s.takenN);
    RingTake(s, s', s.avail, s.availQ, s.takenN, s.availN);
    RingSame(s, s', s.used, s.usedQ, s.seenN, s.usedN);
  }

  lemma TakeKeeps(s: State, a: Action)
    requires Inv(s) && Enabled(s, a) && a.Take?
    ensures Inv(Next(s, a))
  {
    hide FreeOk, Apart, Sectors, RingOk, Slot, Inc;
    var s' := Next(s, a);
    TakeRings(s, s');
    var b := s.availQ[0];
    assert ReqOk(s, b);
    assert ReqOk(s', b);
    hide ReqOk;
    StageKeeps(s, s', b);
  }

  /** The handler finds in `info` the request whose entry it reads. */
  lemma HandleOwner(s: State) returns (b: Buffer)
    requires Inv(s) && s.seenIdx != s.usedIdx
    ensures Shape(s) && s.usedQ != [] && b == s.usedQ[0] && b in s.reqs && b in s.busy && s.reqs[b].stage == Used
    ensures s.used[Slot(s.seenIdx)] == s.reqs[b].d0 < NUM && s.info[s.reqs[b].d0] == Info(Some(b), 0)
  {
    hide FreeOk, Apart, Sectors;
    assert s.usedQ != [] by { assert s.seenN != s.usedN; }
    b := s.usedQ[0];
    assert ReqOk(s, b);
    SameSlot(s.seenN);
    RingTake(s, s, s.used, s.usedQ, s.seenN, s.usedN);
  }

  lemma HandleRings(s: State, s': State)
    requires Shape(s) && s.seenIdx != s.usedIdx && s.usedQ != [] && s.usedQ[0] in s.reqs
    requires s.used[Slot(s.seenIdx)] == s.reqs[s.usedQ[0]].d0 < NUM && s.info[s.reqs[s.usedQ[0]].d0].b == Some(s.usedQ[0])
    requires s' == Next(s, Handle)
    requires Inv(s)
    ensures RingOk(s', s'.avail, s'.availQ, s'.takenN, s'.availN) && RingOk(s', s'.used, s'.usedQ, s'.seenN, s'.usedN)
    ensures s'.seenIdx == s'.seenN % 65536 && forall b :: b in s'.usedQ <==> b in s.usedQ && b != s.usedQ[0]
  {
    hide FreeOk, Apart, Sectors, ReqOk;
    SameSlot(s.seenN);
    RingTake(s, s', s.used, s.usedQ, s.seenN, s.usedN);
    RingSame(s, s', s.avail, s.availQ, s.takenN, s.availN);
  }

  lemma HandleKeeps(s: State, a: Action)
    requires Inv(s) && Enabled(s, a) && a.Handle?
    ensures Inv(Next(s, a))
  {
    hide FreeOk, Apart, Sectors, RingOk, Slot, Inc;
    var s' := Next(s, a);
    var b := HandleOwner(s);
    HandleRings(s, s');
    assert ReqOk(s, b);
    assert ReqOk(s', b);
    hide ReqOk;
    StageKeeps(s, s', b);
  }

  /** The device moves the data of the request's own buffer and clears the request's own status. */
  ghost predicate TransferIs(s: State, head: nat, b: Buffer)
    requires head < |s.desc| == |s.ops| == |s.info| && b in s.reqs && b in s.data
  {
    var op := s.reqs[b].op;
    Transfer(s, head) ==
    s.(disk := if op.write then s.disk[op.sector := s.data[b]] else s.disk,
       data := if op.write then s.data else s.data[b := Read(s.disk, op.sector)],
       info := s.info[head := s.info[head].(status := 0)])
  }

  /** The device finds in the chain what the request put there. */
  lemma CompleteOwner(s: State, head: nat) returns (b: Buffer)
    requires Inv(s) && head in s.inside
    ensures b in s.reqs && s.reqs[b].d0 == head < NUM && s.info[head].b == Some(b) && s.reqs[b].stage == Taken && b in s.data
    ensures TransferIs(s, head, b)
  {
    hide RingOk, FreeOk, Apart, Sectors;
    b :| b in s.reqs && s.reqs[b].d0 == head;
    assert ReqOk(s, b);
  }

  lemma CompleteKeeps(s: State, a: Action)
    requires Inv(s) && Enabled(s, a) && a.Complete?
    ensures Inv(Next(s, a))
  {
    hide FreeOk, Apart, Sectors, Transfer, RingOk, ReqOk;
    var b := CompleteOwner(s, a.head);
    CompleteOwn(s, Next(s, a), a, b);
    StageKeeps(s, Next(s, a), b);
  }

  lemma CompleteOwn(s: State, s': State, a: Action, b: Buffer)
    requires Shape(s) && Enabled(s, a) && a.Complete? && b in s.reqs && s.reqs[b].d0 == a.head < NUM && s.reqs[b].stage == Taken
    requires s.info[a.head].b == Some(b) && b in s.data && TransferIs(s, a.head, b)
    requires s' == Next(s, a) && Shape(s') && b in s'.reqs
    requires Inv(s)
    ensures ReqOk(s', b) && s'.usedIdx == s'.usedN % 65536
    ensures RingOk(s', s'.avail, s'.availQ, s'.takenN, s'.availN) && RingOk(s', s'.used, s'.usedQ, s'.seenN, s'.usedN)
  {
    hide FreeOk, Apart, Sectors, Transfer, RingOk;
    assert ReqOk(s, b) && b !in s.usedQ;
    CompleteRings(s, a, b);
  }

  lemma CompleteRings(s: State, a: Action, b: Buffer)
    requires Shape(s) && Enabled(s, a) && a.Complete? && b in s.reqs && s.reqs[b].d0 == a.head < NUM && s.info[a.head].b == Some(b) && b !in s.usedQ
    requires Transfer(s, a.head).reqs == s.reqs && Transfer(s, a.head).availQ == s.availQ && Transfer(s, a.head).avail == s.avail
    requires Transfer(s, a.head).takenN == s.takenN && Transfer(s, a.head).availN == s.availN && Transfer(s, a.head).seenN == s.seenN
    requires Inv(s)
    ensures var s' := Next(s, a);
            && RingOk(s', s'.avail, s'.availQ, s'.takenN, s'.availN) && RingOk(s', s'.used, s'.usedQ, s'.seenN, s'.usedN)
            && s'.usedIdx == s'.usedN % 65536
  {
    hide ReqOk, FreeOk, Transfer, Sectors;
    var s' := Next(s, a);
    forall i | 0 <= i < |s.usedQ| ensures s.reqs[s.usedQ[i]].d0 != a.head {
      assert Mine(s.reqs[s.usedQ[i]], s.reqs[s.usedQ[i]].d0) && Mine(s.reqs[b], a.head);
    }
    RoomForOne(s, s.used, s.usedQ, s.seenN, s.usedN, a.head);
    SameSlot(s.usedN);
    RingAdd(s, s', s.used, s.usedQ, s.seenN, s.usedN, b);
    RingSame(s, s', s.avail, s.availQ, s.takenN, s.availN);
  }

  lemma ModifyKeeps(s: State, a: Action)
    requires Inv(s) && Enabled(s, a) && a.Modify?
    ensures Inv(Next(s, a))
  {
    hide FreeOk, Apart, Sectors, ReqOk;
    var s' := Next(s, a);
    forall c | c in s'.reqs ensures ReqOk(s', c) {
      assert ReqOk(s, c);
      ReqBasics(s, c);
      OtherReq(s, s', c);
    }
    FreeSame(s, s');
    RingSame(s, s', s.avail, s.availQ, s.takenN, s.availN);
    RingSame(s, s', s.used, s.usedQ, s.seenN, s.usedN);
  }

  lemma FreeSame(s: State, s': State)
    requires Shape(s) && Shape(s') && FreeOk(s) && s'.free == s.free && s'.reqs == s.reqs
    ensures FreeOk(s')
  {
  }

  // -------- the end of a request --------

  /** free_chain() walks exactly the three descriptors of the request. */
  lemma ChainIs(s: State, b: Buffer)
    requires Shape(s) && b in s.reqs && ReqOk(s, b)
    ensures Chain(s.desc, s.reqs[b].d0, NUM) == [s.reqs[b].d0, s.reqs[b].d1, s.reqs[b].d2]
  {
    hide Delivered;
    var q := s.reqs[b];
    assert Chain(s.desc, q.d2, 6) == [q.d2];
    assert Chain(s.desc, q.d1, 7) == [q.d1] + Chain(s.desc, q.d2, 6);
    assert Chain(s.desc, q.d0, 8) == [q.d0] + Chain(s.desc, q.d1, 7);
  }

  lemma FreeFirst(s: State, d: nat, rest: seq<nat>)
    requires d < |s.desc| == |s.free|
    ensures FreeAll(s, [d] + rest) == FreeAll(Freed(s, d), rest)
    ensures |Freed(s, d).desc| == |Freed(s, d).free| == |s.desc|
  {
    assert ([d] + rest)[1..] == rest;
  }

  lemma FreeThree(s: State, x: nat, y: nat, z: nat)
    requires x < |s.desc| == |s.free| && y < |s.desc| && z < |s.desc|
    ensures |Freed(s, x).desc| == |Freed(s, x).free| == |s.desc|
    ensures |Freed(Freed(s, x), y).desc| == |Freed(Freed(s, x), y).free| == |s.desc|
    ensures FreeAll(s, [x, y, z]) == Freed(Freed(Freed(s, x), y), z)
  {
    FreeFirst(s, x, [y, z]);
    FreeFirst(Freed(s, x), y, [z]);
    FreeFirst(Freed(Freed(s, x), y), z, []);
    hide Freed;
    assert [x] + [y, z] == [x, y, z] && [y] + [z] == [y, z] && [z] + [] == [z];
  }

  /** What Finish does, written out. */
  lemma FinishIs(s: State, b: Buffer)
    requires Inv(s) && Enabled(s, Finish(b))
    ensures s.reqs[b].stage == Seen && var q := s.reqs[b];
            && q.d0 < q.d1 < q.d2 < NUM && !s.free[q.d0] && !s.free[q.d1] && !s.free[q.d2]
            && b !in s.availQ && b !in s.usedQ && q.d0 !in s.inside
            && Next(s, Finish(b)) == Freed(Freed(Freed(s, q.d0), q.d1), q.d2).(
                 info := s.info[q.d0 := s.info[q.d0].(b := None)], reqs := s.reqs - {b})
  {
    hide FreeOk, Apart, Sectors, RingOk, Chain, FreeAll;
    assert ReqOk(s, b);
    ChainIs(s, b);
    FreeThree(s, s.reqs[b].d0, s.reqs[b].d1, s.reqs[b].d2);
  }

  lemma FinishFree(s: State, b: Buffer)
    requires Inv(s) && Enabled(s, Finish(b))
    ensures Shape(Next(s, Finish(b))) && FreeOk(Next(s, Finish(b)))
  {
    hide ReqOk, RingOk, Chain, FreeAll, Sectors;
    FinishIs(s, b);
    var s', q := Next(s, Finish(b)), s.reqs[b];
    forall d | 0 <= d < NUM ensures s'.free[d] <==> forall c :: c in s'.reqs ==> !Mine(s'.reqs[c], d) {
      if Mine(q, d) {
        forall c | c in s'.reqs ensures !Mine(s'.reqs[c], d) {}
      } else if s.free[d] {
        forall c | c in s'.reqs ensures !Mine(s'.reqs[c], d) {}
      } else {
        var c :| c in s.reqs && Mine(s.reqs[c], d);
        assert c in s'.reqs && Mine(s'.reqs[c], d);
      }
    }
  }

  lemma FinishKeeps(s: State, a: Action)
    requires Inv(s) && Enabled(s, a) && a.Finish?
    ensures Inv(Next(s, a))
  {
    hide RingOk, Chain, FreeAll, FreeOk, ReqOk, Next;
    var s', b := Next(s, a), a.b;
    FinishIs(s, b);
    FinishFree(s, b);
    forall c | c in s'.reqs ensures ReqOk(s', c) {
      assert ReqOk(s, c);
      ReqBasics(s, c);
      assert !Mine(s.reqs[b], s.reqs[c].d0) && !Mine(s.reqs[b], s.reqs[c].d1) && !Mine(s.reqs[b], s.reqs[c].d2);
      OtherReq(s, s', c);
    }
    FinishRing(s, s', s.avail, s.availQ, s.takenN, s.availN, b);
    FinishRing(s, s', s.used, s.usedQ, s.seenN, s.usedN, b);
    forall h | h in s'.inside ensures exists c :: c in s'.reqs && s'.reqs[c].d0 == h {
      var c :| c in s.reqs && s.reqs[c].d0 == h;
      assert c in s'.reqs && s'.reqs[c].d0 == h;
    }
  }

  lemma FinishRing(s: State, s': State, ring: seq<nat>, q: seq<Buffer>, from: nat, to: nat, b: Buffer)
    requires RingOk(s, ring, q, from, to) && b !in q && s'.reqs == s.reqs - {b}
    ensures RingOk(s', ring, q, from, to)
  {
  }

  // -------- every run --------

  lemma ActionKeeps(s: State, a: Action)
    requires Inv(s) && Enabled(s, a)
    ensures Inv(Next(s, a))
  {
    hide Inv, Enabled, Next;
    match a
    case Modify(_, _) => ModifyKeeps(s, a);
    case Submit(_, _) => SubmitKeeps(s, a);
    case Take => TakeKeeps(s, a);
    case Complete(_) => CompleteKeeps(s, a);
    case Handle => HandleKeeps(s, a);
    case Finish(_) => FinishKeeps(s, a);
  }

  lemma InitHolds(s: State)
    requires Init(s)
    ensures Inv(s)
  {
  }

  lemma {:induction false} RunInv(run: seq<State>, acts: seq<Action>, i: nat)
    requires IsRun(run, acts) && i < |run|
    ensures Inv(run[i])
  {
    hide Inv, Next, Enabled;
    if i == 0 {
      InitHolds(run[0]);
    } else {
      RunInv(run, acts, i - 1);
      ActionKeeps(run[i - 1], acts[i - 1]);
    }
  }

  /** Requests in flight own three descriptors each, none in common; `free` marks exactly the rest; and each
      chain runs through its own three descriptors. */
  lemma ChainsDisjoint(run: seq<State>, acts: seq<Action>, i: nat, b: Buffer, c: Buffer, d: nat)
    requires IsRun(run, acts) && i < |run| && Shape(run[i]) && d < NUM && b in run[i].reqs && c in run[i].reqs
    ensures var q := run[i].reqs[b]; q.d0 < q.d1 < q.d2 < NUM && Chain(run[i].desc, q.d0, NUM) == [q.d0, q.d1, q.d2]
    ensures b != c && Mine(run[i].reqs[b], d) ==> !Mine(run[i].reqs[c], d)
    ensures run[i].free[d] <==> forall x :: x in run[i].reqs ==> !Mine(run[i].reqs[x], d)
  {
    RunInv(run, acts, i);
    hide RingOk, ReqOk, Chain;
    assert ReqOk(run[i], b);
    ReqBasics(run[i], b);
    ChainIs(run[i], b);
  }

  /** free_desc() never finds its descriptor already free. */
  lemma FreesOnlyInUse(run: seq<State>, acts: seq<Action>, i: nat)
    requires IsRun(run, acts) && i < |acts| && acts[i].Finish? && Shape(run[i])
    ensures var q := run[i].reqs[acts[i].b];
            && Chain(run[i].desc, q.d0, NUM) == [q.d0, q.d1, q.d2] && q.d0 < q.d1 < q.d2 < NUM
            && !run[i].free[q.d0] && !run[i].free[q.d1] && !run[i].free[q.d2]
  {
    hide Inv, Next, Chain, FreeAll;
    RunInv(run, acts, i);
    FinishIs(run[i], acts[i].b);
    FinishChain(run[i], acts[i].b);
  }

  lemma FinishChain(s: State, b: Buffer)
    requires Inv(s) && b in s.reqs
    ensures Chain(s.desc, s.reqs[b].d0, NUM) == [s.reqs[b].d0, s.reqs[b].d1, s.reqs[b].d2]
  {
    hide ReqOk, Chain;
    assert ReqOk(s, b);
    ChainIs(s, b);
  }

  /** Adding an entry to either ring never overwrites one that has not been processed, and an index comparison
      finds an unprocessed entry whenever there is one, across the wrap-around of the 16-bit indices. */
  lemma NothingOverwritten(run: seq<State>, acts: seq<Action>, i: nat, k: nat)
    requires IsRun(run, acts) && i < |acts| && Shape(run[i]) && Shape(run[i + 1])
    ensures run[i].takenN <= k < run[i].availN ==> run[i + 1].avail[Slot(k)] == run[i].avail[Slot(k)]
    ensures run[i].seenN <= k < run[i].usedN ==> run[i + 1].used[Slot(k)] == run[i].used[Slot(k)]
    ensures run[i].takenIdx != run[i].availIdx <==> run[i].takenN < run[i].availN
    ensures run[i].seenIdx != run[i].usedIdx <==> run[i].seenN < run[i].usedN
  {
    RunInv(run, acts, i);
    RunInv(run, acts, i + 1);
    IndexDiffers(run[i].takenN, run[i].availN);
    IndexDiffers(run[i].seenN, run[i].usedN);
    hide ReqOk, FreeOk, Apart, Sectors, Next;
    RingKept(run[i], acts[i], k);
  }

  lemma IndexDiffers(m: nat, n: nat)
    requires m <= n <= m + NUM
    ensures m % 65536 != n % 65536 <==> m < n
  {
  }

  lemma RingKept(s: State, a: Action, k: nat)
    requires Inv(s) && Enabled(s, a) && Inv(Next(s, a))
    ensures s.takenN <= k < s.availN ==> Next(s, a).avail[Slot(k)] == s.avail[Slot(k)]
    ensures s.seenN <= k < s.usedN ==> Next(s, a).used[Slot(k)] == s.used[Slot(k)]
  {
    hide ReqOk, FreeOk, Apart, Sectors, Chain, Alloc3, FindFree;
    SameSlot(s.availN);
    SameSlot(s.usedN);
    if a.Finish? { FinishIs(s, a.b); }
    if a.Complete? { var b := CompleteOwner(s, a.head); }
    hide Transfer, FreeAll;
    hide Slot;
    if a.Submit? && s.takenN <= k < s.availN { SlotsApart(s.takenN, k, s.availN); }
    if a.Complete? && s.seenN <= k < s.usedN { SlotsApart(s.seenN, k, s.usedN); }
  }

  lemma SlotsApart(from: nat, k: nat, to: nat)
    requires from <= k < to && to + 1 - from <= NUM
    ensures Slot(k) != Slot(to)
  {
  }

  /** virtio_disk_intr() finds a zero status and the buffer of a request that the device has completed and the
      handler has not seen, in the entry that holds the head of that request's own chain; the data is by then
      where the request wants it. */
  lemma HandlerFindsOwner(run: seq<State>, acts: seq<Action>, i: nat)
    requires IsRun(run, acts) && i < |acts| && acts[i].Handle? && Shape(run[i])
    ensures var s := run[i]; var id := s.used[Slot(s.seenIdx)];
            && id < NUM && s.info[id].status == 0 && s.info[id].b.Some?
            && var b := s.info[id].b.value;
               && b in s.reqs && s.reqs[b].d0 == id && s.reqs[b].stage == Used && b in s.data
               && (s.reqs[b].op.write ==> Read(s.disk, s.reqs[b].op.sector) == s.reqs[b].given)
               && (!s.reqs[b].op.write ==> s.data[b] == Read(s.disk, s.reqs[b].op.sector))
  {
    RunInv(run, acts, i);
    var b := HandleOwner(run[i]);
    assert ReqOk(run[i], b);
  }

  // -------- exactly one completion --------

  /** How often buffer `b` has been submitted, handled and finished in the first `n` steps. A step of the handler
      is for the buffer in the record that its ring entry names. */
  function Submitted(acts: seq<Action>, n: nat, b: Buffer): nat
    requires n <= |acts|
  {
    if n == 0 then 0 else Submitted(acts, n - 1, b) + if acts[n - 1].Submit? && acts[n - 1].b == b then 1 else 0
  }

  predicate HandlesFor(s: State, b: Buffer) {
    Slot(s.seenIdx) < |s.used| && s.used[Slot(s.seenIdx)] < |s.info| && s.info[s.used[Slot(s.seenIdx)]].b == Some(b)
  }

  function Handled(run: seq<State>, acts: seq<Action>, n: nat, b: Buffer): nat
    requires n <= |acts| < |run|
  {
    if n == 0 then 0 else Handled(run, acts, n - 1, b) + if acts[n - 1].Handle? && HandlesFor(run[n - 1], b) then 1 else 0
  }

  function Finished(acts: seq<Action>, n: nat, b: Buffer): nat
    requires n <= |acts|
  {
    if n == 0 then 0 else Finished(acts, n - 1, b) + if acts[n - 1].Finish? && acts[n - 1].b == b then 1 else 0
  }

  function Unhandled(s: State, b: Buffer): nat {
    if b in s.reqs && s.reqs[b].stage != Seen then 1 else 0
  }

  function InFlight(s: State, b: Buffer): nat {
    if b in s.reqs then 1 else 0
  }

  lemma CountStep(s: State, a: Action, b: Buffer)
    requires Inv(s) && Enabled(s, a)
    ensures var s' := Next(s, a);
            && Unhandled(s', b) == Unhandled(s, b) + (if a.Submit? && a.b == b then 1 else 0) - (if a.Handle? && HandlesFor(s, b) then 1 else 0)
            && InFlight(s', b) == InFlight(s, b) + (if a.Submit? && a.b == b then 1 else 0) - (if a.Finish? && a.b == b then 1 else 0)
  {
    hide FreeOk, Apart, Sectors, RingOk, Chain, Alloc3, FindFree, ReqOk;
    match a
    case Modify(_, _) =>
    case Submit(_, _) =>
    case Take =>
      TakeStage(s);
    case Complete(head) =>
      var c := CompleteOwner(s, head);
      hide Transfer;
    case Handle =>
      var c := HandleOwner(s);
    case Finish(c) =>
      FinishIs(s, c);
  }

  lemma TakeStage(s: State)
    requires Inv(s) && s.takenIdx != s.availIdx
    ensures s.availQ != [] && s.availQ[0] in s.reqs && s.reqs[s.availQ[0]].stage == Queued
  {
    hide FreeOk, Apart, Sectors;
    assert s.availQ != [] by { assert s.takenN != s.availN; }
    assert ReqOk(s, s.availQ[0]);
  }

  /** Each submission is completed by exactly one step of the handler before it is finished: at any time a buffer
      has been handled once for every submission, but for a submission still under way. */
  lemma {:induction false} CompletedOnce(run: seq<State>, acts: seq<Action>, n: nat, b: Buffer)
    requires IsRun(run, acts) && n <= |acts|
    ensures Submitted(acts, n, b) == Handled(run, acts, n, b) + Unhandled(run[n], b)
    ensures Submitted(acts, n, b) == Finished(acts, n, b) + InFlight(run[n], b)
    ensures Finished(acts, n, b) <= Handled(run, acts, n, b) <= Submitted(acts, n, b) <= Finished(acts, n, b) + 1
  {
    hide Inv, Next, Enabled, HandlesFor;
    if n > 0 {
      CompletedOnce(run, acts, n - 1, b);
      RunInv(run, acts, n - 1);
      CountStep(run[n - 1], acts[n - 1], b);
    }
  }

  // -------- what a request has done when it is finished --------

  /** A request keeps what it asks for until it is finished. */
  lemma OpStep(s: State, a: Action, b: Buffer)
    requires Inv(s) && Enabled(s, a) && b in s.reqs && a != Finish(b)
    ensures b in Next(s, a).reqs
    ensures Next(s, a).reqs[b].op == s.reqs[b].op && Next(s, a).reqs[b].given == s.reqs[b].given
  {
    hide FreeOk, Apart, Sectors, RingOk, Chain, Alloc3, FindFree, ReqOk, FreeAll, Transfer;
    if a.Finish? {
      FinishIs(s, a.b);
    } else if a.Complete? {
      var c := CompleteOwner(s, a.head);
    }
  }

  lemma {:induction false} OpKept(run: seq<State>, acts: seq<Action>, i: nat, k: nat, b: Buffer, op: Op)
    requires IsRun(run, acts) && i < k <= |acts| && acts[i] == Submit(b, op) && b in run[i].data
    requires forall h :: i < h < k ==> acts[h] != Finish(b)
    ensures b in run[k].reqs && run[k].reqs[b].op == op && run[k].reqs[b].given == run[i].data[b]
    decreases k
  {
    hide Inv, Next, Enabled;
    if k == i + 1 {
      SubmitStarts(run[i], b, op);
    } else {
      OpKept(run, acts, i, k - 1, b, op);
      RunInv(run, acts, k - 1);
      OpStep(run[k - 1], acts[k - 1], b);
    }
  }

  lemma SubmitStarts(s: State, b: Buffer, op: Op)
    requires Shape(s) && Enabled(s, Submit(b, op))
    ensures var s' := Next(s, Submit(b, op)); b in s.data && b in s'.reqs && s'.reqs[b].op == op && s'.reqs[b].given == s.data[b]
  {
    hide Alloc3;
  }

  /** A request that is finished has been served: for a write the disk holds what the buffer held when it was
      submitted, for a read the buffer holds what the disk does. */
  lemma RequestServed(run: seq<State>, acts: seq<Action>, i: nat, j: nat, b: Buffer, op: Op)
    requires IsRun(run, acts) && i < j < |acts| && acts[i] == Submit(b, op) && acts[j] == Finish(b)
    requires forall h :: i < h < j ==> acts[h] != Finish(b)
    ensures b in run[i].data && b in run[j].data && run[j].data[b] == Read(run[j].disk, op.sector)
    ensures op.write ==> run[j].data[b] == run[i].data[b]
  {
    hide Next, FreeOk, Apart, Sectors, RingOk;
    SubmitStarts(run[i], b, op);
    OpKept(run, acts, i, j, b, op);
    RunInv(run, acts, j);
    FinishIs(run[j], b);
    assert ReqOk(run[j], b);
  }

  /** The data of the last finished write to a sector, or what the disk held to begin with. */
  ghost function LastPut(run: seq<State>, acts: seq<Action>, n: nat, sector: nat): Data
    requires |run| == |acts| + 1 && n <= |acts|
  {
    if n == 0 then Read(run[0].disk, sector)
    else LastPutStep(run[n - 1], acts[n - 1], sector, LastPut(run, acts, n - 1, sector))
  }

  ghost function LastPutStep(s: State, a: Action, sector: nat, v: Data): Data {
    if a.Finish? && a.b in s.reqs && s.reqs[a.b].op == Op(true, sector) then s.reqs[a.b].given else v
  }

  /** A write to the sector that the device has completed and the driver has not finished. */
  predicate Landed(q: Req, sector: nat) {
    q.op == Op(true, sector) && (q.stage == Used || q.stage == Seen)
  }

  ghost predicate Settled(s: State, sector: nat, v: Data) {
    (forall b :: b in s.reqs ==> !Landed(s.reqs[b], sector)) ==> Read(s.disk, sector) == v
  }

  /** Only the device changes the disk, at the sector of the write it completes. */
  lemma DiskStep(s: State, a: Action, sector: nat, v: Data)
    requires Inv(s) && Enabled(s, a) && Settled(s, sector, v)
    ensures Settled(Next(s, a), sector, LastPutStep(s, a, sector, v))
  {
    hide FreeOk, Apart, Sectors, RingOk, Chain, Alloc3, FindFree, ReqOk, FreeAll, Transfer, Settled;
    match a
    case Modify(_, _) =>
      ModifyLands(s, a, sector, v);
    case Submit(b, op) =>
      SubmitLands(s, a, sector, v);
    case Take =>
      TakeStage(s);
      StageLands(s, Next(s, a), s.availQ[0], sector, v);
    case Complete(head) =>
      var c := CompleteOwner(s, head);
      CompleteLands(s, Next(s, a), c, sector, v);
    case Handle =>
      var c := HandleOwner(s);
      StageLands(s, Next(s, a), c, sector, v);
    case Finish(b) =>
      FinishIs(s, b);
      FinishLands(s, Next(s, a), b, sector, v);
  }

  lemma ModifyLands(s: State, a: Action, sector: nat, v: Data)
    requires Shape(s) && Enabled(s, a) && a.Modify? && Settled(s, sector, v)
    ensures Settled(Next(s, a), sector, v)
  {
  }

  lemma SubmitLands(s: State, a: Action, sector: nat, v: Data)
    requires Shape(s) && Enabled(s, a) && a.Submit? && Settled(s, sector, v)
    ensures Settled(Next(s, a), sector, v)
  {
    hide Alloc3;
    var s' := Next(s, a);
    if forall b :: b in s'.reqs ==> !Landed(s'.reqs[b], sector) {
      forall b | b in s.reqs ensures !Landed(s.reqs[b], sector) {
        assert s'.reqs[b] == s.reqs[b];
      }
    }
  }

  lemma StageLands(s: State, s': State, c: Buffer, sector: nat, v: Data)
    requires Settled(s, sector, v) && c in s.reqs && c in s'.reqs && s'.disk == s.disk
    requires s'.reqs == s.reqs[c := s'.reqs[c]]
    requires Landed(s.reqs[c], sector) ==> Landed(s'.reqs[c], sector)
    ensures Settled(s', sector, v)
  {
    if forall b :: b in s'.reqs ==> !Landed(s'.reqs[b], sector) {
      forall b | b in s.reqs ensures !Landed(s.reqs[b], sector) {
        assert !Landed(s'.reqs[b], sector);
      }
    }
  }

  lemma CompleteLands(s: State, s': State, c: Buffer, sector: nat, v: Data)
    requires Settled(s, sector, v) && c in s.reqs && c in s'.reqs && c in s.data
    requires s'.reqs == s.reqs[c := s.reqs[c].(stage := Used)]
    requires s'.disk == if s.reqs[c].op.write then s.disk[s.reqs[c].op.sector := s.data[c]] else s.disk
    ensures Settled(s', sector, v)
  {
    if forall b :: b in s'.reqs ==> !Landed(s'.reqs[b], sector) {
      assert !Landed(s'.reqs[c], sector);
      forall b | b in s.reqs ensures !Landed(s.reqs[b], sector) {
        assert !Landed(s'.reqs[b], sector);
      }
    }
  }

  lemma FinishLands(s: State, s': State, b: Buffer, sector: nat, v: Data)
    requires Inv(s) && Settled(s, sector, v) && b in s.reqs && s.reqs[b].stage == Seen
    requires s'.reqs == s.reqs - {b} && s'.disk == s.disk
    ensures Settled(s', sector, if s.reqs[b].op == Op(true, sector) then s.reqs[b].given else v)
  {
    hide FreeOk, Apart, Sectors, RingOk;
    assert ReqOk(s, b);
    hide ReqOk, Inv;
    if s.reqs[b].op != Op(true, sector) && forall c :: c in s'.reqs ==> !Landed(s'.reqs[c], sector) {
      forall c | c in s.reqs ensures !Landed(s.reqs[c], sector) {
        assert c != b ==> !Landed(s'.reqs[c], sector);
      }
    }
  }

  /** The disk holds of every sector what its last finished write put there, unless a completed write to it is not
      finished yet. */
  lemma {:induction false} DiskIsLastFinished(run: seq<State>, acts: seq<Action>, n: nat, sector: nat)
    requires IsRun(run, acts) && n <= |acts|
    ensures (forall b :: b in run[n].reqs ==> !Landed(run[n].reqs[b], sector)) ==>
              Read(run[n].disk, sector) == LastPut(run, acts, n, sector)
  {
    hide Inv, Next, Enabled, Landed, LastPutStep;
    if n > 0 {
      DiskIsLastFinished(run, acts, n - 1, sector);
      RunInv(run, acts, n - 1);
      DiskStep(run[n - 1], acts[n - 1], sector, LastPut(run, acts, n - 1, sector));
    }
  }

  // -------- the code --------

  class Driver {
    var desc: seq<Desc>
    var ops: seq<Op>
    var free: seq<bool>
    var info: seq<Info>
    var avail: seq<nat>
    var availIdx: nat
    var used: seq<nat>
    var usedIdx: nat
    var seenIdx: nat
    /** b->disk of every buffer. */
    var busy: map<Buffer, bool>
    /** What the driver does not read: the device, the data, and the counts. */
    ghost var rest: State

    ghost function S(): State
      reads this
    {
      rest.(desc := desc, ops := ops, free := free, info := info, avail := avail, availIdx := availIdx,
            used := used, usedIdx := usedIdx, seenIdx := seenIdx, busy := busy)
    }

    method AllocDesc() returns (i: int)
      requires |free| == NUM
      modifies this`free
      ensures i < 0 ==> FindFree(old(free), 0).None? && free == old(free)
      ensures i >= 0 ==> FindFree(old(free), 0) == Some(i) && i < NUM && free == old(free)[i := false]
    {
      i := 0;
      while i < NUM
        invariant 0 <= i <= NUM && free == old(free) && FindFree(free, 0) == FindFree(free, i)
      {
        if free[i] {
          free := free[i := false];
          return;
        }
        i := i + 1;
      }
      return -1;
    }

    /** free_desc() panics on a descriptor that is out of range or already free. */
    method FreeDesc(i: nat)
      requires |free| == |desc| == NUM && i < NUM && !free[i]
      modifies this`free, this`desc
      ensures free == old(free)[i := true] && desc == old(desc)[i := Desc(Null, false, 0)]
    {
      desc := desc[i := Desc(Null, false, 0)];
      free := free[i := true];
    }

    /** alloc3_desc(): all three or none; descriptors taken before one was missing are given back. */
    method Alloc3Desc() returns (ok: bool, x: nat, y: nat, z: nat)
      requires |free| == |desc| == NUM
      modifies this`free, this`desc
      ensures |free| == |desc| == NUM && ok == Alloc3(old(free)).Some?
      ensures ok ==> Alloc3(old(free)) == Some((x, y, z)) && free == old(free)[x := false][y := false][z := false] && desc == old(desc)
      ensures !ok ==> free == old(free) && forall d :: 0 <= d < NUM && !free[d] ==> desc[d] == old(desc)[d]
    {
      var idx: seq<nat> := [];
      ok, x, y, z := false, 0, 0, 0;
      ghost var free0 := free;
      for i := 0 to 3
        invariant |idx| == i && |free| == NUM && desc == old(desc)
        invariant i == 0 ==> free == free0
        invariant i >= 1 ==> idx[0] < NUM && FindFree(free0, 0) == Some(idx[0])
        invariant i == 1 ==> free == free0[idx[0] := false]
        invariant i >= 2 ==> idx[1] < NUM && FindFree(free0[idx[0] := false], 0) == Some(idx[1])
        invariant i == 2 ==> free == free0[idx[0] := false][idx[1] := false]
        invariant i == 3 ==> idx[2] < NUM && FindFree(free0[idx[0] := false][idx[1] := false], 0) == Some(idx[2])
        invariant i == 3 ==> free == free0[idx[0] := false][idx[1] := false][idx[2] := false]
      {
        var d := AllocDesc();
        if d < 0 {
          if i > 0 {
            FreeDesc(idx[0]);
          }
          if i > 1 {
            FreeDesc(idx[1]);
          }
          return;
        }
        idx := idx + [d];
      }
      return true, idx[0], idx[1], idx[2];
    }

    /** The part of virtio_disk_rw() from the three descriptors on to the notification of the device. */
    method Start(b: Buffer, op: Op, x: nat, y: nat, z: nat, ghost s: State)
      requires Shape(s) && Enabled(s, Submit(b, op)) && Alloc3(s.free) == Some((x, y, z)) && Inv(s)
      requires S() == s.(free := s.free[x := false][y := false][z := false])
      modifies this
      ensures S() == Next(s, Submit(b, op)) && Inv(S())
    {
      hide Inv, Alloc3, Next, Enabled;
      SubmitKeeps(s, Submit(b, op));
      SubmitIs(s, b, op, x, y, z);
      ops := ops[x := op];
      desc := desc[x := Desc(Command(x), true, y)];
      desc := desc[y := Desc(DataOf(b), true, z)];
      info := info[x := info[x].(status := 255)];
      desc := desc[z := Desc(Status(x), false, 0)];
      busy := busy[b := true];
      info := info[x := info[x].(b := Some(b))];
      avail := avail[Slot(availIdx) := x];
      availIdx := Inc(availIdx);
      rest := Next(s, Submit(b, op));
    }

    /** One turn of virtio_disk_intr()'s loop; it would panic on a nonzero status. */
    method IntrOne()
      requires Inv(S()) && seenIdx != usedIdx
      modifies this
      ensures S() == Next(old(S()), Handle) && Inv(S())
    {
      hide Inv, Next, Slot, Inc;
      ghost var s := S();
      ghost var owner := HandleOwner(s);
      HandleIs(s, owner);
      HandleKeeps(s, Handle);
      var id := used[Slot(seenIdx)];
      assert info[id].status == 0;
      var b := info[id].b;
      busy := busy[b.value := false];
      seenIdx := Inc(seenIdx);
      rest := Next(s, Handle);
    }

    /** virtio_disk_intr(): every entry in the used ring is handled. */
    method Intr()
      requires Inv(S())
      modifies this
      ensures Inv(S()) && seenIdx == usedIdx
      ensures S().reqs.Keys == old(S()).reqs.Keys && S().usedQ == []
      ensures forall b :: b in S().reqs && old(S()).reqs[b].stage == Used ==> S().reqs[b].stage == Seen
    {
      hide Inv, Next, S, HandleOk;
      ghost var s0 := S();
      ghost var s := s0;
      AsFields(s);
      HandleNone(s);
      while seenIdx != usedIdx
        invariant S() == s && Inv(s) && HandleOk(s0, s)
        invariant s.seenIdx == seenIdx && s.usedIdx == usedIdx
        decreases s.usedN - s.seenN
      {
        ghost var b := HandleOwner(s);
        Lengths(s);
        HandleMore(s0, s, b);
        IntrOne();
        s := Next(s, Handle);
        AsFields(s);
      }
      AllSeen(s);
      HandleDone(s0, s);
    }

    /** The indices in the fields are those of the state. */
    lemma AsFields(s: State)
      requires S() == s
      ensures s.seenIdx == seenIdx && s.usedIdx == usedIdx
    {
    }

    /** The end of virtio_disk_rw(): free_chain() on the request's head. */
    method End(b: Buffer, d0: nat)
      requires Shape(S()) && Enabled(S(), Finish(b)) && S().reqs[b].d0 == d0 && Inv(S())
      modifies this
      ensures S() == Next(old(S()), Finish(b)) && Inv(S())
    {
      hide Inv, Next;
      ghost var s := S();
      FinishFields(s, b);
      FinishDescs(s, b);
      FinishKeeps(s, Finish(b));
      info := info[d0 := info[d0].(b := None)];
      ghost var q := s.reqs[b];
      FreeChain(d0, q.d1, q.d2);
      rest := Next(s, Finish(b));
    }

    /** free_chain() on a chain of three. */
    method FreeChain(head: nat, ghost d1: nat, ghost d2: nat)
      requires |free| == |desc| == NUM && head < d1 < d2 < NUM && !free[head] && !free[d1] && !free[d2]
      requires desc[head].more && desc[head].next == d1 && desc[d1].more && desc[d1].next == d2 && !desc[d2].more
      modifies this`free, this`desc
      ensures free == old(free)[head := true][d1 := true][d2 := true]
      ensures var no := Desc(Null, false, 0); desc == old(desc)[head := no][d1 := no][d2 := no]
    {
      var i := head;
      ghost var no := Desc(Null, false, 0);
      while true
        invariant i == head || i == d1 || i == d2
        invariant i == head ==> free == old(free) && desc == old(desc)
        invariant i == d1 ==> free == old(free)[head := true] && desc == old(desc)[head := no]
        invariant i == d2 ==> free == old(free)[head := true][d1 := true] && desc == old(desc)[head := no][d1 := no]
        decreases NUM - i
      {
        var flag, next := desc[i].more, desc[i].next;
        FreeDesc(i);
        if flag {
          i := next;
        } else {
          break;
        }
      }
    }
  }

  lemma Lengths(s: State)
    requires Inv(s)
    ensures s.seenN <= s.usedN
  {
  }

  /** The driver's own fields after a submission. */
  lemma SubmitIs(s: State, b: Buffer, op: Op, x: nat, y: nat, z: nat)
    requires Shape(s) && Enabled(s, Submit(b, op)) && Alloc3(s.free) == Some((x, y, z))
    ensures x < |s.desc| && y < |s.desc| && z < |s.desc| && |s.desc| == |s.ops| == |s.info| == |s.free| == |s.avail| == NUM
    ensures var s' := Next(s, Submit(b, op));
            && s'.desc == s.desc[x := Desc(Command(x), true, y)][y := Desc(DataOf(b), true, z)][z := Desc(Status(x), false, 0)]
            && s'.ops == s.ops[x := op] && s'.free == s.free[x := false][y := false][z := false]
            && s'.info == s.info[x := Info(Some(b), 255)] && s'.busy == s.busy[b := true]
            && s'.avail == s.avail[Slot(s.availIdx) := x] && s'.availIdx == Inc(s.availIdx)
            && s'.used == s.used && s'.usedIdx == s.usedIdx && s'.seenIdx == s.seenIdx
  {
    hide Alloc3, Slot, Inc;
  }

  lemma HandleIs(s: State, b: Buffer)
    requires Shape(s) && s.seenIdx != s.usedIdx && b in s.reqs && b in s.busy
    requires s.used[Slot(s.seenIdx)] == s.reqs[b].d0 < NUM && s.info[s.reqs[b].d0] == Info(Some(b), 0)
    ensures var s' := Next(s, Handle);
            && s'.desc == s.desc && s'.ops == s.ops && s'.free == s.free && s'.info == s.info && s'.avail == s.avail
            && s'.availIdx == s.availIdx && s'.used == s.used && s'.usedIdx == s.usedIdx && s'.seenIdx == Inc(s.seenIdx)
            && s'.busy == s.busy[b := false] && s'.usedN == s.usedN && s'.seenN == s.seenN + 1
            && s'.reqs == s.reqs[b := s.reqs[b].(stage := Seen)]
  {
    hide Slot, Inc;
  }

  /** Some turns of the handler: the requests that had been used are still used, or seen. */
  ghost predicate HandleOk(s0: State, s: State) {
    && s.reqs.Keys == s0.reqs.Keys
    && forall b :: b in s0.reqs && s0.reqs[b].stage == Used ==> s.reqs[b].stage == Used || s.reqs[b].stage == Seen
  }

  lemma HandleNone(s: State)
    ensures HandleOk(s, s)
  {
  }

  lemma HandleMore(s0: State, s: State, b: Buffer)
    requires Shape(s) && s.seenIdx != s.usedIdx && HandleOk(s0, s) && b in s.reqs && b in s.busy
    requires s.used[Slot(s.seenIdx)] == s.reqs[b].d0 < NUM && s.info[s.reqs[b].d0] == Info(Some(b), 0)
    ensures HandleOk(s0, Next(s, Handle)) && Next(s, Handle).usedN == s.usedN && Next(s, Handle).seenN == s.seenN + 1
  {
    hide Slot, Inc, Next;
    HandleIs(s, b);
  }

  lemma HandleDone(s0: State, s: State)
    requires HandleOk(s0, s) && forall b :: b in s.reqs ==> s.reqs[b].stage != Used
    ensures s.reqs.Keys == s0.reqs.Keys && forall b :: b in s.reqs && s0.reqs[b].stage == Used ==> s.reqs[b].stage == Seen
  {
  }

  /** The driver's own fields after a request is finished. */
  lemma FinishFields(s: State, b: Buffer)
    requires Shape(s) && Enabled(s, Finish(b)) && Inv(s)
    ensures var s', q, no := Next(s, Finish(b)), s.reqs[b], Desc(Null, false, 0);
            && q.d0 < q.d1 < q.d2 < NUM && !s.free[q.d0] && !s.free[q.d1] && !s.free[q.d2]
            && s'.desc == s.desc[q.d0 := no][q.d1 := no][q.d2 := no]
            && s'.free == s.free[q.d0 := true][q.d1 := true][q.d2 := true]
            && s'.info == s.info[q.d0 := s.info[q.d0].(b := None)]
            && s'.ops == s.ops && s'.avail == s.avail && s'.availIdx == s.availIdx && s'.used == s.used
            && s'.usedIdx == s.usedIdx && s'.seenIdx == s.seenIdx && s'.busy == s.busy
  {
    hide Next, ReqOk, FreeOk, RingOk, Apart, Sectors;
    FinishIs(s, b);
  }

  /** When the handler has caught up, no request is left in the used ring. */
  lemma AllSeen(s: State)
    requires Inv(s) && s.seenIdx == s.usedIdx
    ensures s.usedQ == [] && forall b :: b in s.reqs ==> s.reqs[b].stage != Used
  {
    IndexDiffers(s.seenN, s.usedN);
    forall b | b in s.reqs ensures s.reqs[b].stage != Used { assert ReqOk(s, b); }
  }

  lemma FinishDescs(s: State, b: Buffer)
    requires Inv(s) && b in s.reqs
    ensures var q := s.reqs[b];
            && q.d0 < q.d1 < q.d2 < NUM && s.desc[q.d0].more && s.desc[q.d0].next == q.d1
            && s.desc[q.d1].more && s.desc[q.d1].next == q.d2 && !s.desc[q.d2].more
  {
    assert ReqOk(s, b);
  }
}
