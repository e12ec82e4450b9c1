/**
  Pipes, kernel/pipe.c: a ring of 512 bytes with 32-bit counters that wrap around, and the sleeping and waking
  of its readers and writers. A step is what a process does under the pipe's lock up to the next test of its
  loop; sleep() releases the lock and marks the process in one step, as SleepLock.dfy justifies.
*/
module Pipe {
  import opened Options

  const PIPESIZE := 512

  type byte = x: int | 0 <= x < 256

  // -------- the ring --------

  function Inc(n: nat): nat {
    (n + 1) % 0x1_0000_0000
  }

  function Slot(n: nat): (k: nat)
    ensures k < PIPESIZE
  {
    n % 512
  }

  /** The counters are the numbers of bytes accepted and delivered, modulo 2^32; the bytes delivered are the first
      of the bytes accepted, and the ring holds the others, at most PIPESIZE of them. */
  ghost predicate Fifo(data: seq<byte>, nread: nat, nwrite: nat, accepted: seq<byte>, delivered: seq<byte>) {
    && |data| == PIPESIZE && |delivered| <= |accepted| <= |delivered| + PIPESIZE
    && nread == |delivered| % 0x1_0000_0000 && nwrite == |accepted| % 0x1_0000_0000
    && delivered == accepted[..|delivered|]
    && forall k :: |delivered| <= k < |accepted| ==> data[Slot(k)] == accepted[k]
  }

  /** The tests of the code, on the wrapping counters. */
  predicate Full(nread: nat, nwrite: nat) {
    nwrite == (nread + PIPESIZE) % 0x1_0000_0000
  }

  predicate Empty(nread: nat, nwrite: nat) {
    nread == nwrite
  }

  lemma CounterSlot(n: nat)
    ensures Slot(n % 0x1_0000_0000) == Slot(n) && Inc(n % 0x1_0000_0000) == (n + 1) % 0x1_0000_0000
  {
    var q, r := n / 0x1_0000_0000, n % 0x1_0000_0000;
    assert n == q * 0x1_0000_0000 + r;
    assert n == (q * 0x80_0000) * 512 + r;
    assert n + 1 == q * 0x1_0000_0000 + (r + 1);
  }

  /** The wrapping tests decide exactly whether the ring is full or empty. */
  lemma TestsExact(m: nat, n: nat)
    requires m <= n <= m + PIPESIZE
    ensures Full(m % 0x1_0000_0000, n % 0x1_0000_0000) <==> n == m + PIPESIZE
    ensures Empty(m % 0x1_0000_0000, n % 0x1_0000_0000) <==> n == m
  {
    var a, r := m / 0x1_0000_0000, m % 0x1_0000_0000;
    var b, t := n / 0x1_0000_0000, n % 0x1_0000_0000;
    assert m == a * 0x1_0000_0000 + r && n == b * 0x1_0000_0000 + t && a <= b <= a + 1;
    assert (r + 512) % 0x1_0000_0000 == if r + 512 < 0x1_0000_0000 then r + 512 else r + 512 - 0x1_0000_0000;
  }

  lemma FifoTests(data: seq<byte>, nread: nat, nwrite: nat, accepted: seq<byte>, delivered: seq<byte>)
    requires Fifo(data, nread, nwrite, accepted, delivered)
    ensures Full(nread, nwrite) <==> |accepted| == |delivered| + PIPESIZE
    ensures Empty(nread, nwrite) <==> accepted == delivered
  {
    TestsExact(|delivered|, |accepted|);
  }

  lemma PutKeeps(data: seq<byte>, nread: nat, nwrite: nat, accepted: seq<byte>, delivered: seq<byte>, ch: byte)
    requires Fifo(data, nread, nwrite, accepted, delivered) && !Full(nread, nwrite)
    ensures Fifo(data[Slot(nwrite) := ch], nread, Inc(nwrite), accepted + [ch], delivered)
  {
    FifoTests(data, nread, nwrite, accepted, delivered);
    CounterSlot(|accepted|);
    var data' := data[Slot(nwrite) := ch];
    forall k | |delivered| <= k < |accepted| + 1 ensures data'[Slot(k)] == (accepted + [ch])[k] {
      SlotsApart(k, |accepted|);
    }
  }

  lemma SlotsApart(k: nat, n: nat)
    ensures k < n < k + PIPESIZE ==> Slot(k) != Slot(n)
  {
  }

  lemma GetKeeps(data: seq<byte>, nread: nat, nwrite: nat, accepted: seq<byte>, delivered: seq<byte>)
    requires Fifo(data, nread, nwrite, accepted, delivered) && !Empty(nread, nwrite)
    ensures Fifo(data, Inc(nread), nwrite, accepted, delivered + [data[Slot(nread)]])
  {
    FifoTests(data, nread, nwrite, accepted, delivered);
    CounterSlot(|delivered|);
    assert data[Slot(|delivered|)] == accepted[|delivered|];
    assert accepted[..|delivered| + 1] == accepted[..|delivered|] + [accepted[|delivered|]];
  }

  // -------- the code under the lock --------

  class Ring {
    const data: array<byte>
    var nread: nat
    var nwrite: nat
    var readopen: bool
    var writeopen: bool
    ghost var accepted: seq<byte>
    ghost var delivered: seq<byte>

    ghost predicate Valid()
      reads this, data
    {
      Fifo(data[..], nread, nwrite, accepted, delivered)
    }

    constructor ()
      ensures Valid() && fresh(data) && accepted == delivered == [] && readopen && writeopen
    {
      data := new byte[PIPESIZE];
      nread, nwrite := 0, 0;
      readopen, writeopen := true, true;
      accepted, delivered := [], [];
    }

    /** pipewrite()'s loop from byte `i` until everything is written, the reader is gone or it would sleep: the
        bytes from `i` to `j` are accepted, in order, and it stops early only on a full ring. */
    method WriteSome(src: seq<byte>, i: nat) returns (j: nat, broken: bool)
      requires Valid() && i <= |src|
      modifies data, this`nwrite, this`accepted
      ensures Valid() && i <= j <= |src| && accepted == old(accepted) + src[i..j]
      ensures broken <==> i < |src| && !readopen
      ensures broken ==> j == i
      ensures j < |src| && !broken ==> |accepted| == |delivered| + PIPESIZE
    {
      hide Fifo, Full, Inc;
      j, broken := i, false;
      assert src[i..i] == [];
      while j < |src|
        invariant Valid() && i <= j <= |src| && accepted == old(accepted) + src[i..j]
        invariant i < j ==> readopen
      {
        if !readopen {
          broken := true;
          return;
        }
        FifoTests(data[..], nread, nwrite, accepted, delivered);
        if Full(nread, nwrite) {
          return;
        }
        PutKeeps(data[..], nread, nwrite, accepted, delivered, src[j]);
        Lengths(data[..], nread, nwrite, accepted, delivered);
        ghost var was := data[..];
        data[Slot(nwrite)] := src[j];
        assert data[..] == was[Slot(nwrite) := src[j]];
        nwrite := Inc(nwrite);
        accepted := accepted + [src[j]];
        assert src[i..j + 1] == src[i..j] + [src[j]];
        j := j + 1;
      }
    }

    /** piperead()'s copying loop: the next bytes accepted, in order, stopping early only on an empty ring. */
    method ReadSome(n: nat) returns (out: seq<byte>)
      requires Valid()
      modifies this`nread, this`delivered
      ensures Valid() && delivered == old(delivered) + out && |out| <= n
      ensures |out| < n ==> delivered == accepted
    {
      hide Fifo, Empty, Inc;
      out := [];
      while |out| < n
        invariant Valid() && delivered == old(delivered) + out && |out| <= n
        decreases n - |out|
      {
        FifoTests(data[..], nread, nwrite, accepted, delivered);
        if Empty(nread, nwrite) {
          return;
        }
        GetKeeps(data[..], nread, nwrite, accepted, delivered);
        Lengths(data[..], nread, nwrite, accepted, delivered);
        var ch := data[Slot(nread)];
        nread := Inc(nread);
        delivered := delivered + [ch];
        out := out + [ch];
      }
    }
  }

  lemma Lengths(data: seq<byte>, nread: nat, nwrite: nat, accepted: seq<byte>, delivered: seq<byte>)
    requires Fifo(data, nread, nwrite, accepted, delivered)
    ensures |data| == PIPESIZE
  {
  }

  lemma Shorter(data: seq<byte>, nread: nat, nwrite: nat, accepted: seq<byte>, delivered: seq<byte>)
    requires Fifo(data, nread, nwrite, accepted, delivered)
    ensures |delivered| <= |accepted|
  {
  }

  // -------- readers and writers --------

  type Pid = nat

  /** A writer about to take the lock, in its loop (`unsaid` when it has stored a byte and not yet woken the
      readers), asleep on a full pipe, or awake again and about to take the lock; likewise a reader, which
      first waits for bytes and then copies them out. */
  datatype Phase =
    | WEntry(src: seq<byte>, i: nat)
    | WLoop(src: seq<byte>, i: nat, unsaid: bool)
    | WSleep(src: seq<byte>, i: nat)
    | REntry(n: nat)
    | RTest(n: nat)
    | RSleep(n: nat)
    | RCopy(n: nat, out: seq<byte>)

  datatype State = State(
    data: seq<byte>, nread: nat, nwrite: nat, readopen: bool, writeopen: bool,
    lock: Option<Pid>, procs: map<Pid, Phase>, accepted: seq<byte>, delivered: seq<byte>)

  predicate Reader(ph: Phase) {
    ph.REntry? || ph.RTest? || ph.RSleep? || ph.RCopy?
  }

  predicate InLock(ph: Phase) {
    ph.WLoop? || ph.RTest? || ph.RCopy?
  }

  datatype Action =
    | Write(p: Pid, src: seq<byte>)
    | Read(p: Pid, n: nat)
    | Acquire(p: Pid)
    | Turn(p: Pid)
    | Leave(p: Pid)
    | GiveUp(p: Pid)
    | Rouse(p: Pid)
    | CloseRead
    | CloseWrite

  /** Turn is one turn of a loop; Leave is the way out through the final wakeup(), which a failing user copy takes
      early; GiveUp is the return of -1 by a killed process, or by a writer when the read end is closed; Rouse is
      kkill() waking a sleeper. An end is closed when no process is in a call on it: fileclose() closes it with the
      last reference. */
  predicate Enabled(s: State, a: Action) {
    match a
    case Write(p, src) => p !in s.procs && s.writeopen
    case Read(p, n) => p !in s.procs && s.readopen
    case Acquire(p) => p in s.procs && s.lock.None? && (s.procs[p].WEntry? || s.procs[p].REntry?)
    case Turn(p) =>
      && p in s.procs && InLock(s.procs[p]) && |s.data| == PIPESIZE
      && (s.procs[p].WLoop? ==> s.readopen && s.procs[p].i < |s.procs[p].src|)
      && (s.procs[p].RCopy? ==> |s.procs[p].out| < s.procs[p].n && !Empty(s.nread, s.nwrite))
    case Leave(p) =>
      && p in s.procs && (s.procs[p].WLoop? || s.procs[p].RCopy?)
      && (s.procs[p].WLoop? && s.procs[p].i < |s.procs[p].src| ==> s.readopen && !Full(s.nread, s.nwrite))
    case GiveUp(p) =>
      && p in s.procs
      && (|| (s.procs[p].WLoop? && s.procs[p].i < |s.procs[p].src|)
          || (s.procs[p].RTest? && Empty(s.nread, s.nwrite) && s.writeopen))
    case Rouse(p) => p in s.procs && (s.procs[p].WSleep? || s.procs[p].RSleep?)
    case CloseRead => s.lock.None? && s.readopen && forall p :: p in s.procs ==> !Reader(s.procs[p])
    case CloseWrite => s.lock.None? && s.writeopen && forall p :: p in s.procs ==> Reader(s.procs[p])
  }

  /** wakeup(&pi->nread) and wakeup(&pi->nwrite) */
  function WakeReaders(procs: map<Pid, Phase>): map<Pid, Phase> {
    map p | p in procs :: if procs[p].RSleep? then REntry(procs[p].n) else procs[p]
  }

  function WakeWriters(procs: map<Pid, Phase>): map<Pid, Phase> {
    map p | p in procs :: if procs[p].WSleep? then WEntry(procs[p].src, procs[p].i) else procs[p]
  }

  function TurnOf(s: State, p: Pid): State
    requires Enabled(s, Turn(p))
  {
    match s.procs[p]
    case WLoop(src, i, unsaid) =>
      if Full(s.nread, s.nwrite)
      then s.(procs := WakeReaders(s.procs)[p := WSleep(src, i)], lock := None)
      else s.(data := s.data[Slot(s.nwrite) := src[i]], nwrite := Inc(s.nwrite), accepted := s.accepted + [src[i]],
              procs := s.procs[p := WLoop(src, i + 1, true)])
    case RTest(n) =>
      if Empty(s.nread, s.nwrite) && s.writeopen
      then s.(procs := s.procs[p := RSleep(n)], lock := None)
      else s.(procs := s.procs[p := RCopy(n, [])])
    case RCopy(n, out) =>
      var ch := s.data[Slot(s.nread)];
      s.(nread := Inc(s.nread), delivered := s.delivered + [ch], procs := s.procs[p := RCopy(n, out + [ch])])
    case _ => s
  }

  function Next(s: State, a: Action): State
    requires Enabled(s, a)
  {
    match a
    case Write(p, src) => s.(procs := s.procs[p := WEntry(src, 0)])
    case Read(p, n) => s.(procs := s.procs[p := REntry(n)])
    case Acquire(p) =>
      s.(lock := Some(p),
         procs := s.procs[p := if s.procs[p].WEntry? then WLoop(s.procs[p].src, s.procs[p].i, false) else RTest(s.procs[p].n)])
    case Turn(p) => TurnOf(s, p)
    case Leave(p) =>
      s.(lock := None, procs := (if s.procs[p].WLoop? then WakeReaders(s.procs) else WakeWriters(s.procs)) - {p})
    case GiveUp(p) => s.(lock := None, procs := s.procs - {p})
    case Rouse(p) =>
      s.(procs := s.procs[p := if s.procs[p].WSleep? then WEntry(s.procs[p].src, s.procs[p].i) else REntry(s.procs[p].n)])
    case CloseRead => s.(readopen := false, procs := WakeWriters(s.procs))
    case CloseWrite => s.(writeopen := false, procs := WakeReaders(s.procs))
  }

  ghost predicate Init(s: State) {
    && s.readopen && s.writeopen && s.lock == None && s.procs == map[] && |s.data| == PIPESIZE
    && s.nread == s.nwrite == 0 && s.accepted == s.delivered == []
  }

  ghost predicate IsRun(run: seq<State>, acts: seq<Action>) {
    && |run| == |acts| + 1 && Init(run[0])
    && forall i :: 0 <= i < |acts| ==> Enabled(run[i], acts[i]) && run[i + 1] == Next(run[i], acts[i])
  }

  // -------- what every step keeps --------

  /** A writer that has stored a byte in this turn at the lock and not woken the readers. */
  predicate Unsaid(s: State) {
    s.lock.Some? && s.lock.value in s.procs && s.procs[s.lock.value].WLoop? && s.procs[s.lock.value].unsaid
  }

  predicate Copying(s: State) {
    s.lock.Some? && s.lock.value in s.procs && s.procs[s.lock.value].RCopy?
  }

  /** The ring is in order, and only the holder of the lock is inside it. */
  ghost predicate Inv(s: State) {
    && Fifo(s.data, s.nread, s.nwrite, s.accepted, s.delivered)
    && (forall p :: p in s.procs ==> (InLock(s.procs[p]) <==> s.lock == Some(p)))
    && (s.lock.Some? ==> s.lock.value in s.procs)
    && (Unsaid(s) ==> !Empty(s.nread, s.nwrite))
    && (!s.readopen ==> forall p :: p in s.procs ==> !Reader(s.procs[p]))
    && (!s.writeopen ==> forall p :: p in s.procs ==> Reader(s.procs[p]))
  }

  /** A sleeping reader has reason to sleep, or a writer at the lock is going to wake it; likewise a sleeping
      writer. */
  ghost predicate Sleepers(s: State) {
    && (forall p :: p in s.procs && s.procs[p].RSleep? ==> s.writeopen && (Empty(s.nread, s.nwrite) || Unsaid(s)))
    && (forall p :: p in s.procs && s.procs[p].WSleep? ==> s.readopen && (Full(s.nread, s.nwrite) || Copying(s)))
  }

  /** A process gives up silently: a writer that has stored bytes and not woken the readers. */
  predicate Silent(s: State, a: Action) {
    a.GiveUp? && a.p in s.procs && s.procs[a.p].WLoop? && s.procs[a.p].unsaid
  }

  ghost predicate SomeReaderSleeps(s: State) {
    exists p :: p in s.procs && s.procs[p].RSleep?
  }

  lemma TurnKeeps(s: State, p: Pid)
    requires Inv(s) && Enabled(s, Turn(p))
    ensures Inv(TurnOf(s, p))
  {
    hide Fifo, Full, Inc;
    match s.procs[p]
    case WLoop(src, i, unsaid) =>
      if !Full(s.nread, s.nwrite) {
        PutKeeps(s.data, s.nread, s.nwrite, s.accepted, s.delivered, src[i]);
        FifoTests(s.data, s.nread, s.nwrite, s.accepted, s.delivered);
        var s' := TurnOf(s, p);
        FifoTests(s'.data, s'.nread, s'.nwrite, s'.accepted, s'.delivered);
        Shorter(s.data, s.nread, s.nwrite, s.accepted, s.delivered);
      }
    case RTest(n) =>
    case RCopy(n, out) => GetKeeps(s.data, s.nread, s.nwrite, s.accepted, s.delivered);
  }

  lemma ActionKeeps(s: State, a: Action)
    requires Inv(s) && Enabled(s, a)
    ensures Inv(Next(s, a))
  {
    hide Fifo, Full, Inc;
    if a.Turn? {
      TurnKeeps(s, a.p);
    }
  }

  lemma InitHolds(s: State)
    requires Init(s)
    ensures Inv(s) && Sleepers(s)
  {
  }

  lemma {:induction false} RunInv(run: seq<State>, acts: seq<Action>, i: nat)
    requires IsRun(run, acts) && i < |run|
    ensures Inv(run[i])
  {
    hide Inv, Next, Enabled;
    if i == 0 {
      InitHolds(run[0]);
    } else {
      RunInv(run, acts, i - 1);
      ActionKeeps(run[i - 1], acts[i - 1]);
    }
  }

  /** In every state of every run the bytes read are a prefix of the bytes accepted, and at most PIPESIZE are in
      between; the wrapping difference of the counters is how many. */
  lemma PrefixOfAccepted(run: seq<State>, acts: seq<Action>, i: nat)
    requires IsRun(run, acts) && i < |run|
    ensures run[i].delivered <= run[i].accepted && |run[i].accepted| - |run[i].delivered| <= PIPESIZE
    ensures (run[i].nwrite - run[i].nread) % 0x1_0000_0000 == |run[i].accepted| - |run[i].delivered|
  {
    RunInv(run, acts, i);
    Difference(|run[i].delivered|, |run[i].accepted|);
  }

  lemma Difference(m: nat, n: nat)
    requires m <= n <= m + PIPESIZE
    ensures (n % 0x1_0000_0000 - m % 0x1_0000_0000) % 0x1_0000_0000 == n - m
  {
    var a, r := m / 0x1_0000_0000, m % 0x1_0000_0000;
    var b, t := n / 0x1_0000_0000, n % 0x1_0000_0000;
    assert m == a * 0x1_0000_0000 + r && n == b * 0x1_0000_0000 + t && a <= b <= a + 1;
    assert t - r == n - m || t - r == n - m - 0x1_0000_0000;
  }

  /** One step keeps every sleeper's reason, unless a killed writer gives up silently while a reader sleeps. */
  lemma StepSleepers(s: State, a: Action)
    requires Enabled(s, a) && !(Silent(s, a) && SomeReaderSleeps(s))
    requires Inv(s) && Sleepers(s)
    ensures Sleepers(Next(s, a))
  {
    hide Fifo, Inc;
    if a.Turn? && s.procs[a.p].WLoop? {
      FifoTests(s.data, s.nread, s.nwrite, s.accepted, s.delivered);
    }
  }

  /** In every run without such a step, a process sleeps for a reason whenever the lock is free: a reader because
      everything accepted has been delivered and the write end is open, a writer because PIPESIZE bytes wait and the
      read end is open. */
  lemma SleepsForAReason(run: seq<State>, acts: seq<Action>, i: nat, p: Pid)
    requires IsRun(run, acts) && i < |run| && run[i].lock.None? && p in run[i].procs
    requires forall j :: 0 <= j < i ==> !(Silent(run[j], acts[j]) && SomeReaderSleeps(run[j]))
    ensures run[i].procs[p].RSleep? ==> run[i].accepted == run[i].delivered && run[i].writeopen
    ensures run[i].procs[p].WSleep? ==> |run[i].accepted| == |run[i].delivered| + PIPESIZE && run[i].readopen
  {
    var s := run[i];
    RunInv(run, acts, i);
    RunSleepers(run, acts, i);
    FifoTests(s.data, s.nread, s.nwrite, s.accepted, s.delivered);
  }

  lemma {:induction false} RunSleepers(run: seq<State>, acts: seq<Action>, i: nat)
    requires IsRun(run, acts) && i < |run|
    requires forall j :: 0 <= j < i ==> !(Silent(run[j], acts[j]) && SomeReaderSleeps(run[j]))
    ensures Sleepers(run[i])
  {
    hide Inv, Next, Enabled, Sleepers, Silent, SomeReaderSleeps;
    if i == 0 {
      InitHolds(run[0]);
    } else {
      RunSleepers(run, acts, i - 1);
      RunInv(run, acts, i - 1);
      StepSleepers(run[i - 1], acts[i - 1]);
    }
  }

  /** The exception is exact: such a step leaves the sleeping readers with bytes to read and nobody to wake them. */
  lemma SilentStrands(s: State, a: Action)
    requires Enabled(s, a) && Silent(s, a)
    requires Inv(s) && Sleepers(s)
    ensures Sleepers(Next(s, a)) <==> !SomeReaderSleeps(s)
    ensures Next(s, a).lock == None && !Empty(Next(s, a).nread, Next(s, a).nwrite)
  {
    hide Fifo, Full, Inc;
    var s' := Next(s, a);
    assert Unsaid(s);
    if SomeReaderSleeps(s) {
      var p :| p in s.procs && s.procs[p].RSleep?;
      assert p in s'.procs && s'.procs[p].RSleep?;
    } else {
      StepSleepers(s, a);
    }
  }

  // -------- whose bytes --------

  /** What process `p` has added to the accepted bytes in its turns after step `i` and up to state `n`. */
  ghost function StoredBy(run: seq<State>, acts: seq<Action>, i: nat, n: nat, p: Pid): seq<byte>
    requires |run| == |acts| + 1 && n <= |acts|
  {
    if n <= i + 1 then []
    else
      StoredBy(run, acts, i, n - 1, p)
      + if acts[n - 1] == Turn(p) && |run[n - 1].accepted| <= |run[n].accepted| then run[n].accepted[|run[n - 1].accepted|..] else []
  }

  ghost function DeliveredTo(run: seq<State>, acts: seq<Action>, i: nat, n: nat, p: Pid): seq<byte>
    requires |run| == |acts| + 1 && n <= |acts|
  {
    if n <= i + 1 then []
    else
      DeliveredTo(run, acts, i, n - 1, p)
      + if acts[n - 1] == Turn(p) && |run[n - 1].delivered| <= |run[n].delivered| then run[n].delivered[|run[n - 1].delivered|..] else []
  }

  /** In a call of pipewrite(src) that has stored `done`. */
  predicate WritesFrom(ph: Phase, src: seq<byte>, done: seq<byte>) {
    (ph.WEntry? || ph.WLoop? || ph.WSleep?) && ph.src == src && ph.i <= |src| && done == src[..ph.i]
  }

  /** In a call of piperead(n) that has read `done`. */
  predicate ReadsInto(ph: Phase, n: nat, done: seq<byte>) {
    Reader(ph) && ph.n == n && |done| <= n && done == if ph.RCopy? then ph.out else []
  }

  /** A step adds to the accepted bytes at most the next byte of the writer whose turn it is, and to the delivered
      bytes at most one that goes to the reader whose turn it is. */
  lemma CallStep(s: State, a: Action, p: Pid, src: seq<byte>, n: nat, done: seq<byte>)
    requires Enabled(s, a) && p in s.procs && p in Next(s, a).procs
    ensures var s' := Next(s, a);
      && s.accepted <= s'.accepted && s.delivered <= s'.delivered
      && (WritesFrom(s.procs[p], src, done) ==>
            WritesFrom(s'.procs[p], src, if a == Turn(p) then done + s'.accepted[|s.accepted|..] else done))
      && (ReadsInto(s.procs[p], n, done) ==>
            ReadsInto(s'.procs[p], n, if a == Turn(p) then done + s'.delivered[|s.delivered|..] else done))
  {
    hide Full, Empty, Inc;
    var s' := Next(s, a);
    if a == Turn(p) && s.procs[p].WLoop? && WritesFrom(s.procs[p], src, done) {
      var i := s.procs[p].i;
      assert s'.accepted != s.accepted ==> s'.accepted[|s.accepted|..] == [src[i]] && src[..i + 1] == src[..i] + [src[i]];
      assert s'.accepted == s.accepted ==> s'.accepted[|s.accepted|..] == [];
    }
    if a == Turn(p) && ReadsInto(s.procs[p], n, done) {
      assert s'.delivered == s.delivered ==> s'.delivered[|s.delivered|..] == [];
      assert s.procs[p].RCopy? ==> s'.delivered[|s.delivered|..] == [s.data[Slot(s.nread)]];
    }
  }

  /** As long as a call of pipewrite(src) lasts, what it has stored is the beginning of its source, in order, up to the
      byte it is at. */
  lemma {:induction false} WriterStores(run: seq<State>, acts: seq<Action>, i: nat, n: nat, p: Pid, src: seq<byte>)
    requires IsRun(run, acts) && i < n <= |acts| && acts[i] == Write(p, src)
    requires forall k :: i < k <= n ==> p in run[k].procs
    ensures WritesFrom(run[n].procs[p], src, StoredBy(run, acts, i, n, p))
    decreases n
  {
    hide Next, Enabled, WritesFrom, ReadsInto;
    var k := n - 1;
    assert Enabled(run[k], acts[k]) && run[k + 1] == Next(run[k], acts[k]);
    if n == i + 1 {
      WriteStarts(run[i], p, src);
    } else {
      WriterStores(run, acts, i, n - 1, p, src);
      var done := StoredBy(run, acts, i, n - 1, p);
      assert done + [] == done;
      CallStep(run[n - 1], acts[n - 1], p, src, 0, done);
    }
  }

  lemma WriteStarts(s: State, p: Pid, src: seq<byte>)
    requires Enabled(s, Write(p, src))
    ensures p in Next(s, Write(p, src)).procs && WritesFrom(Next(s, Write(p, src)).procs[p], src, [])
  {
  }

  /** As long as a call of piperead(n) lasts, what it has read is what it has taken of the delivered bytes. */
  lemma {:induction false} ReaderReads(run: seq<State>, acts: seq<Action>, i: nat, m: nat, p: Pid, n: nat)
    requires IsRun(run, acts) && i < m <= |acts| && acts[i] == Read(p, n)
    requires forall k :: i < k <= m ==> p in run[k].procs
    ensures ReadsInto(run[m].procs[p], n, DeliveredTo(run, acts, i, m, p))
    decreases m
  {
    hide Next, Enabled, WritesFrom, ReadsInto;
    var k := m - 1;
    assert Enabled(run[k], acts[k]) && run[k + 1] == Next(run[k], acts[k]);
    if m == i + 1 {
      ReadStarts(run[i], p, n);
    } else {
      ReaderReads(run, acts, i, m - 1, p, n);
      var done := DeliveredTo(run, acts, i, m - 1, p);
      assert done + [] == done;
      CallStep(run[m - 1], acts[m - 1], p, [], n, done);
    }
  }

  lemma ReadStarts(s: State, p: Pid, n: nat)
    requires Enabled(s, Read(p, n))
    ensures p in Next(s, Read(p, n)).procs && ReadsInto(Next(s, Read(p, n)).procs[p], n, [])
  {
  }

  /** Nothing else is accepted or delivered. */
  lemma OnlyTurns(run: seq<State>, acts: seq<Action>, k: nat)
    requires IsRun(run, acts) && k < |acts|
    ensures run[k + 1].accepted != run[k].accepted ==> acts[k].Turn? && run[k].procs[acts[k].p].WLoop?
    ensures run[k + 1].delivered != run[k].delivered ==> acts[k].Turn? && run[k].procs[acts[k].p].RCopy?
  {
    assert run[k + 1] == Next(run[k], acts[k]);
  }

  /** A call ends in a step that stores and delivers nothing. */
  lemma CallEnds(run: seq<State>, acts: seq<Action>, k: nat, p: Pid)
    requires IsRun(run, acts) && k < |acts| && p in run[k].procs && p !in run[k + 1].procs
    ensures acts[k] == Leave(p) || acts[k] == GiveUp(p)
    ensures run[k + 1].accepted == run[k].accepted && run[k + 1].delivered == run[k].delivered
  {
  }

  // -------- a run that strands a reader --------

  ghost predicate Stranded(s: State) {
    s.lock == None && s.accepted != s.delivered && SomeReaderSleeps(s)
  }

  ghost predicate Reached(s: State) {
    exists run: seq<State>, acts: seq<Action> :: IsRun(run, acts) && run[|acts|] == s
  }

  lemma ReachedNext(s: State, a: Action, s': State)
    requires Reached(s) && Enabled(s, a) && s' == Next(s, a)
    ensures Reached(s')
  {
    hide Enabled, Next, Init;
    var run: seq<State>, acts: seq<Action> :| IsRun(run, acts) && run[|acts|] == s;
    assert IsRun(run + [s'], acts + [a]);
  }

  function Waiting(): State {
    State(seq(PIPESIZE, _ => 0), 0, 0, true, true, None, map[1 := RSleep(1)], [], [])
  }

  lemma WaitingReached()
    ensures Reached(Waiting())
  {
    var s0 := State(seq(PIPESIZE, _ => 0), 0, 0, true, true, None, map[], [], []);
    var s1 := s0.(procs := map[1 := REntry(1)]);
    var s2 := s1.(procs := map[1 := RTest(1)], lock := Some(1));
    assert Reached(s0) by {
      assert IsRun([s0], []);
    }
    hide Reached;
    ReachedNext(s0, Read(1, 1), s1);
    ReachedNext(s1, Acquire(1), s2);
    ReachedNext(s2, Turn(1), Waiting());
  }

  /** A reader falls asleep on the empty pipe; a writer stores the first of two bytes and is killed. */
  lemma KilledWriterStrands()
    ensures exists s :: Reached(s) && Stranded(s)
  {
    hide Reached;
    WaitingReached();
    var s0 := Waiting();
    var s1 := s0.(procs := map[1 := RSleep(1), 2 := WEntry([7, 8], 0)]);
    var s2 := s1.(procs := map[1 := RSleep(1), 2 := WLoop([7, 8], 0, false)], lock := Some(2));
    var s3 := s2.(procs := map[1 := RSleep(1), 2 := WLoop([7, 8], 1, true)], data := s2.data[0 := 7], nwrite := 1,
      accepted := [7]);
    var s4 := s3.(procs := map[1 := RSleep(1)], lock := None);
    ReachedNext(s0, Write(2, [7, 8]), s1);
    ReachedNext(s1, Acquire(2), s2);
    ReachedNext(s2, Turn(2), s3);
    ReachedNext(s3, GiveUp(2), s4);
    assert s4.procs[1].RSleep?;
    assert Stranded(s4);
  }
}
