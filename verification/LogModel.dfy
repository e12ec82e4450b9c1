/**
  The write-ahead log of kernel/log.c as a machine whose steps are the lock-protected
  actions of file-system operations, the single-block disk writes of commit and recovery,
  and crashes.  The disk survives a crash; everything else is lost.
*/
module LogModel {
  import opened Params

  const LOGBLOCKS := 3 * MAXOPBLOCKS

  /** 32-bit words in a block of BSIZE bytes. */
  const WORDS := 256

  type Block = b: seq<int> | |b| == WORDS witness seq(WORDS, _ => 0)

  /** One logged block write, by the operation with this identity. */
  datatype Write = Write(op: nat, block: int, data: Block)

  /** An operation between begin_op and end_op, with the number of blocks it added to the log. */
  datatype Op = Op(id: nat, added: nat)

  /** Where commit() or recover_from_log() stands. `Idle` means neither is running. */
  datatype Pc =
    | Idle
    | WriteLog(tail: nat) | WriteHead | Install(tail: nat) | Clear | Finish
    | Boot | Redo(tail: nat) | RedoClear

  /** What happened so far; nothing in the machine depends on it. `txns` holds, in order, the
      writes of every group whose header reached the disk, `group` those of the group under way. */
  datatype History = History(
    base: seq<Block>, txns: seq<seq<Write>>, group: seq<Write>, written: map<nat, seq<Write>>, acked: nat)

  datatype State = State(
    start: nat, disk: seq<Block>, pc: Pc, lh: seq<int>, cache: map<int, Block>, ops: seq<Op>, hist: History)

  datatype Action =
    | BeginOp(id: nat)
    | LogWrite(who: nat, block: int, data: Block)
    | EndOp(who: nat)
    | Tick
    | Crash

  // -------- the header block --------

  predicate HeaderOk(b: Block) {
    && 0 <= b[0] <= LOGBLOCKS
    && forall i :: 1 <= i <= b[0] ==> b[i] >= 0
  }

  function GetHeader(b: Block): seq<int>
    requires HeaderOk(b)
  {
    b[1..1 + b[0]]
  }

  /** The words write_head() stores; the words after them keep their old values. */
  function PutHeader(b: Block, lh: seq<int>): Block
    requires |lh| <= LOGBLOCKS
  {
    [|lh|] + lh + b[1 + |lh|..]
  }

  lemma HeaderRoundTrip(b: Block, lh: seq<int>)
    requires |lh| <= LOGBLOCKS
    requires forall i :: 0 <= i < |lh| ==> lh[i] >= 0
    ensures HeaderOk(PutHeader(b, lh)) && GetHeader(PutHeader(b, lh)) == lh
  {
    var h := PutHeader(b, lh);
    assert forall i :: 1 <= i <= |lh| ==> h[i] == lh[i - 1];
    assert h[1..1 + |lh|] == lh;
  }

  // -------- replaying writes --------

  function Replay(disk: seq<Block>, ws: seq<Write>): (r: seq<Block>)
    ensures |r| == |disk|
  {
    if ws == [] then disk
    else
      var d := Replay(disk, ws[..|ws| - 1]);
      var w := ws[|ws| - 1];
      if 0 <= w.block < |d| then d[w.block := w.data] else d
  }

  function ReplayAll(disk: seq<Block>, txns: seq<seq<Write>>): (r: seq<Block>)
    ensures |r| == |disk|
  {
    if txns == [] then disk else Replay(ReplayAll(disk, txns[..|txns| - 1]), txns[|txns| - 1])
  }

  /** The writes of one operation among `ws`. */
  function Only(ws: seq<Write>, id: nat): seq<Write> {
    if ws == [] then []
    else
      var last := ws[|ws| - 1];
      Only(ws[..|ws| - 1], id) + if last.op == id then [last] else []
  }

  // -------- recovery as one function of the disk --------

  /** Home blocks are those outside the log area. */
  predicate Home(start: nat, size: nat, b: int) {
    0 <= b < size && !(start <= b <= start + LOGBLOCKS)
  }

  predicate Fits(start: nat, size: nat, lh: seq<int>) {
    && start + LOGBLOCKS < size
    && |lh| <= LOGBLOCKS
    && forall i :: 0 <= i < |lh| ==> Home(start, size, lh[i])
  }

  predicate LogOk(start: nat, disk: seq<Block>) {
    && start < |disk|
    && HeaderOk(disk[start])
    && Fits(start, |disk|, GetHeader(disk[start]))
  }

  /** install_trans() from slot `tail` on. */
  function InstallFrom(start: nat, disk: seq<Block>, lh: seq<int>, tail: nat): (r: seq<Block>)
    requires Fits(start, |disk|, lh) && tail <= |lh|
    ensures |r| == |disk|
    decreases |lh| - tail
  {
    if tail == |lh| then disk
    else InstallFrom(start, disk[lh[tail] := disk[start + 1 + tail]], lh, tail + 1)
  }

  /** The disk after an uninterrupted recover_from_log(). */
  function Recover(start: nat, disk: seq<Block>): (r: seq<Block>)
    requires LogOk(start, disk)
    ensures |r| == |disk|
  {
    var d := InstallFrom(start, disk, GetHeader(disk[start]), 0);
    d[start := PutHeader(d[start], [])]
  }

  /** Two disks agree on every home block. */
  ghost predicate SameHome(start: nat, d: seq<Block>, e: seq<Block>) {
    |d| == |e| && forall b {:trigger Home(start, |d|, b)} :: Home(start, |d|, b) ==> d[b] == e[b]
  }

  // -------- the machine --------

  function Unused(ops: seq<Op>): int {
    if ops == [] then 0 else Unused(ops[..|ops| - 1]) + MAXOPBLOCKS - ops[|ops| - 1].added
  }

  predicate Committing(s: State) {
    s.pc.WriteLog? || s.pc.WriteHead? || s.pc.Install? || s.pc.Clear? || s.pc.Finish?
  }

  predicate Enabled(s: State, a: Action) {
    match a
    case BeginOp(id) =>
      && s.pc.Idle?
      && |s.lh| + (|s.ops| + 1) * MAXOPBLOCKS <= LOGBLOCKS
      && id !in s.hist.written
    case LogWrite(who, b, data) =>
      && s.pc.Idle?
      && who < |s.ops|
      && |s.lh| < LOGBLOCKS
      && Home(s.start, |s.disk|, b)
      && (b in s.lh || s.ops[who].added < MAXOPBLOCKS)
      && s.ops[who].id in s.hist.written
    case EndOp(who) => s.pc.Idle? && who < |s.ops|
    case Tick =>
      && !s.pc.Idle?
      && Fits(s.start, |s.disk|, s.lh)
      && (s.pc.WriteLog? ==> s.pc.tail < |s.lh| && s.lh[s.pc.tail] in s.cache)
      && (s.pc.Install? || s.pc.Redo? ==> s.pc.tail < |s.lh|)
      && (s.pc.Boot? ==> HeaderOk(s.disk[s.start]))
    case Crash => true
  }

  function AfterLogWrite(s: State, who: nat, b: int, data: Block): State
    requires Enabled(s, LogWrite(who, b, data))
  {
    var op := s.ops[who];
    var w := Write(op.id, b, data);
    s.(lh := if b in s.lh then s.lh else s.lh + [b],
       cache := s.cache[b := data],
       ops := s.ops[who := if b in s.lh then op else op.(added := op.added + 1)],
       hist := s.hist.(group := s.hist.group + [w],
                       written := s.hist.written[op.id := s.hist.written[op.id] + [w]]))
  }

  /** end_op(): the last operation starts the commit, unless nothing was logged. */
  function AfterEndOp(s: State, who: nat): State
    requires Enabled(s, EndOp(who))
  {
    s.(ops := s.ops[..who] + s.ops[who + 1..],
       pc := if |s.ops| > 1 then Idle else if s.lh == [] then Finish else WriteLog(0))
  }

  /** The next disk write or bookkeeping action of commit() or recover_from_log(). */
  function AfterTick(s: State): State
    requires Enabled(s, Tick)
  {
    match s.pc
    case WriteLog(t) =>
      s.(disk := s.disk[s.start + 1 + t := s.cache[s.lh[t]]],
         pc := if t + 1 < |s.lh| then WriteLog(t + 1) else WriteHead)
    case WriteHead =>
      s.(disk := s.disk[s.start := PutHeader(s.disk[s.start], s.lh)],
         pc := Install(0),
         hist := s.hist.(txns := s.hist.txns + [s.hist.group], group := []))
    case Install(t) =>
      s.(disk := s.disk[s.lh[t] := s.disk[s.start + 1 + t]],
         cache := s.cache - {s.lh[t]},
         pc := if t + 1 < |s.lh| then Install(t + 1) else Clear)
    case Clear =>
      s.(disk := s.disk[s.start := PutHeader(s.disk[s.start], [])], lh := [], pc := Finish)
    case Finish =>
      s.(pc := Idle, hist := s.hist.(acked := |s.hist.txns|))
    case Boot =>
      var lh := GetHeader(s.disk[s.start]);
      s.(lh := lh, pc := if lh != [] then Redo(0) else RedoClear)
    case Redo(t) =>
      s.(disk := s.disk[s.lh[t] := s.disk[s.start + 1 + t]],
         pc := if t + 1 < |s.lh| then Redo(t + 1) else RedoClear)
    case RedoClear =>
      s.(disk := s.disk[s.start := PutHeader(s.disk[s.start], [])], lh := [], pc := Idle)
    case Idle => s
  }

  function Next(s: State, a: Action): State
    requires Enabled(s, a)
  {
    match a
    case BeginOp(id) =>
      s.(ops := s.ops + [Op(id, 0)], hist := s.hist.(written := s.hist.written[id := []]))
    case LogWrite(who, b, data) => AfterLogWrite(s, who, b, data)
    case EndOp(who) => AfterEndOp(s, who)
    case Tick => AfterTick(s)
    case Crash =>
      s.(pc := Boot, lh := [], cache := map[], ops := [], hist := s.hist.(group := []))
  }

  /** A fresh image: an empty log, not yet booted. */
  predicate Init(s: State) {
    && s.start + LOGBLOCKS < |s.disk|
    && s.disk[s.start][0] == 0
    && s.pc == Boot && s.lh == [] && s.cache == map[] && s.ops == []
    && s.hist == History(s.disk, [], [], map[], 0)
  }

  predicate IsRun(run: seq<State>, acts: seq<Action>) {
    && |run| == |acts| + 1
    && Init(run[0])
    && forall i :: 0 <= i < |acts| ==> Enabled(run[i], acts[i]) && run[i + 1] == Next(run[i], acts[i])
  }
}
