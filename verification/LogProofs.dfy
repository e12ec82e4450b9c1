/**
  Crash atomicity and space reservation of the log, over every run.
*/
module LogProofs {
  import opened LogModel
  import opened Params

  // -------- the invariant --------

  /** The home blocks the disk is committed to. */
  function Target(s: State): seq<Block> {
    ReplayAll(s.hist.base, s.hist.txns)
  }

  /** Whatever happens next, recovery can rebuild the target: logged blocks hold it in the
      log, all others at home. */
  ghost predicate Recoverable(start: nat, disk: seq<Block>, target: seq<Block>) {
    && LogOk(start, disk)
    && |disk| == |target|
    && var lh := GetHeader(disk[start]);
       && Distinct(lh)
       && (forall i :: 0 <= i < |lh| ==> disk[start + 1 + i] == target[lh[i]])
       && (forall b {:trigger Home(start, |disk|, b)} :: Home(start, |disk|, b) && b !in lh ==> disk[b] == target[b])
  }

  predicate Distinct(lh: seq<int>) {
    forall i, j :: 0 <= i < j < |lh| ==> lh[i] != lh[j]
  }

  predicate DistinctIds(ops: seq<Op>) {
    forall i, j :: 0 <= i < j < |ops| ==> ops[i].id != ops[j].id
  }

  /** The in-memory side: what is logged, pinned and reserved. */
  ghost predicate MemoryOk(s: State) {
    && Fits(s.start, |s.disk|, s.lh)
    && Distinct(s.lh)
    && DistinctIds(s.ops)
    && (forall i :: 0 <= i < |s.ops| ==> s.ops[i].added <= MAXOPBLOCKS)
    && |s.lh| + Unused(s.ops) <= LOGBLOCKS
    && (!s.pc.Idle? ==> s.ops == [])
  }

  /** The pinned buffers are exactly those of these blocks. */
  ghost predicate Pinned(cache: map<int, Block>, blocks: seq<int>) {
    forall b {:trigger b in cache} :: b in cache <==> b in blocks
  }

  /** While a group is being collected or written to the log, the cache holds its outcome. */
  ghost predicate GroupOk(s: State, target: seq<Block>) {
    && Pinned(s.cache, s.lh)
    && (forall i :: 0 <= i < |s.hist.group| ==> s.hist.group[i].block in s.lh)
    && var out := Replay(target, s.hist.group);
       && |out| == |s.disk|
       && (forall b {:trigger Home(s.start, |s.disk|, b)} :: Home(s.start, |s.disk|, b) ==>
             out[b] == if b in s.cache then s.cache[b] else target[b])
  }

  ghost predicate Quiet(s: State) {
    s.hist.group == [] && s.cache == map[]
  }

  /** The first `t` slots of the log hold the cached blocks. */
  ghost predicate LoggedUpTo(s: State, t: nat) {
    && t <= |s.lh|
    && forall i :: 0 <= i < t ==>
         s.lh[i] in s.cache && s.start + 1 + i < |s.disk| && s.disk[s.start + 1 + i] == s.cache[s.lh[i]]
  }

  /** The first `t` logged blocks have reached their home. */
  ghost predicate InstalledUpTo(s: State, target: seq<Block>, t: nat) {
    && t <= |s.lh|
    && |target| == |s.disk|
    && forall i :: 0 <= i < t ==> 0 <= s.lh[i] < |s.disk| && s.disk[s.lh[i]] == target[s.lh[i]]
  }

  ghost predicate PhaseOk(s: State, target: seq<Block>)
    requires LogOk(s.start, s.disk)
  {
    var header := GetHeader(s.disk[s.start]);
    match s.pc
    case Idle => header == [] && GroupOk(s, target)
    case WriteLog(t) => header == [] && GroupOk(s, target) && t < |s.lh| && LoggedUpTo(s, t)
    case WriteHead => header == [] && GroupOk(s, target) && s.lh != [] && LoggedUpTo(s, |s.lh|)
    case Install(t) =>
      && header == s.lh && s.hist.group == [] && t < |s.lh| && InstalledUpTo(s, target, t)
      && Pinned(s.cache, s.lh[t..])
    case Clear => header == s.lh && Quiet(s) && InstalledUpTo(s, target, |s.lh|)
    case Finish => header == [] && s.lh == [] && Quiet(s)
    case Boot => s.lh == [] && Quiet(s)
    case Redo(t) => header == s.lh && Quiet(s) && t < |s.lh| && InstalledUpTo(s, target, t)
    case RedoClear => header == s.lh && Quiet(s) && InstalledUpTo(s, target, |s.lh|)
  }

  ghost predicate InNoTxn(h: History, id: nat) {
    forall k :: 0 <= k < |h.txns| ==> Only(h.txns[k], id) == []
  }

  /** All of an operation's writes are in the group under way, and none is committed. */
  ghost predicate AllInGroup(h: History, id: nat) {
    id in h.written && Only(h.group, id) == h.written[id] && InNoTxn(h, id)
  }

  /** All of an operation's writes are in transaction `k`, and in no other. */
  ghost predicate AllInTxn(h: History, k: nat, id: nat)
    requires k < |h.txns|
  {
    && id in h.written && Only(h.txns[k], id) == h.written[id] && Only(h.group, id) == []
    && forall j :: 0 <= j < |h.txns| && j != k ==> Only(h.txns[j], id) == []
  }

  /** Every operation's writes stay together. */
  ghost predicate HistoryOk(h: History, ops: seq<Op>) {
    && h.acked <= |h.txns|
    && (forall i :: 0 <= i < |ops| ==> AllInGroup(h, ops[i].id))
    && (forall id :: Only(h.group, id) != [] ==> AllInGroup(h, id))
    && (forall k, id :: 0 <= k < |h.txns| && Only(h.txns[k], id) != [] ==> AllInTxn(h, k, id))
  }

  ghost predicate DataInv(s: State, target: seq<Block>) {
    && Recoverable(s.start, s.disk, target)
    && MemoryOk(s)
    && PhaseOk(s, target)
  }

  ghost predicate Inv(s: State) {
    DataInv(s, Target(s)) && HistoryOk(s.hist, s.ops)
  }

  // -------- lemmas about the helper functions --------

  lemma ReplaySnoc(disk: seq<Block>, ws: seq<Write>, w: Write)
    ensures Replay(disk, ws + [w]) ==
            var d := Replay(disk, ws); if 0 <= w.block < |d| then d[w.block := w.data] else d
  {
    assert (ws + [w])[..|ws|] == ws;
  }

  lemma ReplayAllSnoc(disk: seq<Block>, txns: seq<seq<Write>>, ws: seq<Write>)
    ensures ReplayAll(disk, txns + [ws]) == Replay(ReplayAll(disk, txns), ws)
  {
    assert (txns + [ws])[..|txns|] == txns;
  }

  lemma OnlySnoc(ws: seq<Write>, w: Write, id: nat)
    ensures Only(ws + [w], id) == Only(ws, id) + if w.op == id then [w] else []
  {
    assert (ws + [w])[..|ws|] == ws;
  }

  lemma UnusedSnoc(ops: seq<Op>, op: Op)
    ensures Unused(ops + [op]) == Unused(ops) + MAXOPBLOCKS - op.added
  {
    assert (ops + [op])[..|ops|] == ops;
  }

  lemma {:induction false} UnusedCat(xs: seq<Op>, ys: seq<Op>)
    ensures Unused(xs + ys) == Unused(xs) + Unused(ys)
  {
    if ys == [] {
      assert xs + ys == xs;
    } else {
      var n := |ys| - 1;
      assert xs + ys == (xs + ys[..n]) + [ys[n]];
      UnusedSnoc(xs + ys[..n], ys[n]);
      UnusedCat(xs, ys[..n]);
    }
  }

  lemma UnusedOne(op: Op)
    ensures Unused([op]) == MAXOPBLOCKS - op.added
  {
    UnusedSnoc([], op);
    assert [] + [op] == [op];
  }

  /** The reservation of one operation can be singled out of the sum. */
  lemma UnusedSplit(ops: seq<Op>, i: nat)
    requires i < |ops|
    ensures Unused(ops) == Unused(ops[..i]) + (MAXOPBLOCKS - ops[i].added) + Unused(ops[i + 1..])
    ensures Unused(ops[..i] + ops[i + 1..]) == Unused(ops[..i]) + Unused(ops[i + 1..])
  {
    hide Unused;
    assert ops == ops[..i] + ([ops[i]] + ops[i + 1..]);
    UnusedCat(ops[..i], [ops[i]] + ops[i + 1..]);
    UnusedCat([ops[i]], ops[i + 1..]);
    UnusedOne(ops[i]);
    UnusedCat(ops[..i], ops[i + 1..]);
  }

  lemma {:induction false} UnusedBounds(ops: seq<Op>)
    requires forall i :: 0 <= i < |ops| ==> ops[i].added <= MAXOPBLOCKS
    ensures 0 <= Unused(ops) <= |ops| * MAXOPBLOCKS
  {
    if ops != [] {
      UnusedBounds(ops[..|ops| - 1]);
    }
  }

  // -------- what each action does to the history --------

  lemma BeginHistory(h: History, ops: seq<Op>, id: nat)
    requires HistoryOk(h, ops) && id !in h.written
    ensures HistoryOk(h.(written := h.written[id := []]), ops + [Op(id, 0)])
  {
    var h' := h.(written := h.written[id := []]);
    assert Only(h.group, id) == [] && InNoTxn(h, id);
    forall i | 0 <= i < |ops| ensures AllInGroup(h', ops[i].id) {
      assert AllInGroup(h, ops[i].id);
    }
    assert AllInGroup(h', id);
    forall j | Only(h.group, j) != [] ensures AllInGroup(h', j) {
      assert AllInGroup(h, j);
    }
    forall k, j | 0 <= k < |h.txns| && Only(h.txns[k], j) != [] ensures AllInTxn(h', k, j) {
      assert AllInTxn(h, k, j);
    }
  }

  /** The history with one more write in the group under way. */
  function Wrote(h: History, w: Write): History
    requires w.op in h.written
  {
    h.(group := h.group + [w], written := h.written[w.op := h.written[w.op] + [w]])
  }

  /** A write by one operation leaves the other operations where they are. */
  lemma WroteGroup(h: History, w: Write, id: nat)
    requires AllInGroup(h, w.op) && (id == w.op || AllInGroup(h, id))
    ensures AllInGroup(Wrote(h, w), id)
  {
    OnlySnoc(h.group, w, id);
  }

  lemma WroteTxn(h: History, w: Write, k: nat, id: nat)
    requires AllInGroup(h, w.op) && k < |h.txns| && Only(h.txns[k], id) != [] && AllInTxn(h, k, id)
    ensures AllInTxn(Wrote(h, w), k, id)
  {
    OnlySnoc(h.group, w, id);
    assert InNoTxn(h, w.op);
  }

  lemma WriteHistory(h: History, ops: seq<Op>, who: nat, w: Write)
    requires HistoryOk(h, ops) && who < |ops| && w.op == ops[who].id
    ensures w.op in h.written && HistoryOk(Wrote(h, w), ops)
  {
    assert AllInGroup(h, w.op);
    hide AllInGroup, AllInTxn, Only;
    var h' := Wrote(h, w);
    forall i | 0 <= i < |ops| ensures AllInGroup(h', ops[i].id) {
      WroteGroup(h, w, ops[i].id);
    }
    forall id | Only(h'.group, id) != [] ensures AllInGroup(h', id) {
      OnlySnoc(h.group, w, id);
      WroteGroup(h, w, id);
    }
    forall k, id | 0 <= k < |h'.txns| && Only(h'.txns[k], id) != [] ensures AllInTxn(h', k, id) {
      WroteTxn(h, w, k, id);
    }
  }

  /** The commit point: the group becomes the next transaction. */
  lemma CommitHistory(h: History)
    requires HistoryOk(h, [])
    ensures HistoryOk(h.(txns := h.txns + [h.group], group := []), [])
  {
    var h' := h.(txns := h.txns + [h.group], group := []);
    forall k, id | 0 <= k < |h'.txns| && Only(h'.txns[k], id) != [] ensures AllInTxn(h', k, id) {
      if k < |h.txns| {
        assert AllInTxn(h, k, id);
      } else {
        assert AllInGroup(h, id);
      }
    }
  }

  /** A crash, or the end of an operation, leaves fewer operations outstanding. */
  lemma FewerOpsHistory(h: History, ops: seq<Op>, ops': seq<Op>, dropGroup: bool)
    requires HistoryOk(h, ops)
    requires forall op :: op in ops' ==> op in ops
    requires dropGroup ==> ops' == []
    ensures HistoryOk(if dropGroup then h.(group := []) else h, ops')
  {
    var h' := if dropGroup then h.(group := []) else h;
    forall i | 0 <= i < |ops'| ensures AllInGroup(h', ops'[i].id) {
      assert ops'[i] in ops;
    }
    forall k, id | 0 <= k < |h.txns| && Only(h.txns[k], id) != [] ensures AllInTxn(h', k, id) {
      assert AllInTxn(h, k, id);
    }
  }

  // -------- preservation, one lemma per action --------

  lemma BeginMemory(s: State, id: nat)
    requires MemoryOk(s) && Enabled(s, BeginOp(id))
    requires forall i :: 0 <= i < |s.ops| ==> s.ops[i].id != id
    ensures MemoryOk(Next(s, BeginOp(id)))
  {
    UnusedBounds(s.ops);
    UnusedSnoc(s.ops, Op(id, 0));
  }

  lemma BeginData(s: State, target: seq<Block>, id: nat)
    requires DataInv(s, target) && Enabled(s, BeginOp(id))
    requires forall i :: 0 <= i < |s.ops| ==> s.ops[i].id != id
    ensures DataInv(Next(s, BeginOp(id)), target)
  {
    BeginMemory(s, id);
    assert GroupOk(Next(s, BeginOp(id)), target);
  }

  lemma BeginKeeps(s: State, id: nat)
    requires Inv(s) && Enabled(s, BeginOp(id))
    ensures Inv(Next(s, BeginOp(id)))
  {
    BeginHistory(s.hist, s.ops, id);
    forall i | 0 <= i < |s.ops| ensures s.ops[i].id != id {
      assert AllInGroup(s.hist, s.ops[i].id);
    }
    BeginData(s, Target(s), id);
  }

  /** An operation within its allowance never meets the "too big a transaction" panic. */
  lemma NoPanicWithinReservation(s: State, who: nat)
    requires Inv(s) && who < |s.ops| && s.ops[who].added < MAXOPBLOCKS
    ensures |s.lh| < LOGBLOCKS
  {
    UnusedSplit(s.ops, who);
    UnusedBounds(s.ops[..who]);
    UnusedBounds(s.ops[who + 1..]);
  }

  lemma LogWriteMemory(s: State, who: nat, b: int, data: Block)
    requires MemoryOk(s) && Enabled(s, LogWrite(who, b, data))
    ensures MemoryOk(Next(s, LogWrite(who, b, data)))
  {
    var s' := Next(s, LogWrite(who, b, data));
    UnusedSplit(s.ops, who);
    UnusedSplit(s'.ops, who);
    assert s'.ops[..who] == s.ops[..who] && s'.ops[who + 1..] == s.ops[who + 1..];
  }

  lemma LogWriteGroup(s: State, target: seq<Block>, who: nat, b: int, data: Block)
    requires GroupOk(s, target) && |target| == |s.disk| && Enabled(s, LogWrite(who, b, data))
    ensures GroupOk(Next(s, LogWrite(who, b, data)), target)
  {
    var s' := Next(s, LogWrite(who, b, data));
    ReplaySnoc(target, s.hist.group, Write(s.ops[who].id, b, data));
    assert forall c :: c in s'.lh <==> c in s.lh || c == b;
  }

  lemma LogWriteData(s: State, target: seq<Block>, who: nat, b: int, data: Block)
    requires DataInv(s, target) && Enabled(s, LogWrite(who, b, data))
    ensures DataInv(Next(s, LogWrite(who, b, data)), target)
  {
    LogWriteMemory(s, who, b, data);
    LogWriteGroup(s, target, who, b, data);
  }

  lemma LogWriteKeeps(s: State, who: nat, b: int, data: Block)
    requires Inv(s) && Enabled(s, LogWrite(who, b, data))
    ensures Inv(Next(s, LogWrite(who, b, data)))
  {
    hide DataInv, AllInGroup, AllInTxn, Only, ReplayAll;
    var s' := Next(s, LogWrite(who, b, data));
    LogWriteData(s, Target(s), who, b, data);
    WriteHistory(s.hist, s.ops, who, Write(s.ops[who].id, b, data));
    forall i | 0 <= i < |s'.ops| ensures AllInGroup(s'.hist, s'.ops[i].id) {
      assert s'.ops[i].id == s.ops[i].id;
    }
  }

  lemma EndMemory(s: State, who: nat)
    requires MemoryOk(s) && Enabled(s, EndOp(who))
    ensures MemoryOk(Next(s, EndOp(who)))
  {
    var s' := Next(s, EndOp(who));
    assert forall i :: 0 <= i < |s'.ops| ==> s'.ops[i] == s.ops[if i < who then i else i + 1];
    UnusedSplit(s.ops, who);
  }

  /** A group that logged no block wrote nothing. */
  lemma EmptyGroup(s: State, target: seq<Block>)
    requires GroupOk(s, target) && s.lh == []
    ensures Quiet(s)
  {
    assert s.hist.group == [] by {
      if |s.hist.group| > 0 { assert false; }
    }
    NothingCached(s.cache);
  }

  lemma EndData(s: State, target: seq<Block>, who: nat)
    requires DataInv(s, target) && Enabled(s, EndOp(who))
    ensures DataInv(Next(s, EndOp(who)), target)
  {
    var s' := Next(s, EndOp(who));
    EndMemory(s, who);
    assert GroupOk(s', target);
    if s.lh == [] {
      EmptyGroup(s, target);
    }
  }

  lemma EndKeeps(s: State, who: nat)
    requires Inv(s) && Enabled(s, EndOp(who))
    ensures Inv(Next(s, EndOp(who)))
  {
    EndData(s, Target(s), who);
    FewerOpsHistory(s.hist, s.ops, s.ops[..who] + s.ops[who + 1..], false);
  }

  lemma CrashKeeps(s: State)
    requires Inv(s)
    ensures Inv(Next(s, Crash))
  {
    FewerOpsHistory(s.hist, s.ops, [], true);
  }

  // -------- what a single block write does to the disk --------

  /** While the header is empty the log slots may be overwritten. */
  lemma SlotWrite(start: nat, disk: seq<Block>, target: seq<Block>, t: nat, data: Block)
    requires Recoverable(start, disk, target) && GetHeader(disk[start]) == [] && t < LOGBLOCKS
    ensures Recoverable(start, disk[start + 1 + t := data], target)
    ensures GetHeader(disk[start + 1 + t := data][start]) == []
  {
  }

  /** Writing a header turns the contents of the log slots into part of the target. */
  lemma HeadWrite(start: nat, disk: seq<Block>, lh: seq<int>, target: seq<Block>)
    requires Fits(start, |disk|, lh) && Distinct(lh) && |target| == |disk|
    requires forall i :: 0 <= i < |lh| ==> disk[start + 1 + i] == target[lh[i]]
    requires forall b {:trigger Home(start, |disk|, b)} :: Home(start, |disk|, b) && b !in lh ==> disk[b] == target[b]
    ensures var d := disk[start := PutHeader(disk[start], lh)];
            Recoverable(start, d, target) && GetHeader(d[start]) == lh && SameHome(start, d, disk)
  {
    HeaderRoundTrip(disk[start], lh);
  }

  /** Installing one logged block keeps the disk recoverable and brings that block home. */
  lemma HomeWrite(start: nat, disk: seq<Block>, target: seq<Block>, lh: seq<int>, t: nat)
    requires Recoverable(start, disk, target) && lh == GetHeader(disk[start]) && t < |lh|
    ensures var d := disk[lh[t] := disk[start + 1 + t]];
            && Recoverable(start, d, target) && GetHeader(d[start]) == lh
            && d[lh[t]] == target[lh[t]]
            && forall i :: 0 <= i < |lh| && i != t ==> d[lh[i]] == disk[lh[i]]
  {
  }

  // -------- preservation by the steps of commit and recovery --------

  lemma WriteLogKeeps(s: State, target: seq<Block>)
    requires DataInv(s, target) && s.pc.WriteLog? && Enabled(s, Tick)
    ensures DataInv(Next(s, Tick), target)
  {
    var s' := Next(s, Tick);
    var t := s.pc.tail;
    SlotWrite(s.start, s.disk, target, t, s.cache[s.lh[t]]);
    assert LoggedUpTo(s', t + 1);
    assert GroupOk(s', target);
  }

  /** The commit point: the header write moves the target to the outcome of the group. */
  lemma WriteHeadKeeps(s: State, target: seq<Block>)
    requires DataInv(s, target) && s.pc.WriteHead? && Enabled(s, Tick)
    ensures DataInv(Next(s, Tick), Replay(target, s.hist.group))
  {
    var s' := Next(s, Tick);
    var out := Replay(target, s.hist.group);
    assert forall b {:trigger Home(s.start, |s.disk|, b)} :: Home(s.start, |s.disk|, b) && b !in s.lh ==> s.disk[b] == out[b];
    HeadWrite(s.start, s.disk, s.lh, out);
    assert s'.lh[0..] == s.lh;
  }

  lemma NothingCached<V>(cache: map<int, V>)
    requires forall b: int :: b !in cache
    ensures cache == map[]
  {
    var none: map<int, V> := map[];
    assert forall b: int :: b in cache <==> b in none;
    assert cache == none;
  }

  /** install_trans() unpins exactly the block it has just written. */
  lemma UnpinOne(lh: seq<int>, t: nat, cache: map<int, Block>)
    requires Distinct(lh) && t < |lh|
    requires Pinned(cache, lh[t..])
    ensures Pinned(cache - {lh[t]}, lh[t + 1..])
    ensures t + 1 == |lh| ==> cache - {lh[t]} == map[]
  {
    assert lh[t..] == [lh[t]] + lh[t + 1..];
    if t + 1 == |lh| {
      NothingCached(cache - {lh[t]});
    }
  }

  /** Installing slot `t` extends the installed part by one block. */
  lemma InstallOne(s: State, target: seq<Block>, t: nat)
    requires Recoverable(s.start, s.disk, target) && GetHeader(s.disk[s.start]) == s.lh
    requires t < |s.lh| && InstalledUpTo(s, target, t)
    ensures var s' := s.(disk := s.disk[s.lh[t] := s.disk[s.start + 1 + t]]);
            && Recoverable(s.start, s'.disk, target) && GetHeader(s'.disk[s.start]) == s.lh
            && InstalledUpTo(s', target, t + 1)
  {
    HomeWrite(s.start, s.disk, target, s.lh, t);
  }

  lemma InstallKeeps(s: State, target: seq<Block>)
    requires DataInv(s, target) && s.pc.Install? && Enabled(s, Tick)
    ensures DataInv(Next(s, Tick), target)
  {
    hide Recoverable, Pinned, InstalledUpTo, Distinct, HeaderOk, GetHeader;
    var t := s.pc.tail;
    InstallOne(s, target, t);
    UnpinOne(s.lh, t, s.cache);
    assert InstalledUpTo(Next(s, Tick), target, t + 1) by {
      InstalledMore(s.(disk := s.disk[s.lh[t] := s.disk[s.start + 1 + t]]), Next(s, Tick), target, t + 1);
    }
  }

  lemma InstalledMore(s: State, s': State, target: seq<Block>, t: nat)
    requires InstalledUpTo(s, target, t) && s'.disk == s.disk && s'.lh == s.lh
    ensures InstalledUpTo(s', target, t)
  {
  }

  lemma RedoKeeps(s: State, target: seq<Block>)
    requires DataInv(s, target) && s.pc.Redo? && Enabled(s, Tick)
    ensures DataInv(Next(s, Tick), target)
  {
    var t := s.pc.tail;
    InstallOne(s, target, t);
    var s' := Next(s, Tick);
    assert InstalledUpTo(s', target, t + 1);
    assert MemoryOk(s');
    assert PhaseOk(s', target);
  }

  /** Once every logged block is home the header can be cleared. */
  lemma ClearKeeps(s: State, target: seq<Block>)
    requires DataInv(s, target) && (s.pc.Clear? || s.pc.RedoClear?) && Enabled(s, Tick)
    ensures DataInv(Next(s, Tick), target)
    ensures SameHome(s.start, Next(s, Tick).disk, target)
  {
    assert SameHome(s.start, s.disk, target) by {
      forall b | Home(s.start, |s.disk|, b) ensures s.disk[b] == target[b] {
        if b in s.lh {
          var i :| 0 <= i < |s.lh| && s.lh[i] == b;
        }
      }
    }
    HeadWrite(s.start, s.disk, [], target);
  }

  lemma TickKeeps(s: State)
    requires Inv(s) && Enabled(s, Tick)
    ensures Inv(Next(s, Tick))
  {
    var target := Target(s);
    match s.pc
    case WriteLog(_) => WriteLogKeeps(s, target);
    case WriteHead =>
      WriteHeadKeeps(s, target);
      CommitHistory(s.hist);
      ReplayAllSnoc(s.hist.base, s.hist.txns, s.hist.group);
    case Install(_) => InstallKeeps(s, target);
    case Redo(_) => RedoKeeps(s, target);
    case Clear => ClearKeeps(s, target);
    case RedoClear => ClearKeeps(s, target);
    case Boot =>
    case Finish =>
      assert GroupOk(Next(s, Tick), target);
    case Idle =>
  }

  lemma StepKeeps(s: State, a: Action)
    requires Inv(s) && Enabled(s, a)
    ensures Inv(Next(s, a))
  {
    match a
    case BeginOp(id) => BeginKeeps(s, id);
    case LogWrite(who, b, data) => LogWriteKeeps(s, who, b, data);
    case EndOp(who) => EndKeeps(s, who);
    case Tick => TickKeeps(s);
    case Crash => CrashKeeps(s);
  }

  lemma InitHolds(s: State)
    requires Init(s)
    ensures Inv(s)
  {
    assert GetHeader(s.disk[s.start]) == [];
  }

  /** The invariant holds in every state of every run. */
  lemma {:induction false} RunInv(run: seq<State>, acts: seq<Action>, i: nat)
    requires IsRun(run, acts) && i < |run|
    ensures Inv(run[i])
    ensures run[i].start == run[0].start && run[i].hist.base == run[0].disk
  {
    if i == 0 {
      InitHolds(run[0]);
    } else {
      RunInv(run, acts, i - 1);
      StepKeeps(run[i - 1], acts[i - 1]);
    }
  }

  // -------- crash atomicity --------

  lemma {:induction false} InstallReachesTarget(start: nat, disk: seq<Block>, target: seq<Block>, lh: seq<int>, t: nat)
    requires Recoverable(start, disk, target) && lh == GetHeader(disk[start]) && t <= |lh|
    requires forall i :: 0 <= i < t ==> disk[lh[i]] == target[lh[i]]
    ensures SameHome(start, InstallFrom(start, disk, lh, t), target)
    decreases |lh| - t
  {
    if t == |lh| {
      forall b | Home(start, |disk|, b) ensures disk[b] == target[b] {
        if b in lh {
          var i :| 0 <= i < |lh| && lh[i] == b;
        }
      }
    } else {
      HomeWrite(start, disk, target, lh, t);
      InstallReachesTarget(start, disk[lh[t] := disk[start + 1 + t]], target, lh, t + 1);
    }
  }

  /** With an empty log the disk itself is the target. */
  lemma HomeWhenEmpty(s: State)
    requires Inv(s) && GetHeader(s.disk[s.start]) == []
    ensures SameHome(s.start, s.disk, Target(s))
  {
  }

  /** At any point of any run, a crash followed by a recovery leaves the home blocks exactly as
      the committed transactions, replayed in order on the initial image, leave them; and
      whenever neither commit nor recovery is under way the disk already is that image. */
  lemma CrashAtomicity(run: seq<State>, acts: seq<Action>, i: nat)
    requires IsRun(run, acts) && i < |run|
    ensures LogOk(run[0].start, run[i].disk)
    ensures SameHome(run[0].start, Recover(run[0].start, run[i].disk), ReplayAll(run[0].disk, run[i].hist.txns))
    ensures run[i].pc.Idle? ==> SameHome(run[0].start, run[i].disk, ReplayAll(run[0].disk, run[i].hist.txns))
  {
    RunInv(run, acts, i);
    var s := run[i];
    InstallReachesTarget(s.start, s.disk, Target(s), GetHeader(s.disk[s.start]), 0);
  }

  /** Committed transactions are never lost, reordered or changed by later steps or crashes, and
      every commit that end_op has finished is among them. */
  lemma {:induction false} CommittedForever(run: seq<State>, acts: seq<Action>, i: nat, j: nat)
    requires IsRun(run, acts) && i <= j < |run|
    ensures run[i].hist.txns <= run[j].hist.txns
    ensures run[i].hist.acked <= |run[i].hist.txns|
  {
    RunInv(run, acts, i);
    if i < j {
      CommittedForever(run, acts, i, j - 1);
    }
  }

  /** The writes operation `id` issued in the first `n` steps of a run. */
  function Issued(run: seq<State>, acts: seq<Action>, n: nat, id: nat): seq<Write>
    requires IsRun(run, acts) && n <= |acts|
  {
    if n == 0 then []
    else
      var before := Issued(run, acts, n - 1, id);
      match acts[n - 1]
      case LogWrite(who, b, data) =>
        if run[n - 1].ops[who].id == id then before + [Write(id, b, data)] else before
      case _ => before
  }

  function Written(h: History, id: nat): seq<Write> {
    if id in h.written then h.written[id] else []
  }

  lemma {:induction false} WrittenIsIssued(run: seq<State>, acts: seq<Action>, n: nat, id: nat)
    requires IsRun(run, acts) && n <= |acts|
    ensures Issued(run, acts, n, id) == Written(run[n].hist, id)
  {
    if n > 0 {
      WrittenIsIssued(run, acts, n - 1, id);
      var s, a := run[n - 1], acts[n - 1];
      assert run[n] == Next(s, a);
      if a.LogWrite? {
        assert Written(run[n].hist, id) ==
               Written(s.hist, id) + if s.ops[a.who].id == id then [Write(id, a.block, a.data)] else [];
      } else {
        assert Written(run[n].hist, id) == Written(s.hist, id);
      }
    }
  }

  /** An operation is never split: all the writes it issued are in one committed transaction,
      or none of them is in any. */
  lemma OperationsAreAtomic(run: seq<State>, acts: seq<Action>, i: nat, id: nat)
    requires IsRun(run, acts) && i < |run|
    ensures var txns := run[i].hist.txns;
            || (forall k :: 0 <= k < |txns| ==> Only(txns[k], id) == [])
            || (exists k :: && 0 <= k < |txns| && Only(txns[k], id) == Issued(run, acts, i, id)
                            && forall j :: 0 <= j < |txns| && j != k ==> Only(txns[j], id) == [])
  {
    RunInv(run, acts, i);
    WrittenIsIssued(run, acts, i, id);
    var h := run[i].hist;
    if k :| 0 <= k < |h.txns| && Only(h.txns[k], id) != [] {
      assert AllInTxn(h, k, id);
      assert Only(h.txns[k], id) == Issued(run, acts, i, id);
    }
  }

  // -------- group commit and space --------

  /** Committing excludes outstanding operations and freezes the log until it is erased; logged
      blocks are distinct; used slots plus unused reservations fit; and an operation within its
      allowance never meets the "too big a transaction" panic. */
  lemma GroupCommit(run: seq<State>, acts: seq<Action>, i: nat)
    requires IsRun(run, acts) && i < |run|
    ensures Committing(run[i]) ==> run[i].ops == []
    ensures Distinct(run[i].lh)
    ensures |run[i].lh| + Unused(run[i].ops) <= LOGBLOCKS
    ensures forall who :: 0 <= who < |run[i].ops| && run[i].ops[who].added < MAXOPBLOCKS ==> |run[i].lh| < LOGBLOCKS
    ensures Committing(run[i]) && i < |acts| && !acts[i].Crash? && !run[i].pc.Clear? ==>
              acts[i].Tick? && run[i + 1].lh == run[i].lh
  {
    RunInv(run, acts, i);
    forall who | 0 <= who < |run[i].ops| && run[i].ops[who].added < MAXOPBLOCKS ensures |run[i].lh| < LOGBLOCKS {
      NoPanicWithinReservation(run[i], who);
    }
  }

  /** commit() and recover_from_log() can always take their next step. */
  lemma NeverStuck(run: seq<State>, acts: seq<Action>, i: nat)
    requires IsRun(run, acts) && i < |run| && !run[i].pc.Idle?
    ensures Enabled(run[i], Tick)
  {
    RunInv(run, acts, i);
  }

  // -------- the panic that absorption does not escape --------

  /** The two tests log_write() makes before it looks for an absorbing slot. */
  predicate LogWritePanics(s: State) {
    |s.lh| >= LOGBLOCKS || |s.ops| < 1
  }

  /** With an operation outstanding, log_write() panics exactly when the log is full, and then every
      outstanding operation has used up its whole allowance. */
  lemma PanicsExactlyWhenFull(run: seq<State>, acts: seq<Action>, i: nat)
    requires IsRun(run, acts) && i < |run| && run[i].ops != []
    ensures LogWritePanics(run[i]) <==> |run[i].lh| == LOGBLOCKS
    ensures LogWritePanics(run[i]) ==>
              forall who :: 0 <= who < |run[i].ops| ==> run[i].ops[who].added == MAXOPBLOCKS
  {
    RunInv(run, acts, i);
    GroupCommit(run, acts, i);
  }

  /** What operation `j` of three has added when the log holds `k` blocks. */
  function Share(k: nat, j: nat): nat {
    if k <= MAXOPBLOCKS * j then 0
    else if k <= MAXOPBLOCKS * (j + 1) then k - MAXOPBLOCKS * j
    else MAXOPBLOCKS
  }

  ghost predicate Filled(s: State, k: nat) {
    && s.pc.Idle? && s.start == 0 && |s.disk| == 100
    && |s.lh| == k && (forall i :: 0 <= i < k ==> s.lh[i] == LOGBLOCKS + 1 + i)
    && |s.ops| == 3 && (forall j :: 0 <= j < 3 ==> s.ops[j].added == Share(k, j) && s.ops[j].id in s.hist.written)
  }

  lemma Extend(run: seq<State>, acts: seq<Action>, a: Action)
    requires IsRun(run, acts) && Enabled(run[|acts|], a)
    ensures IsRun(run + [Next(run[|acts|], a)], acts + [a])
  {
  }

  /** Booting a fresh image and beginning three operations. */
  lemma ThreeBegun() returns (run: seq<State>, acts: seq<Action>)
    ensures IsRun(run, acts) && Filled(run[|acts|], 0)
  {
    var image: seq<Block> := seq(100, _ => seq(WORDS, _ => 0));
    run, acts := [State(0, image, Boot, [], map[], [], History(image, [], [], map[], 0))], [];
    var todo := [Tick, Tick, BeginOp(0), BeginOp(1), BeginOp(2)];
    var i := 0;
    while i < 5
      invariant 0 <= i <= 5 && IsRun(run, acts) && |acts| == i
      invariant var s := run[i];
        && s.start == 0 && |s.disk| == 100 && s.lh == [] && s.disk[0][0] == 0
        && s.pc == (if i == 0 then Boot else if i == 1 then RedoClear else Idle)
        && |s.ops| == (if i < 2 then 0 else i - 2)
        && (forall j :: 0 <= j < |s.ops| ==> s.ops[j] == Op(j, 0))
        && (forall id :: id in s.hist.written <==> 0 <= id < |s.ops|)
    {
      Extend(run, acts, todo[i]);
      run, acts := run + [Next(run[|acts|], todo[i])], acts + [todo[i]];
      i := i + 1;
    }
  }

  lemma {:induction false} FillLog(k: nat) returns (run: seq<State>, acts: seq<Action>)
    requires k <= LOGBLOCKS
    ensures IsRun(run, acts) && Filled(run[|acts|], k)
  {
    if k == 0 {
      run, acts := ThreeBegun();
    } else {
      run, acts := FillLog(k - 1);
      var a := LogWrite((k - 1) / MAXOPBLOCKS, LOGBLOCKS + k, seq(WORDS, _ => 0));
      Extend(run, acts, a);
      run, acts := run + [Next(run[|acts|], a)], acts + [a];
    }
  }

  /** log_write() of block `b`, for which the log already has a slot, panics. */
  ghost predicate AbsorbedPanics(s: State, who: nat, b: int) {
    who < |s.ops| && b in s.lh && Home(s.start, |s.disk|, b) && LogWritePanics(s)
  }

  /** Three operations that each logged exactly MAXOPBLOCKS blocks fill the log; a further write
      by any of them to any block already logged needs no new slot, but panics. */
  lemma AbsorbedWriteCanPanic()
    ensures exists run: seq<State>, acts: seq<Action> ::
              && IsRun(run, acts) && Filled(run[|acts|], LOGBLOCKS)
              && forall who: nat, b :: who < 3 && b in run[|acts|].lh ==> AbsorbedPanics(run[|acts|], who, b)
  {
    var run, acts := FillLog(LOGBLOCKS);
  }
}
