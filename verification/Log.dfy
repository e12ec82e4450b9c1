/**
  kernel/log.c in its own form: the in-memory log is updated in place and the disk is written
  one block at a time.  Each method takes the log machine through the steps it stands for, so
  everything proved about runs of the machine holds at every disk write made here.
*/
module Log {
  import opened LogModel
  import opened LogProofs
  import opened Params

  class Log {
    const start: nat
    const disk: array<Block>
    const block: array<int>
    var n: nat
    var outstanding: nat
    var committing: bool
    var cache: map<int, Block>
    ghost var run: seq<State>
    ghost var acts: seq<Action>

    ghost function Now(): State
      reads this
      requires run != []
    {
      run[|run| - 1]
    }

    ghost predicate Valid()
      reads this, disk, block
    {
      && IsRun(run, acts)
      && var s := Now();
         && start == s.start && disk[..] == s.disk
         && block.Length == LOGBLOCKS && n == |s.lh| && n <= LOGBLOCKS && block[..n] == s.lh
         && outstanding == |s.ops| && committing == Committing(s)
         && cache == s.cache
    }

    /** Mount a fresh image, whose log is empty. */
    constructor (start: nat, image: array<Block>)
      requires start + LOGBLOCKS < image.Length && image[start][0] == 0
      ensures Valid() && Now().pc.Boot? && run[0].disk == image[..]
      ensures disk == image && fresh(block) && this.start == start
    {
      this.start := start;
      disk := image;
      block := new int[LOGBLOCKS];
      n, outstanding, committing, cache := 0, 0, false, map[];
      var s := State(start, image[..], Boot, [], map[], [], History(image[..], [], [], map[], 0));
      run, acts := [s], [];
    }

    /** The machine's own record of a step. */
    ghost method Did(a: Action)
      requires IsRun(run, acts) && Enabled(Now(), a)
      modifies this`run, this`acts
      ensures IsRun(run, acts) && Now() == Next(old(Now()), a)
      ensures run == old(run) + [Next(old(Now()), a)]
    {
      run, acts := run + [Next(Now(), a)], acts + [a];
    }

    /** The invariant of the machine, for the current state. */
    lemma Invariant()
      requires Valid()
      ensures Inv(Now()) && Now().hist.base == run[0].disk
    {
      RunInv(run, acts, |run| - 1);
    }

    /** The next step of commit or recovery is possible, and log slots are never pinned. */
    lemma StepFacts(t: nat)
      requires Valid() && !Now().pc.Idle?
      ensures Enabled(Now(), Tick)
      ensures t < LOGBLOCKS ==> start + 1 + t !in cache
    {
      Invariant();
      assert t < LOGBLOCKS ==> !Home(start, |Now().disk|, start + 1 + t);
    }

    /** Erase the log once every logged block is home. */
    method EraseLog()
      requires Valid() && (Now().pc == Clear || Now().pc == RedoClear)
      modifies this`run, this`acts, this`n, disk
      ensures Valid() && old(run) < run && Enabled(old(Now()), Tick) && Now() == Next(old(Now()), Tick)
      ensures SameHome(start, disk[..], ReplayAll(run[0].disk, Now().hist.txns))
    {
      Invariant();
      ClearKeeps(Now(), Target(Now()));
      n := 0;
      WriteHead();
      Did(Tick);
    }

    /** A buffer read: pinned blocks come from the cache, others are as on disk. */
    function Bread(b: int): Block
      reads this, disk
      requires 0 <= b < disk.Length
    {
      if b in cache then cache[b] else disk[b]
    }

    method WriteLog()
      requires Valid() && Now().pc == Pc.WriteLog(0)
      modifies this`run, this`acts, disk
      ensures Valid() && old(run) <= run && Now().pc == Pc.WriteHead
      ensures Now().lh == old(Now().lh) && Now().hist == old(Now().hist)
    {
      StepFacts(0);
      var tail := 0;
      while tail < n
        invariant tail <= n && Valid() && old(run) <= run
        invariant Now().pc == if tail < n then Pc.WriteLog(tail) else Pc.WriteHead
        invariant Now().lh == old(Now().lh) && Now().hist == old(Now().hist)
      {
        StepFacts(tail);
        assert block[tail] == block[..n][tail];
        var from := Bread(block[tail]);
        disk[start + tail + 1] := from;
        Did(Tick);
        tail := tail + 1;
      }
    }

    /** Writes the in-memory header over the first words of the header block. */
    method WriteHead()
      requires block.Length == LOGBLOCKS && n <= LOGBLOCKS && start < disk.Length
      modifies disk
      ensures disk[..] == old(disk[..])[start := PutHeader(old(disk[start]), block[..n])]
    {
      var hb := disk[start];
      hb := hb[0 := n];
      var i := 0;
      while i < n
        invariant i <= n
        invariant hb == [n] + block[..i] + old(disk[start])[1 + i..]
      {
        hb := hb[1 + i := block[i]];
        i := i + 1;
      }
      disk[start] := hb;
    }

    /** install_trans(0): copy the committed blocks home and unpin them. */
    method InstallTrans()
      requires Valid() && Now().pc == Install(0)
      modifies this`run, this`acts, this`cache, disk
      ensures Valid() && old(run) <= run && Now().pc == Clear
      ensures Now().lh == old(Now().lh) && Now().hist == old(Now().hist)
    {
      StepFacts(0);
      var tail := 0;
      while tail < n
        invariant tail <= n && Valid() && old(run) <= run
        invariant Now().pc == if tail < n then Install(tail) else Clear
        invariant Now().lh == old(Now().lh) && Now().hist == old(Now().hist)
      {
        StepFacts(tail);
        assert block[tail] == block[..n][tail];
        var lbuf := Bread(start + tail + 1);
        disk[block[tail]] := lbuf;
        cache := cache - {block[tail]};
        Did(Tick);
        tail := tail + 1;
      }
    }

    /** install_trans(1): the same copies after a reboot, when nothing is pinned. */
    method ReinstallTrans()
      requires Valid() && Now().pc == if n > 0 then Redo(0) else RedoClear
      modifies this`run, this`acts, disk
      ensures Valid() && old(run) <= run && Now().pc == RedoClear
      ensures Now().lh == old(Now().lh) && Now().hist == old(Now().hist)
    {
      var tail := 0;
      while tail < n
        invariant tail <= n && Valid() && old(run) <= run
        invariant Now().pc == if tail < n then Redo(tail) else RedoClear
        invariant Now().lh == old(Now().lh) && Now().hist == old(Now().hist)
      {
        StepFacts(tail);
        assert block[tail] == block[..n][tail];
        var lbuf := Bread(start + tail + 1);
        disk[block[tail]] := lbuf;
        Did(Tick);
        tail := tail + 1;
      }
    }

    /** commit(): afterwards the group is a committed transaction, and it is home. */
    method Commit()
      requires Valid() && Now().pc == if n > 0 then Pc.WriteLog(0) else Finish
      modifies this`run, this`acts, this`cache, this`n, disk
      ensures Valid() && old(run) <= run && Now().pc == Finish
      ensures Now().hist.txns == old(Now().hist.txns) + if old(n) > 0 then [old(Now().hist.group)] else []
      ensures SameHome(start, disk[..], ReplayAll(run[0].disk, Now().hist.txns))
    {
      if n > 0 {
        WriteLog();
        StepFacts(0);
        WriteHead();
        Did(Tick);
        InstallTrans();
        EraseLog();
      } else {
        Invariant();
        HomeWhenEmpty(Now());
      }
    }

    /** recover_from_log(), run at boot: afterwards the home blocks are exactly what the
        committed transactions make of the initial image. */
    method RecoverFromLog()
      requires Valid() && Now().pc == Boot
      modifies this`run, this`acts, this`n, disk, block
      ensures Valid() && old(run) <= run && Now().pc == Idle
      ensures Now().hist.txns == old(Now().hist.txns)
      ensures SameHome(start, disk[..], ReplayAll(run[0].disk, Now().hist.txns))
    {
      Invariant();
      ReadHead();
      Did(Tick);
      ReinstallTrans();
      EraseLog();
    }

    method ReadHead()
      requires block.Length == LOGBLOCKS && start < disk.Length && HeaderOk(disk[start])
      modifies this`n, block
      ensures n <= LOGBLOCKS && n == |GetHeader(disk[start])| && block[..n] == GetHeader(disk[start])
    {
      var lh := disk[start];
      n := lh[0];
      var i := 0;
      while i < n
        invariant i <= n == lh[0] && block[..i] == lh[1..1 + i]
      {
        block[i] := lh[1 + i];
        i := i + 1;
      }
    }

    /** begin_op(): refuses (the caller sleeps) while a commit runs or space might run out. */
    method BeginOp(ghost id: nat) returns (admitted: bool)
      requires Valid() && (Now().pc.Idle? || Committing(Now())) && id !in Now().hist.written
      modifies this`run, this`acts, this`outstanding
      ensures Valid()
      ensures admitted <==> Enabled(old(Now()), LogModel.BeginOp(id))
      ensures admitted <==> !old(committing) && old(n) + (old(outstanding) + 1) * MAXOPBLOCKS <= LOGBLOCKS
      ensures outstanding == if admitted then old(outstanding) + 1 else old(outstanding)
      ensures if admitted then run == old(run) + [Next(old(Now()), LogModel.BeginOp(id))] else run == old(run)
    {
      Invariant();
      if committing || n + (outstanding + 1) * MAXOPBLOCKS > LOGBLOCKS {
        return false;
      }
      outstanding := outstanding + 1;
      Did(LogModel.BeginOp(id));
      return true;
    }

    /** No log_write within its allowance panics, nor one absorbed into a log with room. */
    lemma MayWrite(who: nat, b: int, data: Block)
      requires Valid() && Now().pc.Idle? && who < |Now().ops| && Home(start, disk.Length, b)
      requires Now().ops[who].added < MAXOPBLOCKS || (b in Now().lh && n < LOGBLOCKS)
      ensures Enabled(Now(), LogModel.LogWrite(who, b, data))
    {
      Invariant();
      if Now().ops[who].added < MAXOPBLOCKS {
        NoPanicWithinReservation(Now(), who);
      }
      assert AllInGroup(Now().hist, Now().ops[who].id);
    }

    /** log_write(), for an operation that has not used up its allowance or writes a block that
        is already logged: absorbs the write into its slot or takes a new slot. */
    method LogWrite(ghost who: nat, b: int, data: Block)
      requires Valid() && Now().pc.Idle? && who < |Now().ops|
      requires Home(start, disk.Length, b)
      requires Now().ops[who].added < MAXOPBLOCKS || (b in Now().lh && n < LOGBLOCKS)
      modifies this`run, this`acts, this`n, this`cache, block
      ensures Valid() && Enabled(old(Now()), LogModel.LogWrite(who, b, data))
      ensures run == old(run) + [Next(old(Now()), LogModel.LogWrite(who, b, data))]
    {
      MayWrite(who, b, data);
      var i := 0;
      while i < n && block[i] != b
        invariant i <= n && forall k :: 0 <= k < i ==> block[k] != b
      {
        i := i + 1;
      }
      assert i < n ==> block[..n][i] == b;
      assert b in Now().lh <==> i < n;
      block[i] := b;
      if i == n {
        n := n + 1;
      }
      cache := cache[b := data];
      Did(LogModel.LogWrite(who, b, data));
      assert block[..n] == old(block[..n]) + if i == old(n) then [b] else [];
    }

    /** The locked part of end_op(): the last operation out takes on the commit. */
    method LeaveOp(ghost who: nat) returns (doCommit: bool)
      requires Valid() && Now().pc.Idle? && who < |Now().ops|
      modifies this`run, this`acts, this`outstanding, this`committing
      ensures Valid() && doCommit == (old(outstanding) == 1)
      ensures run == old(run) + [Next(old(Now()), LogModel.EndOp(who))]
    {
      doCommit := false;
      outstanding := outstanding - 1;
      if outstanding == 0 {
        doCommit := true;
        committing := true;
      }
      Did(LogModel.EndOp(who));
    }

    /** The second locked part of end_op(). */
    method FinishCommit()
      requires Valid() && Now().pc.Finish?
      modifies this`run, this`acts, this`committing
      ensures Valid() && old(run) < run && Now().pc.Idle?
      ensures Now().hist == old(Now().hist).(acked := |old(Now().hist.txns)|)
    {
      StepFacts(0);
      committing := false;
      Did(Tick);
    }

    /** end_op(): the last operation out commits the whole group before it returns. */
    method EndOp(ghost who: nat)
      requires Valid() && Now().pc.Idle? && who < |Now().ops|
      modifies this`run, this`acts, this`n, this`cache, this`outstanding, this`committing, disk
      ensures Valid() && old(run) <= run && Now().pc.Idle?
      ensures old(outstanding) > 1 ==> run == old(run) + [Next(old(Now()), LogModel.EndOp(who))]
      ensures old(outstanding) == 1 ==>
                && Now().hist.acked == |Now().hist.txns|
                && Now().hist.txns == old(Now().hist.txns) + (if old(n) > 0 then [old(Now().hist.group)] else [])
                && SameHome(start, disk[..], ReplayAll(run[0].disk, Now().hist.txns))
    {
      var doCommit := LeaveOp(who);
      if doCommit {
        Commit();
        FinishCommit();
      }
    }

    /** Power is lost: only the disk survives. */
    method Crash()
      requires Valid()
      modifies this`run, this`acts, this`n, this`cache, this`outstanding, this`committing
      ensures Valid() && Now() == Next(old(Now()), LogModel.Crash)
    {
      n, outstanding, committing, cache := 0, 0, false, map[];
      Did(LogModel.Crash);
    }
  }
}
