/**
  Sleep-locks over sleep() and wakeup(): kernel/sleeplock.c on kernel/proc.c.

  The machine interleaves any number of processes at the granularity of spinlock-protected
  actions.  A process inside sleep() passes through the window in which it has released the
  condition lock but is not yet marked SLEEPING; the process lock covers that window.
*/
module SleepLock {

  /** Where a process stands; the argument is the sleep-lock it is working on. */
  datatype Pc =
    | Outside                                // not in sleep-lock code
    | AcqSpin(lk: nat)                       // acquiresleep: about to take the inner spinlock
    | AcqTest(lk: nat)                       // holds the spinlock, at the while test
    | SleepLockProc(lk: nat)                 // sleep: about to take its own process lock
    | SleepRelease(lk: nat)                  // holds both locks, about to release the spinlock
    | SleepMark(lk: nat)                     // holds its process lock, not yet marked SLEEPING
    | SleepSwitch(lk: nat)                   // marked SLEEPING, about to leave the CPU
    | Away(lk: nat)                          // off the CPU; the scheduler released its lock
    | SleepTidy(lk: nat)                     // back on a CPU, holding its process lock
    | AcqDone(lk: nat)                       // owns the sleep-lock, still holds the spinlock
    | RelSpin(lk: nat)                       // releasesleep: about to take the inner spinlock
    | RelClear(lk: nat)                      // holds the spinlock, about to clear `locked`
    | Waking(lk: nat, next: nat)             // in wakeup, about to look at process `next`

  datatype Run = SLEEPING | RUNNABLE | RUNNING

  /** `held` lists the sleep-locks the process owns, as its own code sees it. */
  datatype Proc = Proc(pc: Pc, st: Run, chan: int, plock: bool, killed: bool, held: set<nat>)

  const NONE := -1

  /** `spin` is the process holding the inner spinlock, `owner` the recorded pid. */
  datatype Lock = Lock(spin: int, locked: bool, owner: int)

  datatype State = State(procs: seq<Proc>, locks: seq<Lock>)

  datatype Action =
    | Acquire(p: nat, lk: nat)
    | Release(p: nat, lk: nat)
    | Step(p: nat)
    | Schedule(p: nat)
    | Yield(p: nat)
    | Kill(p: nat)

  predicate HoldsSpin(pc: Pc, lk: nat) {
    match pc
    case AcqTest(l) => l == lk
    case SleepLockProc(l) => l == lk
    case SleepRelease(l) => l == lk
    case AcqDone(l) => l == lk
    case RelClear(l) => l == lk
    case Waking(l, _) => l == lk
    case _ => false
  }

  predicate HoldsProc(pc: Pc) {
    pc.SleepRelease? || pc.SleepMark? || pc.SleepSwitch? || pc.SleepTidy?
  }

  /** Interrupts are off while a spinlock is held, so a process can lose its CPU only here. */
  predicate Interruptible(pc: Pc) {
    pc.Outside? || pc.AcqSpin? || pc.RelSpin?
  }

  predicate Enabled(s: State, a: Action) {
    && a.p < |s.procs|
    && var q := s.procs[a.p];
       match a
       case Acquire(p, lk) => q.st.RUNNING? && q.pc.Outside? && lk < |s.locks|
       case Release(p, lk) => q.st.RUNNING? && q.pc.Outside? && lk < |s.locks| && lk in q.held
       case Schedule(p) => q.st.RUNNABLE? && !q.plock
       case Yield(p) => q.st.RUNNING? && Interruptible(q.pc)
       case Kill(p) => !q.plock
       case Step(p) =>
         && !q.pc.Outside? && !q.pc.Away?
         && q.pc.lk < |s.locks|
         && (q.pc.SleepSwitch? || q.st.RUNNING?)
         && (q.pc.AcqSpin? || q.pc.RelSpin? ==> s.locks[q.pc.lk].spin == NONE)
         && (q.pc.SleepLockProc? ==> !q.plock)
         && (q.pc.Waking? && q.pc.next < |s.procs| && q.pc.next != p ==> !s.procs[q.pc.next].plock)
  }

  function SetProc(s: State, p: nat, q: Proc): State
    requires p < |s.procs|
  {
    s.(procs := s.procs[p := q])
  }

  function SetLock(s: State, lk: nat, l: Lock): State
    requires lk < |s.locks|
  {
    s.(locks := s.locks[lk := l])
  }

  /** wakeup()'s treatment of one process. */
  function Wake(q: Proc, chan: int): Proc {
    if q.st.SLEEPING? && q.chan == chan then q.(st := RUNNABLE) else q
  }

  function AfterStep(s: State, p: nat): State
    requires Enabled(s, Step(p))
  {
    var q := s.procs[p];
    var l := s.locks[q.pc.lk];
    var lk := q.pc.lk;
    match q.pc
    case AcqSpin(_) => SetLock(SetProc(s, p, q.(pc := AcqTest(lk))), lk, l.(spin := p))
    case AcqTest(_) =>
      if l.locked then SetProc(s, p, q.(pc := SleepLockProc(lk)))
      else SetLock(SetProc(s, p, q.(pc := AcqDone(lk), held := q.held + {lk})), lk, l.(locked := true, owner := p))
    case SleepLockProc(_) => SetProc(s, p, q.(pc := SleepRelease(lk), plock := true))
    case SleepRelease(_) => SetLock(SetProc(s, p, q.(pc := SleepMark(lk))), lk, l.(spin := NONE))
    case SleepMark(_) => SetProc(s, p, q.(pc := SleepSwitch(lk), chan := lk, st := SLEEPING))
    case SleepSwitch(_) => SetProc(s, p, q.(pc := Away(lk), plock := false))
    case SleepTidy(_) => SetProc(s, p, q.(pc := AcqSpin(lk), chan := NONE, plock := false))
    case AcqDone(_) => SetLock(SetProc(s, p, q.(pc := Outside)), lk, l.(spin := NONE))
    case RelSpin(_) => SetLock(SetProc(s, p, q.(pc := RelClear(lk))), lk, l.(spin := p))
    case RelClear(_) =>
      SetLock(SetProc(s, p, q.(pc := Waking(lk, 0), held := q.held - {lk})), lk, l.(locked := false, owner := NONE))
    case Waking(_, i) =>
      if i == |s.procs| then SetLock(SetProc(s, p, q.(pc := Outside)), lk, l.(spin := NONE))
      else
        var s1 := if i < |s.procs| && i != p then SetProc(s, i, Wake(s.procs[i], lk)) else s;
        SetProc(s1, p, q.(pc := Waking(lk, i + 1)))
    case Outside => s
    case Away(_) => s
  }

  function Next(s: State, a: Action): State
    requires Enabled(s, a)
  {
    var q := s.procs[a.p];
    match a
    case Acquire(p, lk) => SetProc(s, p, q.(pc := AcqSpin(lk)))
    case Release(p, lk) => SetProc(s, p, q.(pc := RelSpin(lk)))
    case Step(p) => AfterStep(s, p)
    case Schedule(p) =>
      SetProc(s, p, if q.pc.Away? then q.(st := RUNNING, pc := SleepTidy(q.pc.lk), plock := true) else q.(st := RUNNING))
    case Yield(p) => SetProc(s, p, q.(st := RUNNABLE))
    case Kill(p) => SetProc(s, p, q.(killed := true, st := if q.st.SLEEPING? then RUNNABLE else q.st))
  }

  predicate Init(s: State) {
    && (forall p :: 0 <= p < |s.procs| ==> s.procs[p] == Proc(Outside, RUNNABLE, NONE, false, false, {}))
    && (forall l :: 0 <= l < |s.locks| ==> s.locks[l] == Lock(NONE, false, NONE))
  }

  predicate IsRun(run: seq<State>, acts: seq<Action>) {
    && |run| == |acts| + 1
    && Init(run[0])
    && forall i :: 0 <= i < |acts| ==> Enabled(run[i], acts[i]) && run[i + 1] == Next(run[i], acts[i])
  }

  // -------- the invariant --------

  /** A process that counts on being woken: it has let go of the spinlock and is, or is about to
      be, SLEEPING. */
  ghost predicate Committed(q: Proc) {
    q.pc.SleepMark? || q.pc.SleepSwitch? || (q.pc.Away? && q.st.SLEEPING?)
  }

  /** Some process inside wakeup() on `lk` has yet to look at process `p`. */
  ghost predicate WakeupPending(s: State, p: nat, lk: nat) {
    lk < |s.locks| && var w := s.locks[lk].spin;
    0 <= w < |s.procs| && s.procs[w].pc.Waking? && s.procs[w].pc.lk == lk && s.procs[w].pc.next <= p
  }

  ghost predicate PcOk(q: Proc, nlocks: nat) {
    && (!q.pc.Outside? ==> q.pc.lk < nlocks)
    && q.plock == HoldsProc(q.pc)
    && (q.st.SLEEPING? ==> q.pc.SleepSwitch? || q.pc.Away?)
    && (q.pc.SleepSwitch? ==> q.st.SLEEPING? && q.chan == q.pc.lk)
    && (q.pc.Away? ==> !q.st.RUNNING? && q.chan == q.pc.lk)
    && (q.st.RUNNABLE? ==> q.pc.Away? || Interruptible(q.pc))
  }

  ghost predicate SpinsOk(s: State, p: nat)
    requires p < |s.procs|
  {
    forall l :: 0 <= l < |s.locks| ==> (HoldsSpin(s.procs[p].pc, l) <==> s.locks[l].spin == p)
  }

  ghost predicate HeldOk(s: State, p: nat)
    requires p < |s.procs| && PcOk(s.procs[p], |s.locks|)
  {
    var q := s.procs[p];
    && (forall l: nat :: l in q.held <==> l < |s.locks| && s.locks[l].locked && s.locks[l].owner == p)
    && (q.pc.SleepLockProc? || q.pc.SleepRelease? || q.pc.AcqDone? || q.pc.RelClear? ==> s.locks[q.pc.lk].locked)
    && (q.pc.RelSpin? || q.pc.RelClear? || q.pc.AcqDone? ==> q.pc.lk in q.held)
    && (q.pc.Waking? ==> !s.locks[q.pc.lk].locked && q.pc.next <= |s.procs|)
  }

  /** What a process knows of its locks. */
  ghost predicate LocksOk(s: State, p: nat)
    requires p < |s.procs|
  {
    PcOk(s.procs[p], |s.locks|) && SpinsOk(s, p) && HeldOk(s, p)
  }

  /** A process committed to sleeping waits for a held lock, or a wakeup is on its way. */
  ghost predicate NotStranded(s: State, p: nat)
    requires p < |s.procs|
  {
    var q := s.procs[p];
    Committed(q) ==> q.pc.lk < |s.locks| && (s.locks[q.pc.lk].locked || WakeupPending(s, p, q.pc.lk))
  }

  ghost predicate ProcOk(s: State, p: nat)
    requires p < |s.procs|
  {
    LocksOk(s, p) && NotStranded(s, p)
  }

  ghost predicate LockOk(s: State, lk: nat)
    requires lk < |s.locks|
  {
    var l := s.locks[lk];
    && (l.spin == NONE || 0 <= l.spin < |s.procs|)
    && (if l.locked then 0 <= l.owner < |s.procs| else l.owner == NONE)
  }

  ghost predicate Inv(s: State) {
    && (forall p :: 0 <= p < |s.procs| ==> ProcOk(s, p))
    && (forall l :: 0 <= l < |s.locks| ==> LockOk(s, l))
  }

  lemma StepSelfPc(s: State, p: nat)
    requires Enabled(s, Step(p)) && LocksOk(s, p)
    ensures PcOk(Next(s, Step(p)).procs[p], |s.locks|)
  {
    hide HeldOk, SpinsOk;
  }

  lemma StepSelfSpins(s: State, p: nat)
    requires Enabled(s, Step(p)) && LocksOk(s, p)
    ensures SpinsOk(Next(s, Step(p)), p)
  {
    hide HeldOk, PcOk;
  }

  lemma StepSelf(s: State, p: nat)
    requires Enabled(s, Step(p)) && LocksOk(s, p) && LockOk(s, s.procs[p].pc.lk)
    ensures LocksOk(Next(s, Step(p)), p)
  {
    StepSelfPc(s, p);
    StepSelfSpins(s, p);
    hide SpinsOk, PcOk;
  }

  lemma StepSelfWakeup(s: State, p: nat)
    requires Enabled(s, Step(p)) && LocksOk(s, p) && NotStranded(s, p)
    ensures NotStranded(Next(s, Step(p)), p)
  {
    hide HoldsSpin;
  }

  lemma StepOtherSpins(s: State, p: nat, r: nat)
    requires Enabled(s, Step(p)) && r < |s.procs| && r != p
    requires LocksOk(s, p) && LocksOk(s, r)
    ensures PcOk(Next(s, Step(p)).procs[r], |s.locks|) && SpinsOk(Next(s, Step(p)), r)
  {
    hide HeldOk;
  }

  /** A step changes who owns a sleep-lock only under its spinlock, to take a free one or to give up its own. */
  lemma StepOwners(s: State, p: nat, r: nat)
    requires Enabled(s, Step(p)) && r < |s.procs| && r != p && LocksOk(s, p)
    ensures var s', lk := Next(s, Step(p)), s.procs[p].pc.lk;
      && |s'.procs| == |s.procs| && |s'.locks| == |s.locks|
      && s'.procs[r].pc == s.procs[r].pc && s'.procs[r].held == s.procs[r].held
      && (forall l :: 0 <= l < |s.locks| && l != lk ==> s'.locks[l] == s.locks[l])
      && (|| (s'.locks[lk].locked == s.locks[lk].locked && s'.locks[lk].owner == s.locks[lk].owner)
          || (HoldsSpin(s.procs[p].pc, lk) && !s.locks[lk].locked && s'.locks[lk].locked && s'.locks[lk].owner == p)
          || (HoldsSpin(s.procs[p].pc, lk) && s.locks[lk].locked && s.locks[lk].owner == p && !s'.locks[lk].locked))
  {
    hide PcOk, SpinsOk;
  }

  lemma StepOtherLocks(s: State, p: nat, r: nat)
    requires Enabled(s, Step(p)) && r < |s.procs| && r != p
    requires LocksOk(s, p) && LocksOk(s, r) && LockOk(s, s.procs[p].pc.lk)
    ensures LocksOk(Next(s, Step(p)), r)
  {
    StepOtherSpins(s, p, r);
    StepOwners(s, p, r);
    hide Next, AfterStep, Enabled;
  }

  /** A step of `p` never strands another process. */
  lemma StepOtherWakeup(s: State, p: nat, r: nat)
    requires Enabled(s, Step(p)) && r < |s.procs| && r != p
    requires LocksOk(s, p) && ProcOk(s, r)
    ensures NotStranded(Next(s, Step(p)), r)
  {
  }

  lemma StepKeeps(s: State, p: nat)
    requires Inv(s) && Enabled(s, Step(p))
    ensures Inv(Next(s, Step(p)))
  {
    var s' := Next(s, Step(p));
    forall r | 0 <= r < |s.procs| ensures ProcOk(s', r) {
      hide LocksOk, NotStranded;
      assert ProcOk(s, p) && ProcOk(s, r) && LockOk(s, s.procs[p].pc.lk);
      if r == p {
        StepSelf(s, p);
        StepSelfWakeup(s, p);
      } else {
        StepOtherLocks(s, p, r);
        StepOtherWakeup(s, p, r);
      }
    }
    forall l | 0 <= l < |s.locks| ensures LockOk(s', l) {
      assert LockOk(s, l) && ProcOk(s, p);
    }
  }

  lemma OtherActionKeeps(s: State, a: Action, r: nat)
    requires Inv(s) && Enabled(s, a) && !a.Step? && r < |s.procs|
    ensures ProcOk(Next(s, a), r)
  {
    assert ProcOk(s, r) && ProcOk(s, a.p);
  }

  lemma ActionKeeps(s: State, a: Action)
    requires Inv(s) && Enabled(s, a)
    ensures Inv(Next(s, a))
  {
    if a.Step? {
      StepKeeps(s, a.p);
    } else {
      var s' := Next(s, a);
      forall r | 0 <= r < |s.procs| ensures ProcOk(s', r) {
        OtherActionKeeps(s, a, r);
      }
      forall l | 0 <= l < |s.locks| ensures LockOk(s', l) {
        assert LockOk(s, l);
      }
    }
  }

  lemma {:induction false} RunInv(run: seq<State>, acts: seq<Action>, i: nat)
    requires IsRun(run, acts) && i < |run|
    ensures Inv(run[i])
  {
    if i > 0 {
      RunInv(run, acts, i - 1);
      ActionKeeps(run[i - 1], acts[i - 1]);
    }
  }

  /** In every run at most one process owns a sleep-lock, and it is the one holdingsleep() reports. */
  lemma MutualExclusion(run: seq<State>, acts: seq<Action>, i: nat, p: nat, q: nat, lk: nat)
    requires IsRun(run, acts) && i < |run| && p < |run[i].procs| && q < |run[i].procs|
    ensures lk in run[i].procs[p].held && lk in run[i].procs[q].held ==> p == q
    ensures lk < |run[i].locks| ==>
              (lk in run[i].procs[p].held <==> run[i].locks[lk].locked && run[i].locks[lk].owner == p)
  {
    RunInv(run, acts, i);
    assert ProcOk(run[i], p) && ProcOk(run[i], q);
  }

  /** No wakeup is lost: whenever the inner spinlock is free, a process SLEEPING on a sleep-lock, or
      past the point where it gave up the spinlock to sleep, waits for a lock that some process owns. */
  lemma NoLostWakeup(run: seq<State>, acts: seq<Action>, i: nat, p: nat, lk: nat)
    requires IsRun(run, acts) && i < |run| && p < |run[i].procs| && lk < |run[i].locks|
    requires run[i].locks[lk].spin == NONE
    requires var q := run[i].procs[p]; (q.st.SLEEPING? && q.chan == lk) || q.pc == SleepMark(lk)
    ensures run[i].locks[lk].locked
    ensures exists o :: 0 <= o < |run[i].procs| && lk in run[i].procs[o].held
  {
    RunInv(run, acts, i);
    var s := run[i];
    assert ProcOk(s, p) && LockOk(s, lk);
    assert Committed(s.procs[p]) && s.procs[p].pc.lk == lk;
    var o := s.locks[lk].owner;
    assert ProcOk(s, o);
  }

  /** A process is off its CPU and unlocked whenever another can find it SLEEPING and wake it. */
  lemma WokenOnlyWhenAway(run: seq<State>, acts: seq<Action>, i: nat, p: nat)
    requires IsRun(run, acts) && i < |run| && p < |run[i].procs|
    requires run[i].procs[p].st.SLEEPING? && !run[i].procs[p].plock
    ensures run[i].procs[p].pc.Away?
  {
    RunInv(run, acts, i);
    assert ProcOk(run[i], p);
  }

  // -------- what a call has done when it returns --------

  /** Within acquiresleep(lk) by a process that held `held` before it; at Outside it has returned. */
  predicate Acquiring(q: Proc, lk: nat, held: set<nat>) {
    if q.pc.Outside? then q.held == held + {lk}
    else if q.pc.AcqDone? then q.pc.lk == lk && q.held == held + {lk}
    else q.pc.lk == lk && q.held == held && !q.pc.RelSpin? && !q.pc.RelClear? && !q.pc.Waking?
  }

  predicate Releasing(q: Proc, lk: nat, held: set<nat>) {
    if q.pc.Outside? then q.held == held - {lk}
    else if q.pc.Waking? then q.pc.lk == lk && q.held == held - {lk}
    else q.pc.lk == lk && q.held == held && (q.pc.RelSpin? || q.pc.RelClear?)
  }

  lemma AcquireStep(s: State, a: Action, p: nat, lk: nat, held: set<nat>)
    requires Enabled(s, a) && p < |s.procs| && !s.procs[p].pc.Outside? && Acquiring(s.procs[p], lk, held)
    ensures |Next(s, a).procs| == |s.procs| && Acquiring(Next(s, a).procs[p], lk, held)
  {
  }

  lemma ReleaseStep(s: State, a: Action, p: nat, lk: nat, held: set<nat>)
    requires Enabled(s, a) && p < |s.procs| && !s.procs[p].pc.Outside? && Releasing(s.procs[p], lk, held)
    ensures |Next(s, a).procs| == |s.procs| && Releasing(Next(s, a).procs[p], lk, held)
  {
  }

  /** `j` is the first state after call `i` in which process `p` is back outside. */
  predicate Returns(run: seq<State>, i: nat, j: nat, p: nat) {
    && i < j < |run| && (forall k :: i < k <= j ==> p < |run[k].procs|)
    && run[j].procs[p].pc.Outside? && forall k :: i < k < j ==> !run[k].procs[p].pc.Outside?
  }

  /** acquiresleep() returns with the lock, and with the other locks the process held. */
  lemma AcquireReturns(run: seq<State>, acts: seq<Action>, i: nat, j: nat, p: nat, lk: nat)
    requires IsRun(run, acts) && i < |acts| && acts[i] == Acquire(p, lk) && Returns(run, i, j, p)
    ensures run[j].procs[p].held == run[i].procs[p].held + {lk}
    ensures lk < |run[j].locks| && run[j].locks[lk].locked && run[j].locks[lk].owner == p
  {
    AcquireGoes(run, acts, i, j, p, lk);
    RunInv(run, acts, j);
    assert ProcOk(run[j], p) && lk in run[j].procs[p].held;
  }

  lemma {:induction false} AcquireGoes(run: seq<State>, acts: seq<Action>, i: nat, k: nat, p: nat, lk: nat)
    requires IsRun(run, acts) && i < k < |run| && acts[i] == Acquire(p, lk) && p < |run[i].procs|
    requires forall h :: i < h <= k ==> p < |run[h].procs|
    requires forall h :: i < h < k ==> !run[h].procs[p].pc.Outside?
    ensures Acquiring(run[k].procs[p], lk, run[i].procs[p].held)
    decreases k
  {
    if k > i + 1 {
      AcquireGoes(run, acts, i, k - 1, p, lk);
      AcquireStep(run[k - 1], acts[k - 1], p, lk, run[i].procs[p].held);
    }
  }

  /** releasesleep() returns without the lock, and with the other locks the process held. */
  lemma ReleaseReturns(run: seq<State>, acts: seq<Action>, i: nat, j: nat, p: nat, lk: nat)
    requires IsRun(run, acts) && i < |acts| && acts[i] == Release(p, lk) && Returns(run, i, j, p)
    ensures run[j].procs[p].held == run[i].procs[p].held - {lk}
  {
    ReleaseGoes(run, acts, i, j, p, lk);
  }

  lemma {:induction false} ReleaseGoes(run: seq<State>, acts: seq<Action>, i: nat, k: nat, p: nat, lk: nat)
    requires IsRun(run, acts) && i < k < |run| && acts[i] == Release(p, lk) && p < |run[i].procs|
    requires forall h :: i < h <= k ==> p < |run[h].procs|
    requires forall h :: i < h < k ==> !run[h].procs[p].pc.Outside?
    ensures Releasing(run[k].procs[p], lk, run[i].procs[p].held)
    decreases k
  {
    if k > i + 1 {
      ReleaseGoes(run, acts, i, k - 1, p, lk);
      ReleaseStep(run[k - 1], acts[k - 1], p, lk, run[i].procs[p].held);
    }
  }
}
