/**
  fork, exit and wait of kernel/proc.c: the protocol over wait_lock and the process locks.

  Each spinlock-protected action is one step, and so is every turn of the loops that scan the
  process table while wait_lock is held.  sleep() releases wait_lock before the process is marked
  SLEEPING; only its process lock covers that window.
*/
module ExitWait {

  datatype Pc =
    | Outside                              // user code, or kernel code not modelled here
    | ForkAlloc(np: nat)                   // kfork: holds the new process's lock
    | ForkParent(np: nat)                  // about to set the new process's parent
    | ForkStart(np: nat)                   // about to make it RUNNABLE
    | ExitEnter                            // kexit: about to take wait_lock
    | Reparent(i: nat)                     // scanning for children to give to init
    | ReparentWake(i: nat, j: nat)         // wakeup(initproc) for child i, about to look at j
    | ExitWake(j: nat)                     // wakeup(parent), about to look at j
    | ExitLock                             // about to take its own process lock
    | ExitMark                             // holds both locks, about to become a ZOMBIE
    | ExitSwitch                           // ZOMBIE, still on its CPU
    | Dead                                 // ZOMBIE, off its CPU
    | WaitEnter                            // kwait: about to take wait_lock
    | Scan(i: nat, kids: bool)             // about to look at process i
    | Reaped                               // freed a child, about to release wait_lock
    | SleepLock                            // sleep: about to take its own process lock
    | SleepRelease                         // holds both locks, about to release wait_lock
    | SleepMark                            // not yet marked SLEEPING
    | SleepSwitch                          // marked SLEEPING, still on its CPU
    | Away                                 // off its CPU
    | SleepTidy                            // back on a CPU, holding its process lock

  datatype Run = UNUSED | USED | SLEEPING | RUNNABLE | RUNNING | ZOMBIE

  const NONE := -1
  const OTHER := -2

  /** `deaths` and `reaps` count how often the slot became a ZOMBIE and was freed by a wait. */
  datatype Proc = Proc(pc: Pc, st: Run, parent: int, plock: int, chan: int, killed: bool, deaths: nat, reaps: nat)

  /** `wl` is the process holding wait_lock. */
  datatype State = State(procs: seq<Proc>, wl: int, init: nat)

  datatype Action =
    | Fork(p: nat, np: nat) | ForkFail(p: nat)
    | Exit(p: nat) | Wait(p: nat)
    | Step(p: nat)
    | CopyoutFail(p: nat)
    | Schedule(p: nat) | Yield(p: nat) | Kill(p: nat)
    | SleepElsewhere(p: nat) | WakeElsewhere(p: nat)

  predicate HoldsWait(pc: Pc) {
    pc.Reparent? || pc.ReparentWake? || pc.ExitWake? || pc.ExitLock? || pc.ExitMark? ||
    pc.Scan? || pc.Reaped? || pc.SleepLock? || pc.SleepRelease?
  }

  /** The process holds its own process lock. */
  predicate HoldsOwn(pc: Pc) {
    pc.ExitMark? || pc.ExitSwitch? || pc.SleepRelease? || pc.SleepMark? || pc.SleepSwitch? || pc.SleepTidy?
  }

  predicate Interruptible(pc: Pc) {
    pc.Outside? || pc.ForkParent? || pc.ForkStart? || pc.ExitEnter? || pc.WaitEnter?
  }

  predicate TakesWait(pc: Pc) {
    pc.ForkParent? || pc.ExitEnter? || pc.WaitEnter?
  }

  /** The process a step must be able to lock, if any. */
  function Locks(s: State, p: nat): int
    requires p < |s.procs|
  {
    match s.procs[p].pc
    case ForkStart(np) => np
    case ReparentWake(_, j) => if j == p then NONE else j
    case ExitWake(j) => if j == p then NONE else j
    case ExitLock => p
    case SleepLock => p
    case Scan(i, _) => if i < |s.procs| && s.procs[i].parent == p then i else NONE
    case _ => NONE
  }

  predicate Enabled(s: State, a: Action) {
    && a.p < |s.procs|
    && s.init < |s.procs|
    && var q := s.procs[a.p];
       match a
       case Fork(p, np) =>
         q.st.RUNNING? && q.pc.Outside? && np < |s.procs| && s.procs[np].st.UNUSED? && s.procs[np].plock == NONE
       case ForkFail(p) => q.st.RUNNING? && q.pc.ForkAlloc? && q.pc.np < |s.procs|
       case Exit(p) => q.st.RUNNING? && q.pc.Outside? && p != s.init
       case Wait(p) => q.st.RUNNING? && q.pc.Outside?
       case CopyoutFail(p) =>
         && q.st.RUNNING? && q.pc.Scan? && q.pc.i < |s.procs|
         && s.procs[q.pc.i].parent == p && s.procs[q.pc.i].plock == NONE && s.procs[q.pc.i].st.ZOMBIE?
       case Schedule(p) => q.st.RUNNABLE? && q.plock == NONE
       case Yield(p) => q.st.RUNNING? && Interruptible(q.pc)
       case Kill(p) => q.plock == NONE
       case SleepElsewhere(p) => q.st.RUNNING? && q.pc.Outside?
       case WakeElsewhere(p) => q.st.SLEEPING? && q.chan == OTHER && q.plock == NONE
       case Step(p) =>
         && !q.pc.Outside? && !q.pc.Away? && !q.pc.Dead?
         && (q.st.RUNNING? || q.pc.SleepSwitch? || q.pc.ExitSwitch?)
         && (TakesWait(q.pc) ==> s.wl == NONE)
         && (q.pc.ForkAlloc? || q.pc.ForkParent? || q.pc.ForkStart? ==> q.pc.np < |s.procs|)
         && var l := Locks(s, p);
            0 <= l < |s.procs| ==> s.procs[l].plock == NONE
  }

  function Set(s: State, p: nat, q: Proc): State
    requires p < |s.procs|
  {
    s.(procs := s.procs[p := q])
  }

  function Wake(q: Proc, chan: int): Proc {
    if q.st.SLEEPING? && q.chan == chan then q.(st := RUNNABLE) else q
  }

  /** One turn of wakeup(chan) by process p, then on to `pc`. */
  function WakeOne(s: State, p: nat, j: nat, chan: int, pc: Pc): State
    requires p < |s.procs| && j < |s.procs|
  {
    var s1 := if j == p then s else Set(s, j, Wake(s.procs[j], chan));
    Set(s1, p, s1.procs[p].(pc := pc))
  }

  /** freeproc(), as wait calls it. */
  function Freed(z: Proc): Proc {
    z.(pc := Outside, st := UNUSED, parent := NONE, plock := NONE, chan := NONE, killed := false)
  }

  function AfterStep(s: State, p: nat): State
    requires Enabled(s, Step(p))
  {
    var q := s.procs[p];
    var n := |s.procs|;
    match q.pc
    case ForkAlloc(np) =>
      var s1 := Set(s, np, s.procs[np].(plock := NONE));
      Set(s1, p, s1.procs[p].(pc := ForkParent(np)))
    case ForkParent(np) =>
      var s1 := Set(s, np, s.procs[np].(parent := p));
      Set(s1, p, s1.procs[p].(pc := ForkStart(np)))
    case ForkStart(np) =>
      var s1 := Set(s, np, s.procs[np].(st := RUNNABLE));
      Set(s1, p, s1.procs[p].(pc := Outside))
    case ExitEnter => Set(s, p, q.(pc := Reparent(0))).(wl := p)
    case Reparent(i) =>
      if i >= n then Set(s, p, q.(pc := ExitWake(0)))
      else if s.procs[i].parent == p then
        var s1 := Set(s, i, s.procs[i].(parent := s.init));
        Set(s1, p, s1.procs[p].(pc := ReparentWake(i, 0)))
      else Set(s, p, q.(pc := Reparent(i + 1)))
    case ReparentWake(i, j) =>
      if j >= n then Set(s, p, q.(pc := Reparent(i + 1)))
      else WakeOne(s, p, j, s.init, ReparentWake(i, j + 1))
    case ExitWake(j) =>
      if j >= n then Set(s, p, q.(pc := ExitLock))
      else WakeOne(s, p, j, q.parent, ExitWake(j + 1))
    case ExitLock => Set(s, p, q.(pc := ExitMark, plock := p))
    case ExitMark => Set(s, p, q.(pc := ExitSwitch, st := ZOMBIE, deaths := q.deaths + 1)).(wl := NONE)
    case ExitSwitch => Set(s, p, q.(pc := Dead, plock := NONE))
    case WaitEnter => Set(s, p, q.(pc := Scan(0, false))).(wl := p)
    case Scan(i, kids) =>
      if i >= n then
        if !kids || q.killed then Set(s, p, q.(pc := Outside)).(wl := NONE)
        else Set(s, p, q.(pc := SleepLock))
      else if s.procs[i].parent == p then
        if s.procs[i].st.ZOMBIE? then
          var z := s.procs[i];
          var s1 := Set(s, i, Freed(z).(reaps := z.reaps + 1));
          Set(s1, p, s1.procs[p].(pc := Reaped))
        else Set(s, p, q.(pc := Scan(i + 1, true)))
      else Set(s, p, q.(pc := Scan(i + 1, kids)))
    case Reaped => Set(s, p, q.(pc := Outside)).(wl := NONE)
    case SleepLock => Set(s, p, q.(pc := SleepRelease, plock := p))
    case SleepRelease => Set(s, p, q.(pc := SleepMark)).(wl := NONE)
    case SleepMark => Set(s, p, q.(pc := SleepSwitch, chan := p, st := SLEEPING))
    case SleepSwitch => Set(s, p, q.(pc := Away, plock := NONE))
    case SleepTidy => Set(s, p, q.(pc := WaitEnter, chan := NONE, plock := NONE))
    case _ => s
  }

  function Next(s: State, a: Action): State
    requires Enabled(s, a)
  {
    var q := s.procs[a.p];
    match a
    case Fork(p, np) =>
      var s1 := Set(s, np, s.procs[np].(st := USED, plock := p));
      Set(s1, p, s1.procs[p].(pc := ForkAlloc(np)))
    case ForkFail(p) =>
      var s1 := Set(s, q.pc.np, Freed(s.procs[q.pc.np]));
      Set(s1, p, s1.procs[p].(pc := Outside))
    case Exit(p) => Set(s, p, q.(pc := ExitEnter))
    case Wait(p) => Set(s, p, q.(pc := WaitEnter))
    case Step(p) => AfterStep(s, p)
    case CopyoutFail(p) => Set(s, p, q.(pc := Outside)).(wl := NONE)
    case Schedule(p) =>
      Set(s, p, if q.pc.Away? then q.(st := RUNNING, pc := SleepTidy, plock := p) else q.(st := RUNNING))
    case Yield(p) => Set(s, p, q.(st := RUNNABLE))
    case Kill(p) => Set(s, p, q.(killed := true, st := if q.st.SLEEPING? then RUNNABLE else q.st))
    case SleepElsewhere(p) => Set(s, p, q.(st := SLEEPING, chan := OTHER))
    case WakeElsewhere(p) => Set(s, p, q.(st := RUNNABLE))
  }

  /** userinit(): only init exists. */
  predicate Init(s: State) {
    && s.init < |s.procs| && s.wl == NONE
    && forall p :: 0 <= p < |s.procs| ==>
         s.procs[p] == Proc(Outside, if p == s.init then RUNNABLE else UNUSED, NONE, NONE, NONE, false, 0, 0)
  }

  predicate IsRun(run: seq<State>, acts: seq<Action>) {
    && |run| == |acts| + 1
    && Init(run[0])
    && forall i :: 0 <= i < |acts| ==> Enabled(run[i], acts[i]) && run[i + 1] == Next(run[i], acts[i])
  }

  // -------- the invariant --------

  predicate Live(st: Run) {
    st.SLEEPING? || st.RUNNABLE? || st.RUNNING?
  }

  predicate Forking(pc: Pc) {
    pc.ForkAlloc? || pc.ForkParent? || pc.ForkStart?
  }

  predicate Exiting(pc: Pc) {
    pc.ExitEnter? || pc.Reparent? || pc.ReparentWake? || pc.ExitWake? || pc.ExitLock? || pc.ExitMark?
  }

  /** The process has let go of wait_lock and is, or is about to be, asleep in wait. */
  predicate Committed(q: Proc) {
    q.pc.SleepMark? || q.pc.SleepSwitch? || (q.pc.Away? && q.st.SLEEPING?)
  }

  /** How the state of process `p` and its place in the code go together. */
  predicate PcOk(q: Proc, p: nat, wl: int, init: nat) {
    && (HoldsWait(q.pc) <==> wl == p)
    && (HoldsOwn(q.pc) <==> q.plock == p)
    && (q.st.UNUSED? || q.st.USED? ==> q.pc.Outside? && (q.st.UNUSED? ==> q.plock == NONE && q.parent == NONE))
    && (q.st.ZOMBIE? <==> q.pc.ExitSwitch? || q.pc.Dead?)
    && (q.st.SLEEPING? ==> (q.pc.Outside? && q.chan == OTHER) || ((q.pc.SleepSwitch? || q.pc.Away?) && q.chan == p))
    && (q.pc.SleepSwitch? ==> q.st.SLEEPING?)
    && (q.pc.Away? ==> q.st.SLEEPING? || q.st.RUNNABLE?)
    && (q.st.RUNNABLE? ==> q.pc.Away? || Interruptible(q.pc))
    && (p == init ==> Live(q.st) && !Exiting(q.pc) && q.parent == NONE)
    && (Live(q.st) || q.st.ZOMBIE? ==> p == init || q.parent != NONE)
    && q.deaths == q.reaps + if q.st.ZOMBIE? then 1 else 0
  }

  /** In exit: how many slots have been checked for children to pass on to init. */
  function PassedOn(pc: Pc, n: nat): nat {
    match pc
    case Reparent(i) => i
    case ReparentWake(i, _) => i + 1
    case ExitWake(_) => n
    case ExitLock => n
    case ExitMark => n
    case _ => 0
  }

  /** A parent is a live process, and not one that has passed its children on. */
  predicate ParentOk(s: State, z: nat)
    requires z < |s.procs|
  {
    var r := s.procs[z].parent;
    r != NONE ==>
      0 <= r < |s.procs| && r != z && Live(s.procs[r].st) && PassedOn(s.procs[r].pc, |s.procs|) <= z
  }

  /** A new process belongs to the one fork that is making it. */
  predicate ForkOk(s: State, p: nat)
    requires p < |s.procs|
  {
    var q := s.procs[p];
    && (q.plock == NONE || q.plock == p || (0 <= q.plock < |s.procs| && s.procs[q.plock].pc == ForkAlloc(p)))
    && (Forking(q.pc) ==>
          && q.pc.np < |s.procs| && q.pc.np != p && s.procs[q.pc.np].st.USED?
          && (s.procs[q.pc.np].parent == if q.pc.ForkStart? then p else NONE)
          && (q.pc.ForkAlloc? ==> s.procs[q.pc.np].plock == p))
  }

  predicate OneFork(s: State, p: nat, r: nat)
    requires p < |s.procs| && r < |s.procs|
  {
    Forking(s.procs[p].pc) && Forking(s.procs[r].pc) && s.procs[p].pc.np == s.procs[r].pc.np ==> p == r
  }

  /** While `w` holds wait_lock in `pc`, process `p` has been woken, or cannot be asleep, for its child `z`. */
  predicate Attended(s: State, p: nat, z: nat)
    requires p < |s.procs| && z < |s.procs| && s.procs[z].parent == p
  {
    var q, c := s.procs[p], s.procs[z];
    && (Committed(q) && c.st.ZOMBIE? ==>
          0 <= s.wl < |s.procs| && match s.procs[s.wl].pc case ReparentWake(i, j) => i == z && j <= p case _ => false)
    && (Committed(q) && (c.pc.ExitLock? || c.pc.ExitMark?) ==> false)
    && (Committed(q) && c.pc.ExitWake? ==> c.pc.j <= p)
    && (q.pc.SleepLock? || q.pc.SleepRelease? ==> !c.st.ZOMBIE?)
    && (q.pc.Scan? && z < q.pc.i ==> !c.st.ZOMBIE? && q.pc.kids)
  }

  /** The child for whose sake init is being woken is init's. */
  predicate AdoptOk(s: State, p: nat)
    requires p < |s.procs|
  {
    match s.procs[p].pc
    case ReparentWake(i, _) => i < |s.procs| && s.procs[i].parent == s.init
    case _ => true
  }

  predicate Good(s: State, p: nat)
    requires p < |s.procs|
  {
    PcOk(s.procs[p], p, s.wl, s.init) && ParentOk(s, p) && ForkOk(s, p) && AdoptOk(s, p)
  }

  ghost predicate Inv(s: State) {
    && s.init < |s.procs|
    && (s.wl == NONE || 0 <= s.wl < |s.procs|)
    && (forall p {:trigger Good(s, p)} :: 0 <= p < |s.procs| ==> Good(s, p))
    && (forall p, r {:trigger OneFork(s, p, r)} :: 0 <= p < |s.procs| && 0 <= r < |s.procs| ==> OneFork(s, p, r))
    && (forall p, z {:trigger Attended(s, p, z)} ::
          0 <= p < |s.procs| && 0 <= z < |s.procs| && s.procs[z].parent == p ==> Attended(s, p, z))
  }

  /** The facts about `x`, when `x` is a process. */
  lemma At(s: State, x: int)
    requires Inv(s)
    ensures 0 <= x < |s.procs| ==> Good(s, x)
  {
  }

  lemma AttendedAt(s: State, r: nat, z: nat)
    requires Inv(s) && r < |s.procs| && z < |s.procs| && s.procs[z].parent == r
    ensures Attended(s, r, z)
  {
  }

  lemma OneForkAt(s: State, p: nat, r: nat)
    requires Inv(s) && p < |s.procs| && r < |s.procs|
    ensures OneFork(s, p, r)
  {
  }

  // -------- frames: changes that do not matter to a part of the invariant --------

  predicate ForkFrame(s: State, s': State) {
    && |s'.procs| == |s.procs|
    && forall r {:trigger s'.procs[r]} :: 0 <= r < |s.procs| ==>
         var q, q' := s.procs[r], s'.procs[r];
         && (Forking(q.pc) || Forking(q'.pc) ==> q'.pc == q.pc)
         && (q.st.USED? <==> q'.st.USED?)
         && (q.st.USED? ==> q'.parent == q.parent && q'.plock == q.plock)
         && (q'.plock == q.plock || q'.plock == r || q'.plock == NONE)
  }

  lemma ForkFrameKeeps(s: State, s': State, p: nat, r: nat)
    requires Inv(s) && ForkFrame(s, s') && p < |s.procs| && r < |s.procs|
    ensures ForkOk(s', p) && OneFork(s', p, r)
  {
    At(s, p);
    assert OneFork(s, p, r);
    var q' := s'.procs[p];
    if 0 <= q'.plock < |s.procs| { var f := s'.procs[q'.plock]; }
    if Forking(q'.pc) { var c := s'.procs[q'.pc.np]; }
  }

  predicate ParentFrame(s: State, s': State) {
    && |s'.procs| == |s.procs| && s'.init == s.init
    && forall r {:trigger s'.procs[r]} :: 0 <= r < |s.procs| ==>
         var q, q' := s.procs[r], s'.procs[r];
         && q'.parent == q.parent && (Live(q.st) ==> Live(q'.st))
         && PassedOn(q'.pc, |s.procs|) == PassedOn(q.pc, |s.procs|)
         && (q'.pc.ReparentWake? ==> q.pc.ReparentWake? && q'.pc.i == q.pc.i)
  }

  lemma ParentFrameKeeps(s: State, s': State, z: nat)
    requires Inv(s) && ParentFrame(s, s') && z < |s.procs|
    ensures ParentOk(s', z) && AdoptOk(s', z)
  {
    At(s, z);
    var r := s'.procs[z].parent;
    if r != NONE { var q' := s'.procs[r]; }
    if s'.procs[z].pc.ReparentWake? { var c := s'.procs[s'.procs[z].pc.i]; }
  }

  predicate AttendFrame(s: State, s': State) {
    && |s'.procs| == |s.procs|
    && (0 <= s.wl < |s.procs| && s.procs[s.wl].pc.ReparentWake? ==> s'.wl == s.wl)
    && forall r {:trigger s'.procs[r]} :: 0 <= r < |s.procs| ==>
         var q, q' := s.procs[r], s'.procs[r];
         && (q'.parent == q.parent || q'.parent == NONE)
         && (Committed(q') ==> Committed(q)) && (q'.st.ZOMBIE? ==> q.st.ZOMBIE?)
         && (HoldsWait(q'.pc) || q.pc.ReparentWake? ==> q'.pc == q.pc)
  }

  lemma AttendFrameKeeps(s: State, s': State, p: nat, z: nat)
    requires Inv(s) && AttendFrame(s, s') && p < |s.procs| && z < |s.procs| && s'.procs[z].parent == p
    ensures Attended(s', p, z)
  {
    assert Attended(s, p, z);
    var q' := s'.procs[p];
    if 0 <= s.wl < |s.procs| { var w := s'.procs[s.wl]; }
  }

  /** Processes a step does not touch only notice who holds wait_lock. */
  lemma Untouched(s: State, s': State, p: nat, r: nat)
    requires Inv(s) && |s'.procs| == |s.procs| && s'.init == s.init && r < |s.procs| && r != p
    requires s'.procs[r] == s.procs[r]
    requires s'.wl == s.wl || (s.wl == NONE && s'.wl == p) || (s.wl == p && s'.wl == NONE)
    ensures PcOk(s'.procs[r], r, s'.wl, s'.init)
  {
    At(s, r);
  }

  /** Only a process being forked has its lock held by another. */
  lemma OwnLock(s: State, p: nat)
    requires Inv(s) && p < |s.procs|
    ensures !s.procs[p].st.USED? ==> s.procs[p].plock == NONE || s.procs[p].plock == p
  {
    At(s, p);
    At(s, s.procs[p].plock);
  }

  // -------- the steps, by what they touch --------

  predicate Looping(s: State, p: nat)
    requires p < |s.procs|
  {
    var pc := s.procs[p].pc;
    (pc.ReparentWake? || pc.ExitWake?) && pc.j < |s.procs|
  }

  predicate Adopting(s: State, p: nat)
    requires p < |s.procs|
  {
    var pc := s.procs[p].pc;
    pc.Reparent? && pc.i < |s.procs| && s.procs[pc.i].parent == p
  }

  predicate Reaping(s: State, p: nat)
    requires p < |s.procs|
  {
    var pc := s.procs[p].pc;
    pc.Scan? && pc.i < |s.procs| && s.procs[pc.i].parent == p && s.procs[pc.i].st.ZOMBIE?
  }

  /** A step of exit that changes only the process itself and wait_lock. */
  predicate Leaving(s: State, p: nat)
    requires p < |s.procs|
  {
    var pc := s.procs[p].pc;
    (Exiting(pc) || pc.ExitSwitch?) && !Looping(s, p) && !Adopting(s, p)
  }

  /** A step of wait that changes only the process itself and wait_lock. */
  predicate Waiting(s: State, p: nat)
    requires p < |s.procs|
  {
    var pc := s.procs[p].pc;
    && (pc.WaitEnter? || pc.Scan? || pc.Reaped? || pc.SleepLock? || pc.SleepRelease? || pc.SleepMark? ||
        pc.SleepSwitch? || pc.SleepTidy?)
    && !Reaping(s, p)
  }

  lemma LeavePc(s: State, p: nat, r: nat)
    requires Inv(s) && Enabled(s, Step(p)) && Leaving(s, p) && r < |s.procs|
    ensures var s' := Next(s, Step(p)); PcOk(s'.procs[r], r, s'.wl, s'.init)
  {
    hide Inv, ForkOk, ParentOk, AdoptOk;
    At(s, p);
    OwnLock(s, p);
    if r != p { Untouched(s, Next(s, Step(p)), p, r); }
  }

  lemma LeaveFrame(s: State, p: nat)
    requires Inv(s) && Enabled(s, Step(p)) && Leaving(s, p)
    ensures ForkFrame(s, Next(s, Step(p)))
  {
    hide Inv, ForkOk, ParentOk, AdoptOk;
    At(s, p);
  }

  lemma LeaveParent(s: State, p: nat, z: nat)
    requires Inv(s) && Enabled(s, Step(p)) && Leaving(s, p) && z < |s.procs|
    ensures ParentOk(Next(s, Step(p)), z) && AdoptOk(Next(s, Step(p)), z)
  {
    At(s, p);
    At(s, z);
  }

  lemma LeaveAttended(s: State, p: nat, r: nat, z: nat)
    requires Inv(s) && Enabled(s, Step(p)) && Leaving(s, p) && r < |s.procs| && z < |s.procs|
    requires s.procs[z].parent == r
    ensures Next(s, Step(p)).procs[z].parent == r && Attended(Next(s, Step(p)), r, z)
  {
    hide Inv, ForkOk, AdoptOk;
    At(s, r);
    At(s, p);
    At(s, z);
    AttendedAt(s, r, z);
  }

  lemma WaitPc(s: State, p: nat, r: nat)
    requires Inv(s) && Enabled(s, Step(p)) && Waiting(s, p) && r < |s.procs|
    ensures var s' := Next(s, Step(p)); PcOk(s'.procs[r], r, s'.wl, s'.init)
  {
    hide Inv, ForkOk, ParentOk, AdoptOk;
    At(s, p);
    OwnLock(s, p);
    if r != p { Untouched(s, Next(s, Step(p)), p, r); }
  }

  lemma WaitFrame(s: State, p: nat)
    requires Inv(s) && Enabled(s, Step(p)) && Waiting(s, p)
    ensures ForkFrame(s, Next(s, Step(p)))
  {
    hide Inv, ForkOk, ParentOk, AdoptOk;
    At(s, p);
  }

  lemma WaitParents(s: State, p: nat)
    requires Inv(s) && Enabled(s, Step(p)) && Waiting(s, p)
    ensures ParentFrame(s, Next(s, Step(p)))
  {
    At(s, p);
  }

  /** A step of wait leaves the other processes alone, and takes or gives up only its own wait_lock. */
  lemma WaitChanges(s: State, p: nat)
    requires Enabled(s, Step(p)) && Waiting(s, p)
    requires PcOk(s.procs[p], p, s.wl, s.init)
    ensures var s', q, q' := Next(s, Step(p)), s.procs[p], Next(s, Step(p)).procs[p];
      && s'.procs == s.procs[p := q'] && s'.init == s.init && q'.parent == q.parent
      && !q'.st.ZOMBIE? && !Exiting(q'.pc) && !q'.pc.ReparentWake?
      && (s'.wl == s.wl || (s.wl == NONE && s'.wl == p) || (s.wl == p && s'.wl == NONE))
  {
  }

  lemma WaitOwnChild(s: State, p: nat, z: nat)
    requires Enabled(s, Step(p)) && Waiting(s, p) && z < |s.procs| && z != p && s.procs[z].parent == p
    requires PcOk(s.procs[p], p, s.wl, s.init) && PcOk(s.procs[z], z, s.wl, s.init)
    requires Attended(s, p, z)
    ensures Next(s, Step(p)).procs[z] == s.procs[z] && Attended(Next(s, Step(p)), p, z)
  {
  }

  lemma WaitAttended(s: State, p: nat, r: nat, z: nat)
    requires Inv(s) && Enabled(s, Step(p)) && Waiting(s, p) && r < |s.procs| && z < |s.procs|
    requires s.procs[z].parent == r
    ensures Next(s, Step(p)).procs[z].parent == r && Attended(Next(s, Step(p)), r, z)
  {
    hide Inv, ForkOk, AdoptOk;
    At(s, p);
    At(s, z);
    AttendedAt(s, r, z);
    WaitChanges(s, p);
    if r == p {
      WaitOwnChild(s, p, z);
    } else {
      hide Next, Enabled, ParentOk;
    }
  }

  lemma LoopPc(s: State, p: nat, r: nat)
    requires Inv(s) && Enabled(s, Step(p)) && Looping(s, p) && r < |s.procs|
    ensures var s' := Next(s, Step(p)); PcOk(s'.procs[r], r, s'.wl, s'.init)
  {
    At(s, p);
    At(s, r);
  }

  lemma LoopFrame(s: State, p: nat)
    requires Inv(s) && Enabled(s, Step(p)) && Looping(s, p)
    ensures ForkFrame(s, Next(s, Step(p))) && ParentFrame(s, Next(s, Step(p)))
  {
    At(s, p);
  }

  /** A turn of wakeup moves on, and may make one other process runnable that sleeps where it should be woken. */
  lemma LoopChanges(s: State, p: nat)
    requires Enabled(s, Step(p)) && Looping(s, p)
    ensures var s', pc, pc' := Next(s, Step(p)), s.procs[p].pc, Next(s, Step(p)).procs[p].pc;
      && |s'.procs| == |s.procs| && s'.wl == s.wl && s'.init == s.init
      && s'.procs[p] == s.procs[p].(pc := pc')
      && (pc.ReparentWake? ==> pc' == ReparentWake(pc.i, pc.j + 1)) && (pc.ExitWake? ==> pc' == ExitWake(pc.j + 1))
      && (forall x :: 0 <= x < |s.procs| && x != p && x != pc.j ==> s'.procs[x] == s.procs[x])
      && (pc.j != p ==> s'.procs[pc.j] == Wake(s.procs[pc.j], if pc.ReparentWake? then s.init else s.procs[p].parent))
  {
  }

  /** A turn of wakeup never leaves behind a sleeping parent it was meant for. */
  lemma LoopAttended(s: State, p: nat, r: nat, z: nat)
    requires Inv(s) && Enabled(s, Step(p)) && Looping(s, p) && r < |s.procs| && z < |s.procs|
    requires s.procs[z].parent == r
    ensures Next(s, Step(p)).procs[z].parent == r && Attended(Next(s, Step(p)), r, z)
  {
    hide Inv, ForkOk;
    At(s, p);
    At(s, r);
    At(s, z);
    AttendedAt(s, r, z);
    LoopChanges(s, p);
    hide Next, Enabled;
  }

  lemma AdoptPc(s: State, p: nat, r: nat)
    requires Inv(s) && Enabled(s, Step(p)) && Adopting(s, p) && r < |s.procs|
    ensures var s' := Next(s, Step(p)); PcOk(s'.procs[r], r, s'.wl, s'.init)
    ensures ParentOk(Next(s, Step(p)), r) && AdoptOk(Next(s, Step(p)), r)
  {
    At(s, p);
    At(s, r);
    At(s, s.init);
  }

  lemma AdoptFork(s: State, p: nat, q: nat, r: nat)
    requires Inv(s) && Enabled(s, Step(p)) && Adopting(s, p) && q < |s.procs| && r < |s.procs|
    ensures ForkOk(Next(s, Step(p)), r) && OneFork(Next(s, Step(p)), q, r)
  {
    At(s, p);
    At(s, r);
    assert OneFork(s, q, r);
  }

  lemma AdoptAttended(s: State, p: nat, r: nat, z: nat)
    requires Inv(s) && Enabled(s, Step(p)) && Adopting(s, p) && r < |s.procs| && z < |s.procs|
    requires Next(s, Step(p)).procs[z].parent == r
    ensures Attended(Next(s, Step(p)), r, z)
  {
    At(s, p);
    At(s, r);
    At(s, z);
    assert s.procs[z].parent == r ==> Attended(s, r, z);
  }

  lemma ReapPc(s: State, p: nat, r: nat)
    requires Inv(s) && Enabled(s, Step(p)) && Reaping(s, p) && r < |s.procs|
    ensures var s' := Next(s, Step(p)); PcOk(s'.procs[r], r, s'.wl, s'.init)
    ensures ParentOk(Next(s, Step(p)), r) && AdoptOk(Next(s, Step(p)), r)
  {
    At(s, p);
    At(s, r);
    At(s, s.procs[p].pc.i);
  }

  lemma ReapFrame(s: State, p: nat)
    requires Inv(s) && Enabled(s, Step(p)) && Reaping(s, p)
    ensures ForkFrame(s, Next(s, Step(p)))
  {
    At(s, p);
    At(s, s.procs[p].pc.i);
  }

  lemma ReapAttended(s: State, p: nat, r: nat, z: nat)
    requires Inv(s) && Enabled(s, Step(p)) && Reaping(s, p) && r < |s.procs| && z < |s.procs|
    requires Next(s, Step(p)).procs[z].parent == r
    ensures Attended(Next(s, Step(p)), r, z)
  {
    At(s, p);
    At(s, r);
    At(s, z);
    assert s.procs[z].parent == r ==> Attended(s, r, z);
  }

  lemma ForkingPc(s: State, p: nat, r: nat)
    requires Inv(s) && Enabled(s, Step(p)) && Forking(s.procs[p].pc) && r < |s.procs|
    ensures var s' := Next(s, Step(p)); PcOk(s'.procs[r], r, s'.wl, s'.init)
  {
    hide Inv, ParentOk, AdoptOk;
    At(s, p);
    At(s, r);
  }

  lemma ForkingParent(s: State, p: nat, r: nat)
    requires Inv(s) && Enabled(s, Step(p)) && Forking(s.procs[p].pc) && r < |s.procs|
    ensures ParentOk(Next(s, Step(p)), r) && AdoptOk(Next(s, Step(p)), r)
  {
    hide Inv;
    At(s, p);
    At(s, r);
  }

  lemma ForkingFork(s: State, p: nat, r: nat)
    requires Inv(s) && Enabled(s, Step(p)) && Forking(s.procs[p].pc) && r < |s.procs|
    ensures ForkOk(Next(s, Step(p)), r)
  {
    hide Inv, ParentOk, AdoptOk, PcOk;
    At(s, p);
    At(s, r);
    OneForkAt(s, p, r);
  }

  lemma ForkingOne(s: State, p: nat, q: nat, r: nat)
    requires Inv(s) && Enabled(s, Step(p)) && Forking(s.procs[p].pc) && q < |s.procs| && r < |s.procs|
    ensures OneFork(Next(s, Step(p)), q, r)
  {
    assert OneFork(s, q, r);
  }

  /** A step of fork moves the process on and touches no other but the new one, which is not a ZOMBIE. */
  lemma ForkingChanges(s: State, p: nat)
    requires Enabled(s, Step(p)) && Forking(s.procs[p].pc) && ForkOk(s, p)
    ensures var s', np := Next(s, Step(p)), s.procs[p].pc.np;
      && |s'.procs| == |s.procs| && s'.wl == s.wl && np != p
      && s'.procs[p] == s.procs[p].(pc := s'.procs[p].pc) && (s'.procs[p].pc.Outside? || Forking(s'.procs[p].pc))
      && (forall x :: 0 <= x < |s.procs| && x != p && x != np ==> s'.procs[x] == s.procs[x])
      && s'.procs[np].pc == s.procs[np].pc && !s'.procs[np].st.ZOMBIE? && !s'.procs[np].st.SLEEPING?
      && (s'.procs[np].parent == s.procs[np].parent || s'.procs[np].parent == p)
  {
  }

  lemma ForkingAttended(s: State, p: nat, r: nat, z: nat)
    requires Inv(s) && Enabled(s, Step(p)) && Forking(s.procs[p].pc) && r < |s.procs| && z < |s.procs|
    requires Next(s, Step(p)).procs[z].parent == r
    ensures Attended(Next(s, Step(p)), r, z)
  {
    hide Inv, AdoptOk, Next;
    At(s, p);
    At(s, r);
    At(s, z);
    At(s, s.procs[p].pc.np);
    ForkingChanges(s, p);
    if s.procs[z].parent == r { AttendedAt(s, r, z); }
  }

  // -------- the other actions --------

  predicate ForkAction(a: Action) {
    a.Fork? || a.ForkFail?
  }

  lemma OtherFrame(s: State, a: Action)
    requires Inv(s) && Enabled(s, a) && !a.Step? && !ForkAction(a)
    ensures ForkFrame(s, Next(s, a)) && ParentFrame(s, Next(s, a))
  {
    hide Inv, ForkOk, ParentOk, AdoptOk;
    At(s, a.p);
  }

  lemma OtherAttended(s: State, a: Action)
    requires Inv(s) && Enabled(s, a) && !a.Step? && !ForkAction(a)
    ensures AttendFrame(s, Next(s, a))
  {
    At(s, a.p);
  }

  lemma OtherPc(s: State, a: Action, r: nat)
    requires Inv(s) && Enabled(s, a) && !a.Step? && !ForkAction(a) && r < |s.procs|
    ensures var s' := Next(s, a); PcOk(s'.procs[r], r, s'.wl, s'.init)
  {
    hide Inv, ForkOk, ParentOk, AdoptOk;
    At(s, a.p);
    OwnLock(s, a.p);
    if r != a.p { Untouched(s, Next(s, a), a.p, r); }
  }

  lemma NewFrame(s: State, a: Action)
    requires Inv(s) && Enabled(s, a) && ForkAction(a)
    ensures ParentFrame(s, Next(s, a)) && AttendFrame(s, Next(s, a))
  {
    At(s, a.p);
    At(s, if a.Fork? then a.np else s.procs[a.p].pc.np);
  }

  lemma NewPc(s: State, a: Action, r: nat)
    requires Inv(s) && Enabled(s, a) && ForkAction(a) && r < |s.procs|
    ensures var s' := Next(s, a); PcOk(s'.procs[r], r, s'.wl, s'.init)
  {
    hide Inv, ParentOk, AdoptOk;
    At(s, a.p);
    At(s, r);
  }

  lemma NewFork(s: State, a: Action, r: nat)
    requires Inv(s) && Enabled(s, a) && ForkAction(a) && r < |s.procs|
    ensures ForkOk(Next(s, a), r)
  {
    hide Inv, ParentOk, AdoptOk;
    At(s, if a.Fork? then a.np else s.procs[a.p].pc.np);
    At(s, a.p);
    At(s, r);
    OneForkAt(s, a.p, r);
  }

  lemma NewOne(s: State, a: Action, q: nat, r: nat)
    requires Inv(s) && Enabled(s, a) && ForkAction(a) && q < |s.procs| && r < |s.procs|
    ensures OneFork(Next(s, a), q, r)
  {
    At(s, r);
    At(s, q);
    assert OneFork(s, q, r);
  }

  // -------- every action keeps the invariant --------

  lemma StepGood(s: State, p: nat, r: nat)
    requires Inv(s) && Enabled(s, Step(p)) && r < |s.procs|
    ensures Good(Next(s, Step(p)), r)
  {
    var s' := Next(s, Step(p));
    if Leaving(s, p) {
      LeavePc(s, p, r); LeaveParent(s, p, r); LeaveFrame(s, p); ForkFrameKeeps(s, s', r, r);
    } else if Waiting(s, p) {
      WaitPc(s, p, r); WaitFrame(s, p); WaitParents(s, p); ParentFrameKeeps(s, s', r); ForkFrameKeeps(s, s', r, r);
    } else if Looping(s, p) {
      LoopPc(s, p, r); LoopFrame(s, p); ParentFrameKeeps(s, s', r); ForkFrameKeeps(s, s', r, r);
    } else if Adopting(s, p) {
      AdoptPc(s, p, r); AdoptFork(s, p, r, r);
    } else if Reaping(s, p) {
      ReapPc(s, p, r); ReapFrame(s, p); ForkFrameKeeps(s, s', r, r);
    } else {
      ForkingPc(s, p, r); ForkingParent(s, p, r); ForkingFork(s, p, r);
    }
  }

  lemma StepOneFork(s: State, p: nat, q: nat, r: nat)
    requires Inv(s) && Enabled(s, Step(p)) && q < |s.procs| && r < |s.procs|
    ensures OneFork(Next(s, Step(p)), q, r)
  {
    var s' := Next(s, Step(p));
    if Leaving(s, p) { LeaveFrame(s, p); ForkFrameKeeps(s, s', q, r); }
    else if Waiting(s, p) { WaitFrame(s, p); ForkFrameKeeps(s, s', q, r); }
    else if Looping(s, p) { LoopFrame(s, p); ForkFrameKeeps(s, s', q, r); }
    else if Adopting(s, p) { AdoptFork(s, p, q, r); }
    else if Reaping(s, p) { ReapFrame(s, p); ForkFrameKeeps(s, s', q, r); }
    else { ForkingOne(s, p, q, r); }
  }

  lemma StepAttended(s: State, p: nat, r: nat, z: nat)
    requires Inv(s) && Enabled(s, Step(p)) && r < |s.procs| && z < |s.procs|
    requires Next(s, Step(p)).procs[z].parent == r
    ensures Attended(Next(s, Step(p)), r, z)
  {
    if Leaving(s, p) { LeaveAttended(s, p, r, z); }
    else if Waiting(s, p) { WaitAttended(s, p, r, z); }
    else if Looping(s, p) { LoopAttended(s, p, r, z); }
    else if Adopting(s, p) { AdoptAttended(s, p, r, z); }
    else if Reaping(s, p) { ReapAttended(s, p, r, z); }
    else { ForkingAttended(s, p, r, z); }
  }

  lemma ActionGood(s: State, a: Action, q: nat, r: nat)
    requires Inv(s) && Enabled(s, a) && q < |s.procs| && r < |s.procs|
    ensures Good(Next(s, a), r) && OneFork(Next(s, a), q, r)
  {
    if a.Step? {
      StepGood(s, a.p, r); StepOneFork(s, a.p, q, r);
    } else if ForkAction(a) {
      NewPc(s, a, r); NewFrame(s, a); ParentFrameKeeps(s, Next(s, a), r);
      NewFork(s, a, r); NewOne(s, a, q, r);
    } else {
      OtherPc(s, a, r); OtherFrame(s, a); ParentFrameKeeps(s, Next(s, a), r);
      ForkFrameKeeps(s, Next(s, a), r, q); ForkFrameKeeps(s, Next(s, a), q, r);
    }
  }

  lemma ActionAttended(s: State, a: Action, r: nat, z: nat)
    requires Inv(s) && Enabled(s, a) && r < |s.procs| && z < |s.procs| && Next(s, a).procs[z].parent == r
    ensures Attended(Next(s, a), r, z)
  {
    if a.Step? {
      StepAttended(s, a.p, r, z);
    } else {
      if ForkAction(a) { NewFrame(s, a); } else { OtherAttended(s, a); }
      AttendFrameKeeps(s, Next(s, a), r, z);
    }
  }

  lemma ActionShape(s: State, a: Action)
    requires Inv(s) && Enabled(s, a)
    ensures var s' := Next(s, a);
            |s'.procs| == |s.procs| && s'.init == s.init && (s'.wl == s.wl || s'.wl == NONE || s'.wl == a.p)
  {
  }

  lemma ActionKeeps(s: State, a: Action)
    requires Inv(s) && Enabled(s, a)
    ensures Inv(Next(s, a))
  {
    var s' := Next(s, a);
    ActionShape(s, a);
    forall q, r | 0 <= q < |s'.procs| && 0 <= r < |s'.procs| ensures Good(s', r) && OneFork(s', q, r) {
      ActionGood(s, a, q, r);
    }
    forall r | 0 <= r < |s'.procs| ensures Good(s', r) {
      assert OneFork(s', 0, r);
    }
    forall r, z | 0 <= r < |s'.procs| && 0 <= z < |s'.procs| && s'.procs[z].parent == r ensures Attended(s', r, z) {
      ActionAttended(s, a, r, z);
    }
  }

  lemma InitHolds(s: State)
    requires Init(s)
    ensures Inv(s)
  {
  }

  lemma {:induction false} RunInv(run: seq<State>, acts: seq<Action>, i: nat)
    requires IsRun(run, acts) && i < |run|
    ensures Inv(run[i])
  {
    if i == 0 {
      InitHolds(run[0]);
    } else {
      RunInv(run, acts, i - 1);
      ActionKeeps(run[i - 1], acts[i - 1]);
    }
  }

  // -------- what it gives --------

  /** Every death is reaped at most once: the counts differ by exactly the death still waiting. */
  lemma ReapedAtMostOnce(run: seq<State>, acts: seq<Action>, i: nat, p: nat)
    requires IsRun(run, acts) && i < |run| && p < |run[i].procs|
    ensures run[i].procs[p].deaths == run[i].procs[p].reaps + if run[i].procs[p].st.ZOMBIE? then 1 else 0
  {
    RunInv(run, acts, i);
    At(run[i], p);
  }

  /** The only action that changes a reap count is a turn of a scan over a ZOMBIE child. */
  lemma OnlyReapingReaps(s: State, a: Action, z: nat)
    requires Enabled(s, a) && z < |s.procs|
    ensures |Next(s, a).procs| == |s.procs|
    ensures Next(s, a).procs[z].reaps != s.procs[z].reaps ==>
              a.Step? && Reaping(s, a.p) && s.procs[a.p].pc.i == z && s.procs[z].plock == NONE
  {
  }

  /** A slot is reaped only in a turn of its current parent's wait, with wait_lock held, when it is a
      ZOMBIE that has left its CPU. */
  lemma ReapedByParentAfterSwitch(run: seq<State>, acts: seq<Action>, i: nat, z: nat)
    requires IsRun(run, acts) && i < |acts| && z < |run[i].procs|
    ensures |run[i + 1].procs| == |run[i].procs|
    ensures run[i + 1].procs[z].reaps != run[i].procs[z].reaps ==>
              && run[i].procs[z].st.ZOMBIE? && run[i].procs[z].pc.Dead?
              && acts[i].Step? && run[i].procs[z].parent == acts[i].p && run[i].wl == acts[i].p
  {
    RunInv(run, acts, i);
    OnlyReapingReaps(run[i], acts[i], z);
    At(run[i], z);
    At(run[i], acts[i].p);
  }

  /** No exit is missed: while wait_lock is free, a process asleep in wait, or past the point where it
      released wait_lock to sleep, has no ZOMBIE child. */
  lemma NoMissedExit(run: seq<State>, acts: seq<Action>, i: nat, p: nat, z: nat)
    requires IsRun(run, acts) && i < |run| && p < |run[i].procs| && z < |run[i].procs|
    requires run[i].wl == NONE && run[i].procs[z].parent == p
    requires run[i].procs[p].pc.SleepMark? || (run[i].procs[p].st.SLEEPING? && run[i].procs[p].chan == p)
    ensures !run[i].procs[z].st.ZOMBIE?
  {
    RunInv(run, acts, i);
    At(run[i], p);
    assert Attended(run[i], p, z);
  }

  /** Every started process other than init always has a parent that is alive, and init is always alive. */
  lemma ParentsAreAlive(run: seq<State>, acts: seq<Action>, i: nat, p: nat)
    requires IsRun(run, acts) && i < |run| && p < |run[i].procs|
    ensures run[i].init < |run[i].procs| && Live(run[i].procs[run[i].init].st)
    ensures p != run[i].init && !run[i].procs[p].st.UNUSED? && !run[i].procs[p].st.USED? ==>
              var r := run[i].procs[p].parent;
              0 <= r < |run[i].procs| && r != p && Live(run[i].procs[r].st)
  {
    RunInv(run, acts, i);
    At(run[i], p);
    At(run[i], run[i].init);
  }

  /** wait gives up for lack of children only when the process has none. */
  lemma NoChildrenIsTrue(run: seq<State>, acts: seq<Action>, i: nat, p: nat, z: nat)
    requires IsRun(run, acts) && i < |run| && p < |run[i].procs| && z < |run[i].procs|
    requires run[i].procs[p].pc.Scan? && run[i].procs[p].pc.i >= |run[i].procs| && !run[i].procs[p].pc.kids
    ensures run[i].procs[z].parent != p
  {
    RunInv(run, acts, i);
    assert run[i].procs[z].parent == p ==> Attended(run[i], p, z);
  }

  // -------- what a call has done when it returns --------

  /** `j` is the first state after call `i` in which process `p` is back outside. */
  predicate Returns(run: seq<State>, i: nat, j: nat, p: nat) {
    && i < j < |run| && (forall k :: i <= k <= j ==> p < |run[k].procs|)
    && run[j].procs[p].pc.Outside? && forall k :: i < k < j ==> !run[k].procs[p].pc.Outside?
  }

  /** In step `k` process `p` reaps a child: a ZOMBIE whose parent it is, whose reap count goes up by one. */
  ghost predicate ReapsAt(run: seq<State>, acts: seq<Action>, k: nat, p: nat)
    requires k < |acts| && |run| == |acts| + 1
  {
    && acts[k] == Step(p) && |run[k + 1].procs| == |run[k].procs|
    && exists z :: && 0 <= z < |run[k].procs| && run[k].procs[z].parent == p && run[k].procs[z].st.ZOMBIE?
                   && run[k + 1].procs[z].reaps == run[k].procs[z].reaps + 1
  }

  ghost predicate Childless(s: State, p: nat) {
    forall z :: 0 <= z < |s.procs| ==> s.procs[z].parent != p
  }

  predicate InWait(pc: Pc) {
    || pc.WaitEnter? || pc.Scan? || pc.SleepLock? || pc.SleepRelease? || pc.SleepMark? || pc.SleepSwitch? || pc.Away?
    || pc.SleepTidy?
  }

  /** How a step moves a process that is in wait and has not reaped yet. */
  lemma WaitMoves(s: State, a: Action, p: nat)
    requires Enabled(s, a) && p < |s.procs| && InWait(s.procs[p].pc)
    requires Inv(s)
    ensures |Next(s, a).procs| == |s.procs|
    ensures var pc := Next(s, a).procs[p].pc;
      if a == Step(p) && Reaping(s, p) then pc.Reaped?
      else if a == CopyoutFail(p) then pc.Outside?
      else if a == Step(p) && s.procs[p].pc.Scan? && s.procs[p].pc.i >= |s.procs| && (!s.procs[p].pc.kids || s.procs[p].killed)
      then pc.Outside?
      else InWait(pc)
  {
    hide Inv, ForkOk, ParentOk, AdoptOk;
    At(s, p);
    At(s, a.p);
    Bystanders(s, a, p);
  }

  /** A process in wait is neither being forked nor a ZOMBIE, so no other process frees its slot. */
  lemma Bystanders(s: State, a: Action, p: nat)
    requires Enabled(s, a) && p < |s.procs| && (InWait(s.procs[p].pc) || s.procs[p].pc.Reaped?)
    requires Inv(s)
    ensures |Next(s, a).procs| == |s.procs|
    ensures a.p != p ==> Next(s, a).procs[p].pc == s.procs[p].pc
  {
    hide Inv, ParentOk, AdoptOk, Next;
    At(s, p);
    At(s, a.p);
    if a.Step? {
      StepOthers(s, a.p, p);
    } else {
      ActionOthers(s, a, p);
    }
  }

  /** A step of another process changes the program counter of `p` only to free its slot. */
  lemma StepOthers(s: State, r: nat, p: nat)
    requires Enabled(s, Step(r)) && p < |s.procs| && (p != r ==> !s.procs[p].st.ZOMBIE?)
    ensures |Next(s, Step(r)).procs| == |s.procs|
    ensures p != r ==> Next(s, Step(r)).procs[p].pc == s.procs[p].pc
  {
  }

  lemma ActionOthers(s: State, a: Action, p: nat)
    requires Enabled(s, a) && !a.Step? && p < |s.procs| && !s.procs[p].st.USED? && !s.procs[p].st.UNUSED? && ForkOk(s, a.p)
    ensures |Next(s, a).procs| == |s.procs|
    ensures a.p != p ==> Next(s, a).procs[p].pc == s.procs[p].pc
  {
  }

  lemma ReapedMoves(s: State, a: Action, p: nat)
    requires Enabled(s, a) && p < |s.procs| && s.procs[p].pc.Reaped?
    requires Inv(s)
    ensures |Next(s, a).procs| == |s.procs|
    ensures Next(s, a).procs[p].pc.Reaped? || Next(s, a).procs[p].pc.Outside?
  {
    hide Inv, ForkOk, ParentOk, AdoptOk;
    At(s, p);
    Bystanders(s, a, p);
  }

  /** Reaping is what the scan does on a ZOMBIE child, and nothing else is. */
  lemma ReapsMeans(run: seq<State>, acts: seq<Action>, k: nat, p: nat)
    requires IsRun(run, acts) && k < |acts| && p < |run[k].procs|
    ensures ReapsAt(run, acts, k, p) <==> acts[k] == Step(p) && Reaping(run[k], p)
  {
    var s := run[k];
    if acts[k] == Step(p) && Reaping(s, p) {
      RunInv(run, acts, k);
      At(s, p);
      At(s, s.procs[p].pc.i);
      var z := s.procs[p].pc.i;
      assert run[k + 1].procs[z].reaps == s.procs[z].reaps + 1;
    }
    if ReapsAt(run, acts, k, p) {
      var z :| 0 <= z < |s.procs| && run[k + 1].procs[z].reaps == s.procs[z].reaps + 1;
      OnlyReapingReaps(s, acts[k], z);
    }
  }

  ghost predicate NoReap(run: seq<State>, acts: seq<Action>, i: nat, k: nat, p: nat)
    requires |run| == |acts| + 1 && k <= |acts|
  {
    forall h :: i < h < k ==> !ReapsAt(run, acts, h, p)
  }

  ghost predicate OneReap(run: seq<State>, acts: seq<Action>, i: nat, k: nat, p: nat)
    requires |run| == |acts| + 1 && k <= |acts|
  {
    exists h :: i < h < k && ReapsAt(run, acts, h, p) && forall g :: i < g < k && g != h ==> !ReapsAt(run, acts, g, p)
  }

  /** wait has found nothing to reap: the copy to the user failed, or the process is killed, or has no children. */
  ghost predicate GaveUp(run: seq<State>, acts: seq<Action>, k: nat, p: nat)
    requires |run| == |acts| + 1 && k < |acts| && p < |run[k].procs|
  {
    acts[k] == CopyoutFail(p) || run[k].procs[p].killed || Childless(run[k], p)
  }

  lemma {:induction false} WaitGoes(run: seq<State>, acts: seq<Action>, i: nat, k: nat, p: nat)
    requires IsRun(run, acts) && i < k <= |acts| && acts[i] == Wait(p)
    requires forall h :: i <= h <= k ==> p < |run[h].procs|
    requires forall h :: i < h < k ==> !run[h].procs[p].pc.Outside?
    ensures var pc := run[k].procs[p].pc;
      || (InWait(pc) && NoReap(run, acts, i, k, p))
      || (pc.Reaped? && OneReap(run, acts, i, k, p))
      || (pc.Outside? && OneReap(run, acts, i, k, p))
      || (pc.Outside? && NoReap(run, acts, i, k, p) && GaveUp(run, acts, k - 1, p))
    decreases k
  {
    hide ReapsAt, Childless, Next, Enabled, Inv, InWait, Reaping, OneReap;
    if k == i + 1 {
      WaitStarts(run[i], p);
    } else {
      WaitGoes(run, acts, i, k - 1, p);
      WaitTurn(run, acts, i, k - 1, p);
    }
  }

  lemma WaitStarts(s: State, p: nat)
    requires Enabled(s, Wait(p))
    ensures InWait(Next(s, Wait(p)).procs[p].pc)
  {
  }

  lemma WaitTurn(run: seq<State>, acts: seq<Action>, i: nat, k: nat, p: nat)
    requires IsRun(run, acts) && i < k < |acts| && p < |run[k].procs|
    requires var pc := run[k].procs[p].pc;
      (InWait(pc) && NoReap(run, acts, i, k, p)) || (pc.Reaped? && OneReap(run, acts, i, k, p))
    ensures p < |run[k + 1].procs| && var pc := run[k + 1].procs[p].pc;
      || (InWait(pc) && NoReap(run, acts, i, k + 1, p))
      || (pc.Reaped? && OneReap(run, acts, i, k + 1, p))
      || (pc.Outside? && OneReap(run, acts, i, k + 1, p))
      || (pc.Outside? && NoReap(run, acts, i, k + 1, p) && GaveUp(run, acts, k, p))
  {
    hide ReapsAt, Childless, Next, Enabled, Inv;
    RunInv(run, acts, k);
    ReapsMeans(run, acts, k, p);
    if run[k].procs[p].pc.Reaped? {
      ReapedMoves(run[k], acts[k], p);
    } else {
      WaitMoves(run[k], acts[k], p);
      if acts[k] == Step(p) && run[k].procs[p].pc.Scan? && run[k].procs[p].pc.i >= |run[k].procs| && !run[k].procs[p].pc.kids {
        ScanIsTrue(run, acts, k, p);
      }
    }
  }

  lemma ScanIsTrue(run: seq<State>, acts: seq<Action>, k: nat, p: nat)
    requires IsRun(run, acts) && k < |run| && p < |run[k].procs|
    requires run[k].procs[p].pc.Scan? && run[k].procs[p].pc.i >= |run[k].procs| && !run[k].procs[p].pc.kids
    ensures Childless(run[k], p)
  {
    forall z | 0 <= z < |run[k].procs| ensures run[k].procs[z].parent != p {
      NoChildrenIsTrue(run, acts, k, p, z);
    }
  }

  /** wait returns after reaping exactly one child; or after reaping none, because the process has no children or is
      killed, or the child's status could not be copied out. */
  lemma WaitReturns(run: seq<State>, acts: seq<Action>, i: nat, j: nat, p: nat)
    requires IsRun(run, acts) && i < |acts| && acts[i] == Wait(p) && Returns(run, i, j, p)
    ensures OneReap(run, acts, i, j, p) || (NoReap(run, acts, i, j, p) && GaveUp(run, acts, j - 1, p))
  {
    hide OneReap, NoReap, GaveUp;
    WaitGoes(run, acts, i, j, p);
  }

  predicate Gone(pc: Pc) {
    Exiting(pc) || pc.ExitSwitch? || pc.Dead?
  }

  /** A process in exit stays there until its slot is reaped. */
  lemma ExitMoves(s: State, a: Action, p: nat)
    requires Enabled(s, a) && p < |s.procs| && Gone(s.procs[p].pc)
    requires Inv(s)
    ensures |Next(s, a).procs| == |s.procs|
    ensures var q := Next(s, a).procs[p];
      Gone(q.pc) || (q.pc.Outside? && q.st.UNUSED? && q.reaps == s.procs[p].reaps + 1 && s.procs[p].st.ZOMBIE?)
  {
    hide Inv, ParentOk, AdoptOk, Next;
    At(s, p);
    At(s, a.p);
    if a.p == p {
      ExitOwn(s, a, p);
    } else if a.Step? {
      ExitOther(s, a.p, p);
    } else {
      ActionOthers(s, a, p);
    }
  }

  lemma ExitOwn(s: State, a: Action, p: nat)
    requires Enabled(s, a) && a.p == p < |s.procs| && Gone(s.procs[p].pc) && PcOk(s.procs[p], p, s.wl, s.init)
    ensures |Next(s, a).procs| == |s.procs| && Gone(Next(s, a).procs[p].pc)
  {
  }

  lemma ExitOther(s: State, r: nat, p: nat)
    requires Enabled(s, Step(r)) && p < |s.procs| && p != r && Gone(s.procs[p].pc)
    ensures |Next(s, Step(r)).procs| == |s.procs|
    ensures var q := Next(s, Step(r)).procs[p];
      Gone(q.pc) || (q.pc.Outside? && q.st.UNUSED? && q.reaps == s.procs[p].reaps + 1 && s.procs[p].st.ZOMBIE?)
  {
  }

  /** exit does not return: the slot is outside again only when it has been reaped as a ZOMBIE and is free. */
  lemma {:induction false} ExitNeverReturns(run: seq<State>, acts: seq<Action>, i: nat, k: nat, p: nat)
    requires IsRun(run, acts) && i < k <= |acts| && acts[i] == Exit(p)
    requires forall h :: i <= h <= k ==> p < |run[h].procs|
    requires forall h :: i < h < k ==> !run[h].procs[p].pc.Outside?
    ensures var q := run[k].procs[p];
      Gone(q.pc) || (q.pc.Outside? && q.st.UNUSED? && q.reaps == run[k - 1].procs[p].reaps + 1 && run[k - 1].procs[p].st.ZOMBIE?)
    decreases k
  {
    hide Inv, Next, Gone;
    if k == i + 1 {
      ExitStarts(run[i], p);
    } else {
      ExitNeverReturns(run, acts, i, k - 1, p);
      RunInv(run, acts, k - 1);
      ExitMoves(run[k - 1], acts[k - 1], p);
    }
  }

  lemma ExitStarts(s: State, p: nat)
    requires Enabled(s, Exit(p))
    ensures Gone(Next(s, Exit(p)).procs[p].pc)
  {
  }

  /** fork, on its way to making `np`. */
  predicate Making(pc: Pc, np: nat) {
    Forking(pc) && pc.np == np
  }

  lemma ForkMoves(s: State, a: Action, p: nat, np: nat)
    requires Enabled(s, a) && p < |s.procs| && Making(s.procs[p].pc, np)
    requires Inv(s)
    ensures |Next(s, a).procs| == |s.procs| && np < |s.procs|
    ensures var s' := Next(s, a);
      || Making(s'.procs[p].pc, np)
      || (s'.procs[p].pc.Outside? && a == ForkFail(p) && s'.procs[np].st.UNUSED? && s'.procs[np].parent == NONE)
      || (s'.procs[p].pc.Outside? && a == Step(p) && s'.procs[np].st.RUNNABLE? && s'.procs[np].parent == p)
  {
    hide Inv, ParentOk, AdoptOk;
    At(s, p);
    At(s, a.p);
    if a.p != p {
      if a.Step? {
        StepOthers(s, a.p, p);
      } else {
        ActionOthers(s, a, p);
      }
      hide Next;
    }
  }

  /** fork returns with a new RUNNABLE child of its own, or with the slot free again. */
  lemma ForkReturns(run: seq<State>, acts: seq<Action>, i: nat, j: nat, p: nat, np: nat)
    requires IsRun(run, acts) && i < |acts| && acts[i] == Fork(p, np) && Returns(run, i, j, p)
    ensures np < |run[j].procs| && np != p
    ensures var c := run[j].procs[np];
      (c.st.RUNNABLE? && c.parent == p) || (acts[j - 1] == ForkFail(p) && c.st.UNUSED? && c.parent == NONE)
  {
    hide Inv, Next, Making;
    ForkStarts(run[i], p, np);
    if j > i + 1 {
      ForkGoes(run, acts, i, j - 1, p, np);
      RunInv(run, acts, j - 1);
      ForkMoves(run[j - 1], acts[j - 1], p, np);
      MakingOutside(run[j].procs[p].pc, np);
    }
  }

  lemma MakingOutside(pc: Pc, np: nat)
    requires pc.Outside?
    ensures !Making(pc, np)
  {
  }

  lemma ForkStarts(s: State, p: nat, np: nat)
    requires Enabled(s, Fork(p, np))
    ensures np != p && Making(Next(s, Fork(p, np)).procs[p].pc, np) && !Next(s, Fork(p, np)).procs[p].pc.Outside?
  {
  }

  lemma {:induction false} ForkGoes(run: seq<State>, acts: seq<Action>, i: nat, k: nat, p: nat, np: nat)
    requires IsRun(run, acts) && i < k <= |acts| && acts[i] == Fork(p, np)
    requires forall h :: i <= h <= k ==> p < |run[h].procs|
    requires forall h :: i < h <= k ==> !run[h].procs[p].pc.Outside?
    ensures Making(run[k].procs[p].pc, np)
    decreases k
  {
    hide Inv, Next, Making;
    if k == i + 1 {
      ForkStarts(run[i], p, np);
    } else {
      ForkGoes(run, acts, i, k - 1, p, np);
      RunInv(run, acts, k - 1);
      ForkMoves(run[k - 1], acts[k - 1], p, np);
    }
  }
}
