/**
  Open files, kernel/file.c, kernel/sysfile.c and the mmap slots of kernel/sysproc.c and kernel/proc.c: the table of
  NFILE entries with reference counts, and the places that hold references: descriptors, VMA slots, and the local
  variables of a system call in progress. A step is one section under the table's lock together with the process's
  own update of its own slot; the processes' steps interleave freely. Which free entry or free slot is taken does not
  matter here.
*/
module Files {
  import opened Options

  const NFILE := 100
  const NOFILE := 16
  const MAXVMA := 16

  type Pid = nat

  /** Where a reference to a file is held. */
  datatype Place = Fd(p: Pid, i: nat) | Vma(p: Pid, i: nat) | Hand(p: Pid, i: nat)

  /** What the last fileclose() lets go of: the inode reference of one open(), or one end of one pipe. */
  datatype Obj = InodeRef(n: nat) | PipeEnd(n: nat, writable: bool)

  datatype File = File(ref: nat, obj: Option<Obj>)

  /** What a process is in the middle of. In Dropping(j, n) its local variables j to n - 1 wait for fileclose(). */
  datatype Pc =
    | Idle
    | Opened
    | Untyped(fd: nat)
    | Dropping(j: nat, n: nat)
    | PipeRead
    | PipeBoth
    | PipeReady
    | PipeHalf(fd0: nat)
    | PipeDone(fd0: nat, fd1: nat)
    | Forking(c: Pid, k: nat)
    | Newborn(parent: Pid)
    | Exiting(k: nat)

  datatype State = State(files: seq<File>, at: map<Place, nat>, procs: map<Pid, Pc>, born: set<Obj>,
                         released: seq<Obj>, next: nat)

  datatype Action =
    | Open(p: Pid, f: nat)
    | OpenInstall(p: Pid, fd: nat)
    | OpenFail(p: Pid)
    | OpenType(p: Pid)
    | Close(p: Pid, fd: nat)
    | Drop(p: Pid)
    | Dup(p: Pid, fd: nat, fd2: nat)
    | Mmap(p: Pid, fd: nat, i: nat)
    | Munmap(p: Pid, i: nat)
    | PipeFirst(p: Pid, f: nat)
    | PipeSecond(p: Pid, f: nat)
    | PipeFail(p: Pid)
    | PipeType(p: Pid)
    | PipeInstall(p: Pid, fd: nat)
    | PipeOk(p: Pid)
    | PipeUndo(p: Pid)
    | Fork(p: Pid, c: Pid)
    | ForkCopy(p: Pid)
    | ForkDone(p: Pid)
    | Exit(p: Pid)
    | ExitStep(p: Pid)
    | ExitEnd(p: Pid)

  /** The k-th slot in the order in which kfork() and kexit() go through them: VMA slots, then descriptors. */
  function Slot(p: Pid, k: nat): Place {
    if k < MAXVMA then Vma(p, k) else Fd(p, k - MAXVMA)
  }

  /** How many slots of that kind a process has. */
  function Slots(pl: Place): nat {
    if pl.Vma? then MAXVMA else NOFILE
  }

  predicate FreeFd(s: State, p: Pid, fd: nat) {
    fd < NOFILE && Fd(p, fd) !in s.at
  }

  predicate FreeFile(s: State, f: nat) {
    f < |s.files| && s.files[f].ref == 0
  }

  predicate Enabled(s: State, a: Action) {
    && a.p in s.procs
    && match a
       case Open(p, f) => s.procs[p].Idle? && FreeFile(s, f)
       case OpenInstall(p, fd) => s.procs[p].Opened? && FreeFd(s, p, fd)
       case OpenFail(p) => s.procs[p].Opened?
       case OpenType(p) => s.procs[p].Untyped?
       case Close(p, fd) => s.procs[p].Idle? && Fd(p, fd) in s.at
       case Drop(p) => s.procs[p].Dropping? && s.procs[p].j < s.procs[p].n
       case Dup(p, fd, fd2) => s.procs[p].Idle? && Fd(p, fd) in s.at && FreeFd(s, p, fd2)
       case Mmap(p, fd, i) => s.procs[p].Idle? && Fd(p, fd) in s.at && i < MAXVMA && Vma(p, i) !in s.at
       case Munmap(p, i) => s.procs[p].Idle? && Vma(p, i) in s.at
       case PipeFirst(p, f) => s.procs[p].Idle? && FreeFile(s, f)
       case PipeSecond(p, f) => s.procs[p].PipeRead? && FreeFile(s, f)
       case PipeFail(p) => s.procs[p].PipeRead? || s.procs[p].PipeBoth?
       case PipeType(p) => s.procs[p].PipeBoth?
       case PipeInstall(p, fd) => (s.procs[p].PipeReady? || s.procs[p].PipeHalf?) && FreeFd(s, p, fd)
       case PipeOk(p) => s.procs[p].PipeDone?
       case PipeUndo(p) => s.procs[p].PipeReady? || s.procs[p].PipeHalf? || s.procs[p].PipeDone?
       case Fork(p, c) => s.procs[p].Idle? && c !in s.procs
       case ForkCopy(p) => s.procs[p].Forking? && s.procs[p].k < MAXVMA + NOFILE
       case ForkDone(p) => s.procs[p].Forking? && s.procs[p].k == MAXVMA + NOFILE
       case Exit(p) => s.procs[p].Idle?
       case ExitStep(p) => s.procs[p].Exiting? && s.procs[p].k < MAXVMA + NOFILE
       case ExitEnd(p) => s.procs[p].Exiting? && s.procs[p].k == MAXVMA + NOFILE
  }

  // -------- the table --------

  /** filealloc(): a free entry, held at `to`. */
  function Alloc(s: State, f: nat, to: Place): State {
    if f < |s.files| then s.(files := s.files[f := s.files[f].(ref := 1)], at := s.at[to := f]) else s
  }

  /** filedup() of the file held at `from`, now also held at `to`. */
  function Share(s: State, from: Place, to: Place): State {
    if from in s.at && s.at[from] < |s.files|
    then var f := s.at[from]; s.(files := s.files[f := s.files[f].(ref := s.files[f].ref + 1)], at := s.at[to := f])
    else s
  }

  /** A reference changes its place. */
  function Shift(s: State, from: Place, to: Place): State {
    if from in s.at then s.(at := (s.at - {from})[to := s.at[from]]) else s
  }

  /** fileclose() of the file held at `from`: the last one frees the entry and lets go of its object. */
  function Fileclose(s: State, from: Place): State {
    if from in s.at && s.at[from] < |s.files| && 0 < s.files[s.at[from]].ref
    then
      var f := s.at[from];
      var file := s.files[f];
      if 1 < file.ref
      then s.(files := s.files[f := file.(ref := file.ref - 1)], at := s.at - {from})
      else s.(files := s.files[f := File(0, None)], at := s.at - {from},
              released := s.released + (if file.obj.Some? then [file.obj.value] else []))
    else s
  }

  /** The file held at `pl` gets its type and its object. */
  function Attach(s: State, pl: Place, o: Obj): State {
    if pl in s.at && s.at[pl] < |s.files|
    then s.(files := s.files[s.at[pl] := s.files[s.at[pl]].(obj := Some(o))], born := s.born + {o})
    else s
  }

  /** The references a step moves, and what it does to them. */
  datatype Move = Take(f: nat, to: Place) | Copy(from: Place, to: Place) | Carry(from: Place, to: Place)
                | Let(from: Place) | Name(pl: Place) | NameEnds(r: Place, w: Place) | Stay

  function MoveOf(s: State, a: Action): Move
    requires Enabled(s, a)
  {
    match a
    case Open(p, f) => Take(f, Hand(p, 0))
    case OpenInstall(p, fd) => Carry(Hand(p, 0), Fd(p, fd))
    case OpenType(p) => Name(Fd(p, s.procs[p].fd))
    case Close(p, fd) => Carry(Fd(p, fd), Hand(p, 0))
    case Drop(p) => Let(Hand(p, s.procs[p].j))
    case Dup(p, fd, fd2) => Copy(Fd(p, fd), Fd(p, fd2))
    case Mmap(p, fd, i) => Copy(Fd(p, fd), Vma(p, i))
    case Munmap(p, i) => Carry(Vma(p, i), Hand(p, 0))
    case PipeFirst(p, f) => Take(f, Hand(p, 0))
    case PipeSecond(p, f) => Take(f, Hand(p, 1))
    case PipeType(p) => NameEnds(Hand(p, 0), Hand(p, 1))
    case PipeInstall(p, fd) => Carry(Hand(p, if s.procs[p].PipeReady? then 0 else 1), Fd(p, fd))
    case PipeUndo(p) =>
      if s.procs[p].PipeDone? then Carry(Fd(p, s.procs[p].fd1), Hand(p, 1))
      else if s.procs[p].PipeHalf? then Carry(Fd(p, s.procs[p].fd0), Hand(p, 0))
      else Stay
    case ForkCopy(p) =>
      if Slot(p, s.procs[p].k) in s.at then Copy(Slot(p, s.procs[p].k), Slot(s.procs[p].c, s.procs[p].k)) else Stay
    case ExitStep(p) => if Slot(p, s.procs[p].k) in s.at then Let(Slot(p, s.procs[p].k)) else Stay
    case _ => Stay
  }

  /** What a move does to the table; a fresh number names the object of each open() and pipe(). */
  function Do(s: State, m: Move): State {
    match m
    case Take(f, to) => Alloc(s, f, to)
    case Copy(from, to) => Share(s, from, to)
    case Carry(from, to) => Shift(s, from, to)
    case Let(from) => Fileclose(s, from)
    case Name(pl) => Attach(s.(next := s.next + 1), pl, InodeRef(s.next))
    case NameEnds(r, w) =>
      Attach(Attach(s.(next := s.next + 1), r, PipeEnd(s.next, false)), w, PipeEnd(s.next, true))
    case Stay => s
  }

  function Control(s: State, a: Action): map<Pid, Pc>
    requires Enabled(s, a)
  {
    match a
    case Open(p, f) => s.procs[p := Opened]
    case OpenInstall(p, fd) => s.procs[p := Untyped(fd)]
    case OpenFail(p) => s.procs[p := Dropping(0, 1)]
    case OpenType(p) => s.procs[p := Idle]
    case Close(p, fd) => s.procs[p := Dropping(0, 1)]
    case Drop(p) =>
      s.procs[p := if s.procs[p].j + 1 < s.procs[p].n then Dropping(s.procs[p].j + 1, s.procs[p].n) else Idle]
    case Munmap(p, i) => s.procs[p := Dropping(0, 1)]
    case PipeFirst(p, f) => s.procs[p := PipeRead]
    case PipeSecond(p, f) => s.procs[p := PipeBoth]
    case PipeFail(p) => s.procs[p := Dropping(0, if s.procs[p].PipeRead? then 1 else 2)]
    case PipeType(p) => s.procs[p := PipeReady]
    case PipeInstall(p, fd) => s.procs[p := if s.procs[p].PipeReady? then PipeHalf(fd) else PipeDone(s.procs[p].fd0, fd)]
    case PipeOk(p) => s.procs[p := Idle]
    case PipeUndo(p) => s.procs[p := if s.procs[p].PipeDone? then PipeHalf(s.procs[p].fd0) else Dropping(0, 2)]
    case Fork(p, c) => s.procs[p := Forking(c, 0)][c := Newborn(p)]
    case ForkCopy(p) => s.procs[p := Forking(s.procs[p].c, s.procs[p].k + 1)]
    case ForkDone(p) => s.procs[p := Idle][s.procs[p].c := Idle]
    case Exit(p) => s.procs[p := Exiting(0)]
    case ExitStep(p) => s.procs[p := Exiting(s.procs[p].k + 1)]
    case ExitEnd(p) => s.procs - {p}
    case _ => s.procs
  }

  function Next(s: State, a: Action): State
    requires Enabled(s, a)
  {
    Do(s, MoveOf(s, a)).(procs := Control(s, a))
  }

  ghost predicate Init(s: State) {
    && |s.files| == NFILE && (forall f :: 0 <= f < NFILE ==> s.files[f] == File(0, None))
    && s.at == map[] && (forall p :: p in s.procs ==> s.procs[p] == Idle)
    && s.born == {} && s.released == []
  }

  ghost predicate IsRun(run: seq<State>, acts: seq<Action>) {
    && |run| == |acts| + 1 && Init(run[0])
    && forall i :: 0 <= i < |acts| ==> Enabled(run[i], acts[i]) && run[i + 1] == Next(run[i], acts[i])
  }

  // -------- references --------

  ghost function Holders(at: map<Place, nat>, f: nat): set<Place> {
    set pl | pl in at && at[pl] == f
  }

  /** Every count is the number of places that hold the file; a file without an object is held once. */
  ghost predicate Counted(s: State) {
    && |s.files| == NFILE
    && (forall pl :: pl in s.at ==> s.at[pl] < NFILE)
    && (forall f :: 0 <= f < NFILE ==> s.files[f].ref == |Holders(s.at, f)|)
    && (forall f :: 0 <= f < NFILE && s.files[f].obj.None? ==> s.files[f].ref <= 1)
    && (forall f :: 0 <= f < NFILE && s.files[f].ref == 0 ==> s.files[f].obj.None?)
  }

  /** Every object ever attached is attached to one file or has been released, once. */
  ghost predicate Tracked(s: State) {
    && (forall o :: o in s.born ==> o.n < s.next)
    && (forall f :: 0 <= f < |s.files| && s.files[f].obj.Some? ==> s.files[f].obj.value in s.born - Set(s.released))
    && (forall f, g :: 0 <= f < |s.files| && 0 <= g < |s.files| && s.files[f].obj.Some? && s.files[f].obj == s.files[g].obj ==> f == g)
    && (forall o :: o in s.born && o !in s.released ==> Attached(s, o))
    && (forall i, j :: 0 <= i < j < |s.released| ==> s.released[i] != s.released[j])
    && (forall o :: o in s.released ==> o in s.born)
  }

  ghost function Set(os: seq<Obj>): set<Obj> {
    set o | o in os
  }

  ghost predicate Attached(s: State, o: Obj) {
    exists f :: 0 <= f < |s.files| && s.files[f].obj == Some(o)
  }

  lemma HoldersAdd(at: map<Place, nat>, to: Place, f: nat, g: nat)
    requires to !in at
    ensures |Holders(at[to := f], g)| == |Holders(at, g)| + (if g == f then 1 else 0)
  {
    if g == f {
      assert Holders(at[to := f], g) == Holders(at, g) + {to};
    } else {
      assert Holders(at[to := f], g) == Holders(at, g);
    }
  }

  lemma HoldersRemove(at: map<Place, nat>, from: Place, g: nat)
    requires from in at
    ensures |Holders(at - {from}, g)| == |Holders(at, g)| - (if g == at[from] then 1 else 0)
  {
    if g == at[from] {
      assert Holders(at - {from}, g) == Holders(at, g) - {from};
    } else {
      assert Holders(at - {from}, g) == Holders(at, g);
    }
  }

  lemma HoldersShift(at: map<Place, nat>, from: Place, to: Place, g: nat)
    requires from in at && to !in at
    ensures |Holders((at - {from})[to := at[from]], g)| == |Holders(at, g)|
  {
    HoldersRemove(at, from, g);
    HoldersAdd(at - {from}, to, at[from], g);
  }

  lemma HeldIsCounted(s: State, pl: Place)
    requires Counted(s) && pl in s.at
    ensures 0 < s.files[s.at[pl]].ref
  {
    assert pl in Holders(s.at, s.at[pl]);
  }

  /** Tracked is about the objects in the table, not the counts. */
  lemma SameObjects(s: State, s': State)
    requires |s'.files| == |s.files| && s'.born == s.born && s'.released == s.released && s'.next == s.next
    requires forall f :: 0 <= f < |s.files| ==> s'.files[f].obj == s.files[f].obj
    requires Tracked(s)
    ensures Tracked(s')
  {
    forall o | o in s'.born && o !in s'.released ensures Attached(s', o) {
      assert Attached(s, o);
      var f :| 0 <= f < |s.files| && s.files[f].obj == Some(o);
      assert s'.files[f].obj == Some(o);
    }
  }

  lemma AllocKeeps(s: State, f: nat, to: Place)
    requires FreeFile(s, f) && to !in s.at
    requires Counted(s) && Tracked(s)
    ensures Counted(Alloc(s, f, to)) && Tracked(Alloc(s, f, to))
  {
    hide Tracked;
    var s' := Alloc(s, f, to);
    forall g | 0 <= g < NFILE ensures s'.files[g].ref == |Holders(s'.at, g)| {
      HoldersAdd(s.at, to, f, g);
    }
    SameObjects(s, s');
  }

  lemma ShareKeeps(s: State, from: Place, to: Place)
    requires from in s.at && to !in s.at && s.at[from] < |s.files| && s.files[s.at[from]].obj.Some?
    requires Counted(s) && Tracked(s)
    ensures Counted(Share(s, from, to)) && Tracked(Share(s, from, to))
  {
    hide Tracked;
    var s' := Share(s, from, to);
    forall g | 0 <= g < NFILE ensures s'.files[g].ref == |Holders(s'.at, g)| {
      HoldersAdd(s.at, to, s.at[from], g);
    }
    SameObjects(s, s');
  }

  lemma ShiftKeeps(s: State, from: Place, to: Place)
    requires from in s.at && to !in s.at
    requires Counted(s) && Tracked(s)
    ensures Counted(Shift(s, from, to)) && Tracked(Shift(s, from, to))
  {
    hide Tracked;
    var s' := Shift(s, from, to);
    forall g | 0 <= g < NFILE ensures s'.files[g].ref == |Holders(s'.at, g)| {
      HoldersShift(s.at, from, to, g);
    }
    SameObjects(s, s');
  }

  lemma FilecloseCounts(s: State, from: Place)
    requires from in s.at && Counted(s)
    ensures Counted(Fileclose(s, from))
  {
    HeldIsCounted(s, from);
    var s' := Fileclose(s, from);
    forall g | 0 <= g < NFILE ensures s'.files[g].ref == |Holders(s'.at, g)| {
      HoldersRemove(s.at, from, g);
    }
  }

  lemma FilecloseTracks(s: State, from: Place)
    requires from in s.at && s.at[from] < |s.files| && 0 < s.files[s.at[from]].ref && Tracked(s)
    ensures Tracked(Fileclose(s, from))
  {
    var f := s.at[from];
    var s' := Fileclose(s, from);
    if 1 < s.files[f].ref || s.files[f].obj.None? {
      hide Tracked;
      SameObjects(s, s');
    } else {
      forall o | o in s'.born && o !in s'.released ensures Attached(s', o) {
        assert o in s.released ==> o in s'.released;
        assert Attached(s, o);
        var g :| 0 <= g < |s.files| && s.files[g].obj == Some(o);
        assert o != s.files[f].obj.value by {
          assert s'.released[|s.released|] == s.files[f].obj.value;
        }
        assert s'.files[g].obj == Some(o);
      }
      assert s.files[f].obj.value !in s.released;
    }
  }

  lemma AttachKeeps(s: State, pl: Place, o: Obj)
    requires pl in s.at && s.at[pl] < |s.files| && s.files[s.at[pl]].obj.None?
    requires o !in s.born && o.n < s.next
    requires Counted(s) && Tracked(s)
    ensures Counted(Attach(s, pl, o)) && Tracked(Attach(s, pl, o))
  {
    HeldIsCounted(s, pl);
    var s' := Attach(s, pl, o);
    assert s'.at == s.at;
    assert s'.files[s.at[pl]].obj == Some(o);
    forall x | x in s'.born && x !in s'.released ensures Attached(s', x) {
      if x != o {
        assert Attached(s, x);
        var f :| 0 <= f < |s.files| && s.files[f].obj == Some(x);
        assert s'.files[f].obj == Some(x);
      }
    }
  }

  // -------- places --------

  /** The local variables that hold a reference. */
  predicate HandOf(pc: Pc, j: nat) {
    match pc
    case Opened => j == 0
    case PipeRead => j == 0
    case PipeBoth => j < 2
    case PipeReady => j < 2
    case PipeHalf(_) => j == 1
    case Dropping(a, n) => a <= j < n
    case _ => false
  }

  predicate HasSlot(at: map<Place, nat>, p: Pid, fd: nat) {
    fd < NOFILE && Fd(p, fd) in at
  }

  /** kfork() has copied the first `k` slots of `p` to `c`. */
  ghost predicate Copied(at: map<Place, nat>, p: Pid, c: Pid, k: nat) {
    && (forall i :: 0 <= i < k ==> (Slot(c, i) in at <==> Slot(p, i) in at))
    && (forall i :: 0 <= i < k && Slot(c, i) in at ==> at[Slot(c, i)] == at[Slot(p, i)])
    && (forall i :: k <= i ==> Slot(c, i) !in at)
  }

  ghost predicate Emptied(at: map<Place, nat>, p: Pid, k: nat) {
    forall i :: 0 <= i < k ==> Slot(p, i) !in at
  }

  /** Process `p` holds what its program counter says. */
  ghost predicate Located(at: map<Place, nat>, procs: map<Pid, Pc>, p: Pid)
    requires p in procs
  {
    && (forall j :: HandOf(procs[p], j) <==> Hand(p, j) in at)
    && match procs[p]
       case Untyped(fd) => HasSlot(at, p, fd)
       case Dropping(j, n) => j < n <= 2
       case PipeHalf(fd0) => HasSlot(at, p, fd0)
       case PipeDone(fd0, fd1) => HasSlot(at, p, fd0) && HasSlot(at, p, fd1) && fd0 != fd1
       case Forking(c, k) => k <= MAXVMA + NOFILE && c in procs && procs[c] == Newborn(p) && Copied(at, p, c, k)
       case Newborn(q) => q in procs && procs[q].Forking? && procs[q].c == p
       case Exiting(k) => k <= MAXVMA + NOFILE && Emptied(at, p, k)
       case _ => true
  }

  ghost predicate Places(at: map<Place, nat>, procs: map<Pid, Pc>) {
    && (forall pl :: pl in at ==> pl.p in procs && (!pl.Hand? ==> pl.i < Slots(pl)))
    && (forall p :: p in procs ==> Located(at, procs, p))
  }

  /** Only a file that some open() or pipe() has not finished, or gives up, has no object. */
  predicate MayBeBare(pc: Pc, pl: Place) {
    || (pl.Hand? && (pc.Opened? || pc.PipeRead? || pc.PipeBoth? || pc.Dropping?))
    || (pc.Untyped? && pl == Fd(pl.p, pc.fd))
  }

  predicate MustBeBare(pc: Pc, pl: Place) {
    MayBeBare(pc, pl) && !pc.Dropping?
  }

  function ObjAt(s: State, pl: Place): Option<Obj> {
    if pl in s.at && s.at[pl] < |s.files| then s.files[s.at[pl]].obj else None
  }

  ghost predicate Kinds(s: State) {
    forall pl :: pl in s.at && pl.p in s.procs ==>
      && (ObjAt(s, pl).None? ==> MayBeBare(s.procs[pl.p], pl))
      && (MustBeBare(s.procs[pl.p], pl) ==> ObjAt(s, pl).None?)
  }

  ghost predicate Inv(s: State) {
    Counted(s) && Tracked(s) && Places(s.at, s.procs) && Kinds(s)
  }

  // -------- what every step keeps --------

  /** What a move needs: a reference to move, an empty place for it, and an object exactly where it matters. */
  predicate Ready(s: State, m: Move) {
    match m
    case Take(f, to) => FreeFile(s, f) && to !in s.at
    case Copy(from, to) => from in s.at && to !in s.at && s.at[from] < |s.files| && s.files[s.at[from]].obj.Some?
    case Carry(from, to) => from in s.at && to !in s.at
    case Let(from) => from in s.at && s.at[from] < |s.files|
    case Name(pl) => pl in s.at && s.at[pl] < |s.files| && s.files[s.at[pl]].obj.None?
    case NameEnds(r, w) =>
      && r in s.at && s.at[r] < |s.files| && s.files[s.at[r]].obj.None?
      && w in s.at && s.at[w] < |s.files| && s.files[s.at[w]].obj.None? && s.at[r] != s.at[w]
    case Stay => true
  }

  lemma AtHand(s: State, p: Pid, j: nat)
    requires p in s.procs && Places(s.at, s.procs)
    ensures Hand(p, j) in s.at <==> HandOf(s.procs[p], j)
  {
    assert Located(s.at, s.procs, p);
  }

  lemma KindAt(s: State, pl: Place)
    requires pl in s.at && Counted(s) && Places(s.at, s.procs) && Kinds(s)
    ensures s.at[pl] < |s.files| && pl.p in s.procs && ObjAt(s, pl) == s.files[s.at[pl]].obj
    ensures ObjAt(s, pl).None? ==> MayBeBare(s.procs[pl.p], pl)
    ensures MustBeBare(s.procs[pl.p], pl) ==> ObjAt(s, pl).None?
  {
  }

  lemma AtSlot(s: State, p: Pid)
    requires p in s.procs && Places(s.at, s.procs)
    ensures s.procs[p].Untyped? ==> HasSlot(s.at, p, s.procs[p].fd)
    ensures s.procs[p].PipeHalf? ==> HasSlot(s.at, p, s.procs[p].fd0)
    ensures s.procs[p].PipeDone? ==> HasSlot(s.at, p, s.procs[p].fd1)
  {
    assert Located(s.at, s.procs, p);
  }

  lemma MoveReady(s: State, a: Action)
    requires Enabled(s, a)
    requires Counted(s) && Places(s.at, s.procs) && Kinds(s)
    ensures Ready(s, MoveOf(s, a))
  {
    hide Counted, Places, Kinds;
    AtHand(s, a.p, 0);
    AtHand(s, a.p, 1);
    AtSlot(s, a.p);
    match a
    case OpenType(p) => KindAt(s, Fd(p, s.procs[p].fd));
    case Drop(p) =>
      AtHand(s, p, s.procs[p].j);
      KindAt(s, Hand(p, s.procs[p].j));
    case Dup(p, fd, fd2) => KindAt(s, Fd(p, fd));
    case Mmap(p, fd, i) => KindAt(s, Fd(p, fd));
    case PipeType(p) =>
      KindAt(s, Hand(p, 0));
      KindAt(s, Hand(p, 1));
      BareOnce(s, Hand(p, 0), Hand(p, 1));
    case ForkCopy(p) => if Slot(p, s.procs[p].k) in s.at { CopyReady(s, p); }
    case ExitStep(p) => if Slot(p, s.procs[p].k) in s.at { KindAt(s, Slot(p, s.procs[p].k)); }
    case _ =>
  }

  lemma CopyReady(s: State, p: Pid)
    requires Enabled(s, ForkCopy(p)) && Slot(p, s.procs[p].k) in s.at
    requires Counted(s) && Places(s.at, s.procs) && Kinds(s)
    ensures Ready(s, MoveOf(s, ForkCopy(p)))
  {
    assert Located(s.at, s.procs, p);
    var c := s.procs[p].c;
    assert Copied(s.at, p, c, s.procs[p].k);
  }

  lemma LastHolder(s: State, pl: Place, pl': Place)
    requires pl in s.at && pl' in s.at && pl != pl' && s.at[pl] < |s.files| && s.files[s.at[pl]].ref == 1
    requires Counted(s)
    ensures s.at[pl] != s.at[pl']
  {
    var h := Holders(s.at, s.at[pl]);
    assert pl in h && |h - {pl}| == |h| - 1;
    assert s.at[pl'] == s.at[pl] ==> pl' in h - {pl};
  }

  lemma BareOnce(s: State, pl: Place, pl': Place)
    requires pl in s.at && pl' in s.at && pl != pl' && s.at[pl] < |s.files| && s.files[s.at[pl]].obj.None?
    requires Counted(s)
    ensures s.at[pl] != s.at[pl']
  {
    HeldIsCounted(s, pl);
    LastHolder(s, pl, pl');
  }

  lemma DoKeeps(s: State, m: Move)
    requires Ready(s, m)
    requires Counted(s) && Tracked(s)
    ensures Counted(Do(s, m)) && Tracked(Do(s, m))
  {
    hide Counted, Tracked;
    match m
    case Take(f, to) => AllocKeeps(s, f, to);
    case Copy(from, to) => ShareKeeps(s, from, to);
    case Carry(from, to) => ShiftKeeps(s, from, to);
    case Let(from) =>
      HeldIsCounted(s, from);
      FilecloseCounts(s, from);
      FilecloseTracks(s, from);
    case Name(pl) =>
      NextKeeps(s);
      AttachKeeps(s.(next := s.next + 1), pl, InodeRef(s.next));
    case NameEnds(r, w) =>
      NextKeeps(s);
      var s1 := s.(next := s.next + 1);
      AttachKeeps(s1, r, PipeEnd(s.next, false));
      AttachKeeps(Attach(s1, r, PipeEnd(s.next, false)), w, PipeEnd(s.next, true));
    case Stay =>
  }

  lemma NextKeeps(s: State)
    requires Counted(s) && Tracked(s)
    ensures Counted(s.(next := s.next + 1)) && Tracked(s.(next := s.next + 1))
    ensures InodeRef(s.next) !in s.born && PipeEnd(s.next, false) !in s.born && PipeEnd(s.next, true) !in s.born
  {
    var s' := s.(next := s.next + 1);
    forall o | o in s'.born && o !in s'.released ensures Attached(s', o) {
      assert Attached(s, o);
    }
  }

  function AtAfter(at: map<Place, nat>, m: Move): map<Place, nat> {
    match m
    case Take(f, to) => at[to := f]
    case Copy(from, to) => if from in at then at[to := at[from]] else at
    case Carry(from, to) => if from in at then (at - {from})[to := at[from]] else at
    case Let(from) => at - {from}
    case _ => at
  }

  lemma DoAt(s: State, m: Move)
    requires Ready(s, m) && Counted(s)
    ensures Do(s, m).at == AtAfter(s.at, m)
  {
    if m.Let? {
      HeldIsCounted(s, m.from);
    }
  }

  /** The places of `p` are as they were. */
  ghost predicate Same(at: map<Place, nat>, at': map<Place, nat>, p: Pid) {
    forall pl: Place :: pl.p == p ==> (pl in at' <==> pl in at) && (pl in at ==> at'[pl] == at[pl])
  }

  predicate Touches(s: State, a: Action, q: Pid) {
    || q == a.p
    || (a.Fork? && q == a.c)
    || (a.ForkCopy? && a.p in s.procs && s.procs[a.p].Forking? && q == s.procs[a.p].c)
    || (a.ForkDone? && a.p in s.procs && s.procs[a.p].Forking? && q == s.procs[a.p].c)
  }

  lemma OthersSame(s: State, a: Action, q: Pid)
    requires Enabled(s, a) && !Touches(s, a, q)
    ensures Same(s.at, AtAfter(s.at, MoveOf(s, a)), q)
    ensures q in Control(s, a) <==> q in s.procs
    ensures q in s.procs ==> Control(s, a)[q] == s.procs[q]
  {
  }

  lemma FrameLocated(at: map<Place, nat>, procs: map<Pid, Pc>, at': map<Place, nat>, procs': map<Pid, Pc>, q: Pid)
    requires q in procs && q in procs' && procs'[q] == procs[q] && Same(at, at', q)
    requires procs[q].Forking? ==>
      Same(at, at', procs[q].c) && (procs[q].c in procs ==> procs[q].c in procs' && procs'[procs[q].c] == procs[procs[q].c])
    requires procs[q].Newborn? ==>
      procs[q].parent in procs' && procs'[procs[q].parent].Forking? && procs'[procs[q].parent].c == q
    requires Located(at, procs, q)
    ensures Located(at', procs', q)
  {
    assert forall j :: Hand(q, j) in at' <==> Hand(q, j) in at;
    match procs[q]
    case Forking(c, k) =>
      assert forall i :: Slot(q, i).p == q && Slot(c, i).p == c;
    case Exiting(k) =>
      assert forall i :: Slot(q, i).p == q;
    case _ =>
  }

  lemma OthersLocated(s: State, a: Action, q: Pid)
    requires Enabled(s, a) && !Touches(s, a, q) && q in s.procs
    requires Places(s.at, s.procs)
    ensures q in Control(s, a) && Located(AtAfter(s.at, MoveOf(s, a)), Control(s, a), q)
  {
    assert Located(s.at, s.procs, q) && Located(s.at, s.procs, a.p);
    var at', procs' := AtAfter(s.at, MoveOf(s, a)), Control(s, a);
    OthersSame(s, a, q);
    if s.procs[q].Forking? {
      var c := s.procs[q].c;
      assert !Touches(s, a, c) by {
        assert s.procs[c] == Newborn(q);
        assert a.ForkCopy? || a.ForkDone? ==> s.procs[s.procs[a.p].c] == Newborn(a.p);
      }
      OthersSame(s, a, c);
    }
    hide AtAfter, MoveOf, Copied, Emptied, Same;
    FrameLocated(s.at, s.procs, at', procs', q);
  }

  lemma SelfLocated(s: State, a: Action)
    requires Enabled(s, a) && !a.Fork? && !a.ForkCopy? && !a.ForkDone? && !a.Exit? && !a.ExitStep? && !a.ExitEnd?
    requires Ready(s, MoveOf(s, a)) && Located(s.at, s.procs, a.p)
    ensures a.p in Control(s, a) && Located(AtAfter(s.at, MoveOf(s, a)), Control(s, a), a.p)
  {
    hide Copied, Emptied;
  }

  lemma ExitLocated(s: State, a: Action)
    requires Enabled(s, a) && (a.Exit? || a.ExitStep?)
    requires Located(s.at, s.procs, a.p)
    ensures a.p in Control(s, a) && Located(AtAfter(s.at, MoveOf(s, a)), Control(s, a), a.p)
  {
    hide Copied;
    var at', procs' := AtAfter(s.at, MoveOf(s, a)), Control(s, a);
    assert forall j :: Hand(a.p, j) in at' <==> Hand(a.p, j) in s.at;
    assert Emptied(at', a.p, procs'[a.p].k);
  }

  lemma ForkLocated(s: State, p: Pid, c: Pid)
    requires Enabled(s, Fork(p, c))
    requires Places(s.at, s.procs)
    ensures Located(s.at, Control(s, Fork(p, c)), p) && Located(s.at, Control(s, Fork(p, c)), c)
  {
    assert Located(s.at, s.procs, p);
    assert forall pl :: pl in s.at ==> pl.p != c;
    assert forall i :: Slot(c, i).p == c;
    assert Copied(s.at, p, c, 0);
    assert forall j :: Hand(c, j) !in s.at;
  }

  lemma CopyLocated(s: State, p: Pid)
    requires Enabled(s, ForkCopy(p))
    requires Places(s.at, s.procs)
    ensures s.procs[p].c in s.procs && Located(s.at, s.procs, p) && Located(s.at, s.procs, s.procs[p].c)
    ensures var at', procs' := AtAfter(s.at, MoveOf(s, ForkCopy(p))), Control(s, ForkCopy(p));
      Located(at', procs', p) && Located(at', procs', s.procs[p].c)
  {
    assert Located(s.at, s.procs, p);
    var c, k := s.procs[p].c, s.procs[p].k;
    assert Located(s.at, s.procs, c);
    var at', procs' := AtAfter(s.at, MoveOf(s, ForkCopy(p))), Control(s, ForkCopy(p));
    assert forall j, q :: Hand(q, j) in at' <==> Hand(q, j) in s.at;
    SlotsDiffer(p, c);
    assert Copied(at', p, c, k + 1);
  }

  lemma SlotsDiffer(p: Pid, c: Pid)
    ensures forall i, j :: Slot(p, i) == Slot(p, j) ==> i == j
    ensures p != c ==> forall i, j :: Slot(p, i) != Slot(c, j)
  {
  }

  lemma DoneLocated(s: State, p: Pid)
    requires Enabled(s, ForkDone(p))
    requires Places(s.at, s.procs)
    ensures s.procs[p].c in s.procs
    ensures Located(s.at, Control(s, ForkDone(p)), p) && Located(s.at, Control(s, ForkDone(p)), s.procs[p].c)
  {
    assert Located(s.at, s.procs, p);
    assert Located(s.at, s.procs, s.procs[p].c);
  }

  /** A process leaves with nothing: its slots are empty and it holds nothing in hand. */
  lemma NothingLeft(s: State, p: Pid)
    requires Enabled(s, ExitEnd(p))
    requires Places(s.at, s.procs)
    ensures forall pl :: pl in s.at ==> pl.p != p
  {
    assert Located(s.at, s.procs, p);
    forall pl | pl in s.at ensures pl.p != p {
      assert pl.p == p && pl.Hand? ==> HandOf(s.procs[p], pl.i);
      assert pl.p == p && !pl.Hand? ==> pl == Slot(p, if pl.Vma? then pl.i else pl.i + MAXVMA);
    }
  }

  lemma PlacesKeep(s: State, a: Action)
    requires Enabled(s, a) && Ready(s, MoveOf(s, a))
    requires Places(s.at, s.procs)
    ensures Places(AtAfter(s.at, MoveOf(s, a)), Control(s, a))
  {
    var at', procs' := AtAfter(s.at, MoveOf(s, a)), Control(s, a);
    WithinKeep(s, a);
    hide AtAfter, MoveOf, Ready, Located;
    forall q | q in procs' ensures Located(at', procs', q) {
      if !Touches(s, a, q) {
        OthersIn(s, a, q);
        OthersLocated(s, a, q);
      } else {
        TouchedLocated(s, a, q);
      }
    }
  }

  lemma OthersIn(s: State, a: Action, q: Pid)
    requires Enabled(s, a) && !Touches(s, a, q) && q in Control(s, a)
    ensures q in s.procs
  {
  }

  lemma TouchedLocated(s: State, a: Action, q: Pid)
    requires Enabled(s, a) && Ready(s, MoveOf(s, a)) && Touches(s, a, q) && q in Control(s, a)
    requires Places(s.at, s.procs)
    ensures Located(AtAfter(s.at, MoveOf(s, a)), Control(s, a), q)
  {
    hide Located, Ready;
    assert Located(s.at, s.procs, a.p);
    match a
    case Fork(p, c) => ForkLocated(s, p, c);
    case ForkCopy(p) => CopyLocated(s, p);
    case ForkDone(p) => DoneLocated(s, p);
    case Exit(p) => ExitLocated(s, a);
    case ExitStep(p) => ExitLocated(s, a);
    case ExitEnd(p) =>
    case _ => SelfLocated(s, a);
  }

  predicate Arrives(m: Move, pl: Place) {
    (m.Take? || m.Copy? || m.Carry?) && pl == m.to
  }

  lemma ArrivesWithin(s: State, a: Action, pl: Place)
    requires Enabled(s, a) && Ready(s, MoveOf(s, a)) && Arrives(MoveOf(s, a), pl)
    requires Places(s.at, s.procs)
    ensures pl.p in Control(s, a) && (!pl.Hand? ==> pl.i < Slots(pl))
  {
    hide Located;
    if a.ForkCopy? {
      CopyLocated(s, a.p);
    }
  }

  lemma WithinKeep(s: State, a: Action)
    requires Enabled(s, a) && Ready(s, MoveOf(s, a))
    requires Places(s.at, s.procs)
    ensures forall pl :: pl in AtAfter(s.at, MoveOf(s, a)) ==> pl.p in Control(s, a) && (!pl.Hand? ==> pl.i < Slots(pl))
  {
    hide Located, Ready, MoveOf;
    var m := MoveOf(s, a);
    forall pl | pl in AtAfter(s.at, m) ensures pl.p in Control(s, a) && (!pl.Hand? ==> pl.i < Slots(pl)) {
      if Arrives(m, pl) {
        ArrivesWithin(s, a, pl);
      } else if a.ExitEnd? {
        NothingLeft(s, a.p);
      }
    }
  }

  // -------- objects --------

  predicate Named(m: Move, pl: Place) {
    (m.Name? && pl == m.pl) || (m.NameEnds? && (pl == m.r || pl == m.w))
  }

  function NameOf(s: State, m: Move, pl: Place): Obj {
    if m.NameEnds? then PipeEnd(s.next, pl == m.w) else InodeRef(s.next)
  }

  /** The object behind a place after a move. */
  lemma ObjectAfter(s: State, m: Move, pl: Place)
    requires Ready(s, m) && pl in AtAfter(s.at, m)
    requires Counted(s)
    ensures ObjAt(Do(s, m), pl) ==
      if m.Take? && pl == m.to then None
      else if Named(m, pl) then Some(NameOf(s, m, pl))
      else ObjAt(s, if Arrives(m, pl) then m.from else pl)
  {
    DoAt(s, m);
    match m
    case Take(f, to) =>
      if pl != to { HeldIsCounted(s, pl); }
    case Let(from) =>
      HeldIsCounted(s, from);
      if s.files[s.at[from]].ref == 1 { LastHolder(s, from, pl); }
    case Name(x) =>
      if pl != x { BareOnce(s, x, pl); }
    case NameEnds(r, w) =>
      if pl != r && pl != w {
        BareOnce(s, r, pl);
        BareOnce(s, w, pl);
      }
    case _ =>
  }

  lemma KindsKeep(s: State, a: Action)
    requires Enabled(s, a) && Ready(s, MoveOf(s, a))
    requires Counted(s) && Places(s.at, s.procs) && Kinds(s)
    ensures Kinds(Next(s, a))
  {
    hide Counted, Places, Ready, Do, MoveOf, Control, AtAfter, Enabled, ObjAt, MayBeBare, MustBeBare;
    var m := MoveOf(s, a);
    var s' := Next(s, a);
    DoAt(s, m);
    forall pl | pl in s'.at && pl.p in s'.procs
      ensures ObjAt(s', pl).None? ==> MayBeBare(s'.procs[pl.p], pl)
      ensures MustBeBare(s'.procs[pl.p], pl) ==> ObjAt(s', pl).None?
    {
      ObjectAfter(s, m, pl);
      SameObjAt(Do(s, m), s', pl);
      KindStep(s, a, pl);
    }
  }

  lemma SameObjAt(s: State, s': State, pl: Place)
    requires s'.at == s.at && s'.files == s.files
    ensures ObjAt(s', pl) == ObjAt(s, pl)
  {
  }

  lemma KindStep(s: State, a: Action, pl: Place)
    requires Enabled(s, a) && pl in AtAfter(s.at, MoveOf(s, a)) && pl.p in Control(s, a)
    requires Ready(s, MoveOf(s, a))
    requires Counted(s) && Places(s.at, s.procs) && Kinds(s)
    ensures var some := ObjAt(Do(s, MoveOf(s, a)), pl).Some?;
      (!some ==> MayBeBare(Control(s, a)[pl.p], pl)) && (MustBeBare(Control(s, a)[pl.p], pl) ==> !some)
  {
    hide Counted, Places, Kinds, Do, ObjAt, Ready;
    var m := MoveOf(s, a);
    ObjectAfter(s, m, pl);
    if a.ForkCopy? || a.ForkDone? {
      ChildIsNewborn(s, a.p);
    }
    if pl.p == a.p {
      if Arrives(m, pl) {
        KindArrives(s, a, pl);
      } else {
        KindStays(s, a, pl);
      }
    } else {
      if pl in s.at {
        KindAt(s, pl);
      }
      if Arrives(m, pl) {
        KindAt(s, m.from);
      }
    }
  }

  lemma ChildIsNewborn(s: State, p: Pid)
    requires p in s.procs && s.procs[p].Forking? && Places(s.at, s.procs)
    ensures s.procs[p].c in s.procs && s.procs[s.procs[p].c] == Newborn(p)
  {
    assert Located(s.at, s.procs, p);
  }

  lemma KindArrives(s: State, a: Action, pl: Place)
    requires Enabled(s, a) && Arrives(MoveOf(s, a), pl) && a.p == pl.p && pl.p in Control(s, a)
    requires Ready(s, MoveOf(s, a))
    requires Counted(s) && Places(s.at, s.procs) && Kinds(s)
    ensures var some := !MoveOf(s, a).Take? && ObjAt(s, MoveOf(s, a).from).Some?;
      (!some ==> MayBeBare(Control(s, a)[pl.p], pl)) && (MustBeBare(Control(s, a)[pl.p], pl) ==> !some)
  {
    hide Counted, Places, Kinds, ObjAt;
    if a.ForkCopy? {
      ChildIsNewborn(s, a.p);
    }
    var m := MoveOf(s, a);
    if !m.Take? {
      KindAt(s, m.from);
    }
  }

  lemma KindStays(s: State, a: Action, pl: Place)
    requires Enabled(s, a) && !Arrives(MoveOf(s, a), pl) && pl in AtAfter(s.at, MoveOf(s, a)) && pl in s.at
    requires a.p == pl.p && pl.p in Control(s, a)
    requires Ready(s, MoveOf(s, a))
    requires Counted(s) && Places(s.at, s.procs) && Kinds(s)
    ensures var some := Named(MoveOf(s, a), pl) || ObjAt(s, pl).Some?;
      (!some ==> MayBeBare(Control(s, a)[pl.p], pl)) && (MustBeBare(Control(s, a)[pl.p], pl) ==> !some)
  {
    hide Counted, Places, Kinds, ObjAt, Ready;
    KindAt(s, pl);
    if pl.Hand? {
      AtHand(s, a.p, pl.i);
    }
  }

  lemma ActionKeeps(s: State, a: Action)
    requires Enabled(s, a)
    requires Inv(s)
    ensures Inv(Next(s, a))
  {
    hide Counted, Tracked, Places, Kinds, Ready, Do, MoveOf, Control, Enabled;
    var m := MoveOf(s, a);
    MoveReady(s, a);
    DoKeeps(s, m);
    DoAt(s, m);
    PlacesKeep(s, a);
    KindsKeep(s, a);
    SameTable(Do(s, m), Next(s, a));
  }

  lemma SameTable(s: State, s': State)
    requires s' == s.(procs := s'.procs) && Counted(s) && Tracked(s)
    ensures Counted(s') && Tracked(s')
  {
    hide Tracked;
    SameObjects(s, s');
  }

  lemma InitHolds(s: State)
    requires Init(s)
    ensures Inv(s)
  {
    forall f | 0 <= f < NFILE ensures s.files[f].ref == |Holders(s.at, f)| {
      assert Holders(s.at, f) == {};
    }
  }

  lemma {:induction false} RunInv(run: seq<State>, acts: seq<Action>, i: nat)
    requires IsRun(run, acts) && i < |run|
    ensures Inv(run[i])
  {
    hide Inv, Next, Enabled;
    if i == 0 {
      InitHolds(run[0]);
    } else {
      RunInv(run, acts, i - 1);
      ActionKeeps(run[i - 1], acts[i - 1]);
    }
  }

  // -------- what holds over every run --------

  /** A file's count is the number of places that hold it; with no system call in progress those are descriptors and
      VMA slots of live processes. */
  lemma RefCountsPlaces(run: seq<State>, acts: seq<Action>, i: nat, f: nat)
    requires IsRun(run, acts) && i < |run| && f < NFILE
    ensures |run[i].files| == NFILE && run[i].files[f].ref == |Holders(run[i].at, f)|
    ensures (forall p :: p in run[i].procs ==> run[i].procs[p].Idle?) ==>
      forall pl :: pl in Holders(run[i].at, f) ==> pl.p in run[i].procs && !pl.Hand? && pl.i < Slots(pl)
  {
    var s := run[i];
    RunInv(run, acts, i);
    forall pl | pl in s.at && s.procs[pl.p].Idle? ensures !pl.Hand? {
      if pl.Hand? {
        AtHand(s, pl.p, pl.i);
      }
    }
  }

  /** Neither filedup() nor fileclose() ever finds a count below one. */
  lemma NeverPanics(run: seq<State>, acts: seq<Action>, i: nat)
    requires IsRun(run, acts) && i < |acts|
    ensures var m := MoveOf(run[i], acts[i]);
      m.Copy? || m.Let? ==> m.from in run[i].at && run[i].at[m.from] < |run[i].files| && 0 < run[i].files[run[i].at[m.from]].ref
  {
    RunInv(run, acts, i);
    MoveReady(run[i], acts[i]);
    var m := MoveOf(run[i], acts[i]);
    if m.Copy? || m.Let? {
      HeldIsCounted(run[i], m.from);
    }
  }

  /** No inode reference and no pipe end is ever let go of twice, and one that has been let go of is behind no file. */
  lemma ReleasedOnce(run: seq<State>, acts: seq<Action>, i: nat, o: Obj)
    requires IsRun(run, acts) && i < |run|
    ensures multiset(run[i].released)[o] <= 1
    ensures o in run[i].born ==> (Attached(run[i], o) <==> o !in run[i].released)
  {
    RunInv(run, acts, i);
    OnceEach(run[i].released, o);
  }

  lemma {:induction false} OnceEach(os: seq<Obj>, o: Obj)
    requires forall i, j :: 0 <= i < j < |os| ==> os[i] != os[j]
    ensures multiset(os)[o] <= 1
  {
    if os != [] {
      var n := |os| - 1;
      assert os == os[..n] + [os[n]];
      OnceEach(os[..n], o);
      assert os[n] !in os[..n];
    }
  }

  /** The object behind a file is let go of in exactly the step that takes the file's last place away. */
  lemma ReleasedAtLastDrop(run: seq<State>, acts: seq<Action>, i: nat, f: nat)
    requires IsRun(run, acts) && i < |acts| && f < |run[i].files| && run[i].files[f].obj.Some?
    ensures run[i].files[f].obj.value in run[i + 1].released <==> Holders(run[i + 1].at, f) == {}
    ensures run[i].files[f].obj.value !in run[i].released && Holders(run[i].at, f) != {}
  {
    var s, m := run[i], MoveOf(run[i], acts[i]);
    RunInv(run, acts, i);
    RunInv(run, acts, i + 1);
    MoveReady(s, acts[i]);
    DropStep(s, m, f);
  }

  lemma DropStep(s: State, m: Move, f: nat)
    requires Ready(s, m) && f < |s.files| && s.files[f].obj.Some?
    requires Counted(s) && Tracked(s)
    ensures s.files[f].obj.value in Do(s, m).released <==> Holders(Do(s, m).at, f) == {}
    ensures s.files[f].obj.value !in s.released && Holders(s.at, f) != {}
  {
    var s', o := Do(s, m), s.files[f].obj.value;
    DoKeeps(s, m);
    assert o !in s.released;
    if m.Let? && s.at[m.from] == f && s.files[f].ref == 1 {
      assert s'.released[|s.released|] == o;
      assert s'.files[f].ref == 0;
    } else {
      assert s'.files[f].obj == Some(o);
    }
  }

  /** A child starts with exactly its parent's descriptors and mappings. */
  lemma ForkCopies(run: seq<State>, acts: seq<Action>, i: nat, k: nat)
    requires IsRun(run, acts) && i < |acts| && acts[i].ForkDone? && k < MAXVMA + NOFILE
    ensures var p, c, at := acts[i].p, run[i].procs[acts[i].p].c, run[i + 1].at;
      (Slot(c, k) in at <==> Slot(p, k) in at) && (Slot(c, k) in at ==> at[Slot(c, k)] == at[Slot(p, k)])
  {
    RunInv(run, acts, i);
    assert Located(run[i].at, run[i].procs, acts[i].p);
  }

  /** A process that has exited holds nothing. */
  lemma ExitLeavesNothing(run: seq<State>, acts: seq<Action>, i: nat, p: Pid)
    requires IsRun(run, acts) && i < |run| && p !in run[i].procs
    ensures forall f, pl :: pl in Holders(run[i].at, f) ==> pl.p != p
  {
    RunInv(run, acts, i);
  }

  // -------- what a system call has done when it returns --------

  /** The same file and the same object are behind the place, or nothing is. */
  predicate SamePlace(s: State, s': State, pl: Place) {
    && (pl in s'.at <==> pl in s.at)
    && (pl in s.at ==> s'.at[pl] == s.at[pl])
    && ObjAt(s', pl) == ObjAt(s, pl)
  }

  /** The descriptors and mappings of `p`, but for those listed, are as they were. */
  ghost predicate SameBut(s: State, s': State, p: Pid, but: set<Place>) {
    forall pl: Place :: pl.p == p && !pl.Hand? && pl !in but ==> SamePlace(s, s', pl)
  }

  /** The read and the write end of one pipe made since. */
  predicate Ends(s: State, s': State, r: Place, w: Place) {
    && ObjAt(s', r).Some? && ObjAt(s', r).value.PipeEnd? && !ObjAt(s', r).value.writable
    && ObjAt(s', w) == Some(PipeEnd(ObjAt(s', r).value.n, true)) && s.next <= ObjAt(s', r).value.n
  }

  predicate NewFd(s: State, s': State, p: Pid, fd: nat) {
    fd < NOFILE && Fd(p, fd) !in s.at && Fd(p, fd) in s'.at
  }

  ghost predicate OpenedOne(s: State, s': State, p: Pid, fd: nat) {
    && NewFd(s, s', p, fd) && SameBut(s, s', p, {Fd(p, fd)})
    && ObjAt(s', Fd(p, fd)).Some? && ObjAt(s', Fd(p, fd)).value.InodeRef?
    && ObjAt(s', Fd(p, fd)).value !in s.born
  }

  ghost predicate OpenedTwo(s: State, s': State, p: Pid, fd0: nat, fd1: nat) {
    && NewFd(s, s', p, fd0) && NewFd(s, s', p, fd1) && fd0 != fd1
    && SameBut(s, s', p, {Fd(p, fd0), Fd(p, fd1)}) && Ends(s, s', Fd(p, fd0), Fd(p, fd1))
  }

  ghost predicate Shared(s: State, s': State, from: Place, to: Place) {
    && from in s.at && to !in s.at && to in s'.at && s'.at[to] == s.at[from]
    && SamePlace(s, s', from) && SameBut(s, s', from.p, {to})
  }

  ghost predicate Closed(s: State, s': State, pl: Place) {
    pl !in s'.at && SameBut(s, s', pl.p, {pl})
  }

  /** What the system call that `p` began in `s` with `a` has done to its slots when it returns in `s'`. */
  ghost predicate Outcome(s: State, a: Action, s': State, p: Pid) {
    match a
    case Open(_, _) => SameBut(s, s', p, {}) || exists fd :: OpenedOne(s, s', p, fd)
    case Close(_, fd) => Closed(s, s', Fd(p, fd))
    case Dup(_, fd, fd2) => Shared(s, s', Fd(p, fd), Fd(p, fd2))
    case Mmap(_, fd, i) => Shared(s, s', Fd(p, fd), Vma(p, i))
    case Munmap(_, i) => Closed(s, s', Vma(p, i))
    case PipeFirst(_, _) => SameBut(s, s', p, {}) || exists fd0, fd1 :: OpenedTwo(s, s', p, fd0, fd1)
    case Fork(_, c) => SameBut(s, s', p, {}) && Copied(s'.at, p, c, MAXVMA + NOFILE)
    case _ => false
  }

  /** The same, on the way. */
  ghost predicate Under(s: State, a: Action, s': State, p: Pid)
    requires p in s'.procs
  {
    && s.next <= s'.next
    && match s'.procs[p]
       case Idle => Outcome(s, a, s', p)
       case Opened => a.Open? && SameBut(s, s', p, {})
       case Untyped(fd) => a.Open? && NewFd(s, s', p, fd) && SameBut(s, s', p, {Fd(p, fd)})
       case Dropping(_, _) =>
         || ((a.Open? || a.PipeFirst?) && SameBut(s, s', p, {}))
         || (a.Close? && Closed(s, s', Fd(p, a.fd)))
         || (a.Munmap? && Closed(s, s', Vma(p, a.i)))
       case PipeRead => a.PipeFirst? && SameBut(s, s', p, {})
       case PipeBoth => a.PipeFirst? && SameBut(s, s', p, {})
       case PipeReady => a.PipeFirst? && SameBut(s, s', p, {}) && Ends(s, s', Hand(p, 0), Hand(p, 1))
       case PipeHalf(fd0) =>
         && a.PipeFirst? && NewFd(s, s', p, fd0) && SameBut(s, s', p, {Fd(p, fd0)})
         && Ends(s, s', Fd(p, fd0), Hand(p, 1))
       case PipeDone(fd0, fd1) => a.PipeFirst? && OpenedTwo(s, s', p, fd0, fd1)
       case Forking(c, _) => a.Fork? && c == a.c && SameBut(s, s', p, {})
       case Newborn(_) => false
       case Exiting(_) => a.Exit?
  }

  predicate Leaves(m: Move, pl: Place) {
    (m.Carry? || m.Let?) && pl == m.from
  }

  /** A step leaves every place alone but those it moves a reference to or from, or gives an object. */
  lemma PlaceAfter(s: State, a: Action, pl: Place)
    requires Enabled(s, a)
    requires Inv(s)
    ensures !Arrives(MoveOf(s, a), pl) && !Leaves(MoveOf(s, a), pl) && !Named(MoveOf(s, a), pl) ==>
              SamePlace(s, Next(s, a), pl)
    ensures Arrives(MoveOf(s, a), pl) && !MoveOf(s, a).Take? ==>
      var from := MoveOf(s, a).from;
      && from in s.at && pl !in s.at && pl in Next(s, a).at && Next(s, a).at[pl] == s.at[from]
      && ObjAt(Next(s, a), pl) == ObjAt(s, from)
    ensures Leaves(MoveOf(s, a), pl) ==> pl !in Next(s, a).at
    ensures Named(MoveOf(s, a), pl) ==> pl in s.at && pl in Next(s, a).at && ObjAt(Next(s, a), pl) == Some(NameOf(s, MoveOf(s, a), pl))
    ensures s.next <= Next(s, a).next
  {
    hide Counted, Tracked, Places, Kinds, MoveOf, Control, Enabled;
    var m := MoveOf(s, a);
    MoveReady(s, a);
    DoAt(s, m);
    SameObjAt(Do(s, m), Next(s, a), pl);
    if pl in AtAfter(s.at, m) {
      ObjectAfter(s, m, pl);
    }
  }

  lemma SameOn(s: State, s1: State, s2: State, p: Pid, x: set<Place>, y: set<Place>)
    requires SameBut(s, s1, p, x) && SameBut(s1, s2, p, y)
    ensures SameBut(s, s2, p, x + y)
  {
    forall pl: Place | pl.p == p && !pl.Hand? && pl !in x + y ensures SamePlace(s, s2, pl) {
      assert SamePlace(s, s1, pl) && SamePlace(s1, s2, pl);
    }
  }

  lemma SameStill(s: State, s1: State, s2: State, p: Pid, x: set<Place>)
    requires SameBut(s, s1, p, x) && SameBut(s1, s2, p, {})
    ensures SameBut(s, s2, p, x)
  {
    SameOn(s, s1, s2, p, x, {});
    assert x + {} == x;
  }

  /** A slot that was free before and is free again is as it was. */
  lemma FreeAgain(s: State, s': State, p: Pid, x: set<Place>, pl: Place)
    requires SameBut(s, s', p, x) && pl !in s.at && pl !in s'.at
    ensures SameBut(s, s', p, x - {pl})
  {
    forall q: Place | q.p == p && !q.Hand? && q !in x - {pl} ensures SamePlace(s, s', q) {
      assert q == pl || q !in x;
    }
  }

  /** The slots that a step of `p` works on. */
  function Worked(s: State, a: Action): set<Place>
    requires Enabled(s, a)
  {
    match a
    case OpenInstall(p, fd) => {Fd(p, fd)}
    case OpenType(p) => {Fd(p, s.procs[p].fd)}
    case Close(p, fd) => {Fd(p, fd)}
    case Dup(p, fd, fd2) => {Fd(p, fd2)}
    case Mmap(p, fd, i) => {Vma(p, i)}
    case Munmap(p, i) => {Vma(p, i)}
    case PipeInstall(p, fd) => {Fd(p, fd)}
    case PipeUndo(p) =>
      if s.procs[p].PipeDone? then {Fd(p, s.procs[p].fd1)}
      else if s.procs[p].PipeHalf? then {Fd(p, s.procs[p].fd0)}
      else {}
    case _ => {}
  }

  lemma StepSameBut(s: State, a: Action)
    requires Enabled(s, a) && !a.ExitStep?
    requires Inv(s)
    ensures SameBut(s, Next(s, a), a.p, Worked(s, a))
  {
    hide Inv, Next, SamePlace;
    forall pl: Place | pl.p == a.p && !pl.Hand? && pl !in Worked(s, a) ensures SamePlace(s, Next(s, a), pl) {
      NotWorked(s, a, pl);
      PlaceAfter(s, a, pl);
    }
  }

  lemma NotWorked(s: State, a: Action, pl: Place)
    requires Enabled(s, a) && !a.ExitStep? && pl.p == a.p && !pl.Hand? && pl !in Worked(s, a)
    requires Inv(s)
    ensures !Arrives(MoveOf(s, a), pl) && !Leaves(MoveOf(s, a), pl) && !Named(MoveOf(s, a), pl)
  {
    hide Counted, Tracked, Places, Kinds;
    if a.ForkCopy? {
      ChildIsNewborn(s, a.p);
    }
  }

  /** The steps of others do not matter to a call that is under way. */
  lemma UnderOther(s0: State, a0: Action, s: State, a: Action, p: Pid)
    requires p in s.procs && Enabled(s, a) && a.p != p && Under(s0, a0, s, p) && !s.procs[p].Idle?
    requires Inv(s)
    ensures p in Next(s, a).procs && Under(s0, a0, Next(s, a), p)
  {
    hide Inv, Next, SamePlace, Outcome, Enabled, Ends, NewFd, OpenedTwo, Closed, SameBut;
    var s' := Next(s, a);
    NotTouched(s, a, p);
    OthersKept(s, a, p);
    UnderSame(s0, a0, s, s', p);
  }

  lemma NotTouched(s: State, a: Action, p: Pid)
    requires p in s.procs && !s.procs[p].Newborn? && Enabled(s, a) && a.p != p
    requires Inv(s)
    ensures !Touches(s, a, p)
  {
    hide Counted, Tracked, Places, Kinds;
    if a.ForkCopy? || a.ForkDone? {
      ChildIsNewborn(s, a.p);
    }
  }

  lemma OthersKept(s: State, a: Action, p: Pid)
    requires p in s.procs && Enabled(s, a) && !Touches(s, a, p)
    requires Inv(s)
    ensures p in Next(s, a).procs && Next(s, a).procs[p] == s.procs[p] && s.next <= Next(s, a).next
    ensures forall pl: Place :: pl.p == p ==> SamePlace(s, Next(s, a), pl)
  {
    hide Inv, SamePlace, MoveOf;
    OthersSame(s, a, p);
    forall pl: Place | pl.p == p ensures SamePlace(s, Next(s, a), pl) {
      OthersPlace(s, a, pl);
      PlaceAfter(s, a, pl);
    }
    PlaceAfter(s, a, Hand(p, 0));
  }

  lemma OthersPlace(s: State, a: Action, pl: Place)
    requires Enabled(s, a) && !Touches(s, a, pl.p)
    ensures !Arrives(MoveOf(s, a), pl) && !Leaves(MoveOf(s, a), pl) && !Named(MoveOf(s, a), pl)
  {
  }

  lemma UnderSame(s0: State, a0: Action, s: State, s': State, p: Pid)
    requires p in s.procs && p in s'.procs && s'.procs[p] == s.procs[p] && !s.procs[p].Idle? && s.next <= s'.next
    requires Under(s0, a0, s, p)
    requires forall pl: Place :: pl.p == p ==> SamePlace(s, s', pl)
    ensures Under(s0, a0, s', p)
  {
    hide ObjAt;
    forall x | SameBut(s0, s, p, x) ensures SameBut(s0, s', p, x) {
      SameStill(s0, s, s', p, x);
    }
    assert SamePlace(s, s', Hand(p, 0)) && SamePlace(s, s', Hand(p, 1));
    if s.procs[p].PipeHalf? {
      assert SamePlace(s, s', Fd(p, s.procs[p].fd0));
    }
    if s.procs[p].PipeDone? {
      assert SamePlace(s, s', Fd(p, s.procs[p].fd0)) && SamePlace(s, s', Fd(p, s.procs[p].fd1));
    }
  }

  /** How a call begins. */
  lemma UnderStarts(s: State, a: Action)
    requires Enabled(s, a) && s.procs[a.p].Idle?
    requires Inv(s)
    ensures a.p in Next(s, a).procs && Under(s, a, Next(s, a), a.p)
  {
    hide Inv, Do, ObjAt, SameBut;
    StepSameBut(s, a);
    match a
    case Open(p, _) => PlaceAfter(s, a, Hand(p, 0));
    case PipeFirst(p, _) => PlaceAfter(s, a, Hand(p, 0));
    case Close(p, fd) => PlaceAfter(s, a, Fd(p, fd));
    case Munmap(p, i) => PlaceAfter(s, a, Vma(p, i));
    case Dup(p, fd, fd2) =>
      PlaceAfter(s, a, Fd(p, fd));
      PlaceAfter(s, a, Fd(p, fd2));
    case Mmap(p, fd, i) =>
      PlaceAfter(s, a, Fd(p, fd));
      PlaceAfter(s, a, Vma(p, i));
    case Fork(p, _) => PlaceAfter(s, a, Hand(p, 0));
    case Exit(p) => PlaceAfter(s, a, Hand(p, 0));
    case _ =>
  }

  lemma OpenGoes(s0: State, a0: Action, s: State, a: Action, p: Pid)
    requires a.p == p && Enabled(s, a) && Under(s0, a0, s, p) && !s.procs[p].Idle?
    requires a.OpenInstall? || a.OpenFail? || a.OpenType?
    requires Inv(s) && Inv(s0)
    ensures p in Next(s, a).procs && Under(s0, a0, Next(s, a), p)
  {
    hide Counted, Places, Kinds, Do, ObjAt, SameBut, Outcome;
    var s' := Next(s, a);
    StepSameBut(s, a);
    PlaceAfter(s, a, Hand(p, 0));
    match a
    case OpenInstall(_, fd) =>
      SameOn(s0, s, s', p, {}, {Fd(p, fd)});
      assert {} + {Fd(p, fd)} == {Fd(p, fd)};
      PlaceAfter(s, a, Fd(p, fd));
      StillFree(s0, s, p, {}, Fd(p, fd));
    case OpenFail(_) =>
      SameStill(s0, s, s', p, {});
    case OpenType(_) =>
      var pl := Fd(p, s.procs[p].fd);
      SameOn(s0, s, s', p, {pl}, {pl});
      assert {pl} + {pl} == {pl};
      PlaceAfter(s, a, pl);
      assert OpenedOne(s0, s', p, s.procs[p].fd);
      OneIsOutcome(s0, a0, s', p, s.procs[p].fd);
  }

  lemma OneIsOutcome(s0: State, a0: Action, s': State, p: Pid, fd: nat)
    requires a0.Open? && OpenedOne(s0, s', p, fd)
    ensures Outcome(s0, a0, s', p)
  {
  }

  lemma TwoIsOutcome(s0: State, a0: Action, s': State, p: Pid, fd0: nat, fd1: nat)
    requires a0.PipeFirst? && OpenedTwo(s0, s', p, fd0, fd1)
    ensures Outcome(s0, a0, s', p)
  {
  }

  lemma StillFree(s0: State, s: State, p: Pid, x: set<Place>, pl: Place)
    requires SameBut(s0, s, p, x) && pl.p == p && !pl.Hand? && pl !in x
    ensures pl in s.at <==> pl in s0.at
  {
    assert SamePlace(s0, s, pl);
  }

  lemma DropGoes(s0: State, a0: Action, s: State, a: Action, p: Pid)
    requires a.p == p && Enabled(s, a) && Under(s0, a0, s, p) && !s.procs[p].Idle?
    requires a.Drop?
    requires Inv(s)
    ensures p in Next(s, a).procs && Under(s0, a0, Next(s, a), p)
  {
    hide Counted, Tracked, Places, Kinds, Do, ObjAt, SameBut;
    var s' := Next(s, a);
    StepSameBut(s, a);
    PlaceAfter(s, a, Hand(p, s.procs[p].j));
    match a0
    case Close(_, fd) =>
      SameStill(s0, s, s', p, {Fd(p, fd)});
      StillFree(s, s', p, {}, Fd(p, fd));
    case Munmap(_, i) =>
      SameStill(s0, s, s', p, {Vma(p, i)});
      StillFree(s, s', p, {}, Vma(p, i));
    case _ =>
      SameStill(s0, s, s', p, {});
  }

  lemma PipeGoes(s0: State, a0: Action, s: State, a: Action, p: Pid)
    requires a.p == p && Enabled(s, a) && Under(s0, a0, s, p) && !s.procs[p].Idle?
    requires a.PipeSecond? || a.PipeFail? || a.PipeType? || a.PipeOk?
    requires Inv(s)
    ensures p in Next(s, a).procs && Under(s0, a0, Next(s, a), p)
  {
    hide Counted, Tracked, Places, Kinds, Do, ObjAt, SameBut, Outcome;
    var s' := Next(s, a);
    StepSameBut(s, a);
    PlaceAfter(s, a, Hand(p, 0));
    PlaceAfter(s, a, Hand(p, 1));
    if a.PipeOk? {
      var fd0, fd1 := s.procs[p].fd0, s.procs[p].fd1;
      PlaceAfter(s, a, Fd(p, fd0));
      PlaceAfter(s, a, Fd(p, fd1));
      SameStill(s0, s, s', p, {Fd(p, fd0), Fd(p, fd1)});
      TwoIsOutcome(s0, a0, s', p, fd0, fd1);
    } else {
      SameStill(s0, s, s', p, {});
    }
  }

  lemma InstallGoes(s0: State, a0: Action, s: State, a: Action, p: Pid)
    requires a.p == p && Enabled(s, a) && Under(s0, a0, s, p) && !s.procs[p].Idle?
    requires a.PipeInstall?
    requires Inv(s)
    ensures p in Next(s, a).procs && Under(s0, a0, Next(s, a), p)
  {
    hide Counted, Tracked, Places, Kinds, Do, ObjAt, SameBut;
    var s', pl := Next(s, a), Fd(p, a.fd);
    StepSameBut(s, a);
    PlaceAfter(s, a, pl);
    PlaceAfter(s, a, Hand(p, 1));
    if s.procs[p].PipeReady? {
      SameOn(s0, s, s', p, {}, {pl});
      assert {} + {pl} == {pl};
      StillFree(s0, s, p, {}, pl);
    } else {
      var pl0 := Fd(p, s.procs[p].fd0);
      SameOn(s0, s, s', p, {pl0}, {pl});
      assert {pl0} + {pl} == {pl0, pl};
      StillFree(s0, s, p, {pl0}, pl);
      PlaceAfter(s, a, pl0);
    }
  }

  lemma UndoGoes(s0: State, a0: Action, s: State, a: Action, p: Pid)
    requires a.p == p && Enabled(s, a) && Under(s0, a0, s, p) && !s.procs[p].Idle?
    requires a.PipeUndo?
    requires Inv(s)
    ensures p in Next(s, a).procs && Under(s0, a0, Next(s, a), p)
  {
    hide Counted, Tracked, Places, Kinds, Do, ObjAt, SameBut;
    var s' := Next(s, a);
    StepSameBut(s, a);
    PlaceAfter(s, a, Hand(p, 1));
    if s.procs[p].PipeDone? {
      var pl0, pl1 := Fd(p, s.procs[p].fd0), Fd(p, s.procs[p].fd1);
      SameOn(s0, s, s', p, {pl0, pl1}, {pl1});
      PlaceAfter(s, a, pl0);
      PlaceAfter(s, a, pl1);
      FreeAgain(s0, s', p, {pl0, pl1} + {pl1}, pl1);
      assert {pl0, pl1} + {pl1} - {pl1} == {pl0};
    } else if s.procs[p].PipeHalf? {
      var pl0 := Fd(p, s.procs[p].fd0);
      SameOn(s0, s, s', p, {pl0}, {pl0});
      PlaceAfter(s, a, pl0);
      FreeAgain(s0, s', p, {pl0} + {pl0}, pl0);
      assert {pl0} + {pl0} - {pl0} == {};
    } else {
      SameStill(s0, s, s', p, {});
    }
  }

  lemma ForkGoes(s0: State, a0: Action, s: State, a: Action, p: Pid)
    requires a.p == p && Enabled(s, a) && Under(s0, a0, s, p) && !s.procs[p].Idle?
    requires a.ForkCopy? || a.ForkDone?
    requires Inv(s)
    ensures p in Next(s, a).procs && Under(s0, a0, Next(s, a), p)
  {
    hide Counted, Tracked, Kinds, Places, Do, ObjAt, SameBut;
    var s' := Next(s, a);
    StepSameBut(s, a);
    PlaceAfter(s, a, Hand(p, 0));
    SameStill(s0, s, s', p, {});
    ChildIsNewborn(s, p);
    if a.ForkDone? {
      AllCopied(s, p);
    }
  }

  lemma AllCopied(s: State, p: Pid)
    requires Enabled(s, ForkDone(p))
    requires Inv(s)
    ensures Copied(Next(s, ForkDone(p)).at, p, s.procs[p].c, MAXVMA + NOFILE)
  {
    hide Counted, Tracked, Kinds, Copied;
    assert Located(s.at, s.procs, p);
  }

  lemma UnderOwn(s0: State, a0: Action, s: State, a: Action, p: Pid)
    requires a.p == p && Enabled(s, a) && Under(s0, a0, s, p) && !s.procs[p].Idle? && p in Next(s, a).procs
    requires Inv(s) && Inv(s0)
    ensures Under(s0, a0, Next(s, a), p)
  {
    hide Inv, Do, SameBut, Outcome, OpenedTwo, Ends, Closed, NewFd;
    match a
    case OpenInstall(_, _) => OpenGoes(s0, a0, s, a, p);
    case OpenFail(_) => OpenGoes(s0, a0, s, a, p);
    case OpenType(_) => OpenGoes(s0, a0, s, a, p);
    case Drop(_) => DropGoes(s0, a0, s, a, p);
    case PipeInstall(_, _) => InstallGoes(s0, a0, s, a, p);
    case PipeUndo(_) => UndoGoes(s0, a0, s, a, p);
    case PipeSecond(_, _) => PipeGoes(s0, a0, s, a, p);
    case PipeFail(_) => PipeGoes(s0, a0, s, a, p);
    case PipeType(_) => PipeGoes(s0, a0, s, a, p);
    case PipeOk(_) => PipeGoes(s0, a0, s, a, p);
    case ForkCopy(_) => ForkGoes(s0, a0, s, a, p);
    case ForkDone(_) => ForkGoes(s0, a0, s, a, p);
    case ExitStep(_) => PlaceAfter(s, a, Hand(p, 0));
    case _ =>
  }

  /** Process `p` is in the system call that it began with step i from then until state j. */
  ghost predicate Calls(run: seq<State>, acts: seq<Action>, i: nat, j: nat, p: Pid) {
    && |run| == |acts| + 1 && i < j <= |acts| && acts[i].p == p && p in run[i].procs && run[i].procs[p].Idle?
    && (forall k :: i < k <= j ==> p in run[k].procs)
    && (forall k :: i < k < j ==> !run[k].procs[p].Idle?)
  }

  lemma {:induction false} CallUnder(run: seq<State>, acts: seq<Action>, i: nat, j: nat, p: Pid)
    requires IsRun(run, acts) && Calls(run, acts, i, j, p)
    ensures Under(run[i], acts[i], run[j], p)
    decreases j
  {
    hide Inv, Next, Enabled, Under;
    RunInv(run, acts, i);
    assert Enabled(run[j - 1], acts[j - 1]) && run[j - 1 + 1] == Next(run[j - 1], acts[j - 1]);
    if j == i + 1 {
      UnderStarts(run[i], acts[i]);
    } else {
      CallUnder(run, acts, i, j - 1, p);
      RunInv(run, acts, j - 1);
      if acts[j - 1].p == p {
        UnderOwn(run[i], acts[i], run[j - 1], acts[j - 1], p);
      } else {
        UnderOther(run[i], acts[i], run[j - 1], acts[j - 1], p);
      }
    }
  }

  /** A system call that returns has done to the process's descriptors and mappings what it is for, or nothing where
      it failed, whatever the others do meanwhile: open() has one new descriptor with an inode reference of its own,
      pipe() two with the read and the write end of one new pipe, dup() and mmap() one more place with the same file,
      close() and munmap() one place less, and fork() a child with the same files. */
  lemma CallReturns(run: seq<State>, acts: seq<Action>, i: nat, j: nat, p: Pid)
    requires IsRun(run, acts) && Calls(run, acts, i, j, p) && run[j].procs[p].Idle?
    ensures Outcome(run[i], acts[i], run[j], p)
  {
    hide Outcome, IsRun;
    CallUnder(run, acts, i, j, p);
  }
}
